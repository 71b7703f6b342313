/**
 * `si-crypto-hashes`: the hash algorithm table, digests tagged with their algorithm, the
 * string form `<algorithm>_<lowercase hex>` and its parser, and the hasher's algorithm
 * bookkeeping. The SHA-2 computation itself is a parameter (`Sha2`).
 */
module CryptoHashes {
  import opened Wrappers
  import opened Hex

  /** The algorithms of the `define_hash_algorithms!` table. */
  datatype HashAlgorithm = Sha256 | Sha512_256 | Sha512

  /** The table's name column. */
  function Name(a: HashAlgorithm): (n: string)
    ensures AlgorithmFromStr(n) == Ok(a)
  {
    match a
    case Sha256 => "sha256"
    case Sha512_256 => "sha512_256"
    case Sha512 => "sha512"
  }

  /** The table's size column, in bytes. */
  function HashSize(a: HashAlgorithm): (n: nat)
    ensures 8 * n == if a == Sha512 then 512 else 256
  {
    match a
    case Sha256 => 32
    case Sha512_256 => 32
    case Sha512 => 64
  }

  datatype InvalidAlgorithmError = InvalidAlgorithmError

  /** `FromStr for HashAlgorithm`: a name or an alias of the table, nothing else. */
  function AlgorithmFromStr(s: string): (r: Result<HashAlgorithm, InvalidAlgorithmError>)
    ensures r.Ok? <==> s == "sha256" || s == "sha512_256" || s == "sha512-256" || s == "sha512"
    ensures r.Ok? ==> (r.value == Sha256 <==> s == "sha256") && (r.value == Sha512 <==> s == "sha512")
  {
    match s
    case "sha256" => Ok(Sha256)
    case "sha512_256" => Ok(Sha512_256)
    case "sha512-256" => Ok(Sha512_256)
    case "sha512" => Ok(Sha512)
    case _ => Err(InvalidAlgorithmError)
  }

  /** The names are pairwise distinct, and the alias `sha512-256` is no algorithm's name. */
  lemma AlgorithmTable(a: HashAlgorithm, b: HashAlgorithm)
    ensures Name(a) == Name(b) <==> a == b
    ensures Name(a) != "sha512-256" && AlgorithmFromStr("sha512-256") == Ok(Sha512_256)
  {
  }

  datatype InvalidDigestError = InvalidDigestError(reason: string)

  const MissingDelimiter: string := "missing delimiter, expected ':' or '_'"
  const InvalidAlgorithm: string := "invalid hash algorithm"
  const NotHex: string := "digest is not a hex string"
  const InvalidSize: string := "invalid digest size"

  /** `From<InvalidAlgorithmError> for InvalidDigestError`, used by `?` in the parser. */
  function FromAlgorithmError(e: InvalidAlgorithmError): (r: InvalidDigestError)
    ensures r.reason == InvalidAlgorithm
  {
    InvalidDigestError(InvalidAlgorithm)
  }

  /** A digest: the algorithm and the raw bytes. */
  datatype HashDigest = HashDigest(algorithm: HashAlgorithm, raw: seq<u8>)

  /** The raw length is the one the algorithm produces. */
  predicate WellSized(d: HashDigest)
  {
    |d.raw| == HashSize(d.algorithm)
  }

  /** `HashDigest::new_unchecked`: no length check. */
  function NewUnchecked(a: HashAlgorithm, raw: seq<u8>): (d: HashDigest)
    ensures d.algorithm == a && d.raw == raw
    ensures WellSized(d) <==> |raw| == HashSize(a)
  {
    HashDigest(a, raw)
  }

  /** `HashDigest::new`: accepts exactly the raw digests of the algorithm's size. */
  function NewDigest(a: HashAlgorithm, raw: seq<u8>): (r: Result<HashDigest, InvalidDigestError>)
    ensures r.Ok? <==> |raw| == HashSize(a)
    ensures r.Ok? ==> r.value.algorithm == a && r.value.raw == raw && WellSized(r.value)
    ensures r.Err? ==> r.error.reason == InvalidSize
  {
    if |raw| != HashSize(a) then Err(InvalidDigestError(InvalidSize)) else Ok(NewUnchecked(a, raw))
  }

  /** `raw_hex_string`: the lowercase hex of the raw bytes, which decodes back to them. */
  function RawHexString(d: HashDigest): (s: string)
    ensures |s| == 2 * |d.raw| && Decode(s) == Some(d.raw)
    ensures forall i :: 0 <= i < |s| ==> IsLowerHexDigit(s[i])
  {
    DecodeEncode(d.raw);
    Encode(d.raw)
  }

  /** The separators `FromStr` splits at. */
  predicate IsDelimiter(c: char)
  {
    c == ':' || c == '_'
  }

  /** The name `Display` writes: with the `legacy` feature, Sha512_256 is `sha512-256`. */
  function DisplayName(a: HashAlgorithm, legacy: bool): (n: string)
    ensures AlgorithmFromStr(n) == Ok(a)
  {
    if legacy && a == Sha512_256 then "sha512-256" else Name(a)
  }

  /** The separator `Display` writes: `:` with the `legacy` feature, `_` otherwise. */
  function Separator(legacy: bool): (c: char)
    ensures IsDelimiter(c)
  {
    if legacy then ':' else '_'
  }

  /** `Display for HashDigest`: name, separator, lowercase hex. */
  function Display(d: HashDigest, legacy: bool): (s: string)
    ensures var n := |DisplayName(d.algorithm, legacy)|;
            |s| == n + 1 + 2 * |d.raw| && s[..n] == DisplayName(d.algorithm, legacy) && s[n] == Separator(legacy)
            && forall i :: n < i < |s| ==> IsLowerHexDigit(s[i])
  {
    DisplayName(d.algorithm, legacy) + [Separator(legacy)] + RawHexString(d)
  }

  /** The index of the last `:` or `_` in `s`, if any. */
  function LastDelimiter(s: string): (r: Option<nat>)
    ensures r.Some? ==> r.value < |s| && IsDelimiter(s[r.value])
    ensures r.Some? ==> forall j :: r.value < j < |s| ==> !IsDelimiter(s[j])
    ensures r.None? ==> forall j :: 0 <= j < |s| ==> !IsDelimiter(s[j])
  {
    if s == [] then None
    else if IsDelimiter(s[|s| - 1]) then Some(|s| - 1)
    else LastDelimiter(s[..|s| - 1])
  }

  /** `str::rsplit_once([':', '_'])`: the text before and after the last delimiter. */
  function RSplitOnce(s: string): (r: Option<(string, string)>)
    ensures r.None? <==> forall j :: 0 <= j < |s| ==> !IsDelimiter(s[j])
    ensures r.Some? ==> |r.value.0| < |s| && IsDelimiter(s[|r.value.0|])
                        && s == r.value.0 + [s[|r.value.0|]] + r.value.1
                        && forall j :: 0 <= j < |r.value.1| ==> !IsDelimiter(r.value.1[j])
  {
    match LastDelimiter(s)
    case None => None
    case Some(k) =>
      assert s == s[..k] + [s[k]] + s[k + 1..];
      Some((s[..k], s[k + 1..]))
  }

  /** `FromStr for HashDigest`: split, parse the algorithm, decode the hex, check the length. */
  function ParseDigest(s: string): (r: Result<HashDigest, InvalidDigestError>)
    ensures r.Ok? ==> WellSized(r.value)
    ensures r == Err(InvalidDigestError(MissingDelimiter)) <==> forall j :: 0 <= j < |s| ==> !IsDelimiter(s[j])
    ensures r.Err? ==> r.error.reason in {MissingDelimiter, InvalidAlgorithm, NotHex, InvalidSize}
  {
    match RSplitOnce(s)
    case None => Err(InvalidDigestError(MissingDelimiter))
    case Some((name, digest)) =>
      match AlgorithmFromStr(name)
      case Err(e) => Err(FromAlgorithmError(e))
      case Ok(a) =>
        match Decode(digest)
        case None => Err(InvalidDigestError(NotHex))
        case Some(raw) =>
          if |raw| != HashSize(a) then Err(InvalidDigestError(InvalidSize)) else Ok(HashDigest(a, raw))
  }

  /**
   * The error cases of `ParseDigest`, in the order they are checked, for a string with a
   * delimiter: an unknown algorithm before the last delimiter, then a digest that is not
   * hex, then a digest of the wrong length.
   */
  lemma ParseDigestCases(s: string, name: string, digest: string)
    requires RSplitOnce(s) == Some((name, digest))
    ensures AlgorithmFromStr(name).Err? ==> ParseDigest(s) == Err(InvalidDigestError(InvalidAlgorithm))
    ensures AlgorithmFromStr(name).Ok? && Decode(digest).None? ==> ParseDigest(s) == Err(InvalidDigestError(NotHex))
    ensures AlgorithmFromStr(name).Ok? && Decode(digest).Some?
            ==> ParseDigest(s) == NewDigest(AlgorithmFromStr(name).value, Decode(digest).value)
  {
  }

  /** `Display`'s last delimiter is its separator: the hex digits hold none. */
  lemma {:induction false} DisplaySplits(d: HashDigest, legacy: bool)
    ensures RSplitOnce(Display(d, legacy)) == Some((DisplayName(d.algorithm, legacy), RawHexString(d)))
  {
    var name := DisplayName(d.algorithm, legacy);
    var hex := RawHexString(d);
    var s := Display(d, legacy);
    assert s[|name|] == Separator(legacy);
    forall j | |name| < j < |s| ensures !IsDelimiter(s[j]) {
      assert s[j] == hex[j - |name| - 1];
    }
    var k := LastDelimiter(s);
    assert k == Some(|name|);
    assert s[..|name|] == name;
    assert s[|name| + 1..] == hex;
  }

  /**
   * Round trip: parsing the string form gives the digest back exactly when its raw length
   * fits its algorithm; otherwise the parser reports the size. Holds with or without the
   * `legacy` feature.
   */
  lemma ParseDisplayRoundTrip(d: HashDigest, legacy: bool)
    ensures ParseDigest(Display(d, legacy)) == if WellSized(d) then Ok(d) else Err(InvalidDigestError(InvalidSize))
  {
    DisplaySplits(d, legacy);
  }

  /** A successful parse is undone by `Display` up to the case of the hex digits. */
  lemma ParsedDigestDisplays(s: string, d: HashDigest)
    requires ParseDigest(s) == Ok(d)
    ensures ParseDigest(Display(d, false)) == Ok(d)
    ensures exists k :: 0 <= k < |s| && IsDelimiter(s[k]) && AlgorithmFromStr(s[..k]) == Ok(d.algorithm)
                        && RawHexString(d) == LowerText(s[k + 1..])
  {
    ParseDisplayRoundTrip(d, false);
    var (name, digest) := RSplitOnce(s).value;
    var k := |name|;
    assert s[..k] == name && s[k + 1..] == digest;
    EncodeDecode(digest);
  }

  /** The string of the crate's documentation example, a SHA-256 digest. */
  const ExampleText: string := "sha256_" + ExampleHexDigits

  /** The example's hex digits, in four runs of sixteen. */
  const ExampleHexDigits: string :=
    "dffd6021bb2bd5b0" + "af676290809ec3a5" + "3191dd81c7f70a4b" + "28688a362182986f"

  /** Its raw bytes, in four runs of eight. */
  const ExampleRaw: seq<u8> :=
    [0xdf, 0xfd, 0x60, 0x21, 0xbb, 0x2b, 0xd5, 0xb0] + [0xaf, 0x67, 0x62, 0x90, 0x80, 0x9e, 0xc3, 0xa5]
    + [0x31, 0x91, 0xdd, 0x81, 0xc7, 0xf7, 0x0a, 0x4b] + [0x28, 0x68, 0x8a, 0x36, 0x21, 0x82, 0x98, 0x6f]

  /** The hex digits of the example are the encoding of its bytes. */
  lemma ExampleHex()
    ensures Encode(ExampleRaw) == ExampleHexDigits
  {
    var q1: seq<u8> := [0xdf, 0xfd, 0x60, 0x21, 0xbb, 0x2b, 0xd5, 0xb0];
    var q2: seq<u8> := [0xaf, 0x67, 0x62, 0x90, 0x80, 0x9e, 0xc3, 0xa5];
    var q3: seq<u8> := [0x31, 0x91, 0xdd, 0x81, 0xc7, 0xf7, 0x0a, 0x4b];
    var q4: seq<u8> := [0x28, 0x68, 0x8a, 0x36, 0x21, 0x82, 0x98, 0x6f];
    ExampleRun1();
    ExampleRun2();
    ExampleRun3();
    ExampleRun4();
    EncodeAppend(q1, q2);
    EncodeAppend(q1 + q2, q3);
    EncodeAppend(q1 + q2 + q3, q4);
  }

  /** The encodings of the example's four runs of eight bytes, one run per lemma. */
  lemma ExampleRun1()
    ensures Encode([0xdf, 0xfd, 0x60, 0x21, 0xbb, 0x2b, 0xd5, 0xb0]) == "dffd6021bb2bd5b0"
  {
  }

  lemma ExampleRun2()
    ensures Encode([0xaf, 0x67, 0x62, 0x90, 0x80, 0x9e, 0xc3, 0xa5]) == "af676290809ec3a5"
  {
  }

  lemma ExampleRun3()
    ensures Encode([0x31, 0x91, 0xdd, 0x81, 0xc7, 0xf7, 0x0a, 0x4b]) == "3191dd81c7f70a4b"
  {
  }

  lemma ExampleRun4()
    ensures Encode([0x28, 0x68, 0x8a, 0x36, 0x21, 0x82, 0x98, 0x6f]) == "28688a362182986f"
  {
  }

  /**
   * The documentation example: the string parses to a SHA-256 digest of those bytes, and
   * displaying that digest gives the same string back.
   */
  lemma DocumentationExample()
    ensures ParseDigest(ExampleText) == Ok(HashDigest(Sha256, ExampleRaw))
    ensures Display(HashDigest(Sha256, ExampleRaw), false) == ExampleText
  {
    var d := HashDigest(Sha256, ExampleRaw);
    ExampleHex();
    assert Display(d, false) == "sha256" + "_" + Encode(ExampleRaw);
    assert "sha256" + "_" + ExampleHexDigits == ExampleText;
    ParseDisplayRoundTrip(d, false);
  }

  /** The SHA-2 primitives of the `sha2` crate, given as one function of algorithm and input. */
  type Sha2 = (HashAlgorithm, seq<u8>) -> seq<u8>

  /** The per-algorithm hasher state; the bytes fed so far stand for the SHA-2 state. */
  datatype HasherInner =
    | Sha256Inner(absorbed: seq<u8>)
    | Sha512_256Inner(absorbed: seq<u8>)
    | Sha512Inner(absorbed: seq<u8>)
  {
    function Variant(): HashAlgorithm
    {
      match this
      case Sha256Inner(_) => Sha256
      case Sha512_256Inner(_) => Sha512_256
      case Sha512Inner(_) => Sha512
    }

    /** `HasherInner::update`: the variant is kept and the bytes are absorbed. */
    function Update(bytes: seq<u8>): (r: HasherInner)
      ensures r.Variant() == Variant() && r.absorbed == absorbed + bytes
    {
      match this
      case Sha256Inner(a) => Sha256Inner(a + bytes)
      case Sha512_256Inner(a) => Sha512_256Inner(a + bytes)
      case Sha512Inner(a) => Sha512Inner(a + bytes)
    }

    /**
     * `HasherInner::finalize`: the variant's primitive over everything absorbed. It is the
     * helper of `Hasher.Finalize`, whose contract states the digest it yields.
     */
    function Finalize(sha2: Sha2): seq<u8>
    {
      sha2(Variant(), absorbed)
    }
  }

  /** The fresh inner state for an algorithm, as `HashAlgorithm::hasher` creates it. */
  function FreshInner(a: HashAlgorithm): (inner: HasherInner)
    ensures inner.Variant() == a && inner.absorbed == []
  {
    match a
    case Sha256 => Sha256Inner([])
    case Sha512_256 => Sha512_256Inner([])
    case Sha512 => Sha512Inner([])
  }

  /** `Hasher`: an algorithm tag and the inner state of that algorithm. */
  class Hasher {
    const algorithm: HashAlgorithm
    var inner: HasherInner

    /** The inner state is always of the tagged algorithm. */
    ghost predicate Valid()
      reads this
    {
      inner.Variant() == algorithm
    }

    /** `HashAlgorithm::hasher`. */
    constructor (a: HashAlgorithm)
      ensures Valid() && algorithm == a && inner.absorbed == []
    {
      algorithm := a;
      inner := FreshInner(a);
    }

    /** `Hasher::update`: absorbs the bytes in place; the algorithm never changes. */
    method Update(bytes: seq<u8>)
      requires Valid()
      modifies this
      ensures Valid() && inner.absorbed == old(inner.absorbed) + bytes
    {
      inner := inner.Update(bytes);
    }

    /** `Hasher::finalize`: a digest tagged with the hasher's algorithm. */
    method Finalize(sha2: Sha2) returns (d: HashDigest)
      requires Valid()
      ensures d.algorithm == algorithm && d.raw == sha2(algorithm, inner.absorbed)
    {
      d := HashDigest(algorithm, inner.Finalize(sha2));
    }
  }

  /** `HashAlgorithm::hash`: create, update once, finalize; the digest carries `a`. */
  method Hash(a: HashAlgorithm, bytes: seq<u8>, sha2: Sha2) returns (d: HashDigest)
    ensures d.algorithm == a && d.raw == sha2(a, bytes)
  {
    var hasher := new Hasher(a);
    hasher.Update(bytes);
    assert hasher.inner.absorbed == bytes;
    d := hasher.Finalize(sha2);
  }
}
