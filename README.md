# reportify and si-crypto-hashes, modelled in Dafny

This project models two crates of the `si-rust-libs` repository and proves properties of the models.

**`reportify`** is the error-report ledger. A report pairs an error value with a report context. The context holds:
- the breadcrumbs: a list of `(location, item)` pairs, oldest first;
- the index of the live error slot;
- a captured backtrace and a captured span trace.

An item is a `Message(text)`, the live `Error` slot, or a `Discarded` slot. The operations are:
- capturing a context, which starts with one `Error` slot;
- attaching context text, which appends a `Message`;
- re-typing the error (`propagate_map`). This finalizes the live slot with the old error's message (or `Discarded`), appends a new `Error` slot and maps the error;
- the marker ("whatever") error types, with `bail!` and `ensure!`;
- the `ResultExt` combinators;
- `Display`, which renders the report as text.

The model is split into four modules:
- `Reportify` (`reportify.dfy`): the data model. The context is a class, because the source updates it in place through the moved `Box`. A value `Ledger` is its abstract state, with the invariant "exactly one `Error` item, at the index".
- `ReportRender` (`reportify_render.dfy`): the rendered text as a function, and the rendering loops as methods proved against it.
- `ReportResultExt` and `ErrorResultExt` (`reportify_result_ext.dfy`): the two `ResultExt` impls.

**`si-crypto-hashes`** is the digest parser and printer. It covers:
- the algorithm table: names, the alias `sha512-256`, and sizes;
- `HashDigest::new` and its length check;
- `Display` (`<name>_<lowercase hex>`, or the legacy form);
- `FromStr`, which splits at the last `:` or `_`, parses the algorithm, hex-decodes and checks the length;
- the hasher's algorithm bookkeeping.

Hex is base16 as in section 8 of RFC 4648: encoding writes lowercase, and decoding accepts either case (`hex.dfy`, module `Hex`). The rest is in `crypto_hashes.dfy`, module `CryptoHashes`. `wrappers.dfy` holds `Option` and `Result`.

How the source's entities map onto the model:
- **Error type parameter.** The generic error `E` of `Report<E>` is replaced by `ErrorValue`, which is what the reporting code can observe of an error: its type name, its optional message, and its `as_std_error` view. That view carries the `source()` chain as a recursive `Cause` value.
- **Conversions.** The mapping and `Into` conversions are functions `ErrorValue -> ErrorValue`.
- **Blanket and marker errors.** `StdError` is the blanket `Error` impl for standard errors. `WhateverNew` is the value of a type declared by `new_whatever_type!`: no message and no standard-error view. Every marker type in the model is such a type, using the default `Whatever::propagate`.
- **`Report`.** `Report` is a datatype holding the error and a reference to the context object. `Report::new` is its constructor, `error()` and `context()` are its fields, and `into_parts` is the pair of the two.
- **Digests.** `HashDigest::new_unchecked` is `NewUnchecked`, with no check. `algorithm()`, `raw()` and `into_inner` are the fields of `HashDigest`.

Behaviour of the code worth noting:
- **Cause chain.** It is rendered only for errors that expose themselves through `as_std_error`, and the lines read `  Caused by: <display>`.
- **`bail!` rendering.** For a marker type declared by `new_whatever_type!`, the report from `bail!` renders as a blank line followed by the traces. The marker's own slot renders nothing, so there is no capture-site line (`ReportRender.BailText`).
- **`bail!` and `ensure!` arguments.** Both macros accept message arguments and ignore them, so `Reportify.Bail` and `Reportify.Ensure` take no message.
- **Order inside `propagate_map`.** The code sets the index to the old length before it pushes the new slot. The resulting state is the same as pushing first and pointing at the last item.

## Model

| member | source | states |
|---|---|---|
| `Reportify.StdError` | crates/reportify/src/lib.rs:151-159 | a standard error's message is its own display text, and its standard-error view is itself, so its cause chain starts at its `source()` |
| `Reportify.WhateverNew` | crates/reportify/src/lib.rs:174-193 | a value of a type declared by `new_whatever_type!` has no message and no standard-error view |
| `Reportify.Finalized` | crates/reportify/src/lib.rs:46-52 | a finalized slot is never the live `Error`: it is `Message(m)` exactly when the old error had the message `m`, and `Discarded` otherwise |
| `ReportRender.Rendered` | crates/reportify/src/lib.rs:72-107 | the text starts with the message line and the cause lines; with no breadcrumbs and no captured traces it is exactly those |
| `Reportify.Captured` | crates/reportify/src/lib.rs:127-137 | a captured ledger satisfies the invariant and holds one item, the caller's `Error` slot at index 0 |
| `Reportify.ReportContext.Capture` | crates/reportify/src/lib.rs:126-137 | the constructed context's state is `Captured(caller)` and it keeps the traces as they were captured |
| `Reportify.Attached` | crates/reportify/src/lib.rs:238-246 | attaching keeps the invariant and the slot index, keeps every earlier item, and appends exactly `(caller, Message(text))` |
| `Reportify.Retyped` | crates/reportify/src/lib.rs:45-58 | re-typing keeps the invariant; the old slot keeps its location and becomes `Message(old message)` or `Discarded`; one `(caller, Error)` is appended at index old length, which is greater than the old index; every other item is unchanged |
| `Reportify.Replay` | crates/reportify/src/lib.rs:41-59 | any sequence of attach and re-type steps keeps the invariant, adds exactly one item per step, never lowers the slot index and never changes an earlier item other than the slot |
| `Reportify.AttachOnlyAppends` | crates/reportify/src/lib.rs:238-246 | attaching n messages gives exactly the old items followed by those n messages in order, with the slot index unchanged |
| `Reportify.RetypeChain` | crates/reportify/src/lib.rs:53-54 | after k > 0 re-types the live slot is the last item, so with the invariant exactly one `Error` item remains |
| `Reportify.FromError` | crates/reportify/src/lib.rs:64-70 | converting an error yields a report of that error with a fresh context in state `Captured(caller)` |
| `Reportify.ReportifyError` | crates/reportify/src/lib.rs:254-260 | `report()` on an error yields that error with a fresh context captured at the caller |
| `Reportify.ReportifyResult` | crates/reportify/src/lib.rs:262-270 | `Ok` is passed through unchanged; `Err(e)` becomes a report of `e` with a fresh captured context |
| `Reportify.PropagateMap` | crates/reportify/src/lib.rs:39-59 | the result holds the mapped error and the same context object, whose new state is `Retyped` of its old state with the old error's message, and which stays valid |
| `Reportify.WhateverPropagate` | crates/reportify/src/lib.rs:161-172 | absorbing re-types the report to a fresh marker value, finalizing the old error's message into its slot |
| `Reportify.Bail` | crates/reportify/src/lib.rs:195-203 | `bail!` always fails, with a marker value and a fresh context captured at the `bail!` site |
| `Reportify.Ensure` | crates/reportify/src/lib.rs:205-212 | `ensure!` continues exactly when the condition holds; otherwise it bails with a marker value and a fresh valid context captured at its own site, carrying the given traces |
| `Reportify.AttachOwned` | crates/reportify/src/lib.rs:238-246 | attaching a `String` pushes one `Message` for the caller and changes nothing else in the ledger |
| `Reportify.AttachTo` | crates/reportify/src/lib.rs:220-236 | a `&str` or a thunk attaches exactly what attaching its text (copied, or produced by the thunk) as a `String` would |
| `ReportRender.RenderCauses` | crates/reportify/src/lib.rs:79-85 | the `while let` loop writes one `  Caused by: ` line per link of the `source()` chain, only for standard errors |
| `ReportRender.RenderItems` | crates/reportify/src/lib.rs:86-99 | the reversed loop writes the item lines newest first: `Message` as `loc: text`, `Error` as `loc: current message` or nothing, `Discarded` as nothing |
| `ReportRender.Render` | crates/reportify/src/lib.rs:72-107 | the text written is the message line, the cause lines, a blank line and the item lines when there are items, then the captured traces, as `Rendered` states |
| `ReportRender.NewestFirst` | crates/reportify/src/lib.rs:88 | the most recently recorded item's line comes first, before the lines of all earlier items |
| `ReportRender.LinesWithoutSlot` | crates/reportify/src/lib.rs:89-97 | items with no `Error` slot render the same whatever the current error's message is |
| `ReportRender.FinalizeKeepsLines` | crates/reportify/src/lib.rs:46-52 | rewriting the only `Error` slot to `Message(m)` or `Discarded` (for the message `m` it showed) leaves the rendered lines unchanged |
| `ReportRender.RetypeKeepsTrail` | crates/reportify/src/lib.rs:45-58 | after re-typing, the old breadcrumbs render exactly as before, below the new slot's line: the old error's message is never lost |
| `ReportRender.AttachRendersFirst` | crates/reportify/src/lib.rs:241-244 | an attached message is the first line of the breadcrumb block, above all earlier lines |
| `ReportRender.MarkerReportText` | crates/reportify/src/lib.rs:181-185 | a marker error's report with at least one breadcrumb has no message line and no cause lines, only the breadcrumb block and the traces |
| `ReportRender.BailText` | crates/reportify/src/lib.rs:196-202 | a report made by `bail!` renders as a blank line followed by the traces |
| `ReportRender.WhateverAbsorbsMessage` | crates/reportify/src/lib.rs:451-457 | after `whatever()` on an error with message `m`, the report has no top line and its only breadcrumb line is `m` at the original capture site |
| `ReportRender.TwoStepsNewestFirst` | crates/reportify/src/lib.rs:86-98 | after attaching "step 1" then "step 2", the lines read "step 2", then "step 1", then the error's own line at the capture site |
| `ReportResultExt.Context` | crates/reportify/src/lib.rs:373-384 | `Ok` passes through; on `Err` the context text is attached to the same report |
| `ReportResultExt.PropagateMap` | crates/reportify/src/lib.rs:394-403 | `Ok` passes through; on `Err` the report is re-typed with the map |
| `ReportResultExt.Propagate` | crates/reportify/src/lib.rs:386-392 | `Ok` passes through; on `Err` the report is re-typed with the `Into` conversion |
| `ReportResultExt.PropagateWith` | crates/reportify/src/lib.rs:405-413 | `Ok` passes through; on `Err` the report is re-typed first and the context is attached after the new slot |
| `ReportResultExt.Whatever` | crates/reportify/src/lib.rs:415-421 | `Ok` passes through; on `Err` the report is absorbed into the marker type |
| `ReportResultExt.AssertOk` | crates/reportify/src/lib.rs:423-431 | returns the value exactly on `Ok`; on `Err` it panics with `BUG: found error but expected value`, a blank line and the rendered report |
| `ReportResultExt.Ignore` | crates/reportify/src/lib.rs:433-438 | logs nothing on `Ok`; on `Err` it logs exactly one `ignoring error` line followed by the rendered report |
| `ErrorResultExt.Context` | crates/reportify/src/lib.rs:318-324 | `Ok` passes through; on `Err` the result is a fresh capture with the text attached after the slot; the fresh context carries the given backtrace and span trace |
| `ErrorResultExt.PropagateMap` | crates/reportify/src/lib.rs:334-340 | `Ok` passes through; on `Err` the result is a fresh capture that is then re-typed with the map; the fresh context carries the given backtrace and span trace |
| `ErrorResultExt.Propagate` | crates/reportify/src/lib.rs:326-332 | `Ok` passes through; on `Err` the result is a fresh capture that is then re-typed with the `Into` conversion; the fresh context carries the given backtrace and span trace |
| `ErrorResultExt.PropagateWith` | crates/reportify/src/lib.rs:342-350 | `Ok` passes through; on `Err` the result is a fresh capture, re-typed, then given the context; the fresh context carries the given backtrace and span trace |
| `ErrorResultExt.Whatever` | crates/reportify/src/lib.rs:352-355 | `Ok` passes through; on `Err` the result is a fresh capture absorbed into the marker type; the fresh context carries the given backtrace and span trace |
| `ErrorResultExt.AssertOk` | crates/reportify/src/lib.rs:357-360 | returns the value exactly on `Ok`; on `Err` it panics with the rendering of a one-slot report captured at the caller |
| `ErrorResultExt.Ignore` | crates/reportify/src/lib.rs:362-365 | logs exactly on `Err`, the rendering of a one-slot report captured at the caller |
| `Hex.Encode` | crates/si-crypto-hashes/src/lib.rs:253-256 | the hex text has two lowercase hex digits per byte |
| `Hex.Decode` | crates/si-crypto-hashes/src/lib.rs:300-302 | decoding succeeds exactly for text of even length made only of hex digits of either case, and yields half as many bytes |
| `Hex.EncodeAppend` | crates/si-crypto-hashes/src/lib.rs:253-256 | encoding works byte by byte: the encoding of a concatenation is the concatenation of the encodings |
| `Hex.DecodeEncode` | crates/si-crypto-hashes/src/lib.rs:253-256 | decoding the encoding of any bytes gives those bytes back |
| `Hex.EncodeDecode` | crates/si-crypto-hashes/src/lib.rs:300-302 | encoding what was decoded gives the input text back, lowercased |
| `CryptoHashes.AlgorithmFromStr` | crates/si-crypto-hashes/src/lib.rs:100-111 | accepts exactly `sha256`, `sha512_256`, `sha512-256` and `sha512`, each for its own algorithm's name or alias; every other string is `InvalidAlgorithmError` |
| `CryptoHashes.Name` | crates/si-crypto-hashes/src/lib.rs:69-76 | the table's name of an algorithm parses back to that algorithm |
| `CryptoHashes.HashSize` | crates/si-crypto-hashes/src/lib.rs:91-97 | the size in bytes is the output width in the algorithm's name: 256 bits, except 512 bits for Sha512 |
| `CryptoHashes.AlgorithmTable` | crates/si-crypto-hashes/src/lib.rs:147-151 | the names of the table are pairwise distinct, and the alias `sha512-256` is no algorithm's name but parses to Sha512_256 |
| `CryptoHashes.NewUnchecked` | crates/si-crypto-hashes/src/lib.rs:239-241 | any raw bytes are accepted as they are; the digest is well sized exactly when their length is the algorithm's size |
| `CryptoHashes.FromAlgorithmError` | crates/si-crypto-hashes/src/lib.rs:325-329 | an unknown algorithm becomes the digest error `invalid hash algorithm` |
| `CryptoHashes.NewDigest` | crates/si-crypto-hashes/src/lib.rs:230-235 | succeeds exactly when the raw length equals the algorithm's hash size, keeping algorithm and raw bytes; otherwise fails with `invalid digest size` |
| `CryptoHashes.RawHexString` | crates/si-crypto-hashes/src/lib.rs:253-256 | the hex string is lowercase, twice as long as the raw digest, and decodes back to it |
| `CryptoHashes.DisplayName` | crates/si-crypto-hashes/src/lib.rs:269-272 | the name written (`sha512-256` for Sha512_256 in legacy mode) parses back to the digest's algorithm |
| `CryptoHashes.Separator` | crates/si-crypto-hashes/src/lib.rs:273-277 | the separator written (`:` in legacy mode, `_` otherwise) is one the parser splits at |
| `CryptoHashes.LastDelimiter` | crates/si-crypto-hashes/src/lib.rs:296 | finds the last `:` or `_`, and finds nothing exactly when neither occurs |
| `CryptoHashes.RSplitOnce` | crates/si-crypto-hashes/src/lib.rs:296-298 | splits the string into the part before the last delimiter, the delimiter and a delimiter-free rest; there is no split exactly when there is no delimiter |
| `CryptoHashes.ParseDigest` | crates/si-crypto-hashes/src/lib.rs:292-311 | a parsed digest always has its algorithm's size; the error is the missing-delimiter one exactly when there is no `:` or `_`; every error is one of the four messages |
| `CryptoHashes.ParseDigestCases` | crates/si-crypto-hashes/src/lib.rs:299-305 | with a delimiter, an unknown algorithm gives `invalid hash algorithm`, then non-hex gives `digest is not a hex string`, then the length check is `HashDigest::new`'s |
| `CryptoHashes.Display` | crates/si-crypto-hashes/src/lib.rs:264-281 | the string is the displayed name, then the separator, then only lowercase hex digits, two per raw byte |
| `CryptoHashes.DisplaySplits` | crates/si-crypto-hashes/src/lib.rs:264-281 | the last delimiter in the displayed string is the separator, with the name before it and the hex after it |
| `CryptoHashes.ParseDisplayRoundTrip` | crates/si-crypto-hashes/src/lib.rs:264-311 | parsing the displayed digest, in either mode, gives the digest back exactly when its raw length fits its algorithm, and otherwise gives `invalid digest size` |
| `CryptoHashes.ParsedDigestDisplays` | crates/si-crypto-hashes/src/lib.rs:292-311 | a parsed digest displays to a string that parses back to it, and its hex is the parsed text's digest part lowercased |
| `CryptoHashes.DocumentationExample` | crates/si-crypto-hashes/src/lib.rs:10-15 | `sha256_dffd6021…986f` parses to the SHA-256 digest of those 32 bytes, and displaying that digest gives the same string |
| `CryptoHashes.HasherInner.Update` | crates/si-crypto-hashes/src/lib.rs:121-129 | updating keeps the inner state's algorithm variant and absorbs exactly the given bytes |
| `CryptoHashes.FreshInner` | crates/si-crypto-hashes/src/lib.rs:78-87 | a fresh inner state is of the requested algorithm and has absorbed nothing |
| `CryptoHashes.Hasher.constructor` | crates/si-crypto-hashes/src/lib.rs:78-87 | a new hasher is tagged with the algorithm, has an inner state of that algorithm, and has absorbed nothing |
| `CryptoHashes.Hasher.Update` | crates/si-crypto-hashes/src/lib.rs:193-196 | update absorbs the bytes and keeps the inner state of the tagged algorithm |
| `CryptoHashes.Hasher.Finalize` | crates/si-crypto-hashes/src/lib.rs:198-208 | the digest is tagged with the hasher's algorithm and holds that algorithm's primitive over all absorbed bytes |
| `CryptoHashes.Hash` | crates/si-crypto-hashes/src/lib.rs:153-164 | `hash` yields a digest tagged with the requested algorithm, over exactly the given bytes |

## Left out

- Backtrace and span-trace capture: each trace is a parameter `Trace(captured, text)`. Its text is opaque.
- `Location::caller()`: the caller's location is an explicit parameter of every entry point. `Display for Location` is modelled as `file:line:column` with decimal numbers.
- The generic error type `E` and the `Error` trait: every error is its observable view `ErrorValue`. Type changes are visible only through the `typeName` field and the conversion function.
- `Send`/`Sync`/`'static` bounds and the storage type `D: From<&[u8]>`: raw digests are `seq<u8>`.
- The logging side effect of `ignore` (`tracing::error!`): modelled as the single line it logs, returned as `Some(text)`.
- The panic of `assert_ok`: modelled as the outcome `Panicked(message)`.
- `fmt::Error` results from the formatter: writing into the text never fails in the model.
- Context thunks: a thunk produces text directly, as a pure `() -> string`. A thunk that returns another context value (a thunk of a thunk) is not modelled. The source's `FnOnce` runs only on `Err`; the model does not capture that laziness, or any side effect of running the thunk.
- User implementations of `Context`: `Context` is a public trait, so `context` and `propagate_with` accept any type implementing it, and such a type may attach nothing or several messages. `ContextValue` covers only the crate's own three implementations (`String`, `&str` and the thunk), so "exactly one `Message` appended" is promised only for those.
- Hand-written `Whatever` implementations: `Whatever` is a public trait that any `Error` type may implement. Such a type can have a message, a standard-error view, or its own `propagate`. The model covers only the types declared by `new_whatever_type!`, which use the default `propagate`. For a marker with a message, `bail!` would also render a `location: message` line, which `ReportRender.BailText` does not state.
- The SHA-2 computation of the `sha2` crate: it is the parameter `Sha2`. The hasher's inner state is the bytes absorbed so far. Whether the primitive's output has the algorithm's size is not assumed.
- The `hex` crate: re-specified from section 8 of RFC 4648 on characters rather than bytes. A non-ASCII character is rejected either way, so the outcome (`digest is not a hex string`) is the same.
- The `legacy` cargo feature: a `legacy` parameter of `Display`.
- `#[non_exhaustive]`: not modelled. The model's table has exactly the three algorithms of the source.
- crates/si-crypto-hashes/src/serde.rs: it only delegates to `name()`, `to_string()` and `parse()`.
- The `si-observability` crate: environment reading, subscriber and exporter setup, the CLI arguments and the example program are I/O and library plumbing.
