/**
 * `Display for Report`: the error's message line, one "Caused by" line per link of the
 * cause chain, the breadcrumbs newest first after a blank line, then the captured traces.
 * `Rendered` specifies the text; `Render` builds it with the source's two loops.
 */
module ReportRender {
  import opened Wrappers
  import opened Reportify

  function DigitChar(d: nat): char
    requires d < 10
  {
    "0123456789"[d]
  }

  /** Decimal text of a natural number, as `Display` for an integer writes it. */
  function NatText(n: nat): (s: string)
    ensures |s| > 0 && forall i :: 0 <= i < |s| ==> '0' <= s[i] <= '9'
  {
    if n < 10 then [DigitChar(n)] else NatText(n / 10) + [DigitChar(n % 10)]
  }

  /** `Display for Location`: `file:line:column`. */
  function LocationText(l: Location): string
  {
    l.file + ":" + NatText(l.line) + ":" + NatText(l.column)
  }

  /** One breadcrumb line, `<location>: <text>`. */
  function Line(l: Location, text: string): string
  {
    LocationText(l) + ": " + text + "\n"
  }

  function MessageLine(e: ErrorValue): string
  {
    if e.message.Some? then e.message.value + "\n" else ""
  }

  /** One `  Caused by: ` line for each link from `source` on. */
  function CauseLines(source: Option<Cause>): string
    decreases source
  {
    match source
    case None => ""
    case Some(c) => "  Caused by: " + c.display + "\n" + CauseLines(c.source)
  }

  /** The cause chain is walked only for an error that exposes itself as a standard error. */
  function CauseBlock(e: ErrorValue): string
  {
    if e.asStdError.Some? then CauseLines(e.asStdError.value.source) else ""
  }

  /** A breadcrumb's line; the live slot shows the current error's message, if it has one. */
  function ItemLine(entry: Entry, message: Option<string>): string
  {
    match entry.item
    case Message(text) => Line(entry.location, text)
    case Error => if message.Some? then Line(entry.location, message.value) else ""
    case Discarded => ""
  }

  /** The lines of `items` in reverse order of recording. */
  function ItemLines(items: seq<Entry>, message: Option<string>): string
  {
    if items == [] then "" else ItemLines(items[1..], message) + ItemLine(items[0], message)
  }

  /** The breadcrumb block: nothing for no items, else a blank line and the lines. */
  function ItemBlock(items: seq<Entry>, message: Option<string>): string
  {
    if items == [] then "" else "\n" + ItemLines(items, message)
  }

  const BacktraceHeader: string := "\nBacktrace:\n"
  const SpanTraceHeader: string := "\nSpan Trace:\n"

  /** A captured trace is written after its header; a trace that was not captured, not at all. */
  function TraceBlock(header: string, t: Trace): string
  {
    if t.captured then header + t.text + "\n" else ""
  }

  /** The full text `Display` writes for an error, its breadcrumbs and its traces. */
  function Rendered(e: ErrorValue, items: seq<Entry>, backtrace: Trace, spanTrace: Trace): (text: string)
    ensures MessageLine(e) + CauseBlock(e) <= text
    ensures items == [] && !backtrace.captured && !spanTrace.captured ==> text == MessageLine(e) + CauseBlock(e)
  {
    MessageLine(e) + CauseBlock(e) + ItemBlock(items, e.message)
      + TraceBlock(BacktraceHeader, backtrace) + TraceBlock(SpanTraceHeader, spanTrace)
  }

  /** The text of a report, read from its context object. */
  function ReportText(report: Report): string
    reads report.context
  {
    Rendered(report.error, report.context.items, report.context.backtrace, report.context.spanTrace)
  }

  /** The `while let` loop of `Display for Report` over the `source()` chain. */
  method RenderCauses(error: ErrorValue) returns (causes: string)
    ensures causes == CauseBlock(error)
  {
    causes := "";
    if error.asStdError.Some? {
      var source := error.asStdError.value.source;
      while source.Some?
        invariant causes + CauseLines(source) == CauseBlock(error)
        decreases source
      {
        causes := causes + "  Caused by: " + source.value.display + "\n";
        source := source.value.source;
      }
    }
  }

  /** The loop of `Display for Report` over the breadcrumbs in reverse. */
  method RenderItems(items: seq<Entry>, message: Option<string>) returns (lines: string)
    ensures lines == ItemLines(items, message)
  {
    lines := "";
    var i := |items|;
    while i > 0
      invariant 0 <= i <= |items|
      invariant lines == ItemLines(items[i..], message)
    {
      i := i - 1;
      assert items[i..][1..] == items[i + 1..];
      lines := lines + ItemLine(items[i], message);
    }
    assert items[0..] == items;
  }

  /** `Display for Report::fmt`: message line, causes, breadcrumb block, traces. */
  method Render(report: Report) returns (text: string)
    ensures text == ReportText(report)
  {
    var error := report.error;
    var context := report.context;
    var head := "";
    if error.message.Some? {
      head := error.message.value + "\n";
    }
    var causes := RenderCauses(error);
    var block := "";
    if |context.items| > 0 {
      var lines := RenderItems(context.items, error.message);
      block := "\n" + lines;
    }
    var backtrace := "";
    if context.backtrace.captured {
      backtrace := BacktraceHeader + context.backtrace.text + "\n";
    }
    var spanTrace := "";
    if context.spanTrace.captured {
      spanTrace := SpanTraceHeader + context.spanTrace.text + "\n";
    }
    text := head + causes + block + backtrace + spanTrace;
  }

  /** Rendering order is the reverse of recording order: the newest entry comes first. */
  lemma {:induction false} NewestFirst(items: seq<Entry>, last: Entry, message: Option<string>)
    ensures ItemLines(items + [last], message) == ItemLine(last, message) + ItemLines(items, message)
  {
    if items != [] {
      assert (items + [last])[1..] == items[1..] + [last];
      NewestFirst(items[1..], last, message);
    } else {
      assert ([] + [last])[1..] == [];
    }
  }

  /** Lines of items none of which is the live slot do not depend on the error's message. */
  lemma {:induction false} LinesWithoutSlot(items: seq<Entry>, m1: Option<string>, m2: Option<string>)
    requires forall i :: 0 <= i < |items| ==> items[i].item != Error
    ensures ItemLines(items, m1) == ItemLines(items, m2)
  {
    if items != [] {
      LinesWithoutSlot(items[1..], m1, m2);
    }
  }

  /**
   * Finalizing the only `Error` slot with the message it showed leaves the rendered lines
   * unchanged, whatever message the new error has.
   */
  lemma {:induction false} FinalizeKeepsLines(items: seq<Entry>, j: nat, old_message: Option<string>, new_message: Option<string>)
    requires j < |items| && items[j].item == Error
    requires forall i :: 0 <= i < |items| && i != j ==> items[i].item != Error
    ensures ItemLines(items[j := Entry(items[j].location, Finalized(old_message))], new_message)
         == ItemLines(items, old_message)
  {
    var updated := items[j := Entry(items[j].location, Finalized(old_message))];
    if j == 0 {
      assert updated[1..] == items[1..];
      LinesWithoutSlot(items[1..], new_message, old_message);
    } else {
      assert updated[1..] == items[1..][j - 1 := Entry(items[j].location, Finalized(old_message))];
      FinalizeKeepsLines(items[1..], j - 1, old_message, new_message);
    }
  }

  /**
   * Re-typing never loses what the report showed: the old breadcrumb lines are rendered
   * exactly as before, below the line of the new slot.
   */
  lemma RetypeKeepsTrail(l: Ledger, old_message: Option<string>, new_message: Option<string>, caller: Location)
    requires l.Valid()
    ensures ItemLines(Retyped(l, old_message, caller).items, new_message)
         == ItemLine(Entry(caller, Error), new_message) + ItemLines(l.items, old_message)
  {
    var slot := l.items[l.errorItem];
    var finalized := l.items[l.errorItem := Entry(slot.location, Finalized(old_message))];
    NewestFirst(finalized, Entry(caller, Error), new_message);
    FinalizeKeepsLines(l.items, l.errorItem, old_message, new_message);
  }

  /** An attached message is rendered first in the breadcrumb block, above all earlier lines. */
  lemma AttachRendersFirst(l: Ledger, caller: Location, text: string, message: Option<string>)
    ensures ItemBlock(Attached(l, caller, text).items, message)
         == "\n" + Line(caller, text) + ItemLines(l.items, message)
  {
    NewestFirst(l.items, Entry(caller, Message(text)), message);
  }

  /**
   * A marker error has no message line and no cause chain, so a report of it with any
   * breadcrumbs shows only the breadcrumb block and the traces.
   */
  lemma MarkerReportText(typeName: string, l: Ledger, backtrace: Trace, spanTrace: Trace)
    requires l.items != []
    ensures Rendered(WhateverNew(typeName), l.items, backtrace, spanTrace)
         == "\n" + ItemLines(l.items, None) + TraceBlock(BacktraceHeader, backtrace) + TraceBlock(SpanTraceHeader, spanTrace)
  {
    var marker := WhateverNew(typeName);
    var block := ItemBlock(l.items, None);
    var traces := TraceBlock(BacktraceHeader, backtrace) + TraceBlock(SpanTraceHeader, spanTrace);
    assert MessageLine(marker) == "" && CauseBlock(marker) == "";
    assert block == "\n" + ItemLines(l.items, None);
    assert Rendered(marker, l.items, backtrace, spanTrace) == block + traces;
  }

  /**
   * `bail!` with nothing attached: the rendered text is a blank line (the marker's slot
   * renders nothing) followed by the traces.
   */
  lemma BailText(typeName: string, caller: Location, backtrace: Trace, spanTrace: Trace)
    ensures Rendered(WhateverNew(typeName), Captured(caller).items, backtrace, spanTrace)
         == "\n" + TraceBlock(BacktraceHeader, backtrace) + TraceBlock(SpanTraceHeader, spanTrace)
  {
    var items := Captured(caller).items;
    assert items[1..] == [];
    assert ItemLines(items, None) == "";
    MarkerReportText(typeName, Captured(caller), backtrace, spanTrace);
  }

  /**
   * Absorbing a standard error with `whatever()`: the report has no message line; its
   * breadcrumb block is the old error's message at the original capture site, and the new
   * marker slot at the propagation site renders nothing.
   */
  lemma WhateverAbsorbsMessage(cause: Cause, typeName: string, markerName: string,
                               captureSite: Location, propagateSite: Location, backtrace: Trace, spanTrace: Trace)
    ensures Rendered(WhateverNew(markerName),
                     Retyped(Captured(captureSite), StdError(typeName, cause).message, propagateSite).items,
                     backtrace, spanTrace)
         == "\n" + Line(captureSite, cause.display) + TraceBlock(BacktraceHeader, backtrace) + TraceBlock(SpanTraceHeader, spanTrace)
  {
    var l := Retyped(Captured(captureSite), Some(cause.display), propagateSite);
    RetypeKeepsTrail(Captured(captureSite), Some(cause.display), None, propagateSite);
    assert Captured(captureSite).items[1..] == [];
    assert ItemLines(l.items, None) == Line(captureSite, cause.display);
    MarkerReportText(markerName, l, backtrace, spanTrace);
  }

  /**
   * Two messages attached to a freshly captured report of an error with a message render
   * as: the second, the first, then the error's own line at the capture site.
   */
  lemma TwoStepsNewestFirst(captureSite: Location, first: Location, second: Location, message: string)
    ensures ItemLines(Attached(Attached(Captured(captureSite), first, "step 1"), second, "step 2").items, Some(message))
         == Line(second, "step 2") + Line(first, "step 1") + Line(captureSite, message)
  {
    var l0 := Captured(captureSite);
    var l1 := Attached(l0, first, "step 1");
    NewestFirst(l1.items, Entry(second, Message("step 2")), Some(message));
    NewestFirst(l0.items, Entry(first, Message("step 1")), Some(message));
    assert l0.items[1..] == [];
  }
}
