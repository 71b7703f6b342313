/**
 * The `reportify` report ledger: an error value paired with a context that records
 * breadcrumbs (call-site location plus item) as the error travels up the call chain.
 *
 * The context is an object updated in place (the source keeps it in a `Box` that is moved
 * from report to report); its abstract state is a `Ledger` value, and the operations on
 * it are specified by the functions `Captured`, `Attached` and `Retyped`.
 */
module Reportify {
  import opened Wrappers

  /** A call site, as `Location::caller()` yields it under `#[track_caller]`. */
  datatype Location = Location(file: string, line: nat, column: nat)

  /** A captured backtrace or span trace: whether capture succeeded, and its text. */
  datatype Trace = Trace(captured: bool, text: string)

  /** One link of a standard error's `source()` chain: its `Display` text and its own source. */
  datatype Cause = Cause(display: string, source: Option<Cause>)

  /**
   * What the reporting code can observe of an error value: the name of its type, its
   * optional message (`Error::message`) and, when it is a standard error, the error seen
   * through `as_std_error`, whose `source()` links form the cause chain.
   */
  datatype ErrorValue = ErrorValue(typeName: string, message: Option<string>, asStdError: Option<Cause>)

  /**
   * The blanket `Error` implementation for a standard error: its message is its own
   * `Display` text, and it exposes itself as a standard error.
   */
  function StdError(typeName: string, self: Cause): (e: ErrorValue)
    ensures e.typeName == typeName && e.message == Some(self.display)
    ensures e.asStdError == Some(self)
  {
    ErrorValue(typeName, Some(self.display), Some(self))
  }

  /** A value of a type declared by `new_whatever_type!`: no message, not a standard error. */
  function WhateverNew(typeName: string): (e: ErrorValue)
    ensures e.typeName == typeName && e.message.None? && e.asStdError.None?
  {
    ErrorValue(typeName, None, None)
  }

  /** A breadcrumb: a message, the slot of the live error, or a slot whose error had no message. */
  datatype ReportItem = Message(text: string) | Error | Discarded

  /** One recorded breadcrumb with the location it was recorded at. */
  datatype Entry = Entry(location: Location, item: ReportItem)

  /** The breadcrumb list, oldest first, and the index of the live error slot. */
  datatype Ledger = Ledger(items: seq<Entry>, errorItem: nat)
  {
    /** The index is in range, names an `Error` item, and no other item is an `Error`. */
    predicate Valid()
    {
      errorItem < |items| && items[errorItem].item == Error &&
      forall i :: 0 <= i < |items| && i != errorItem ==> items[i].item != Error
    }
  }

  /** The ledger of a freshly captured context: one `Error` slot for the caller, at index 0. */
  function Captured(caller: Location): (l: Ledger)
    ensures l.Valid() && |l.items| == 1
    ensures l.items[l.errorItem].location == caller
  {
    Ledger([Entry(caller, Error)], 0)
  }

  /** Attaching a message: one entry more at the end, everything already there kept. */
  function Attached(l: Ledger, caller: Location, text: string): (r: Ledger)
    ensures l.Valid() ==> r.Valid()
    ensures r.errorItem == l.errorItem && |r.items| == |l.items| + 1
    ensures r.items[..|l.items|] == l.items
    ensures r.items[|l.items|] == Entry(caller, Message(text))
  {
    Ledger(l.items + [Entry(caller, Message(text))], l.errorItem)
  }

  /** What the slot of an error becomes once the error is replaced. */
  function Finalized(message: Option<string>): (item: ReportItem)
    ensures item != Error
    ensures item.Message? <==> message.Some?
    ensures item.Message? ==> item.text == message.value
  {
    if message.Some? then Message(message.value) else Discarded
  }

  /**
   * Re-typing the error: the live slot keeps its location and becomes the old error's
   * message (or `Discarded`), and a new `Error` slot for the caller is appended and
   * becomes the live one.
   */
  function Retyped(l: Ledger, message: Option<string>, caller: Location): (r: Ledger)
    requires l.Valid()
    ensures r.Valid()
    ensures |r.items| == |l.items| + 1 && r.errorItem == |l.items| && r.errorItem > l.errorItem
    ensures r.items[r.errorItem] == Entry(caller, Error)
    ensures r.items[l.errorItem].location == l.items[l.errorItem].location
    ensures message.Some? ==> r.items[l.errorItem].item == Message(message.value)
    ensures message.None? ==> r.items[l.errorItem].item == Discarded
    ensures forall i :: 0 <= i < |l.items| && i != l.errorItem ==> r.items[i] == l.items[i]
  {
    var slot := l.items[l.errorItem];
    Ledger(l.items[l.errorItem := Entry(slot.location, Finalized(message))] + [Entry(caller, Error)], |l.items|)
  }

  /** One operation on a ledger, with what it needs from its caller. */
  datatype Step =
    | AttachStep(caller: Location, text: string)
    | RetypeStep(caller: Location, message: Option<string>)

  /** The ledger after applying `steps` in order. */
  function Replay(l: Ledger, steps: seq<Step>): (r: Ledger)
    requires l.Valid()
    ensures r.Valid()
    ensures |r.items| == |l.items| + |steps| && r.errorItem >= l.errorItem
    ensures forall i :: 0 <= i < |l.items| && i != l.errorItem ==> r.items[i] == l.items[i]
    decreases |steps|
  {
    if steps == [] then l
    else
      var next := match steps[0]
        case AttachStep(c, t) => Attached(l, c, t)
        case RetypeStep(c, m) => Retyped(l, m, c);
      Replay(next, steps[1..])
  }

  /** The entries a run of attachments appends. */
  function MessageEntries(steps: seq<Step>): seq<Entry>
    requires forall k :: 0 <= k < |steps| ==> steps[k].AttachStep?
  {
    if steps == [] then [] else [Entry(steps[0].caller, Message(steps[0].text))] + MessageEntries(steps[1..])
  }

  /**
   * Attaching n messages adds exactly those n entries, in order, after the existing ones,
   * and leaves the slot index and every existing entry alone.
   */
  lemma {:induction false} AttachOnlyAppends(l: Ledger, steps: seq<Step>)
    requires l.Valid()
    requires forall k :: 0 <= k < |steps| ==> steps[k].AttachStep?
    ensures Replay(l, steps) == Ledger(l.items + MessageEntries(steps), l.errorItem)
    decreases |steps|
  {
    if steps != [] {
      var next := Attached(l, steps[0].caller, steps[0].text);
      AttachOnlyAppends(next, steps[1..]);
      assert next.items + MessageEntries(steps[1..]) == l.items + MessageEntries(steps);
    }
  }

  /**
   * Re-typing k > 0 times puts the live slot on the last of the k new entries; with the
   * invariant `Replay` keeps, every earlier entry is then something other than `Error`.
   */
  lemma {:induction false} RetypeChain(l: Ledger, steps: seq<Step>)
    requires l.Valid()
    requires forall k :: 0 <= k < |steps| ==> steps[k].RetypeStep?
    ensures steps != [] ==> Replay(l, steps).errorItem == |l.items| + |steps| - 1
    decreases |steps|
  {
    if |steps| > 1 {
      var next := Retyped(l, steps[0].message, steps[0].caller);
      RetypeChain(next, steps[1..]);
    }
  }

  /** A report context: captured traces, the breadcrumb list and the live slot index. */
  class ReportContext {
    const backtrace: Trace
    const spanTrace: Trace
    var items: seq<Entry>
    var errorItem: nat

    /** The abstract state of the context. */
    function State(): Ledger
      reads this
    {
      Ledger(items, errorItem)
    }

    ghost predicate Valid()
      reads this
    {
      State().Valid()
    }

    /** `ReportContext::capture`: the caller's `Error` slot, and the traces as captured. */
    constructor Capture(caller: Location, backtrace: Trace, spanTrace: Trace)
      ensures Valid() && State() == Captured(caller)
      ensures this.backtrace == backtrace && this.spanTrace == spanTrace
    {
      this.backtrace := backtrace;
      this.spanTrace := spanTrace;
      items := [Entry(caller, Error)];
      errorItem := 0;
    }
  }

  /** An error together with the context it is reported with. */
  datatype Report = Report(error: ErrorValue, context: ReportContext)

  /** `From<E> for Report<E>`: a fresh context is captured at the caller. */
  method FromError(error: ErrorValue, caller: Location, backtrace: Trace, spanTrace: Trace) returns (r: Report)
    ensures fresh(r.context) && r.context.Valid()
    ensures r.error == error && r.context.State() == Captured(caller)
    ensures r.context.backtrace == backtrace && r.context.spanTrace == spanTrace
  {
    var context := new ReportContext.Capture(caller, backtrace, spanTrace);
    r := Report(error, context);
  }

  /** `Reportify::report` on an error: the same fresh capture as the conversion. */
  method ReportifyError(error: ErrorValue, caller: Location, backtrace: Trace, spanTrace: Trace) returns (r: Report)
    ensures fresh(r.context) && r.context.Valid()
    ensures r.error == error && r.context.State() == Captured(caller)
    ensures r.context.backtrace == backtrace && r.context.spanTrace == spanTrace
  {
    var context := new ReportContext.Capture(caller, backtrace, spanTrace);
    r := Report(error, context);
  }

  /** `Reportify::report` on a `Result`: an `Ok` is passed through, an `Err` is reported. */
  method ReportifyResult<T>(result: Result<T, ErrorValue>, caller: Location, backtrace: Trace, spanTrace: Trace)
    returns (r: Result<T, Report>)
    ensures result.Ok? ==> r == Ok(result.value)
    ensures result.Err? ==> r.Err? && r.error.error == result.error && fresh(r.error.context)
    ensures result.Err? ==> r.error.context.Valid() && r.error.context.State() == Captured(caller)
    ensures result.Err? ==> r.error.context.backtrace == backtrace && r.error.context.spanTrace == spanTrace
  {
    match result {
      case Ok(value) =>
        r := Ok(value);
      case Err(error) =>
        var report := ReportifyError(error, caller, backtrace, spanTrace);
        r := Err(report);
    }
  }

  /**
   * `Report::propagate_map`: finalizes the live slot with the old error's message, opens a
   * new slot at the caller, and maps the error; the same context object moves on.
   */
  method PropagateMap(report: Report, convert: ErrorValue -> ErrorValue, caller: Location) returns (r: Report)
    requires report.context.Valid()
    modifies report.context
    ensures r == Report(convert(report.error), report.context)
    ensures r.context.Valid()
    ensures r.context.State() == Retyped(old(report.context.State()), report.error.message, caller)
  {
    var context := report.context;
    var slot := context.items[context.errorItem];
    if report.error.message.Some? {
      context.items := context.items[context.errorItem := Entry(slot.location, Message(report.error.message.value))];
    } else {
      context.items := context.items[context.errorItem := Entry(slot.location, Discarded)];
    }
    context.errorItem := |context.items|;
    context.items := context.items + [Entry(caller, Error)];
    r := Report(convert(report.error), context);
  }

  /** `Whatever::propagate`: re-type the report to a fresh marker value of the given type. */
  method WhateverPropagate(report: Report, typeName: string, caller: Location) returns (r: Report)
    requires report.context.Valid()
    modifies report.context
    ensures r == Report(WhateverNew(typeName), report.context)
    ensures r.context.Valid()
    ensures r.context.State() == Retyped(old(report.context.State()), report.error.message, caller)
  {
    r := PropagateMap(report, _ => WhateverNew(typeName), caller);
  }

  /**
   * `bail!`: fail with a new marker value and a context captured at the macro's call site.
   * The macro's arguments are accepted and ignored, so no message parameter appears here.
   */
  method Bail<T>(typeName: string, caller: Location, backtrace: Trace, spanTrace: Trace) returns (r: Result<T, Report>)
    ensures r.Err? && fresh(r.error.context) && r.error.error == WhateverNew(typeName)
    ensures r.error.context.Valid() && r.error.context.State() == Captured(caller)
    ensures r.error.context.backtrace == backtrace && r.error.context.spanTrace == spanTrace
  {
    var context := new ReportContext.Capture(caller, backtrace, spanTrace);
    r := Err(Report(WhateverNew(typeName), context));
  }

  /** `ensure!`: bails exactly when the condition is false; otherwise execution continues. */
  method Ensure(condition: bool, typeName: string, caller: Location, backtrace: Trace, spanTrace: Trace)
    returns (r: Result<(), Report>)
    ensures r.Ok? <==> condition
    ensures r.Err? ==> r.error.error == WhateverNew(typeName) && fresh(r.error.context)
    ensures r.Err? ==> r.error.context.Valid() && r.error.context.State() == Captured(caller)
    ensures r.Err? ==> r.error.context.backtrace == backtrace && r.error.context.spanTrace == spanTrace
  {
    if !condition {
      r := Bail(typeName, caller, backtrace, spanTrace);
    } else {
      r := Ok(());
    }
  }

  /** A value that can be attached to a report: a `String`, a `&str`, or a thunk producing text. */
  datatype ContextValue =
    | OwnedText(text: string)
    | BorrowedText(text: string)
    | Thunk(make: () -> string)

  /** The text a context value attaches; a thunk is run to obtain it. */
  function Evaluated(c: ContextValue): string
  {
    match c
    case OwnedText(s) => s
    case BorrowedText(s) => s
    case Thunk(f) => f()
  }

  /** `Context for String`: push one `Message` entry at the caller. */
  method AttachOwned(text: string, report: Report, caller: Location)
    requires report.context.Valid()
    modifies report.context
    ensures report.context.Valid()
    ensures report.context.State() == Attached(old(report.context.State()), caller, text)
  {
    report.context.items := report.context.items + [Entry(caller, Message(text))];
  }

  /** `Context::attach_to`: a `&str` is copied and a thunk is run, then the text is pushed. */
  method AttachTo(c: ContextValue, report: Report, caller: Location)
    requires report.context.Valid()
    modifies report.context
    ensures report.context.Valid()
    ensures report.context.State() == Attached(old(report.context.State()), caller, Evaluated(c))
  {
    match c {
      case OwnedText(s) =>
        AttachOwned(s, report, caller);
      case BorrowedText(s) =>
        var owned := s;
        AttachOwned(owned, report, caller);
      case Thunk(f) =>
        var produced := f();
        AttachOwned(produced, report, caller);
    }
  }
}
