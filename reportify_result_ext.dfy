/**
 * `ResultExt for Result<T, Report<E>>`: combinators on a result whose failure is already a
 * report. Each passes `Ok` through unchanged and acts on the report only for `Err`.
 */
module ReportResultExt {
  import opened Wrappers
  import opened Reportify
  import opened ReportRender

  /** How `assert_ok` ends: it returns the value, or the program panics with a message. */
  datatype Completion<T> = Returned(value: T) | Panicked(message: string)

  const PanicPrefix: string := "BUG: found error but expected value\n\n"
  const IgnorePrefix: string := "ignoring error\n\n"

  /** The context objects a result can change: the report's, if it is an `Err`. */
  function ContextOf<T>(r: Result<T, Report>): set<ReportContext>
  {
    if r.Err? then {r.error.context} else {}
  }

  /** `context`: attach a context value to the report. */
  method Context<T>(r: Result<T, Report>, c: ContextValue, caller: Location) returns (result: Result<T, Report>)
    requires r.Err? ==> r.error.context.Valid()
    modifies ContextOf(r)
    ensures result == r
    ensures r.Err? ==> r.error.context.Valid()
    ensures r.Err? ==> r.error.context.State() == Attached(old(r.error.context.State()), caller, Evaluated(c))
  {
    match r {
      case Ok(value) =>
        result := Ok(value);
      case Err(report) =>
        AttachTo(c, report, caller);
        result := Err(report);
    }
  }

  /** `propagate_map`: re-type the report with the given conversion. */
  method PropagateMap<T>(r: Result<T, Report>, convert: ErrorValue -> ErrorValue, caller: Location)
    returns (result: Result<T, Report>)
    requires r.Err? ==> r.error.context.Valid()
    modifies ContextOf(r)
    ensures r.Ok? ==> result == Ok(r.value)
    ensures r.Err? ==> result == Err(Report(convert(r.error.error), r.error.context)) && r.error.context.Valid()
    ensures r.Err? ==> r.error.context.State() == Retyped(old(r.error.context.State()), r.error.error.message, caller)
  {
    match r {
      case Ok(value) =>
        result := Ok(value);
      case Err(report) =>
        var mapped := Reportify.PropagateMap(report, convert, caller);
        result := Err(mapped);
    }
  }

  /** `propagate`: re-type with the `Into` conversion, given here as `into`. */
  method Propagate<T>(r: Result<T, Report>, into: ErrorValue -> ErrorValue, caller: Location)
    returns (result: Result<T, Report>)
    requires r.Err? ==> r.error.context.Valid()
    modifies ContextOf(r)
    ensures r.Ok? ==> result == Ok(r.value)
    ensures r.Err? ==> result == Err(Report(into(r.error.error), r.error.context)) && r.error.context.Valid()
    ensures r.Err? ==> r.error.context.State() == Retyped(old(r.error.context.State()), r.error.error.message, caller)
  {
    result := PropagateMap(r, into, caller);
  }

  /** `propagate_with`: re-type first, then attach, so the message lands after the new slot. */
  method PropagateWith<T>(r: Result<T, Report>, into: ErrorValue -> ErrorValue, c: ContextValue, caller: Location)
    returns (result: Result<T, Report>)
    requires r.Err? ==> r.error.context.Valid()
    modifies ContextOf(r)
    ensures r.Ok? ==> result == Ok(r.value)
    ensures r.Err? ==> result == Err(Report(into(r.error.error), r.error.context)) && r.error.context.Valid()
    ensures r.Err? ==> r.error.context.State()
                       == Attached(Retyped(old(r.error.context.State()), r.error.error.message, caller), caller, Evaluated(c))
  {
    var propagated := Propagate(r, into, caller);
    result := Context(propagated, c, caller);
  }

  /** `whatever`: absorb the report into a marker type (`Whatever::propagate`). */
  method Whatever<T>(r: Result<T, Report>, typeName: string, caller: Location) returns (result: Result<T, Report>)
    requires r.Err? ==> r.error.context.Valid()
    modifies ContextOf(r)
    ensures r.Ok? ==> result == Ok(r.value)
    ensures r.Err? ==> result == Err(Report(WhateverNew(typeName), r.error.context)) && r.error.context.Valid()
    ensures r.Err? ==> r.error.context.State() == Retyped(old(r.error.context.State()), r.error.error.message, caller)
  {
    match r {
      case Ok(value) =>
        result := Ok(value);
      case Err(report) =>
        var absorbed := WhateverPropagate(report, typeName, caller);
        result := Err(absorbed);
    }
  }

  /** `assert_ok`: the value on `Ok`; on `Err` a panic whose message holds the rendered report. */
  method AssertOk<T>(r: Result<T, Report>) returns (c: Completion<T>)
    ensures r.Ok? <==> c.Returned?
    ensures r.Ok? ==> c.value == r.value
    ensures r.Err? ==> c.message == PanicPrefix + ReportText(r.error)
  {
    match r {
      case Ok(value) =>
        c := Returned(value);
      case Err(report) =>
        var text := Render(report);
        c := Panicked(PanicPrefix + text);
    }
  }

  /** `ignore`: never fails; on `Err` exactly one error-level log line with the rendered report. */
  method Ignore<T>(r: Result<T, Report>) returns (logged: Option<string>)
    ensures r.Ok? <==> logged.None?
    ensures r.Err? ==> logged == Some(IgnorePrefix + ReportText(r.error))
  {
    logged := None;
    if r.Err? {
      var text := Render(r.error);
      logged := Some(IgnorePrefix + text);
    }
  }
}

/**
 * `ResultExt for Result<T, E>`: each combinator first reports the raw error, capturing a
 * fresh context at the caller, then does what the report combinator of the same name does.
 */
module ErrorResultExt {
  import opened Wrappers
  import opened Reportify
  import opened ReportRender
  import R = ReportResultExt

  method Context<T>(r: Result<T, ErrorValue>, c: ContextValue, caller: Location, backtrace: Trace, spanTrace: Trace)
    returns (result: Result<T, Report>)
    ensures r.Ok? ==> result == Ok(r.value)
    ensures r.Err? ==> result.Err? && result.error.error == r.error && fresh(result.error.context)
    ensures r.Err? ==> result.error.context.Valid()
                       && result.error.context.State() == Attached(Captured(caller), caller, Evaluated(c))
    ensures r.Err? ==> result.error.context.backtrace == backtrace && result.error.context.spanTrace == spanTrace
  {
    var reported := ReportifyResult(r, caller, backtrace, spanTrace);
    result := R.Context(reported, c, caller);
  }

  method PropagateMap<T>(r: Result<T, ErrorValue>, convert: ErrorValue -> ErrorValue, caller: Location,
                         backtrace: Trace, spanTrace: Trace)
    returns (result: Result<T, Report>)
    ensures r.Ok? ==> result == Ok(r.value)
    ensures r.Err? ==> result.Err? && result.error.error == convert(r.error) && fresh(result.error.context)
    ensures r.Err? ==> result.error.context.Valid()
                       && result.error.context.State() == Retyped(Captured(caller), r.error.message, caller)
    ensures r.Err? ==> result.error.context.backtrace == backtrace && result.error.context.spanTrace == spanTrace
  {
    var reported := ReportifyResult(r, caller, backtrace, spanTrace);
    result := R.PropagateMap(reported, convert, caller);
  }

  method Propagate<T>(r: Result<T, ErrorValue>, into: ErrorValue -> ErrorValue, caller: Location,
                      backtrace: Trace, spanTrace: Trace)
    returns (result: Result<T, Report>)
    ensures r.Ok? ==> result == Ok(r.value)
    ensures r.Err? ==> result.Err? && result.error.error == into(r.error) && fresh(result.error.context)
    ensures r.Err? ==> result.error.context.Valid()
                       && result.error.context.State() == Retyped(Captured(caller), r.error.message, caller)
    ensures r.Err? ==> result.error.context.backtrace == backtrace && result.error.context.spanTrace == spanTrace
  {
    var reported := ReportifyResult(r, caller, backtrace, spanTrace);
    result := R.Propagate(reported, into, caller);
  }

  method PropagateWith<T>(r: Result<T, ErrorValue>, into: ErrorValue -> ErrorValue, c: ContextValue,
                          caller: Location, backtrace: Trace, spanTrace: Trace)
    returns (result: Result<T, Report>)
    ensures r.Ok? ==> result == Ok(r.value)
    ensures r.Err? ==> result.Err? && result.error.error == into(r.error) && fresh(result.error.context)
    ensures r.Err? ==> result.error.context.Valid()
                       && result.error.context.State()
                          == Attached(Retyped(Captured(caller), r.error.message, caller), caller, Evaluated(c))
    ensures r.Err? ==> result.error.context.backtrace == backtrace && result.error.context.spanTrace == spanTrace
  {
    var reported := ReportifyResult(r, caller, backtrace, spanTrace);
    result := R.PropagateWith(reported, into, c, caller);
  }

  method Whatever<T>(r: Result<T, ErrorValue>, typeName: string, caller: Location, backtrace: Trace, spanTrace: Trace)
    returns (result: Result<T, Report>)
    ensures r.Ok? ==> result == Ok(r.value)
    ensures r.Err? ==> result.Err? && result.error.error == WhateverNew(typeName) && fresh(result.error.context)
    ensures r.Err? ==> result.error.context.Valid()
                       && result.error.context.State() == Retyped(Captured(caller), r.error.message, caller)
    ensures r.Err? ==> result.error.context.backtrace == backtrace && result.error.context.spanTrace == spanTrace
  {
    var reported := ReportifyResult(r, caller, backtrace, spanTrace);
    result := R.Whatever(reported, typeName, caller);
  }

  /** `assert_ok` on a raw error: the panic message renders the freshly captured report. */
  method AssertOk<T>(r: Result<T, ErrorValue>, caller: Location, backtrace: Trace, spanTrace: Trace)
    returns (c: R.Completion<T>)
    ensures r.Ok? <==> c.Returned?
    ensures r.Ok? ==> c.value == r.value
    ensures r.Err? ==> c.message == R.PanicPrefix + Rendered(r.error, Captured(caller).items, backtrace, spanTrace)
  {
    var reported := ReportifyResult(r, caller, backtrace, spanTrace);
    c := R.AssertOk(reported);
  }

  /** `ignore` on a raw error: logs the freshly captured report once, never fails. */
  method Ignore<T>(r: Result<T, ErrorValue>, caller: Location, backtrace: Trace, spanTrace: Trace)
    returns (logged: Option<string>)
    ensures r.Ok? <==> logged.None?
    ensures r.Err? ==> logged == Some(R.IgnorePrefix + Rendered(r.error, Captured(caller).items, backtrace, spanTrace))
  {
    var reported := ReportifyResult(r, caller, backtrace, spanTrace);
    logged := R.Ignore(reported);
  }
}
