/**
 Turning an untrusted, finite executor stream into events followed by exactly one terminal signal
 (backend/src/application/runtime_safety.py), with its two instances.
 */
module StreamGuard {
  import opened Wrappers

  /** How a finite iteration ends: exhausted, or with an exception. */
  datatype Ending<E> = Eof | Raises(error: E)

  /** What calling the factory and iterating yields. */
  datatype Source<T, E> = Unopened(error: E) | Opened(items: seq<T>, ending: Ending<E>)

  datatype Classified<S, E> = Event(signal: S) | Terminal(signal: S) | Violation | Faulty(error: E)

  /** The three decisions a guard is built from. */
  datatype Guard<!T, S, !E> = Guard(classify: T -> Classified<S, E>, protocolFailure: S, exceptionFailure: (E, bool) -> S)

  /** The number of leading items that are events. */
  function EventCount<T, S, E>(g: Guard<T, S, E>, items: seq<T>): (n: nat)
    ensures n <= |items| && (forall i | 0 <= i < n :: g.classify(items[i]).Event?)
    ensures n < |items| ==> !g.classify(items[n]).Event?
  {
    if items == [] || !g.classify(items[0]).Event? then 0 else 1 + EventCount(g, items[1..])
  }

  /** Events, then one terminal item, then a normal end. */
  predicate WellFormed<T, S, E>(g: Guard<T, S, E>, source: Source<T, E>) {
    && source.Opened? && source.ending.Eof?
    && var n := EventCount(g, source.items); n + 1 == |source.items| && g.classify(source.items[n]).Terminal?
  }

  /** The last signal of the guarded stream. */
  function Closing<T, S, E>(g: Guard<T, S, E>, source: Source<T, E>): S {
    match source
    case Unopened(error) => g.exceptionFailure(error, false)
    case Opened(items, ending) =>
      var n := EventCount(g, items);
      if n == |items| then
        match ending case Eof => g.protocolFailure case Raises(error) => g.exceptionFailure(error, false)
      else
        match g.classify(items[n])
        case Faulty(error) => g.exceptionFailure(error, false)
        case Terminal(signal) =>
          if n + 1 < |items| then g.protocolFailure
          else (match ending case Eof => signal case Raises(error) => g.exceptionFailure(error, true))
        case _ => g.protocolFailure
  }

  /** The source's events before anything else happens. */
  function LeadingEvents<T, S, E>(g: Guard<T, S, E>, source: Source<T, E>): seq<S> {
    if source.Unopened? then []
    else seq(EventCount(g, source.items), i requires 0 <= i < EventCount(g, source.items) => g.classify(source.items[i]).signal)
  }

  lemma CountAt<T, S, E>(g: Guard<T, S, E>, items: seq<T>, n: nat)
    requires n <= |items| && forall i | 0 <= i < n :: g.classify(items[i]).Event?
    requires n < |items| ==> !g.classify(items[n]).Event?
    ensures EventCount(g, items) == n
  {
  }

  /** `_guard_finite_stream`: a held-back terminal signal goes out only at a normal end. */
  method GuardFiniteStream<T, S, E>(g: Guard<T, S, E>, source: Source<T, E>) returns (signals: seq<S>)
    ensures signals == LeadingEvents(g, source) + [Closing(g, source)]
  {
    signals := [];
    if source.Unopened? { return [g.exceptionFailure(source.error, false)]; }
    var items := source.items;
    var terminal: Option<S> := None;
    var i := 0;
    while true
      invariant 0 <= i <= |items|
      invariant |signals| <= i && forall j | 0 <= j < |signals| :: g.classify(items[j]) == Event(signals[j])
      invariant terminal.None? ==> |signals| == i
      invariant terminal.Some? ==> |signals| + 1 == i && g.classify(items[i - 1]) == Terminal(terminal.value)
      decreases |items| - i
    {
      if i == |items| {
        CountAt(g, items, |signals|);
        match source.ending {
          case Eof => signals := signals + [if terminal.None? then g.protocolFailure else terminal.value];
          case Raises(error) => signals := signals + [g.exceptionFailure(error, terminal.Some?)];
        }
        return;
      }
      if terminal.Some? {
        CountAt(g, items, |signals|);
        signals := signals + [g.protocolFailure];
        return;
      }
      match g.classify(items[i]) {
        case Violation =>
          CountAt(g, items, i);
          signals := signals + [g.protocolFailure];
          return;
        case Faulty(error) =>
          CountAt(g, items, i);
          signals := signals + [g.exceptionFailure(error, false)];
          return;
        case Terminal(signal) => terminal := Some(signal);
        case Event(signal) => signals := signals + [signal];
      }
      i := i + 1;
    }
  }

  /** The last signal is the source's own exactly when the source is well formed; else it is a failure the guard made. */
  lemma ClosingIsOwnOrGuardMade<T, S, E>(g: Guard<T, S, E>, source: Source<T, E>)
    ensures WellFormed(g, source) ==> Closing(g, source) == g.classify(source.items[|source.items| - 1]).signal
    ensures !WellFormed(g, source) ==>
              Closing(g, source) == g.protocolFailure
              || (source.Unopened? && Closing(g, source) == g.exceptionFailure(source.error, false))
              || (source.Opened? && source.ending.Raises?
                  && (Closing(g, source) == g.exceptionFailure(source.ending.error, false)
                      || Closing(g, source) == g.exceptionFailure(source.ending.error, true)))
              || (source.Opened? && EventCount(g, source.items) < |source.items|
                  && g.classify(source.items[EventCount(g, source.items)]).Faulty?
                  && Closing(g, source) == g.exceptionFailure(g.classify(source.items[EventCount(g, source.items)]).error, false))
  {
  }

  // ----- the typed run stream

  type Id = nat

  datatype RunFailureCode =
    | DiagnosisFailed | MainAgentFailed | ModelUnavailable | DecisionInvalid | CapabilityUnavailable | ToolFailed
    | InputUnavailable | DeliveryInvalid | RuleUnavailable | BudgetExhausted

  datatype RunItem =
    | RunEvent(event: Id) | RunDiagnosisResult(result: Id) | RunMainDelivery(delivery: Id) | RunFailure(code: RunFailureCode)
    | AnyOtherObject

  datatype RunError = RunExecutionError(code: RunFailureCode) | AnyOtherException

  /** `guard_run_stream` with the run kind's default failure. */
  function RunGuard(default: RunFailureCode): Guard<RunItem, RunItem, RunError> {
    Guard((item: RunItem) => if item.RunEvent? then Event(item) else if item.AnyOtherObject? then Violation else Terminal(item),
          RunFailure(default),
          (error: RunError, late: bool) =>
            if !late && error.RunExecutionError? then RunFailure(error.code) else RunFailure(default))
  }

  /**
   Under the run guard the signals are the source's own events, unchanged and in order, up to its first other
   item, and then exactly one terminal signal, whatever the executor does.
   */
  lemma RunSignalsEndOnce(default: RunFailureCode, source: Source<RunItem, RunError>)
    ensures var g := RunGuard(default); var n := |LeadingEvents(g, source)|;
            && (source.Unopened? ==> n == 0)
            && (source.Opened? ==>
                  && n <= |source.items| && LeadingEvents(g, source) == source.items[..n]
                  && (forall i | 0 <= i < n :: source.items[i].RunEvent?)
                  && (n < |source.items| ==> !source.items[n].RunEvent?))
            && !Closing(g, source).RunEvent? && !Closing(g, source).AnyOtherObject?
  {
    var g := RunGuard(default);
    if source.Opened? {
      assert forall i | 0 <= i < |source.items| :: g.classify(source.items[i]).Event? <==> source.items[i].RunEvent?;
    }
  }

  /** Only events: nothing terminal and no foreign object among the items. */
  predicate OnlyEvents(items: seq<RunItem>) { forall i | 0 <= i < |items| :: items[i].RunEvent? }

  /** Events, then `last`, then a normal end. */
  predicate EndsWith(source: Source<RunItem, RunError>, last: RunItem) {
    && source.Opened? && source.ending.Eof? && source.items != [] && source.items[|source.items| - 1] == last
    && OnlyEvents(source.items[..|source.items| - 1])
  }

  /** A typed exception reaches the guard before any terminal item: when opening, or after events only. */
  predicate RaisesEarly(source: Source<RunItem, RunError>, code: RunFailureCode) {
    || source == Unopened(RunExecutionError(code))
    || (source.Opened? && source.ending == Raises(RunExecutionError(code)) && OnlyEvents(source.items))
  }

  lemma RunShape(default: RunFailureCode, source: Source<RunItem, RunError>)
    requires source.Opened?
    ensures var g := RunGuard(default); var n := EventCount(g, source.items);
            && (n == |source.items| <==> OnlyEvents(source.items))
            && (n < |source.items| ==>
                  (OnlyEvents(source.items[..|source.items| - 1]) <==> n + 1 == |source.items|)
                  && !source.items[n].RunEvent?)
  {
    var items := source.items;
    var n := EventCount(RunGuard(default), items);
    assert forall i | 0 <= i < |items| :: RunGuard(default).classify(items[i]).Event? <==> items[i].RunEvent?;
    if n < |items| {
      assert n + 1 < |items| ==> items[..|items| - 1][n] == items[n];
    }
  }

  /**
   A result or delivery comes out exactly when the executor yielded events, that one value, and
   then ended normally.
   */
  lemma SuccessOnlyWhenEarned(default: RunFailureCode, source: Source<RunItem, RunError>, success: RunItem)
    requires success.RunDiagnosisResult? || success.RunMainDelivery?
    ensures Closing(RunGuard(default), source) == success <==> EndsWith(source, success)
  {
    if source.Opened? { RunShape(default, source); }
  }

  /**
   A failure code other than the default comes out exactly when the executor yielded that failure
   as its one terminal item and ended normally, or raised it as a typed exception before a terminal.
   */
  lemma FailureCodesAreTheExecutors(default: RunFailureCode, source: Source<RunItem, RunError>, code: RunFailureCode)
    requires code != default
    ensures Closing(RunGuard(default), source) == RunFailure(code)
            <==> EndsWith(source, RunFailure(code)) || RaisesEarly(source, code)
  {
    if source.Opened? { RunShape(default, source); }
  }

  // ----- the legacy runtime stream

  datatype RuntimeCode =
    | InvalidRequest | UnexpectedException | UnsupportedCapability | ModelExecutionFailed | ToolRejected | ToolTimeout | PolicyDenied
    | ApprovalRequired | BudgetExceeded | CancelRequested | RecoveryRequired | PersistenceConflict | InvariantViolation

  /** A failure text: the one of a closed code, or whatever an upstream object carries. */
  datatype Text = FixedText(code: RuntimeCode) | UpstreamText(id: Id)

  datatype RuntimeItem =
    | DiagnosisEvent(event: Id) | DiagnosisResult(result: Id) | RuntimeFailure(code: RuntimeCode, message: Text) | ForeignObject

  datatype RuntimeError = DiagnosisExecutionError | ForeignException

  /** The fixed text of each code. */
  function SafeMessage(code: RuntimeCode): Text { FixedText(code) }

  /** `_failure`: the message comes from the closed code alone. */
  function SafeFailure(code: RuntimeCode): RuntimeItem { RuntimeFailure(code, SafeMessage(code)) }

  function ClassifyRuntimeItem(item: RuntimeItem): Classified<RuntimeItem, RuntimeError> {
    match item
    case DiagnosisEvent(_) => Event(item)
    case DiagnosisResult(_) => Terminal(item)
    case RuntimeFailure(code, _) => Terminal(SafeFailure(code))
    case ForeignObject => Violation
  }

  function RuntimeExceptionFailure(error: RuntimeError, late: bool): RuntimeItem {
    if error.DiagnosisExecutionError? then SafeFailure(if late then InvariantViolation else ModelExecutionFailed)
    else SafeFailure(UnexpectedException)
  }

  /** `guard_runtime_stream` */
  function RuntimeGuard(): Guard<RuntimeItem, RuntimeItem, RuntimeError> {
    Guard(ClassifyRuntimeItem, SafeFailure(InvariantViolation), RuntimeExceptionFailure)
  }

  /** Events, then `result`, then a normal end. */
  predicate RuntimeEndsWith(source: Source<RuntimeItem, RuntimeError>, result: RuntimeItem) {
    && source.Opened? && source.ending.Eof? && source.items != [] && source.items[|source.items| - 1] == result
    && forall i | 0 <= i < |source.items| - 1 :: source.items[i].DiagnosisEvent?
  }

  /** The same under the legacy guard: the source's own events, and then one terminal signal. */
  lemma RuntimeSignalsEndOnce(source: Source<RuntimeItem, RuntimeError>)
    ensures var g := RuntimeGuard(); var n := |LeadingEvents(g, source)|;
            && (source.Unopened? ==> n == 0)
            && (source.Opened? ==>
                  && n <= |source.items| && LeadingEvents(g, source) == source.items[..n]
                  && (forall i | 0 <= i < n :: source.items[i].DiagnosisEvent?)
                  && (n < |source.items| ==> !source.items[n].DiagnosisEvent?))
            && !Closing(g, source).DiagnosisEvent? && !Closing(g, source).ForeignObject?
  {
    var g := RuntimeGuard();
    if source.Opened? {
      assert forall i | 0 <= i < |source.items| :: g.classify(source.items[i]) == ClassifyRuntimeItem(source.items[i]);
    }
  }

  predicate RuntimeOnlyEvents(items: seq<RuntimeItem>) { forall i | 0 <= i < |items| :: items[i].DiagnosisEvent? }

  /** Events, then a failure of this code, whatever its text, then a normal end. */
  predicate RuntimeFailsWith(source: Source<RuntimeItem, RuntimeError>, code: RuntimeCode) {
    && source.Opened? && source.ending.Eof? && source.items != []
    && source.items[|source.items| - 1].RuntimeFailure? && source.items[|source.items| - 1].code == code
    && RuntimeOnlyEvents(source.items[..|source.items| - 1])
  }

  /** The exception reaches the guard before any terminal item. */
  predicate RuntimeRaisesEarly(source: Source<RuntimeItem, RuntimeError>, error: RuntimeError) {
    source == Unopened(error) || (source.Opened? && source.ending == Raises(error) && RuntimeOnlyEvents(source.items))
  }

  /** The exception takes the place of the end that should follow the terminal item. */
  predicate RuntimeRaisesLate(source: Source<RuntimeItem, RuntimeError>, error: RuntimeError) {
    && source.Opened? && source.ending == Raises(error) && source.items != []
    && (source.items[|source.items| - 1].DiagnosisResult? || source.items[|source.items| - 1].RuntimeFailure?)
    && RuntimeOnlyEvents(source.items[..|source.items| - 1])
  }

  lemma RuntimeShape(source: Source<RuntimeItem, RuntimeError>)
    requires source.Opened?
    ensures var n := EventCount(RuntimeGuard(), source.items);
            && (n == |source.items| <==> RuntimeOnlyEvents(source.items))
            && (n < |source.items| ==>
                  (RuntimeOnlyEvents(source.items[..|source.items| - 1]) <==> n + 1 == |source.items|)
                  && !source.items[n].DiagnosisEvent?)
  {
    var items := source.items;
    var n := EventCount(RuntimeGuard(), items);
    assert forall i | 0 <= i < |items| :: RuntimeGuard().classify(items[i]) == ClassifyRuntimeItem(items[i]);
    assert forall i | 0 <= i < |items| :: RuntimeGuard().classify(items[i]).Event? <==> items[i].DiagnosisEvent?;
    if n < |items| {
      assert n + 1 < |items| ==> items[..|items| - 1][n] == items[n];
    }
  }

  /**
   When each failure code comes out of the legacy stream; whatever is neither a proper ending nor
   listed here is an invariant violation.
   */
  lemma RuntimeFailureCodes(source: Source<RuntimeItem, RuntimeError>, code: RuntimeCode)
    requires code != InvariantViolation
    ensures Closing(RuntimeGuard(), source) == SafeFailure(code)
            <==> || RuntimeFailsWith(source, code)
                 || (code == ModelExecutionFailed && RuntimeRaisesEarly(source, DiagnosisExecutionError))
                 || (code == UnexpectedException
                     && (RuntimeRaisesEarly(source, ForeignException) || RuntimeRaisesLate(source, ForeignException)))
  {
    if source.Opened? {
      RuntimeShape(source);
      var items := source.items;
      assert forall i | 0 <= i < |items| :: RuntimeGuard().classify(items[i]) == ClassifyRuntimeItem(items[i]);
    }
  }

  /** A diagnosis result comes out exactly for events, that result, end; no upstream failure text ever does. */
  lemma RuntimeSuccessOnlyWhenEarned(source: Source<RuntimeItem, RuntimeError>, r: Id)
    ensures Closing(RuntimeGuard(), source) == DiagnosisResult(r) <==> RuntimeEndsWith(source, DiagnosisResult(r))
    ensures var last := Closing(RuntimeGuard(), source); last.RuntimeFailure? ==> last.message == SafeMessage(last.code)
  {
    if source.Opened? {
      var g, items := RuntimeGuard(), source.items;
      var n := EventCount(g, items);
      assert forall i | 0 <= i < |items| :: g.classify(items[i]) == ClassifyRuntimeItem(items[i]);
      assert forall i | 0 <= i < |items| :: g.classify(items[i]).Event? <==> items[i].DiagnosisEvent?;
      if n < |items| { assert !items[n].DiagnosisEvent?; }
    }
  }
}
