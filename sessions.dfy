/** The action executor of one roll-forward pass: a failure ledger keyed by action name,
    a back-off table, and the earliest moment at which a skipped or failed action is due again. */
module Sessions {
  import opened Wrappers
  import opened Exceptions
  import opened Backoff

  // ---------------------------------------------------------------------------
  // The ledger
  // ---------------------------------------------------------------------------

  /** A ledger entry as this code writes it: first and last failure time, number of failures,
      current delay and the "Class: message" of the last error. */
  datatype Entry = Entry(first: int, last: int, count: nat, delay: nat, message: string)

  /** The `:if` and `:unless` options of a call; None when the key is absent. */
  datatype Options = Options(ifCond: Option<bool>, unlessCond: Option<bool>)

  /** The state a session works on: the failure ledger (shared with the stored document),
      the earliest due time seen so far, and whether any action has succeeded. */
  datatype Ledger = Ledger(failures: map<string, Entry>, nextAttempt: Option<int>, anyActionsExecuted: bool)

  /** What a run that was let through remembers until its body is over. */
  datatype Frame = Frame(name: string, prior: Option<Entry>, now: int)

  /** How the first half of `action`/`check` ends: a raise that no rescue of the session
      catches, a call that is not needed, `throw :failed` because the entry is not due yet,
      or permission to run the body. */
  datatype Gate = Invalid(error: Exception) | NotNeeded | Blocked | Open(frame: Frame)

  /** How a body ends: with a value, with an exception, or by a non-local exit (an inner
      `throw :failed` or a `return` from the enclosing method) that passes through. */
  datatype Outcome<+T> = Ok(value: T) | Raise(error: Exception) | Abort

  /** How the second half ends: the call returns a value, throws `:failed`, or is unwound. */
  datatype Flow<+T> = Returned(value: T) | Thrown | Unwound

  datatype Started = Started(ledger: Ledger, gate: Gate)

  datatype Finished<+T> = Finished(ledger: Ledger, flow: Flow<T>)

  const NoCondition := RuntimeError("action must have :if or :unless condition specified")

  function Lookup(failures: map<string, Entry>, name: string): Option<Entry>
  {
    if name in failures then Some(failures[name]) else None
  }

  /** `[@next_attempt || t, t].min` */
  function Fold(na: Option<int>, t: int): (r: Option<int>)
    ensures r.Some? && r.value <= t
    ensures na.Some? ==> r.value == (if na.value < t then na.value else t)
    ensures na.None? ==> r.value == t
  {
    Some(if na.Some? && na.value < t then na.value else t)
  }

  /** `a` is no later than `b`: once set, the due time only moves earlier. */
  predicate NoLater(a: Option<int>, b: Option<int>)
  {
    b.Some? ==> a.Some? && a.value <= b.value
  }

  predicate HasCondition(o: Options) { o.ifCond.Some? || o.unlessCond.Some? }

  /** With the defaults `:if => true, :unless => false`: run only when `if && !unless`. */
  predicate Needed(o: Options) { o.ifCond.GetOr(true) && !o.unlessCond.GetOr(false) }

  /** Lines 44-53 of run_action_or_check: take the entry out of the ledger; if it is not due,
      put it back, fold its due time into the running minimum and throw `:failed`. */
  function Enter(l: Ledger, name: string, now: int): (r: Started)
    ensures r.gate.Blocked? || r.gate.Open?
    ensures r.gate.Blocked? <==> name in l.failures && l.failures[name].last + l.failures[name].delay > now
    ensures r.gate.Blocked? ==>
      r.ledger == l.(nextAttempt := Fold(l.nextAttempt, l.failures[name].last + l.failures[name].delay))
    ensures r.gate.Open? ==>
      r.ledger == l.(failures := l.failures - {name}) && r.gate.frame == Frame(name, Lookup(l.failures, name), now)
  {
    var prior := Lookup(l.failures, name);
    var removed := l.failures - {name};
    if prior.Some? && prior.value.last + prior.value.delay > now then
      var due := prior.value.last + prior.value.delay;
      assert removed[name := prior.value] == l.failures;
      Started(l.(failures := removed[name := prior.value], nextAttempt := Fold(l.nextAttempt, due)), Blocked)
    else
      Started(l.(failures := removed), Open(Frame(name, prior, now)))
  }

  /** The entry after one more failure at `now` (lines 58-63). */
  function Record(prior: Option<Entry>, now: int, e: Exception): (r: Entry)
    ensures r.first == (if prior.Some? then prior.value.first else now)
    ensures r.last == now
    ensures r.count == (if prior.Some? then prior.value.count else 0) + 1
    ensures r.delay == NextDelay(if prior.Some? then prior.value.delay else 0)
    ensures r.message == Describe(e)
  {
    match prior
    case None => Entry(now, now, 1, NextDelay(0), Describe(e))
    case Some(p) => Entry(p.first, now, p.count + 1, NextDelay(p.delay), Describe(e))
  }

  /** Lines 55-74: a value is returned and the entry stays deleted; an exception is recorded,
      its due time folded in, and `:failed` thrown; a non-local exit changes nothing. */
  function Exit<T>(l: Ledger, f: Frame, o: Outcome<T>): (r: Finished<T>)
    ensures o.Ok? ==> r == Finished(l, Returned(o.value))
    ensures o.Abort? ==> r == Finished(l, Unwound)
    ensures o.Raise? ==>
      var entry := Record(f.prior, f.now, o.error);
      r.flow == Thrown && r.ledger.anyActionsExecuted == l.anyActionsExecuted &&
      r.ledger.failures == l.failures[f.name := entry] &&
      r.ledger.nextAttempt == Fold(l.nextAttempt, f.now + entry.delay)
  {
    match o
    case Ok(v) => Finished(l, Returned(v))
    case Abort => Finished(l, Unwound)
    case Raise(e) =>
      var entry := Record(f.prior, f.now, e);
      Finished(l.(failures := l.failures[f.name := entry],
                  nextAttempt := Fold(l.nextAttempt, entry.last + entry.delay)), Thrown)
  }

  /** `action` up to the body (lines 19-26). */
  function ActionGate(l: Ledger, name: string, opts: Options, now: int): (r: Started)
    ensures r.gate.Invalid? <==> !HasCondition(opts)
    ensures r.gate.Invalid? ==> r.gate.error == NoCondition
    ensures r.gate.NotNeeded? <==> HasCondition(opts) && !Needed(opts)
    ensures r.gate.Invalid? || r.gate.NotNeeded? ==> r.ledger == l
    ensures r.gate.Blocked? || r.gate.Open? ==> r == Enter(l, name, now)
  {
    if !HasCondition(opts) then
      Started(l, Invalid(NoCondition))
    else if !Needed(opts) then
      Started(l, NotNeeded)
    else
      Enter(l, name, now)
  }

  /** `check` up to the body (lines 32-38): no condition is demanded. */
  function CheckGate(l: Ledger, name: string, opts: Options, now: int): (r: Started)
    ensures !r.gate.Invalid?
    ensures r.gate.NotNeeded? <==> !Needed(opts)
    ensures r.gate.NotNeeded? ==> r.ledger == l
    ensures r.gate.Blocked? || r.gate.Open? ==> r == Enter(l, name, now)
  {
    if !Needed(opts) then Started(l, NotNeeded) else Enter(l, name, now)
  }

  /** `action` after the body: line 27 runs only when run_action_or_check returned. */
  function ActionExit<T>(l: Ledger, f: Frame, o: Outcome<T>): (r: Finished<bool>)
    ensures r.ledger.anyActionsExecuted == (l.anyActionsExecuted || o.Ok?)
    ensures r.flow.Returned? <==> o.Ok?
    ensures r.flow.Returned? ==> r.flow.value
    ensures r.ledger.failures == Exit(l, f, o).ledger.failures
    ensures r.ledger.nextAttempt == Exit(l, f, o).ledger.nextAttempt
  {
    var x := Exit(l, f, o);
    match x.flow
    case Returned(_) => Finished(x.ledger.(anyActionsExecuted := true), Returned(true))
    case Thrown => Finished(x.ledger, Thrown)
    case Unwound => Finished(x.ledger, Unwound)
  }

  /** `check` after the body: the body's value is the call's value. */
  function CheckExit<T>(l: Ledger, f: Frame, o: Outcome<T>): (r: Finished<T>)
    ensures r.ledger.anyActionsExecuted == l.anyActionsExecuted
    ensures o.Ok? ==> r.flow == Returned(o.value)
  {
    Exit(l, f, o)
  }

  // ---------------------------------------------------------------------------
  // The gates as written: `options.if` is a method call on a Hash
  // ---------------------------------------------------------------------------

  function BoolText(b: bool): string { if b then "true" else "false" }

  /** `inspect` of `{ :if => true, :unless => false }.merge(options)`. */
  function MergedText(o: Options): string
  {
    "{:if=>" + BoolText(o.ifCond.GetOr(true)) + ", :unless=>" + BoolText(o.unlessCond.GetOr(false)) + "}"
  }

  /** The exception `options.if` raises: a Hash has no method `if`. */
  function NoIfMethod(o: Options): Exception
  {
    NoMethodError("undefined method `if' for " + MergedText(o) + ":Hash")
  }

  /** `action` up to the body as written. */
  function ActionGateAsWritten(l: Ledger, name: string, opts: Options, now: int): Started
  {
    if !HasCondition(opts) then Started(l, Invalid(NoCondition)) else Started(l, Invalid(NoIfMethod(opts)))
  }

  /** `check` up to the body as written. */
  function CheckGateAsWritten(l: Ledger, name: string, opts: Options, now: int): Started
  {
    Started(l, Invalid(NoIfMethod(opts)))
  }

  /** As written, no call of `action` or `check` ever reaches its body: a call with a condition
      raises NoMethodError at `options.if`. Read as hash lookups, the same call with
      `:if => true` runs its body. */
  lemma ConditionsAsWrittenRaise(l: Ledger, name: string, opts: Options, now: int)
    ensures var g := ActionGateAsWritten(l, name, opts, now);
      g.ledger == l && g.gate.Invalid? && (HasCondition(opts) ==> g.gate.error == NoIfMethod(opts))
    ensures var g := CheckGateAsWritten(l, name, opts, now);
      g.ledger == l && g.gate == Invalid(NoIfMethod(opts))
    ensures opts == Options(Some(true), None) && name !in l.failures ==>
      ActionGate(l, name, opts, now).gate.Open? && CheckGate(l, name, opts, now).gate.Open?
  {
  }

  // ---------------------------------------------------------------------------
  // Properties of the ledger operations
  // ---------------------------------------------------------------------------

  /** The gate and the exit of one action touch only that action's own entry. */
  lemma OtherEntriesUntouched<T>(l: Ledger, name: string, opts: Options, now: int, f: Frame, o: Outcome<T>, n: string)
    requires n != name && n != f.name
    ensures Lookup(ActionGate(l, name, opts, now).ledger.failures, n) == Lookup(l.failures, n)
    ensures Lookup(CheckGate(l, name, opts, now).ledger.failures, n) == Lookup(l.failures, n)
    ensures Lookup(ActionExit(l, f, o).ledger.failures, n) == Lookup(l.failures, n)
    ensures Lookup(CheckExit(l, f, o).ledger.failures, n) == Lookup(l.failures, n)
  {
  }

  /** An entry whose due time is exactly now does not hold the body back. */
  lemma DueEntryRuns(l: Ledger, name: string, opts: Options, now: int)
    requires HasCondition(opts) && Needed(opts)
    requires name in l.failures && l.failures[name].last + l.failures[name].delay == now
    ensures ActionGate(l, name, opts, now).gate.Open?
    ensures CheckGate(l, name, opts, now).gate.Open?
  {
  }

  /** A body that succeeds, and leaves the ledger alone, leaves no entry for its name. */
  lemma {:induction false} SuccessClearsEntry<T>(l: Ledger, name: string, opts: Options, now: int, v: T)
    requires HasCondition(opts) && Needed(opts)
    requires ActionGate(l, name, opts, now).gate.Open?
    ensures var s := ActionGate(l, name, opts, now);
      var r := ActionExit(s.ledger, s.gate.frame, Ok(v));
      name !in r.ledger.failures && r.flow == Returned(true) && r.ledger.anyActionsExecuted &&
      r.ledger.failures == l.failures - {name} && r.ledger.nextAttempt == l.nextAttempt
    ensures var s := CheckGate(l, name, opts, now);
      var r := CheckExit(s.ledger, s.gate.frame, Ok(v));
      name !in r.ledger.failures && r.flow == Returned(v) && r.ledger.anyActionsExecuted == l.anyActionsExecuted
  {
    var s := ActionGate(l, name, opts, now);
    assert s == Enter(l, name, now);
    assert CheckGate(l, name, opts, now) == s;
  }

  /** A failing body, run after the gate let it through, leaves the updated entry in the ledger,
      moves the due time to at most now + the new delay, and throws `:failed`. */
  lemma FailureIsRecorded(l: Ledger, name: string, opts: Options, now: int, e: Exception)
    requires ActionGate(l, name, opts, now).gate.Open?
    ensures var s := ActionGate(l, name, opts, now);
      var r := ActionExit(s.ledger, s.gate.frame, Outcome<()>.Raise(e));
      var entry := r.ledger.failures[name];
      name in r.ledger.failures && r.flow == Thrown &&
      entry == Record(Lookup(l.failures, name), now, e) &&
      r.ledger.nextAttempt == Fold(l.nextAttempt, now + entry.delay) &&
      r.ledger.anyActionsExecuted == l.anyActionsExecuted &&
      (forall n :: n in l.failures && n != name ==> n in r.ledger.failures && r.ledger.failures[n] == l.failures[n])
  {
  }

  /** When an inner call throws `:failed` (here: its entry is not due), the outer body is unwound:
      the outer entry, deleted on entry, is not put back, and the outer action is not counted
      as executed. */
  lemma InnerThrowUnwindsOuter(l: Ledger, outer: string, inner: string, opts: Options, now: int)
    requires outer != inner
    requires ActionGate(l, outer, opts, now).gate.Open?
    requires ActionGate(ActionGate(l, outer, opts, now).ledger, inner, opts, now).gate.Blocked?
    ensures var s := ActionGate(l, outer, opts, now);
      var t := ActionGate(s.ledger, inner, opts, now);
      var r := ActionExit(t.ledger, s.gate.frame, Outcome<()>.Abort);
      r.flow == Unwound && outer !in r.ledger.failures &&
      r.ledger.anyActionsExecuted == l.anyActionsExecuted &&
      inner in r.ledger.failures && r.ledger.failures[inner] == l.failures[inner]
  {
  }

  /** No operation of a session moves the due time later; a call that is not needed changes
      nothing at all. */
  lemma NextAttemptNeverLater<T>(l: Ledger, name: string, opts: Options, now: int, f: Frame, o: Outcome<T>)
    ensures NoLater(ActionGate(l, name, opts, now).ledger.nextAttempt, l.nextAttempt)
    ensures NoLater(CheckGate(l, name, opts, now).ledger.nextAttempt, l.nextAttempt)
    ensures NoLater(ActionExit(l, f, o).ledger.nextAttempt, l.nextAttempt)
    ensures NoLater(CheckExit(l, f, o).ledger.nextAttempt, l.nextAttempt)
  {
  }

  /** Every delay in the ledger is a table value and every count is positive. */
  predicate WellFormed(failures: map<string, Entry>)
  {
    forall n :: n in failures ==> failures[n].delay in BackoffDelays && failures[n].count >= 1
  }

  lemma LedgerStaysWellFormed<T>(l: Ledger, name: string, opts: Options, now: int, f: Frame, o: Outcome<T>)
    requires WellFormed(l.failures)
    ensures WellFormed(ActionGate(l, name, opts, now).ledger.failures)
    ensures WellFormed(CheckGate(l, name, opts, now).ledger.failures)
    ensures WellFormed(ActionExit(l, f, o).ledger.failures)
    ensures WellFormed(CheckExit(l, f, o).ledger.failures)
  {
    WellFormedRemove(l.failures, name);
    if o.Raise? {
      RecordWellFormed(f.prior, f.now, o.error);
      WellFormedInsert(l.failures, f.name, Record(f.prior, f.now, o.error));
    }
  }

  lemma WellFormedRemove(failures: map<string, Entry>, name: string)
    requires WellFormed(failures)
    ensures WellFormed(failures - {name})
  {
  }

  lemma WellFormedInsert(failures: map<string, Entry>, name: string, e: Entry)
    requires WellFormed(failures) && e.delay in BackoffDelays && e.count >= 1
    ensures WellFormed(failures[name := e])
  {
  }

  lemma RecordWellFormed(prior: Option<Entry>, now: int, e: Exception)
    ensures Record(prior, now, e).delay in BackoffDelays && Record(prior, now, e).count >= 1
  {
  }

  // ---------------------------------------------------------------------------
  // The session object
  // ---------------------------------------------------------------------------

  class Session {
    var failures: map<string, Entry>
    var nextAttempt: Option<int>
    var anyActionsExecuted: bool

    function State(): Ledger
      reads this
    {
      Ledger(failures, nextAttempt, anyActionsExecuted)
    }

    constructor(failures: map<string, Entry>)
      ensures State() == Ledger(failures, None, false)
    {
      this.failures := failures;
      nextAttempt := None;
      anyActionsExecuted := false;
    }

    /** `action name, options`, up to the point where the body would run. */
    method Action(name: string, opts: Options, now: int) returns (gate: Gate)
      modifies this
      ensures Started(State(), gate) == ActionGate(old(State()), name, opts, now)
    {
      if !HasCondition(opts) {
        return Invalid(NoCondition);
      }
      if !Needed(opts) {
        return NotNeeded;
      }
      gate := RunActionOrCheck(name, now);
    }

    /** `check name, options`, up to the point where the body would run. */
    method Check(name: string, opts: Options, now: int) returns (gate: Gate)
      modifies this
      ensures Started(State(), gate) == CheckGate(old(State()), name, opts, now)
    {
      if !Needed(opts) {
        return NotNeeded;
      }
      gate := RunActionOrCheck(name, now);
    }

    /** The part of run_action_or_check before `yield`. */
    method RunActionOrCheck(name: string, now: int) returns (gate: Gate)
      modifies this
      ensures Started(State(), gate) == Enter(old(State()), name, now)
    {
      var failure := Lookup(failures, name);
      failures := failures - {name};
      if failure.Some? && failure.value.last + failure.value.delay > now {
        failures := failures[name := failure.value];
        nextAttempt := Fold(nextAttempt, failure.value.last + failure.value.delay);
        return Blocked;
      }
      return Open(Frame(name, failure, now));
    }

    /** The part of run_action_or_check after `yield`. */
    method Conclude<T>(frame: Frame, outcome: Outcome<T>) returns (flow: Flow<T>)
      modifies this
      ensures Finished(State(), flow) == Exit(old(State()), frame, outcome)
    {
      match outcome
      case Ok(v) =>
        flow := Returned(v);
      case Abort =>
        flow := Unwound;
      case Raise(e) =>
        var failure := Record(frame.prior, frame.now, e);
        failures, nextAttempt := failures[frame.name := failure], Fold(nextAttempt, failure.last + failure.delay);
        flow := Thrown;
    }

    /** The rest of `action` once its body is over. */
    method FinishAction<T>(frame: Frame, outcome: Outcome<T>) returns (flow: Flow<bool>)
      modifies this
      ensures Finished(State(), flow) == ActionExit(old(State()), frame, outcome)
    {
      var f := Conclude(frame, outcome);
      match f
      case Returned(_) =>
        anyActionsExecuted := true;
        flow := Returned(true);
      case Thrown =>
        flow := Thrown;
      case Unwound =>
        flow := Unwound;
    }

    /** The rest of `check` once its body is over. */
    method FinishCheck<T>(frame: Frame, outcome: Outcome<T>) returns (flow: Flow<T>)
      modifies this
      ensures Finished(State(), flow) == CheckExit(old(State()), frame, outcome)
    {
      flow := Conclude(frame, outcome);
    }
  }
}
