// scaler.saturationFor: the queue and KV queries run as two goroutines of an errgroup. The first error is
// kept and cancels the group's context; Wait returns it once both goroutines have exited.
module ForkJoin {
  import opened Wrappers
  import opened Metrics
  import opened Saturation

  datatype Thresholds = Thresholds(queue: real, kv: real, treatMissingAsError: bool)

  datatype Dimension = Queue | KV

  // What a query goroutine returned to the group: an error of the query itself, or the cancellation
  // of the group's own context seen by the query.
  datatype GroupError = FromQuery(dim: Dimension, err: Error) | FromGroupCancel(dim: Dimension)

  // One goroutine: still inside queryInstant, about to hand its error to the group, or gone.
  datatype Phase = Querying | Failing(error: GroupError) | Exited

  datatype Reading = Reading(value: real, age: int)

  // `queue` and `kv` are the captured variables, zero until a goroutine writes them.
  datatype State = State(
    queuePhase: Phase, kvPhase: Phase,
    queue: Reading, kv: Reading,
    firstErr: Option<GroupError>, cancelled: bool)

  // Deliver: queryInstant returns its own answer at clock reading `at`. Abort: it returns because the
  // group's context was cancelled. Report: the goroutine's error reaches the group. CancelGroup: the group
  // cancels its context, which it does after it has kept the first error.
  datatype Action = Deliver(dim: Dimension, at: int) | Abort(dim: Dimension) | Report(dim: Dimension) | CancelGroup

  datatype Script = Script(queue: Answer, kv: Answer)

  datatype Result = Ok(score: real, queueAge: int, kvAge: int) | Err(error: GroupError)

  function AnswerOf(script: Script, dim: Dimension): Answer {
    if dim.Queue? then script.queue else script.kv
  }

  // ErrMissing is tolerated unless configured otherwise.
  predicate Tolerated(a: Answer, treatMissingAsError: bool) {
    a.err.NoError? || (a.err.Missing? && !treatMissingAsError)
  }

  const ZERO := Reading(0.0, 0)

  // A tolerated missing series reads as 0 with age 0.
  function ReadingOf(a: Answer, at: int): Reading {
    if a.err.NoError? then Reading(a.sample.value, at - a.sample.time) else ZERO
  }

  function PhaseOf(s: State, dim: Dimension): Phase {
    if dim.Queue? then s.queuePhase else s.kvPhase
  }

  function VarOf(s: State, dim: Dimension): Reading {
    if dim.Queue? then s.queue else s.kv
  }

  function WithPhase(s: State, dim: Dimension, p: Phase): State {
    if dim.Queue? then s.(queuePhase := p) else s.(kvPhase := p)
  }

  function WithVar(s: State, dim: Dimension, r: Reading): State {
    if dim.Queue? then s.(queue := r) else s.(kv := r)
  }

  function Init(): State {
    State(Querying, Querying, ZERO, ZERO, None, false)
  }

  function Apply(script: Script, missingIsError: bool, s: State, a: Action): State {
    match a
    case Deliver(dim, at) =>
      var answer := AnswerOf(script, dim);
      if !PhaseOf(s, dim).Querying? then s
      else if answer.err.NoError? then WithPhase(WithVar(s, dim, ReadingOf(answer, at)), dim, Exited)
      else if answer.err.Missing? && !missingIsError then WithPhase(s, dim, Exited)
      else WithPhase(s, dim, Failing(FromQuery(dim, answer.err)))
    case Abort(dim) =>
      if PhaseOf(s, dim).Querying? && s.cancelled then WithPhase(s, dim, Failing(FromGroupCancel(dim))) else s
    case Report(dim) =>
      if !PhaseOf(s, dim).Failing? then s
      else
        var kept := if s.firstErr.None? then Some(PhaseOf(s, dim).error) else s.firstErr;
        WithPhase(s, dim, Exited).(firstErr := kept)
    case CancelGroup => if s.firstErr.Some? then s.(cancelled := true) else s
  }

  function Run(script: Script, missingIsError: bool, schedule: seq<Action>): State {
    if schedule == [] then Init()
    else Apply(script, missingIsError, Run(script, missingIsError, schedule[..|schedule| - 1]),
      schedule[|schedule| - 1])
  }

  predicate Joined(s: State) {
    s.queuePhase.Exited? && s.kvPhase.Exited?
  }

  function Outcome(s: State, t: Thresholds): Result
    requires Joined(s)
  {
    if s.firstErr.Some? then Err(s.firstErr.value)
    else Ok(Score(s.queue.value, t.queue, s.kv.value, t.kv), s.queue.age, s.kv.age)
  }

  // What the answers alone determine: the score, or that there is an error.
  function Decide(t: Thresholds, script: Script): Option<real> {
    if Tolerated(script.queue, t.treatMissingAsError) && Tolerated(script.kv, t.treatMissingAsError)
    then Some(Score(ReadingOf(script.queue, 0).value, t.queue, ReadingOf(script.kv, 0).value, t.kv))
    else None
  }

  /******* Every schedule *******/

  // The instant at which a dimension's own answer was delivered in a schedule, if it was.
  predicate DeliveredAt(schedule: seq<Action>, dim: Dimension, at: int) {
    Deliver(dim, at) in schedule
  }

  ghost predicate GenuineError(script: Script, missingIsError: bool, e: GroupError) {
    e.FromQuery? && e.err == AnswerOf(script, e.dim).err && !Tolerated(AnswerOf(script, e.dim), missingIsError)
  }

  ghost predicate DimOk(script: Script, missingIsError: bool, schedule: seq<Action>, s: State, dim: Dimension) {
    match PhaseOf(s, dim)
    case Querying => VarOf(s, dim) == ZERO
    case Failing(e) => (if e.FromQuery? then e.dim == dim && GenuineError(script, missingIsError, e) else s.cancelled)
      && VarOf(s, dim) == ZERO
    case Exited =>
      || s.firstErr.Some?
      || (Tolerated(AnswerOf(script, dim), missingIsError)
          && exists at :: DeliveredAt(schedule, dim, at) && VarOf(s, dim) == ReadingOf(AnswerOf(script, dim), at))
  }

  // An error the group keeps is a query's own; the group is cancelled only after one was kept; and a
  // dimension whose own answer is not tolerated cannot exit without an error kept.
  ghost predicate Inv(script: Script, missingIsError: bool, schedule: seq<Action>, s: State) {
    && (s.firstErr.Some? ==> GenuineError(script, missingIsError, s.firstErr.value))
    && (s.cancelled ==> s.firstErr.Some?)
    && DimOk(script, missingIsError, schedule, s, Queue) && DimOk(script, missingIsError, schedule, s, KV)
  }

  lemma StepKeeps(script: Script, missingIsError: bool, before: seq<Action>, s: State, a: Action, dim: Dimension)
    requires Inv(script, missingIsError, before, s)
    ensures DimOk(script, missingIsError, before + [a], Apply(script, missingIsError, s, a), dim)
  {
    var s' := Apply(script, missingIsError, s, a);
    assert DimOk(script, missingIsError, before, s, dim);
    if s'.firstErr.None? && PhaseOf(s', dim).Exited? {
      if PhaseOf(s, dim).Exited? {
        var at :| DeliveredAt(before, dim, at) && VarOf(s, dim) == ReadingOf(AnswerOf(script, dim), at);
        assert DeliveredAt(before + [a], dim, at);
      } else {
        assert DeliveredAt(before + [a], dim, a.at);
      }
    }
  }

  lemma {:induction false} RunInv(script: Script, missingIsError: bool, schedule: seq<Action>)
    ensures Inv(script, missingIsError, schedule, Run(script, missingIsError, schedule))
  {
    if schedule != [] {
      var before, a := schedule[..|schedule| - 1], schedule[|schedule| - 1];
      RunInv(script, missingIsError, before);
      var s := Run(script, missingIsError, before);
      StepKeeps(script, missingIsError, before, s, a, Queue);
      StepKeeps(script, missingIsError, before, s, a, KV);
      assert before + [a] == schedule;
    }
  }

  // Whatever the schedule: once both goroutines are gone the call fails exactly when some dimension's own
  // outcome is not tolerated, with that dimension's own error and never one the group's cancellation caused;
  // otherwise the score depends on the answers alone and each age is measured where its answer arrived.
  lemma ScheduleDoesNotMatter(script: Script, t: Thresholds, schedule: seq<Action>)
    requires Joined(Run(script, t.treatMissingAsError, schedule))
    ensures var r := Outcome(Run(script, t.treatMissingAsError, schedule), t);
      && (r.Err? <==> Decide(t, script).None?)
      && (r.Err? ==> GenuineError(script, t.treatMissingAsError, r.error))
      && (r.Ok? ==> r.score == Decide(t, script).value)
      && (r.Ok? ==> exists qa :: DeliveredAt(schedule, Queue, qa) && r.queueAge == ReadingOf(script.queue, qa).age)
      && (r.Ok? ==> exists ka :: DeliveredAt(schedule, KV, ka) && r.kvAge == ReadingOf(script.kv, ka).age)
  {
    RunInv(script, t.treatMissingAsError, schedule);
    var s := Run(script, t.treatMissingAsError, schedule);
    assert DimOk(script, t.treatMissingAsError, schedule, s, Queue)
      && DimOk(script, t.treatMissingAsError, schedule, s, KV);
    if s.firstErr.None? {
      var qa :| DeliveredAt(schedule, Queue, qa) && s.queue == ReadingOf(script.queue, qa);
      var ka :| DeliveredAt(schedule, KV, ka) && s.kv == ReadingOf(script.kv, ka);
    }
  }

  // A query's outcome does not fail the decision: a value, or an absent series where that is tolerated.
  predicate Usable(e: Error, missingIsError: bool) {
    match e case NoError => true case Missing => !missingIsError case Canceled => false case Failed(_) => false
  }

  // The decision in terms of the two answers themselves: it succeeds exactly when both are usable, with the score of
  // the two sample values, an absent series counting as 0, and the ages of the two samples where they arrived.
  lemma DecisionOfAnswers(script: Script, t: Thresholds, schedule: seq<Action>)
    requires Joined(Run(script, t.treatMissingAsError, schedule))
    ensures var r := Outcome(Run(script, t.treatMissingAsError, schedule), t);
      && (r.Ok? <==> Usable(script.queue.err, t.treatMissingAsError) && Usable(script.kv.err, t.treatMissingAsError))
      && (r.Ok? ==>
            var x := if script.queue.err.NoError? then script.queue.sample.value else 0.0;
            var y := if script.kv.err.NoError? then script.kv.sample.value else 0.0;
            r.score == Score(x, t.queue, y, t.kv))
      && (r.Ok? ==> exists qa ::
            && DeliveredAt(schedule, Queue, qa)
            && r.queueAge == (if script.queue.err.NoError? then qa - script.queue.sample.time else 0))
      && (r.Ok? ==> exists ka ::
            && DeliveredAt(schedule, KV, ka)
            && r.kvAge == (if script.kv.err.NoError? then ka - script.kv.sample.time else 0))
  {
    ScheduleDoesNotMatter(script, t, schedule);
  }

  // Once an error is kept the group can cancel its context, and then, not before, the other query can end on it.
  lemma FirstErrorCancelsTheOther(script: Script, missingIsError: bool, s: State, dim: Dimension)
    requires PhaseOf(s, dim).Querying?
    ensures !s.cancelled ==> Apply(script, missingIsError, s, Abort(dim)) == s
    ensures s.firstErr.None? ==> Apply(script, missingIsError, s, CancelGroup) == s
    ensures s.firstErr.Some? ==>
      var s' := Apply(script, missingIsError, Apply(script, missingIsError, s, CancelGroup), Abort(dim));
      PhaseOf(s', dim) == Failing(FromGroupCancel(dim)) && s'.firstErr == s.firstErr
  {
  }

  // Moves a goroutine has left.
  function Work(p: Phase): nat {
    match p case Querying => 2 case Failing(_) => 1 case Exited => 0
  }

  function WorkLeft(s: State): nat {
    Work(s.queuePhase) + Work(s.kvPhase)
  }

  // Wait returns: until both goroutines are gone one of them can move, and no step ever adds work.
  lemma JoinIsReached(script: Script, missingIsError: bool, s: State) returns (a: Action)
    requires !Joined(s)
    ensures WorkLeft(Apply(script, missingIsError, s, a)) < WorkLeft(s)
    ensures forall b :: WorkLeft(Apply(script, missingIsError, s, b)) <= WorkLeft(s)
  {
    var dim := if s.queuePhase.Exited? then KV else Queue;
    a := if PhaseOf(s, dim).Querying? then Deliver(dim, 0) else Report(dim);
  }

  /******* IsActive and GetMetrics *******/

  // GetMetrics' float metric is the score; IsActive compares the score with the activation threshold.
  predicate IsActive(score: real, activation: real) {
    score > activation
  }

  // On equal answers the two endpoints agree, whatever the two schedules were.
  lemma EndpointsAgree(script: Script, t: Thresholds, activation: real, forActive: seq<Action>, forMetrics: seq<Action>)
    requires Joined(Run(script, t.treatMissingAsError, forActive))
      && Joined(Run(script, t.treatMissingAsError, forMetrics))
    ensures var a := Outcome(Run(script, t.treatMissingAsError, forActive), t);
      var m := Outcome(Run(script, t.treatMissingAsError, forMetrics), t);
      (a.Ok? <==> m.Ok?) && (a.Ok? ==> (IsActive(a.score, activation) <==> m.score > activation))
  {
    ScheduleDoesNotMatter(script, t, forActive);
    ScheduleDoesNotMatter(script, t, forMetrics);
  }
}
