// scaler.queryInstant composed with Health: each finished Get that brought a value or ErrMissing records
// a success, cache hits included, some time after it returned.
module Readiness {
  import opened Wrappers
  import opened Metrics
  import F = Flights
  import T = FlightTheorems
  import opened Observability

  // `recorder` is the call that recorded last.
  datatype State = State(sys: F.State, health: HealthState, recorded: set<nat>, recorder: Option<nat>)

  datatype Action = Sys(a: F.Action) | Record(id: nat)

  predicate MayRecord(q: State, id: nat) {
    F.Shaped(q.sys) && T.Finished(q.sys, id) && Cacheable(q.sys.phases[id].answer) && id !in q.recorded
  }

  function Apply(q: State, a: Action): State {
    match a
    case Sys(b) => q.(sys := F.Apply(q.sys, b))
    case Record(id) =>
      if MayRecord(q, id) then
        q.(health := Recorded(q.health, q.sys.now), recorded := q.recorded + {id}, recorder := Some(id))
      else q
  }

  function Run(start: int, window: int, actions: seq<Action>): State {
    if actions == [] then State(F.Init(start), NewHealth(window, start), {}, None)
    else Apply(Run(start, window, actions[..|actions| - 1]), actions[|actions| - 1])
  }

  lemma RunSnoc(start: int, window: int, actions: seq<Action>, a: Action)
    ensures Run(start, window, actions + [a]) == Apply(Run(start, window, actions), a)
  {
    assert (actions + [a])[..|actions|] == actions;
  }

  // queryInstant records a success, at the instant it does so, for a value and for ErrMissing and for nothing else.
  lemma RecordByOutcome(q: State, id: nat)
    requires F.Shaped(q.sys) && T.Finished(q.sys, id) && id !in q.recorded
    ensures var h := Apply(q, Record(id)).health;
      match q.sys.phases[id].answer.err
      case NoError => h == HealthState(q.health.window, q.health.startedAt, q.sys.now, true)
      case Missing => h == HealthState(q.health.window, q.health.startedAt, q.sys.now, true)
      case Canceled => h == q.health
      case Failed(_) => h == q.health
  {
  }

  // The last success was recorded by a finished call that had got an answer, and no earlier than it returned.
  ghost predicate RecordOk(q: State) {
    && F.Shaped(q.sys)
    && (q.health.hasOK ==> q.recorder.Some? && RecordedBy(q, q.recorder.value))
  }

  ghost predicate RecordedBy(q: State, id: nat)
    requires F.Shaped(q.sys)
  {
    && q.health.startedAt <= q.health.lastOK <= q.sys.now
    && T.Finished(q.sys, id) && Cacheable(q.sys.phases[id].answer) && q.sys.phases[id].returnedAt <= q.health.lastOK
  }

  lemma SysKeepsRecord(q: State, b: F.Action)
    requires F.Inv(q.sys) && RecordOk(q)
    ensures RecordOk(q.(sys := F.Apply(q.sys, b)))
  {
    if F.Enabled(q.sys, b) {
      F.NextGrows(q.sys, b);
      if q.health.hasOK { F.ReturnedStays(q.sys, b, q.recorder.value); }
    }
  }

  lemma {:induction false} RunKeeps(start: int, window: int, actions: seq<Action>)
    ensures var q := Run(start, window, actions);
      F.Inv(q.sys) && RecordOk(q) && q.health.window == window && q.health.startedAt == start <= q.sys.now
  {
    if actions != [] {
      var before, a := actions[..|actions| - 1], actions[|actions| - 1];
      RunKeeps(start, window, before);
      var q := Run(start, window, before);
      if a.Sys? {
        F.ApplyKeeps(q.sys, a.a);
        SysKeepsRecord(q, a.a);
        if F.Enabled(q.sys, a.a) { F.NextGrows(q.sys, a.a); }
      } else if MayRecord(q, a.id) {
        assert F.CallOk(q.sys, a.id);
      }
    }
  }

  function LaterOf(a: int, b: int): int {
    if a < b then b else a
  }

  // In every run, readiness is one comparison against the later of process start and last success.
  lemma ReadyIsOneComparison(start: int, window: int, actions: seq<Action>, t: int)
    ensures var h := Run(start, window, actions).health;
      ReadyAt(h, t) <==> t - (if h.hasOK then LaterOf(start, h.lastOK) else start) < window
  {
    RunKeeps(start, window, actions);
  }

  // The answer served by `via` is complete: stored, or its flight landed.
  predicate Complete(s: F.State, via: F.Via)
    requires F.Shaped(s) && via.flight < |s.flights|
  {
    var st := s.flights[via.flight].stage;
    st.Landed? || (via.FromCache? && st.Stored?)
  }

  // The instant it was complete.
  function CompletedAt(s: F.State, via: F.Via): int
    requires F.Shaped(s) && via.flight < |s.flights| && Complete(s, via)
  {
    var st := s.flights[via.flight].stage;
    if via.FromCache? then st.settledAt else if st.Landed? then st.landedAt else 0
  }

  // The instant it was served: the lookup that hit, or the landing of the flight.
  function ServedAt(s: F.State, via: F.Via): int
    requires F.Shaped(s) && via.flight < |s.flights| && Complete(s, via)
  {
    if via.FromCache? then via.at else CompletedAt(s, via)
  }

  // How much older than the serving the served answer may be.
  function Slack(s: F.State, via: F.Via): int
    requires F.Shaped(s) && via.flight < |s.flights|
  {
    if via.FromCache? then F.LeaderCall(s, via.flight).ttl else 0
  }

  // After any recorded success, Ready at t means the backend really gave an answer (value or ErrMissing)
  // that was complete less than window + storing TTL + serving-to-record delay before t, and given
  // its own answer-to-completion delay earlier.
  lemma ReadyMeansARecentAnswer(start: int, window: int, actions: seq<Action>, t: int)
    requires var q := Run(start, window, actions); q.health.hasOK && ReadyAt(q.health, t)
    ensures var q := Run(start, window, actions);
      && RecordOk(q)
      && var via := q.sys.phases[q.recorder.value].via;
         var st := q.sys.flights[via.flight].stage;
         && Complete(q.sys, via) && Successful(st.answer)
         && st.answeredAt <= CompletedAt(q.sys, via) <= ServedAt(q.sys, via) <= q.health.lastOK
         && t - CompletedAt(q.sys, via) < window + Slack(q.sys, via) + (q.health.lastOK - ServedAt(q.sys, via))
         && t - st.answeredAt < window + Slack(q.sys, via) + (q.health.lastOK - ServedAt(q.sys, via))
                                + (CompletedAt(q.sys, via) - st.answeredAt)
  {
    RunKeeps(start, window, actions);
    var q := Run(start, window, actions);
    assert F.CallOk(q.sys, q.recorder.value) && F.FlightOk(q.sys, q.sys.phases[q.recorder.value].via.flight);
  }

  /******* The window alone is not the bound *******/

  // Every answer (value or ErrMissing) the backend ever gave is at least `age` old at t; failures and
  // cancellations are no answers.
  ghost predicate AnswersAged(s: F.State, age: int, t: int) {
    forall f :: 0 <= f < |s.flights| && !s.flights[f].stage.Asking? && Successful(s.flights[f].stage.answer) ==>
      t - s.flights[f].stage.answeredAt >= age
  }

  // What health.go calls answering successfully.
  predicate Successful(a: Answer) {
    a.err.NoError? || a.err.Missing?
  }

  // From its last recorded success on, a process can be ready a window or more after every answer of the
  // backend if and only if the window is positive and every answer came before that record.
  lemma ReadyOutlivesAnswersIff(start: int, window: int, actions: seq<Action>)
    requires Run(start, window, actions).health.hasOK
    ensures var q := Run(start, window, actions);
      (exists t :: t >= q.health.lastOK && ReadyAt(q.health, t) && AnswersAged(q.sys, window, t))
      <==> window >= 1 && AnswersAged(q.sys, 1, q.health.lastOK)
  {
    RunKeeps(start, window, actions);
    var q := Run(start, window, actions);
    if window >= 1 && AnswersAged(q.sys, 1, q.health.lastOK) {
      assert ReadyAt(q.health, q.health.lastOK + window - 1)
        && AnswersAged(q.sys, window, q.health.lastOK + window - 1);
    }
  }

  // Ready although every answer the backend gave is older than the window by `excess`, in a process whose calls
  // all use one TTL.
  ghost predicate StaleReady(q: State, ttl: int, excess: nat, t: int) {
    && F.Shaped(q.sys) && q.health.hasOK && ReadyAt(q.health, t) && q.sys.now <= t
    && (forall i :: 0 <= i < |q.sys.calls| ==> q.sys.calls[i].ttl == ttl)
    && AnswersAged(q.sys, q.health.window + excess, t)
  }

  // The last success was recorded without delay: at the lookup that hit an entry stored when its answer
  // came, or else at the instant the answer came.
  ghost predicate Prompt(q: State) {
    && RecordOk(q) && q.health.hasOK
    && var via := q.sys.phases[q.recorder.value].via;
       var st := q.sys.flights[via.flight].stage;
       && Complete(q.sys, via)
       && if via.FromCache? then q.health.lastOK == via.at && st.settledAt == st.answeredAt
          else q.health.lastOK == st.answeredAt
  }

  // Caching alone stretches the window by any excess below the TTL and by no more.
  lemma StaleReadyIff(start: int, window: int, ttl: int, excess: nat)
    ensures (exists actions, t ::
               Prompt(Run(start, window, actions)) && StaleReady(Run(start, window, actions), ttl, excess, t))
       <==> window >= 1 && excess < ttl
  {
    if window >= 1 && excess < ttl {
      var actions := HitKeepsReady(start, window, ttl);
      assert StaleReady(Run(start, window, actions), ttl, excess, start + ttl + window - 1);
    } else if actions, t :|
        Prompt(Run(start, window, actions)) && StaleReady(Run(start, window, actions), ttl, excess, t) {
      StaleReadyNeedsCaching(start, window, actions, ttl, excess, t);
      assert false;
    }
  }

  lemma StaleReadyNeedsCaching(start: int, window: int, actions: seq<Action>, ttl: int, excess: nat, t: int)
    requires Prompt(Run(start, window, actions)) && StaleReady(Run(start, window, actions), ttl, excess, t)
    ensures window >= 1 && excess < ttl
  {
    RunKeeps(start, window, actions);
    var q := Run(start, window, actions);
    var f := q.sys.phases[q.recorder.value].via.flight;
    assert F.CallOk(q.sys, q.recorder.value) && F.FlightOk(q.sys, f);
    assert t - q.sys.flights[f].stage.answeredAt >= window + excess;
  }

  // Delay does it too: between the answer and the record the program can be preempted for any time, so with or
  // without caching any excess is possible under any positive window.
  lemma DelayedStaleReadyIff(start: int, window: int, ttl: int, excess: nat)
    ensures (exists actions, t :: StaleReady(Run(start, window, actions), ttl, excess, t)) <==> window >= 1
  {
    if window >= 1 {
      var actions := LateRecordKeepsReady(start, window, ttl, excess + 1);
      assert StaleReady(Run(start, window, actions), ttl, excess, start + excess + window);
    } else if actions, t :| StaleReady(Run(start, window, actions), ttl, excess, t) {
      RunKeeps(start, window, actions);
      assert false;
    }
  }

  // A run of the inner system is a run of the whole.
  lemma {:induction false} Lift(start: int, window: int, inner: seq<F.Action>) returns (actions: seq<Action>)
    ensures Run(start, window, actions) == State(F.Run(start, inner), NewHealth(window, start), {}, None)
  {
    if inner == [] {
      actions := [];
    } else {
      actions := Lift(start, window, inner[..|inner| - 1]);
      RunSnoc(start, window, actions, Sys(inner[|inner| - 1]));
      actions := actions + [Sys(inner[|inner| - 1])];
    }
  }

  function HitState(start: int, ttl: int): F.State {
    var key, answer := CacheKey("", ""), Answer(Sample(0.0, 0), NoError);
    F.State(start + ttl,
      [F.Call("", "", ttl, 0, start, key), F.Call("", "", ttl, 0, start + ttl, key)],
      [F.Returned(answer, F.FromFlight(0, start), start), F.Returned(answer, F.FromCache(0, start + ttl), start + ttl)],
      [F.Flight(0, start, start, F.Landed(answer, start, start, start))],
      map[], map[key := Entry(answer, start + ttl)], map[key := 0], {})
  }

  function SecondCallBegun(start: int, ttl: int): F.State {
    HitState(start, ttl).(phases := [HitState(start, ttl).phases[0], F.Begun])
  }

  function FirstFetched(start: int, ttl: int): F.State {
    T.Fetched(T.OneMissed(start, "", "", ttl), 0, Answer(Sample(0.0, 0), NoError), 0, 0)
  }

  // The state after the first call, spelled out.
  function OneEntry(start: int, ttl: int, now: int): F.State {
    var s := HitState(start, ttl);
    s.(now := now, calls := [s.calls[0]], phases := [s.phases[0]])
  }

  lemma FirstFetchedIs(start: int, ttl: int)
    requires ttl >= 1
    ensures FirstFetched(start, ttl) == OneEntry(start, ttl, start)
  {
  }

  lemma TickPasses(start: int, ttl: nat)
    ensures F.Apply(OneEntry(start, ttl, start), F.Tick(ttl)) == OneEntry(start, ttl, start + ttl)
  {
  }

  lemma SecondCallBegins(start: int, ttl: nat)
    ensures F.Apply(OneEntry(start, ttl, start + ttl), F.Begin("", "", ttl, 0)) == SecondCallBegun(start, ttl)
  {
  }

  lemma SecondCallHits(start: int, ttl: nat)
    requires ttl >= 1
    ensures F.Apply(SecondCallBegun(start, ttl), F.LookUp(1)) == HitState(start, ttl)
  {
  }

  lemma ReachHit(start: int, ttl: nat) returns (actions: seq<F.Action>)
    requires ttl >= 1
    ensures F.Run(start, actions) == HitState(start, ttl)
  {
    actions := T.SoloFetch(start, "", "", ttl, Answer(Sample(0.0, 0), NoError));
    FirstFetchedIs(start, ttl);
    TickPasses(start, ttl);
    F.RunSnoc(start, actions, F.Tick(ttl)); actions := actions + [F.Tick(ttl)];
    SecondCallBegins(start, ttl);
    F.RunSnoc(start, actions, F.Begin("", "", ttl, 0)); actions := actions + [F.Begin("", "", ttl, 0)];
    SecondCallHits(start, ttl);
    F.RunSnoc(start, actions, F.LookUp(1)); actions := actions + [F.LookUp(1)];
  }

  lemma HitKeepsReady(start: int, window: int, ttl: int) returns (actions: seq<Action>)
    requires ttl >= 1
    ensures Run(start, window, actions)
         == State(HitState(start, ttl), HealthState(window, start, start + ttl, true), {1}, Some(1))
    ensures Prompt(Run(start, window, actions))
  {
    var inner := ReachHit(start, ttl);
    actions := Lift(start, window, inner);
    RunSnoc(start, window, actions, Record(1));
    actions := actions + [Record(1)];
  }

  lemma LateRecordKeepsReady(start: int, window: int, ttl: int, delay: nat) returns (actions: seq<Action>)
    ensures var fetched := T.Fetched(T.OneMissed(start, "", "", ttl), 0, Answer(Sample(0.0, 0), NoError), 0, 0);
      Run(start, window, actions)
      == State(fetched.(now := start + delay), HealthState(window, start, start + delay, true), {0}, Some(0))
  {
    var fetched := T.Fetched(T.OneMissed(start, "", "", ttl), 0, Answer(Sample(0.0, 0), NoError), 0, 0);
    var inner := T.SoloFetch(start, "", "", ttl, Answer(Sample(0.0, 0), NoError));
    actions := Lift(start, window, inner);
    RunSnoc(start, window, actions, Sys(F.Tick(delay)));
    actions := actions + [Sys(F.Tick(delay))];
    assert Run(start, window, actions) == State(fetched.(now := start + delay), NewHealth(window, start), {}, None);
    RunSnoc(start, window, actions, Record(0));
    actions := actions + [Record(0)];
  }
}
