// saturationFor read through the cache, against saturationFor on the bare source: the two Get calls of a
// decision overlap each other and any number of other calls.
module CachedDecision {
  import opened Metrics
  import F = Flights
  import T = FlightTheorems
  import J = ForkJoin

  // Every answered flight holds what the backend says about its query at the instant it answered, unless it
  // was cancelled.
  ghost predicate FromBackend(s: F.State, source: Backend)
    requires F.Shaped(s)
  {
    forall f :: 0 <= f < |s.flights| ==> FlightFromBackend(s, source, f)
  }

  ghost predicate FlightFromBackend(s: F.State, source: Backend, f: nat)
    requires F.Shaped(s) && f < |s.flights|
  {
    var st := s.flights[f].stage;
    !st.Asking? && !st.answer.err.Canceled? ==>
      st.answer == source(F.LeaderCall(s, f).addr, F.LeaderCall(s, f).query, st.answeredAt)
  }

  // The only thing asked of a step: a reply is the backend's own answer at that instant, or a cancellation.
  ghost predicate Honest(s: F.State, source: Backend, a: F.Action) {
    F.Shaped(s) && F.Enabled(s, a) && a.Reply? && !a.answer.err.Canceled? ==>
      var leader := F.LeaderCall(s, s.phases[a.id].flight);
      a.answer == source(leader.addr, leader.query, s.now)
  }

  lemma HonestStepKeeps(s: F.State, source: Backend, a: F.Action)
    requires F.Inv(s) && FromBackend(s, source) && Honest(s, source, a)
    ensures F.Inv(F.Apply(s, a)) && FromBackend(F.Apply(s, a), source)
  {
    F.ApplyKeeps(s, a);
    if F.Enabled(s, a) {
      var s' := F.Next(s, a);
      F.NextGrows(s, a);
      if a.Reply? { assert F.CallOk(s, a.id); }
      forall f | 0 <= f < |s'.flights| ensures FlightFromBackend(s', source, f) {
        if f < |s.flights| {
          assert F.FlightGrows(s.flights[f], s'.flights[f], s.now) && FlightFromBackend(s, source, f);
        }
      }
    }
  }

  ghost predicate HonestRun(start: int, actions: seq<F.Action>, source: Backend) {
    forall k :: 0 <= k < |actions| ==> Honest(F.Run(start, actions[..k]), source, actions[k])
  }

  lemma {:induction false} HonestRunIsFromBackend(start: int, actions: seq<F.Action>, source: Backend)
    requires HonestRun(start, actions, source)
    ensures F.Inv(F.Run(start, actions)) && FromBackend(F.Run(start, actions), source)
  {
    if actions != [] {
      var before := actions[..|actions| - 1];
      forall k | 0 <= k < |before| ensures Honest(F.Run(start, before[..k]), source, before[k]) {
        assert before[..k] == actions[..k];
      }
      HonestRunIsFromBackend(start, before, source);
      assert Honest(F.Run(start, actions[..|actions| - 1]), source, actions[|actions| - 1]);
      HonestStepKeeps(F.Run(start, before), source, actions[|actions| - 1]);
    }
  }

  // All calls of one cache key use one TTL, no address carries a NUL, and an answer is stored and handed on at most
  // `delay` after it was given.
  ghost predicate Uniform(s: F.State, delay: int)
    requires F.Shaped(s)
  {
    && T.OneTtlPerKey(s)
    && (forall i :: 0 <= i < |s.calls| ==> !HasNul(s.calls[i].addr))
    && (forall f :: 0 <= f < |s.flights| ==> HandedOnWithin(s.flights[f].stage, delay))
  }

  predicate HandedOnWithin(st: F.Stage, delay: int) {
    match st
    case Stored(_, at, u) => u - at <= delay
    case Landed(_, at, u, v) => u - at <= delay && v - at <= delay
    case _ => true
  }

  // A finished call may have got its answer from the backend since this instant.
  function Since(s: F.State, delay: int, id: nat): int
    requires F.Shaped(s) && T.Finished(s, id)
  {
    s.phases[id].via.at - (if s.calls[id].ttl > 0 then s.calls[id].ttl else 0) - delay
  }

  // Under every interleaving a finished call's answer is what the bare source says to the same
  // question at some instant from its TTL + delay before the call's lookup, or before it joined its flight,
  // to its return.
  lemma ReadIsDirect(s: F.State, source: Backend, delay: int, id: nat) returns (u: int)
    requires F.Reachable(s) && FromBackend(s, source) && Uniform(s, delay)
    requires T.Finished(s, id) && !s.phases[id].answer.err.Canceled?
    ensures Since(s, delay, id) <= u <= s.phases[id].returnedAt
    ensures s.phases[id].answer == source(s.calls[id].addr, s.calls[id].query, u)
  {
    F.ReachableInv(s);
    var f := s.phases[id].via.flight;
    assert F.CallOk(s, id) && F.FlightOk(s, f) && FlightFromBackend(s, source, f);
    T.AnswerIsOneUpstreamAnswer(s, id);
    assert HandedOnWithin(s.flights[f].stage, delay);
    u := s.flights[f].stage.answeredAt;
  }

  /******* A whole decision *******/

  // The series that call id reads did not change over the time its answer can come from.
  ghost predicate Steady(s: F.State, source: Backend, delay: int, id: nat)
    requires F.Shaped(s) && T.Finished(s, id)
  {
    forall u :: Since(s, delay, id) <= u <= s.phases[id].returnedAt ==>
      DirectAt(s, source, id, u) == DirectAt(s, source, id, s.phases[id].returnedAt)
  }

  function DirectAt(s: F.State, source: Backend, id: nat, at: int): Answer
    requires id < |s.calls|
  {
    source(s.calls[id].addr, s.calls[id].query, at)
  }

  // What the two calls returned.
  function CachedScript(s: F.State, i: nat, k: nat): J.Script
    requires F.Shaped(s) && T.Finished(s, i) && T.Finished(s, k)
  {
    J.Script(s.phases[i].answer, s.phases[k].answer)
  }

  // What the bare source says to their questions.
  function BareScript(s: F.State, source: Backend, i: nat, k: nat, qa: int, ka: int): J.Script
    requires i < |s.calls| && k < |s.calls|
  {
    J.Script(DirectAt(s, source, i, qa), DirectAt(s, source, k, ka))
  }

  // Calls i and k, however they overlapped each other and everybody else, are one decision's queue and KV
  // reads. The decision is the one that the bare source gives at two instants of the last TTL plus delay,
  // whatever the schedules of the goroutines on either side.
  lemma CachedDecisionIsDirect(s: F.State, source: Backend, delay: int, i: nat, k: nat, t: J.Thresholds,
                               cached: seq<J.Action>) returns (qa: int, ka: int)
    requires F.Reachable(s) && FromBackend(s, source) && Uniform(s, delay)
    requires T.Finished(s, i) && T.Finished(s, k)
    requires !s.phases[i].answer.err.Canceled? && !s.phases[k].answer.err.Canceled?
    requires J.Joined(J.Run(CachedScript(s, i, k), t.treatMissingAsError, cached))
    ensures Since(s, delay, i) <= qa <= s.phases[i].returnedAt
      && Since(s, delay, k) <= ka <= s.phases[k].returnedAt
    ensures var c := J.Outcome(J.Run(CachedScript(s, i, k), t.treatMissingAsError, cached), t);
      forall bare :: J.Joined(J.Run(BareScript(s, source, i, k, qa, ka), t.treatMissingAsError, bare)) ==>
        SameDecision(c, J.Outcome(J.Run(BareScript(s, source, i, k, qa, ka), t.treatMissingAsError, bare), t))
  {
    qa := ReadIsDirect(s, source, delay, i);
    ka := ReadIsDirect(s, source, delay, k);
    var script := BareScript(s, source, i, k, qa, ka);
    assert script == CachedScript(s, i, k);
    J.ScheduleDoesNotMatter(script, t, cached);
    forall bare | J.Joined(J.Run(script, t.treatMissingAsError, bare))
      ensures SameDecision(J.Outcome(J.Run(script, t.treatMissingAsError, cached), t),
        J.Outcome(J.Run(script, t.treatMissingAsError, bare), t))
    {
      J.ScheduleDoesNotMatter(script, t, bare);
    }
  }

  // Both failed, or both gave the same score.
  predicate SameDecision(a: J.Result, b: J.Result) {
    (a.Ok? <==> b.Ok?) && (a.Ok? && b.Ok? ==> a.score == b.score)
  }

  // If both series stood still over that time, it is the decision the bare source gives now.
  lemma SteadyDecisionIsDirect(s: F.State, source: Backend, delay: int, i: nat, k: nat, t: J.Thresholds,
                               cached: seq<J.Action>, bare: seq<J.Action>)
    requires F.Reachable(s) && FromBackend(s, source) && Uniform(s, delay)
    requires T.Finished(s, i) && T.Finished(s, k)
    requires !s.phases[i].answer.err.Canceled? && !s.phases[k].answer.err.Canceled?
    requires Steady(s, source, delay, i) && Steady(s, source, delay, k)
    requires J.Joined(J.Run(CachedScript(s, i, k), t.treatMissingAsError, cached))
    requires J.Joined(J.Run(BareScript(s, source, i, k, s.phases[i].returnedAt, s.phases[k].returnedAt),
      t.treatMissingAsError, bare))
    ensures SameDecision(J.Outcome(J.Run(CachedScript(s, i, k), t.treatMissingAsError, cached), t),
      J.Outcome(J.Run(BareScript(s, source, i, k, s.phases[i].returnedAt, s.phases[k].returnedAt),
        t.treatMissingAsError, bare), t))
  {
    var qa, ka := CachedDecisionIsDirect(s, source, delay, i, k, t, cached);
    assert DirectAt(s, source, i, qa) == DirectAt(s, source, i, s.phases[i].returnedAt);
    assert DirectAt(s, source, k, ka) == DirectAt(s, source, k, s.phases[k].returnedAt);
    assert BareScript(s, source, i, k, qa, ka)
      == BareScript(s, source, i, k, s.phases[i].returnedAt, s.phases[k].returnedAt);
  }
}
