// What every decision of every run is: the bare source's decision a little earlier, with ages that never reset,
// or a failure that some query, or some abandoned request, caused.
module DecisionTheorems {
  import opened Wrappers
  import opened Metrics
  import F = Flights
  import T = FlightTheorems
  import C = CachedDecision
  import J = ForkJoin
  import opened Decisions

  predicate Decided(q: State, g: nat) {
    g < |q.groups| && J.Joined(q.groups[g].join)
  }

  function OutcomeOf(q: State, g: nat): J.Result
    requires Decided(q, g)
  {
    J.Outcome(q.groups[g].join, q.groups[g].conf.t)
  }

  function BareScript(c: Conf, source: Backend, qa: int, ka: int): J.Script {
    J.Script(source(c.addr, c.queueQuery, qa), source(c.addr, c.kvQuery, ka))
  }

  // Each decision asks its own two questions, with its own TTL and under its own group's context.
  lemma CallsOfDecision(q: State, g: nat)
    requires Reachable(q) && g < |q.groups|
    ensures |q.sys.calls| == 2 * |q.groups|
    ensures var c, queue, kv := q.groups[g].conf, q.sys.calls[2 * g], q.sys.calls[2 * g + 1];
      && queue.addr == c.addr && queue.query == c.queueQuery && queue.ttl == c.ttl && queue.ctx == g
      && kv.addr == c.addr && kv.query == c.kvQuery && kv.ttl == c.ttl && kv.ctx == g
  {
    ReachableInv(q);
    assert CallFits(q, g, J.Queue) && CallFits(q, g, J.KV);
  }

  // A kept error, both goroutines being gone and an abandoned request each end the group's context, and nothing
  // else touches a context.
  lemma WhatEndsAContext(q: State, a: Action, g: nat)
    requires Inv(q)
    ensures g in Apply(q, a).sys.cancelled <==>
      || g in q.sys.cancelled
      || (g < |q.groups| && a == CancelGroup(g) && q.groups[g].join.firstErr.Some?)
      || (g < |q.groups| && a == WaitReturns(g)
          && q.groups[g].join.queuePhase.Exited? && q.groups[g].join.kvPhase.Exited?)
      || (g < |q.groups| && a == Abandon(g))
  {
    match a
    case Sys(b) => SysStepGrows(q.sys, b);
    case Start(conf) => TwoBegins(q, conf);
    case _ =>
  }

  /******* Scores *******/

  lemma SuccessCollectedBoth(q: State, g: nat) returns (qat: int, kat: int)
    requires Inv(q) && Decided(q, g) && OutcomeOf(q, g).Ok?
    ensures J.DeliveredAt(q.groups[g].log, J.Queue, qat) && DeliveryOk(q.sys, g, J.Queue, qat)
    ensures J.DeliveredAt(q.groups[g].log, J.KV, kat) && DeliveryOk(q.sys, g, J.KV, kat)
    ensures var r, s := OutcomeOf(q, g), ScriptOf(q.sys, g);
      && J.Decide(q.groups[g].conf.t, s) == Some(r.score)
      && r.queueAge == J.ReadingOf(s.queue, qat).age && r.kvAge == J.ReadingOf(s.kv, kat).age
  {
    var d, script := q.groups[g], ScriptOf(q.sys, g);
    assert GroupOk(q, g);
    J.ScheduleDoesNotMatter(script, d.conf.t, d.log);
    var r := OutcomeOf(q, g);
    qat :| J.DeliveredAt(d.log, J.Queue, qat) && r.queueAge == J.ReadingOf(script.queue, qat).age;
    kat :| J.DeliveredAt(d.log, J.KV, kat) && r.kvAge == J.ReadingOf(script.kv, kat).age;
  }

  // In every run, however the decisions interleave, a decision that succeeds has the score that the
  // bare source gives for its two queries, each asked at some instant from its TTL + delay before that query's
  // lookup (or joining of a flight) to its return.
  lemma DecisionIsDirect(q: State, source: Backend, delay: int, g: nat) returns (qa: int, ka: int)
    requires Reachable(q) && C.FromBackend(q.sys, source) && C.Uniform(q.sys, delay)
    requires Decided(q, g) && OutcomeOf(q, g).Ok?
    ensures T.Finished(q.sys, 2 * g) && C.Since(q.sys, delay, 2 * g) <= qa <= q.sys.phases[2 * g].returnedAt
    ensures T.Finished(q.sys, 2 * g + 1)
      && C.Since(q.sys, delay, 2 * g + 1) <= ka <= q.sys.phases[2 * g + 1].returnedAt
    ensures var c := q.groups[g].conf; J.Decide(c.t, BareScript(c, source, qa, ka)) == Some(OutcomeOf(q, g).score)
  {
    ReachableInv(q);
    var qat, kat := SuccessCollectedBoth(q, g);
    assert CallFits(q, g, J.Queue) && CallFits(q, g, J.KV);
    qa := C.ReadIsDirect(q.sys, source, delay, 2 * g);
    ka := C.ReadIsDirect(q.sys, source, delay, 2 * g + 1);
  }

  // A decision that fails, other than by a cancellation its query returned, fails with the error that the bare
  // source gives for that query at such an instant, and that error is not tolerated.
  lemma FailureIsDirect(q: State, source: Backend, delay: int, g: nat) returns (dim: J.Dimension, u: int)
    requires Reachable(q) && C.FromBackend(q.sys, source) && C.Uniform(q.sys, delay)
    requires Decided(q, g) && OutcomeOf(q, g).Err? && !KeptCancellation(q, g)
    ensures var id := CallOf(g, dim);
      T.Finished(q.sys, id) && C.Since(q.sys, delay, id) <= u <= q.sys.phases[id].returnedAt
    ensures var c := q.groups[g].conf; var a := source(c.addr, QueryOf(c, dim), u);
      OutcomeOf(q, g).error == J.FromQuery(dim, a.err) && !J.Tolerated(a, c.t.treatMissingAsError)
  {
    ReachableInv(q);
    var d, script := q.groups[g], ScriptOf(q.sys, g);
    assert GroupOk(q, g);
    J.RunInv(script, d.conf.t.treatMissingAsError, d.log);
    ErrorWasDelivered(script, d.conf.t.treatMissingAsError, d.log);
    dim := d.join.firstErr.value.dim;
    var at :| J.DeliveredAt(d.log, dim, at);
    assert DeliveryOk(q.sys, g, dim, at) && CallFits(q, g, dim);
    u := C.ReadIsDirect(q.sys, source, delay, CallOf(g, dim));
  }

  /******* Ages *******/

  function AgeOf(r: J.Result, dim: J.Dimension): int
    requires r.Ok?
  {
    if dim.Queue? then r.queueAge else r.kvAge
  }

  // Call id was a hit on an entry that flight f wrote.
  predicate HitOn(s: F.State, id: nat, f: nat) {
    F.Shaped(s) && T.Finished(s, id) && s.phases[id].via.FromCache? && s.phases[id].via.flight == f
  }

  // The age a decision reports is measured when its goroutine took the answer, at `at`: the age at the store plus
  // all the time since, so at most the age at the store plus the storing TTL plus the time from lookup to
  // measurement. A tolerated missing series reports 0.
  lemma ReportedAge(q: State, g: nat, dim: J.Dimension, f: nat) returns (at: int)
    requires Reachable(q) && Decided(q, g) && OutcomeOf(q, g).Ok? && HitOn(q.sys, CallOf(g, dim), f)
    ensures J.DeliveredAt(q.groups[g].log, dim, at) && q.sys.phases[CallOf(g, dim)].returnedAt <= at <= q.sys.now
    ensures F.Wrote(q.sys, f)
    ensures var st, age := q.sys.flights[f].stage, AgeOf(OutcomeOf(q, g), dim);
      if st.answer.err.Missing? then age == 0
      else
        && age == T.Age(st.answer, st.settledAt) + (at - st.settledAt)
        && age <= T.Age(st.answer, st.settledAt) + F.LeaderCall(q.sys, f).ttl
                  + (at - q.sys.phases[CallOf(g, dim)].via.at)
  {
    ReachableInv(q);
    var qat, kat := SuccessCollectedBoth(q, g);
    at := if dim.Queue? then qat else kat;
    assert F.CallOk(q.sys, CallOf(g, dim));
  }

  // Two decisions, of any configurations, that read one cache entry report ages that differ by exactly the time
  // between their measurements.
  lemma ReportedAgesNeverReset(q: State, g: nat, d: J.Dimension, h: nat, e: J.Dimension, f: nat)
    returns (at: int, later: int)
    requires Reachable(q) && Decided(q, g) && OutcomeOf(q, g).Ok? && HitOn(q.sys, CallOf(g, d), f)
    requires Decided(q, h) && OutcomeOf(q, h).Ok? && HitOn(q.sys, CallOf(h, e), f)
    ensures J.DeliveredAt(q.groups[g].log, d, at) && J.DeliveredAt(q.groups[h].log, e, later)
    ensures F.Wrote(q.sys, f)
    ensures AgeOf(OutcomeOf(q, h), e) - AgeOf(OutcomeOf(q, g), d)
         == if q.sys.flights[f].stage.answer.err.Missing? then 0 else later - at
  {
    at := ReportedAge(q, g, d, f);
    later := ReportedAge(q, h, e, f);
  }

  /******* The backend's answers *******/

  ghost predicate HonestStep(q: State, source: Backend, a: Action) {
    a.Sys? ==> C.Honest(q.sys, source, a.a)
  }

  // If the backend only ever gives its own answers, every flight of every run holds one.
  lemma {:induction false} HonestRunIsFromBackend(start: int, actions: seq<Action>, source: Backend)
    requires forall k :: 0 <= k < |actions| ==> HonestStep(Run(start, actions[..k]), source, actions[k])
    ensures Reachable(Run(start, actions)) && C.FromBackend(Run(start, actions).sys, source)
  {
    RunInv(start, actions);
    if actions != [] {
      var before, a := actions[..|actions| - 1], actions[|actions| - 1];
      forall k | 0 <= k < |before| ensures HonestStep(Run(start, before[..k]), source, before[k]) {
        assert before[..k] == actions[..k];
      }
      HonestRunIsFromBackend(start, before, source);
      assert HonestStep(Run(start, actions[..|actions| - 1]), source, a);
      RunInv(start, before);
      HonestApply(Run(start, before), source, a);
    }
  }

  lemma HonestApply(q: State, source: Backend, a: Action)
    requires Inv(q) && C.FromBackend(q.sys, source) && HonestStep(q, source, a)
    ensures F.Shaped(Apply(q, a).sys) && C.FromBackend(Apply(q, a).sys, source)
  {
    match a
    case Sys(b) => C.HonestStepKeeps(q.sys, source, b);
    case Start(conf) =>
      C.HonestStepKeeps(q.sys, source, BeginFor(q, conf, J.Queue));
      C.HonestStepKeeps(F.Apply(q.sys, BeginFor(q, conf, J.Queue)), source, BeginFor(q, conf, J.KV));
    case CancelGroup(g) => C.HonestStepKeeps(q.sys, source, F.Cancel(g));
    case WaitReturns(g) => C.HonestStepKeeps(q.sys, source, F.Cancel(g));
    case Abandon(g) => C.HonestStepKeeps(q.sys, source, F.Cancel(g));
    case _ =>
  }

  /******* Cancellations *******/

  // Decision g's first error, which settles that it fails, is a cancellation its query returned.
  predicate KeptCancellation(q: State, g: nat) {
    g < |q.groups| && q.groups[g].join.firstErr.Some? && q.groups[g].join.firstErr.value.FromQuery?
    && q.groups[g].join.firstErr.value.err.Canceled?
  }

  // A group's query errors come from answers its goroutines took.
  lemma {:induction false} ErrorWasDelivered(script: J.Script, m: bool, log: seq<J.Action>)
    ensures var s := J.Run(script, m, log);
      && (forall dim :: ErrorDelivered(log, J.PhaseOf(s, dim)))
      && (s.firstErr.Some? && s.firstErr.value.FromQuery? ==> exists at :: J.DeliveredAt(log, s.firstErr.value.dim, at))
  {
    if log != [] {
      var before, a := log[..|log| - 1], log[|log| - 1];
      ErrorWasDelivered(script, m, before);
      var s, s' := J.Run(script, m, before), J.Run(script, m, log);
      forall dim, at | J.DeliveredAt(before, dim, at) ensures J.DeliveredAt(log, dim, at) {
      }
      forall dim ensures ErrorDelivered(log, J.PhaseOf(s', dim)) {
        assert ErrorDelivered(before, J.PhaseOf(s, dim));
        if a.Deliver? { assert J.DeliveredAt(log, a.dim, a.at); }
      }
      if a.Report? { assert ErrorDelivered(before, J.PhaseOf(s, a.dim)); }
    }
  }

  ghost predicate ErrorDelivered(log: seq<J.Action>, p: J.Phase) {
    p.Failing? && p.error.FromQuery? ==> exists at :: J.DeliveredAt(log, p.error.dim, at)
  }

  // The cancelled answer was shared: its flight was led under another decision's context, now cancelled.
  ghost predicate LedByAnother(q: State, g: nat, dim: J.Dimension) {
    F.Shaped(q.sys) && T.Finished(q.sys, CallOf(g, dim))
    && var led := F.LeaderCall(q.sys, q.sys.phases[CallOf(g, dim)].via.flight);
       q.sys.phases[CallOf(g, dim)].via.FromFlight? && led.ctx != g && led.ctx in q.sys.cancelled
  }

  ghost predicate Explained(q: State, g: nat) {
    g < |q.groups| && KeptCancellation(q, g) && g !in q.gone ==> LedByAnother(q, g, q.groups[g].join.firstErr.value.dim)
  }

  // Decision r failed on an answer that was no cancellation.
  predicate FailedAlone(q: State, r: nat) {
    r < |q.groups| && q.groups[r].join.firstErr.Some? && q.groups[r].join.firstErr.value.FromQuery?
    && !q.groups[r].join.firstErr.value.err.Canceled?
  }

  // Where cancellations come from: an abandoned request, or a failure of that kind.
  predicate Source(q: State, r: nat) {
    r < |q.groups| && (r in q.gone || FailedAlone(q, r))
  }

  predicate ShareQuery(a: Conf, d: J.Dimension, b: Conf, e: J.Dimension) {
    KeyOf(a, d) == KeyOf(b, e)
  }

  // From one decision, over its query `out`, to decision `to`, whose query `into` has the same cache key.
  datatype Hop = Hop(out: J.Dimension, to: nat, into: J.Dimension)

  // The k-th decision on the way from r.
  function Vertex(r: nat, hops: seq<Hop>, k: nat): nat
    requires k <= |hops|
  {
    if k == 0 then r else hops[k - 1].to
  }

  predicate HopOk(confs: seq<Conf>, r: nat, hops: seq<Hop>, k: nat)
    requires k < |hops|
  {
    && Vertex(r, hops, k) < |confs| && hops[k].to < |confs|
    && ShareQuery(confs[Vertex(r, hops, k)], hops[k].out, confs[hops[k].to], hops[k].into)
  }

  predicate Path(confs: seq<Conf>, r: nat, hops: seq<Hop>, v: nat) {
    r < |confs| && Vertex(r, hops, |hops|) == v && forall k :: 0 <= k < |hops| ==> HopOk(confs, r, hops, k)
  }

  // v can be reached from r over queries that decisions have in common.
  ghost predicate Linked(confs: seq<Conf>, r: nat, v: nat) {
    exists hops :: Path(confs, r, hops, v)
  }

  function Confs(q: State): seq<Conf> {
    seq(|q.groups|, i requires 0 <= i < |q.groups| => q.groups[i].conf)
  }

  ghost predicate Rooted(q: State, g: nat) {
    exists r :: Source(q, r) && Linked(Confs(q), r, g)
  }

  ghost predicate CancelInv(q: State) {
    && (forall g :: 0 <= g < |q.groups| ==> Explained(q, g))
    && (forall g :: KeptCancellation(q, g) ==> Rooted(q, g))
  }

  lemma Itself(q: State, g: nat)
    requires Source(q, g)
    ensures Rooted(q, g)
  {
    assert Path(Confs(q), g, [], g);
  }

  lemma OneHopOn(q: State, h: nat, e: J.Dimension, g: nat, dim: J.Dimension)
    requires Rooted(q, h) && h < |q.groups| && g < |q.groups|
    requires ShareQuery(q.groups[h].conf, e, q.groups[g].conf, dim)
    ensures Rooted(q, g)
  {
    var r :| Source(q, r) && Linked(Confs(q), r, h);
    var hops :| Path(Confs(q), r, hops, h);
    var more := hops + [Hop(e, g, dim)];
    forall k | 0 <= k < |more| ensures HopOk(Confs(q), r, more, k) {
      if k < |hops| { assert HopOk(Confs(q), r, hops, k) && Vertex(r, more, k) == Vertex(r, hops, k); }
    }
    assert Path(Confs(q), r, more, g);
  }

  // When a live group keeps its first error, and that is a cancellation, the leader's context was another's.
  lemma KeepingACancellation(q: State, g: nat, dim: J.Dimension)
    requires Inv(q) && g < |q.groups| && g !in q.gone && q.groups[g].join.firstErr.None?
    requires KeptCancellation(Apply(q, Report(g, dim)), g)
    ensures LedByAnother(q, g, dim) && Apply(q, Report(g, dim)).groups[g].join.firstErr.value.dim == dim
    ensures q.sys.phases[CallOf(g, dim)].answer.err.Canceled?
  {
    var d, m, script := q.groups[g], q.groups[g].conf.t.treatMissingAsError, ScriptOf(q.sys, g);
    assert GroupOk(q, g);
    ErrorWasDelivered(script, m, d.log);
    J.RunInv(script, m, d.log);
    assert J.DimOk(script, m, d.log, d.join, dim) && ErrorDelivered(d.log, J.PhaseOf(d.join, dim));
    var at :| J.DeliveredAt(d.log, dim, at);
    assert DeliveryOk(q.sys, g, dim, at);
    var id := CallOf(g, dim);
    assert q.sys.phases[id].answer.err.Canceled?;
    assert F.CallOk(q.sys, id) && F.FlightOk(q.sys, q.sys.phases[id].via.flight);
    assert FlightCause(q, q.sys.phases[id].via.flight);
  }

  lemma SysSideGrows(q: State, a: Action)
    requires Inv(q)
    ensures SysGrows(q.sys, Apply(q, a).sys)
  {
    SysRefl(q.sys);
    match a
    case Sys(b) => SysStepGrows(q.sys, b);
    case Start(conf) => TwoBegins(q, conf);
    case CancelGroup(g) => SysStepGrows(q.sys, F.Cancel(g));
    case WaitReturns(g) => SysStepGrows(q.sys, F.Cancel(g));
    case Abandon(g) => SysStepGrows(q.sys, F.Cancel(g));
    case _ =>
  }

  // A first error, once kept, stays; only Report can keep one.
  lemma FirstErrorStays(q: State, a: Action, g: nat)
    requires g < |q.groups|
    ensures var q' := Apply(q, a);
      && g < |q'.groups| && q.gone <= q'.gone
      && (q.groups[g].join.firstErr.Some? ==> q'.groups[g].join.firstErr == q.groups[g].join.firstErr)
      && (q'.groups[g].join.firstErr != q.groups[g].join.firstErr ==> a.Report? && a.g == g)
  {
  }

  lemma ExplanationStays(q: State, q': State, g: nat, dim: J.Dimension)
    requires LedByAnother(q, g, dim) && SysGrows(q.sys, q'.sys)
    ensures LedByAnother(q', g, dim)
  {
    assert PhaseStays(q.sys, q'.sys, CallOf(g, dim));
  }

  lemma CancelStepKeeps(q: State, a: Action)
    requires Inv(q) && CancelInv(q)
    ensures CancelInv(Apply(q, a))
  {
    var q' := Apply(q, a);
    SysSideGrows(q, a);
    forall g | 0 <= g < |q'.groups| && KeptCancellation(q', g) ensures Explained(q', g) && Rooted(q', g) {
      if g < |q.groups| {
        FirstErrorStays(q, a, g);
        if q.groups[g].join.firstErr.Some? {
          assert Explained(q, g) && KeptCancellation(q, g);
          if g !in q'.gone { ExplanationStays(q, q', g, q.groups[g].join.firstErr.value.dim); }
          RootStays(q, a, g);
        } else if g in q.gone {
          Itself(q, g);
          RootStays(q, a, g);
        } else {
          KeepingACancellation(q, g, a.dim);
          ExplanationStays(q, q', g, a.dim);
          LeaderHasRoot(q, g, a.dim);
          RootStays(q, a, g);
        }
      }
    }
  }

  lemma RootStays(q: State, a: Action, g: nat)
    requires Rooted(q, g)
    ensures Rooted(Apply(q, a), g)
  {
    var q' := Apply(q, a);
    var r :| Source(q, r) && Linked(Confs(q), r, g);
    var hops :| Path(Confs(q), r, hops, g);
    FirstErrorStays(q, a, r);
    ConfsGrow(q, a);
    forall k | 0 <= k < |hops| ensures HopOk(Confs(q'), r, hops, k) { assert HopOk(Confs(q), r, hops, k); }
    assert Source(q', r) && Path(Confs(q'), r, hops, g);
  }

  lemma ConfsGrow(q: State, a: Action)
    ensures Confs(q) <= Confs(Apply(q, a))
  {
  }

  // Who led the flight behind a shared cancellation.
  lemma LeaderShares(q: State, g: nat, dim: J.Dimension) returns (h: nat, e: J.Dimension)
    requires Inv(q) && g < |q.groups| && LedByAnother(q, g, dim) && q.sys.phases[CallOf(g, dim)].answer.err.Canceled?
    ensures h != g && h < |q.groups| && h in q.sys.cancelled && FailedOrGone(q, h)
    ensures ShareQuery(q.groups[h].conf, e, q.groups[g].conf, dim)
    ensures q.sys.flights[q.sys.phases[CallOf(g, dim)].via.flight].leader == CallOf(h, e)
  {
    var id := CallOf(g, dim);
    var f := q.sys.phases[id].via.flight;
    var leader := q.sys.flights[f].leader;
    h := leader / 2;
    e := if leader % 2 == 0 then J.Queue else J.KV;
    assert leader == CallOf(h, e);
    assert CallFits(q, h, e) && CallFits(q, g, dim) && FlightCause(q, f);
    assert F.CallOk(q.sys, id) && F.KeyOk(q.sys.calls[id]) && F.KeyOk(q.sys.calls[leader]);
  }

  lemma LeaderHasRoot(q: State, g: nat, dim: J.Dimension)
    requires Inv(q) && CancelInv(q) && g < |q.groups| && LedByAnother(q, g, dim)
    requires q.sys.phases[CallOf(g, dim)].answer.err.Canceled?
    ensures Rooted(q, g)
  {
    var h, e := LeaderShares(q, g, dim);
    if !KeptCancellation(q, h) {
      assert GroupOk(q, h);
      J.RunInv(ScriptOf(q.sys, h), q.groups[h].conf.t.treatMissingAsError, q.groups[h].log);
      Itself(q, h);
    }
    OneHopOn(q, h, e, g, dim);
  }

  lemma {:induction false} RunCancelInv(start: int, actions: seq<Action>)
    ensures CancelInv(Run(start, actions))
  {
    if actions != [] {
      RunInv(start, actions[..|actions| - 1]);
      RunCancelInv(start, actions[..|actions| - 1]);
      CancelStepKeeps(Run(start, actions[..|actions| - 1]), actions[|actions| - 1]);
    }
  }

  // A decision whose own request is live fails with a cancellation only because it shared a flight with another
  // decision: that one asks a query with the same cache key, and its context is cancelled because its
  // request was abandoned or because it had failed itself.
  lemma CanceledVerdictIsAnothers(q: State, g: nat) returns (h: nat, e: J.Dimension)
    requires Reachable(q) && KeptCancellation(q, g) && g !in q.gone
    ensures h != g && h < |q.groups| && h in q.sys.cancelled && (h in q.gone || q.groups[h].join.firstErr.Some?)
    ensures ShareQuery(q.groups[h].conf, e, q.groups[g].conf, q.groups[g].join.firstErr.value.dim)
    ensures var id := CallOf(g, q.groups[g].join.firstErr.value.dim);
      T.Finished(q.sys, id) && q.sys.flights[q.sys.phases[id].via.flight].leader == CallOf(h, e)
  {
    ReachableInv(q);
    var start: int, actions: seq<Action> :| q == Run(start, actions);
    RunCancelInv(start, actions);
    assert Explained(q, g);
    KeptWasReturned(q, g);
    h, e := LeaderShares(q, g, q.groups[g].join.firstErr.value.dim);
  }

  lemma KeptWasReturned(q: State, g: nat)
    requires Inv(q) && KeptCancellation(q, g)
    ensures var id := CallOf(g, q.groups[g].join.firstErr.value.dim);
      T.Finished(q.sys, id) && q.sys.phases[id].answer.err.Canceled?
  {
    var d, m, script := q.groups[g], q.groups[g].conf.t.treatMissingAsError, ScriptOf(q.sys, g);
    assert GroupOk(q, g);
    ErrorWasDelivered(script, m, d.log);
    J.RunInv(script, m, d.log);
    var at :| J.DeliveredAt(d.log, d.join.firstErr.value.dim, at);
    assert DeliveryOk(q.sys, g, d.join.firstErr.value.dim, at);
  }

  // Such failures always have a root, however many decisions pass them on: an abandoned request, or a decision that
  // failed on an answer other than a cancellation, from which queries in common lead all the way.
  lemma CancellationHasARoot(q: State, g: nat)
    requires Reachable(q) && KeptCancellation(q, g)
    ensures exists r :: Source(q, r) && Linked(Confs(q), r, g)
  {
    var start: int, actions: seq<Action> :| q == Run(start, actions);
    RunCancelInv(start, actions);
    assert Rooted(q, g);
  }
}
