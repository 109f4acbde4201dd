// What every run of concurrent Get calls guarantees, and runs that show where a promise stops.
module FlightTheorems {
  import opened Metrics
  import opened Flights

  predicate Finished(s: State, id: nat) {
    id < |s.phases| && s.phases[id].Returned?
  }

  /******* One flight per query, and each caller gets its own query's answer *******/

  lemma OneFlightPerQuery(s: State, f: nat, g: nat)
    requires Reachable(s) && f < |s.flights| && g < |s.flights|
    requires InAir(s, f) && InAir(s, g)
    requires LeaderCall(s, f).addr == LeaderCall(s, g).addr && LeaderCall(s, f).query == LeaderCall(s, g).query
    ensures f == g
  {
    ReachableInv(s);
    assert FlightOk(s, f) && FlightOk(s, g);
  }

  // Every finished call returns, unchanged, the pair that one upstream call made for the same
  // (addr, query) produced; only a NUL inside an address could break that.
  lemma AnswerIsOneUpstreamAnswer(s: State, id: nat)
    requires Reachable(s) && Finished(s, id)
    ensures var p := s.phases[id];
      && !s.flights[p.via.flight].stage.Asking?
      && p.answer == s.flights[p.via.flight].stage.answer
      && FlightKey(s, p.via.flight) == CallKey(s, id)
    ensures var asked := LeaderCall(s, s.phases[id].via.flight);
      !HasNul(asked.addr) && !HasNul(s.calls[id].addr) ==>
        asked.addr == s.calls[id].addr && asked.query == s.calls[id].query
  {
    ReachableInv(s);
    assert CallOk(s, id);
    var asked, mine := LeaderCall(s, s.phases[id].via.flight), s.calls[id];
    if !HasNul(asked.addr) && !HasNul(mine.addr) {
      CacheKeyInjective(asked.addr, asked.query, mine.addr, mine.query);
    }
  }

  // Some run gives a caller asking (a2, q2) the answer of an upstream call made for (a1, q1).
  ghost predicate MixUp(start: int, actions: seq<Action>, a1: string, q1: string, a2: string, q2: string) {
    var s := Run(start, actions);
    && Shaped(s)
    && exists id: nat :: Finished(s, id) && s.calls[id].addr == a2 && s.calls[id].query == q2
         && LeaderCall(s, s.phases[id].via.flight).addr == a1
         && LeaderCall(s, s.phases[id].via.flight).query == q1
  }

  lemma CollisionMixesUp(start: int, a1: string, q1: string, a2: string, q2: string) returns (actions: seq<Action>)
    requires CacheKey(a1, q1) == CacheKey(a2, q2)
    ensures MixUp(start, actions, a1, q1, a2, q2)
  {
    var answer := Answer(Sample(0.0, 0), NoError);
    actions := SoloFetch(start, a1, q1, 1, answer);
    RunSnoc(start, actions, Begin(a2, q2, 1, 0)); actions := actions + [Begin(a2, q2, 1, 0)];
    RunSnoc(start, actions, LookUp(1)); actions := actions + [LookUp(1)];
    SecondAskerHits(start, a1, q1, a2, q2, answer);
    assert Finished(Run(start, actions), 1);
  }

  lemma SecondAskerHits(start: int, a1: string, q1: string, a2: string, q2: string, answer: Answer)
    requires CacheKey(a1, q1) == CacheKey(a2, q2) && Cacheable(answer)
    ensures var s0 := Fetched(OneMissed(start, a1, q1, 1), 0, answer, 0, 0);
      var s := Apply(Apply(s0, Begin(a2, q2, 1, 0)), LookUp(1));
      Shaped(s) && Finished(s, 1) && s.calls[1].addr == a2 && s.calls[1].query == q2
      && LeaderCall(s, s.phases[1].via.flight).addr == a1 && LeaderCall(s, s.phases[1].via.flight).query == q1
  {
    var s0 := Fetched(OneMissed(start, a1, q1, 1), 0, answer, 0, 0);
    assert Shaped(s0) && s0.cache == map[CacheKey(a1, q1) := Entry(answer, start + 1)];
    NextGrows(s0, Begin(a2, q2, 1, 0));
    var s1 := Apply(s0, Begin(a2, q2, 1, 0));
    assert Enabled(s1, LookUp(1));
  }

  // Two queries are ever mixed up if and only if their cache keys are equal (KeysCollideExactlyWhen
  // says when that is).
  lemma MixUpIffKeysCollide(start: int, a1: string, q1: string, a2: string, q2: string)
    ensures (exists actions :: MixUp(start, actions, a1, q1, a2, q2)) <==> CacheKey(a1, q1) == CacheKey(a2, q2)
  {
    if CacheKey(a1, q1) == CacheKey(a2, q2) {
      var actions := CollisionMixesUp(start, a1, q1, a2, q2);
    }
    forall actions | MixUp(start, actions, a1, q1, a2, q2) ensures CacheKey(a1, q1) == CacheKey(a2, q2) {
      var s := Run(start, actions);
      var id: nat :| Finished(s, id) && s.calls[id].addr == a2 && s.calls[id].query == q2
         && LeaderCall(s, s.phases[id].via.flight).addr == a1
         && LeaderCall(s, s.phases[id].via.flight).query == q1;
      RunInv(start, actions);
      AnswerIsOneUpstreamAnswer(s, id);
      assert KeyOk(s.calls[id]) && KeyOk(LeaderCall(s, s.phases[id].via.flight));
    }
  }

  /******* One caller fetching while nobody else moves *******/

  // What a missed call does once it leads: the upstream call takes `wait`, the answer takes `delay` to be stored.
  function AskSteps(id: nat, answer: Answer, wait: nat): seq<Action> {
    [EnterDo(id), Tick(wait), Reply(id, answer)]
  }

  function StoreSteps(id: nat, delay: nat): seq<Action> {
    [Tick(delay), Settle(id), Land(id)]
  }

  // The state with id's flight in the air at the given stage and instant.
  function Airborne(s: State, id: nat, stage: Stage, now: int): State
    requires Shaped(s) && id < |s.calls| && s.phases[id].Missed?
  {
    s.(now := now,
       phases := s.phases[id := Leading(|s.flights|)],
       flights := s.flights + [Flight(id, s.phases[id].missedAt, s.now, stage)],
       table := s.table[CallKey(s, id) := |s.flights|])
  }

  // The state after the whole fetch.
  function Fetched(s: State, id: nat, answer: Answer, wait: nat, delay: nat): State
    requires Shaped(s) && id < |s.calls| && s.phases[id].Missed?
  {
    var key, ttl, f := CallKey(s, id), s.calls[id].ttl, |s.flights|;
    var answeredAt, end := s.now + wait, s.now + wait + delay;
    s.(now := end,
       phases := s.phases[id := Returned(answer, FromFlight(f, s.now), end)],
       flights := s.flights + [Flight(id, s.phases[id].missedAt, s.now, Landed(answer, answeredAt, end, end))],
       cache := Settled(s.cache, key, answer, ttl, end),
       origin := if ttl > 0 && Cacheable(answer) then s.origin[key := f] else s.origin)
  }

  lemma FetchTakesOff(s: State, id: nat)
    requires Shaped(s) && id < |s.calls| && s.phases[id].Missed? && CallKey(s, id) !in s.table
    ensures Apply(s, EnterDo(id)) == Airborne(s, id, Asking, s.now)
  {
  }

  lemma FetchWaits(s: State, id: nat, stage: Stage, now: int, d: nat)
    requires Shaped(s) && id < |s.calls| && s.phases[id].Missed?
    ensures Shaped(Airborne(s, id, stage, now))
    ensures Apply(Airborne(s, id, stage, now), Tick(d)) == Airborne(s, id, stage, now + d)
  {
  }

  lemma FetchHears(s: State, id: nat, answer: Answer, now: int)
    requires Shaped(s) && id < |s.calls| && s.phases[id].Missed? && !answer.err.Canceled?
    ensures Apply(Airborne(s, id, Asking, now), Reply(id, answer)) == Airborne(s, id, Answered(answer, now), now)
  {
    FetchWaits(s, id, Asking, now, 0);
  }

  // The fetch once it has written the cache but not yet landed.
  function Written(s: State, id: nat, answer: Answer, wait: nat, delay: nat): State
    requires Shaped(s) && id < |s.calls| && s.phases[id].Missed?
  {
    var end, fetched := s.now + wait + delay, Fetched(s, id, answer, wait, delay);
    Airborne(s, id, Stored(answer, s.now + wait, end), end).(cache := fetched.cache, origin := fetched.origin)
  }

  lemma FetchStores(s: State, id: nat, answer: Answer, wait: nat, delay: nat)
    requires Shaped(s) && id < |s.calls| && s.phases[id].Missed?
    ensures Apply(Airborne(s, id, Answered(answer, s.now + wait), s.now + wait + delay), Settle(id))
         == Written(s, id, answer, wait, delay)
    ensures Shaped(Written(s, id, answer, wait, delay))
  {
    var f, end := |s.flights|, s.now + wait + delay;
    var flying := Airborne(s, id, Answered(answer, s.now + wait), end);
    assert Shaped(flying) by { FetchWaits(s, id, Answered(answer, s.now + wait), end, 0); }
    assert flying.phases[id] == Leading(f) && flying.flights[f].stage == Answered(answer, s.now + wait);
    AppendUpdate(s.flights, flying.flights[f],
      Flight(id, s.phases[id].missedAt, s.now, Stored(answer, s.now + wait, end)));
    assert Enabled(flying, Settle(id)) && AfterSettle(flying, id) == Written(s, id, answer, wait, delay);
    assert Shaped(AfterSettle(flying, id)) by { SettleGrows(flying, id); }
  }

  lemma FetchLands(s: State, id: nat, answer: Answer, wait: nat, delay: nat)
    requires Shaped(s) && id < |s.calls| && s.phases[id].Missed? && CallKey(s, id) !in s.table
    ensures Apply(Written(s, id, answer, wait, delay), Land(id)) == Fetched(s, id, answer, wait, delay)
  {
    var end := s.now + wait + delay;
    FetchStores(s, id, answer, wait, delay);
    var written := Written(s, id, answer, wait, delay);
    AppendUpdate(s.flights, written.flights[|s.flights|],
      Flight(id, s.phases[id].missedAt, s.now, Landed(answer, s.now + wait, end, end)));
    assert written.table - {CallKey(s, id)} == s.table;
  }

  lemma AppendUpdate<T>(s: seq<T>, x: T, y: T)
    ensures (s + [x])[|s| := y] == s + [y]
  {
  }

  lemma ThreeSteps(s: State, a: Action, b: Action, c: Action)
    ensures ApplyAll(s, [a, b, c]) == Apply(Apply(Apply(s, a), b), c)
  {
    assert [a, b, c][1..] == [b, c] && [b, c][1..] == [c] && [c][1..] == [];
    assert ApplyAll(s, [a, b, c]) == ApplyAll(Apply(s, a), [b, c]) == ApplyAll(Apply(Apply(s, a), b), [c]);
  }

  lemma FetchAsks(s: State, id: nat, answer: Answer, wait: nat)
    requires Shaped(s) && id < |s.calls| && s.phases[id].Missed? && CallKey(s, id) !in s.table && !answer.err.Canceled?
    ensures ApplyAll(s, AskSteps(id, answer, wait)) == Airborne(s, id, Answered(answer, s.now + wait), s.now + wait)
  {
    ThreeSteps(s, EnterDo(id), Tick(wait), Reply(id, answer));
    FetchTakesOff(s, id);
    FetchWaits(s, id, Asking, s.now, wait);
    FetchHears(s, id, answer, s.now + wait);
  }

  lemma FetchFinishes(s: State, id: nat, answer: Answer, wait: nat, delay: nat)
    requires Shaped(s) && id < |s.calls| && s.phases[id].Missed? && CallKey(s, id) !in s.table
    ensures ApplyAll(Airborne(s, id, Answered(answer, s.now + wait), s.now + wait), StoreSteps(id, delay))
         == Fetched(s, id, answer, wait, delay)
  {
    var s0 := Airborne(s, id, Answered(answer, s.now + wait), s.now + wait);
    var s1 := Airborne(s, id, Answered(answer, s.now + wait), s.now + wait + delay);
    ThreeSteps(s0, Tick(delay), Settle(id), Land(id));
    assert Apply(s0, Tick(delay)) == s1 by { FetchWaits(s, id, Answered(answer, s.now + wait), s.now + wait, delay); }
    assert Apply(s1, Settle(id)) == Written(s, id, answer, wait, delay) by { FetchStores(s, id, answer, wait, delay); }
    FetchLands(s, id, answer, wait, delay);
  }

  lemma RunFetch(start: int, before: seq<Action>, s: State, id: nat, answer: Answer, wait: nat, delay: nat)
    returns (actions: seq<Action>)
    requires Run(start, before) == s && Shaped(s) && id < |s.calls| && s.phases[id].Missed?
    requires CallKey(s, id) !in s.table && !answer.err.Canceled?
    ensures Run(start, actions) == Fetched(s, id, answer, wait, delay)
  {
    actions := before + AskSteps(id, answer, wait) + StoreSteps(id, delay);
    FetchAsks(s, id, answer, wait);
    FetchFinishes(s, id, answer, wait, delay);
    RunAppend(start, before, AskSteps(id, answer, wait));
    RunAppend(start, before + AskSteps(id, answer, wait), StoreSteps(id, delay));
  }

  // A lone caller: begins, misses, fetches.
  function OneMissed(start: int, addr: string, query: string, ttl: int): State {
    Init(start).(calls := [Call(addr, query, ttl, 0, start, CacheKey(addr, query))], phases := [Missed(start)])
  }

  lemma SoloFetch(start: int, addr: string, query: string, ttl: int, answer: Answer) returns (actions: seq<Action>)
    requires !answer.err.Canceled?
    ensures Run(start, actions) == Fetched(OneMissed(start, addr, query, ttl), 0, answer, 0, 0)
  {
    actions := [];
    RunSnoc(start, actions, Begin(addr, query, ttl, 0)); actions := actions + [Begin(addr, query, ttl, 0)];
    RunSnoc(start, actions, LookUp(0)); actions := actions + [LookUp(0)];
    actions := RunFetch(start, actions, OneMissed(start, addr, query, ttl), 0, answer, 0, 0);
  }

  // Two callers of one query that both looked before either asked.
  function BothMissed(start: int, addr: string, query: string, ttl: int): State {
    var key := CacheKey(addr, query);
    Init(start).(calls := [Call(addr, query, ttl, 0, start, key), Call(addr, query, ttl, 1, start, key)],
                 phases := [Missed(start), Missed(start)])
  }

  lemma OneBegins(start: int, before: seq<Action>, s: State, addr: string, query: string, ttl: int, ctx: nat)
    returns (actions: seq<Action>)
    requires Run(start, before) == s && Shaped(s)
    ensures Run(start, actions)
         == s.(calls := s.calls + [Call(addr, query, ttl, ctx, s.now, CacheKey(addr, query))],
           phases := s.phases + [Begun])
  {
    RunSnoc(start, before, Begin(addr, query, ttl, ctx));
    actions := before + [Begin(addr, query, ttl, ctx)];
  }

  lemma TwoBegin(start: int, addr: string, query: string, ttl: int) returns (actions: seq<Action>)
    ensures Run(start, actions) == BothMissed(start, addr, query, ttl).(phases := [Begun, Begun])
  {
    actions := OneBegins(start, [], Init(start), addr, query, ttl, 0);
    var one := Init(start).(calls := [Call(addr, query, ttl, 0, start, CacheKey(addr, query))], phases := [Begun]);
    assert Run(start, actions) == one;
    actions := OneBegins(start, actions, one, addr, query, ttl, 1);
  }

  lemma TwoMisses(start: int, addr: string, query: string, ttl: int) returns (actions: seq<Action>)
    ensures Run(start, actions) == BothMissed(start, addr, query, ttl)
  {
    actions := TwoBegin(start, addr, query, ttl);
    RunSnoc(start, actions, LookUp(0)); actions := actions + [LookUp(0)];
    RunSnoc(start, actions, LookUp(1)); actions := actions + [LookUp(1)];
  }

  /******* Bounded staleness *******/

  // A finished call was served either by a flight that was in the air at an instant of the call, or
  // by one stored at most that flight's own TTL before the call's lookup.
  lemma BoundedStaleness(s: State, id: nat)
    requires Reachable(s) && Finished(s, id)
    ensures var p := s.phases[id];
      && s.calls[id].beganAt <= p.via.at <= p.returnedAt <= s.now
      && var fl := s.flights[p.via.flight];
         match p.via
         case FromFlight(f, joined) => fl.stage.Landed? && fl.startedAt <= joined <= fl.stage.landedAt
         case FromCache(f, looked) =>
           && Wrote(s, f)
           && fl.stage.settledAt <= looked <= fl.stage.settledAt + LeaderCall(s, f).ttl
  {
    ReachableInv(s);
    assert CallOk(s, id);
  }

  // All calls that share a cache key ask for the same TTL.
  ghost predicate OneTtlPerKey(s: State)
    requires Shaped(s)
  {
    forall i, j :: 0 <= i < |s.calls| && 0 <= j < |s.calls| && CallKey(s, i) == CallKey(s, j) ==>
      s.calls[i].ttl == s.calls[j].ttl
  }

  // With one TTL per key the bound is the reader's own TTL.
  lemma StalenessWithinOwnTtl(s: State, id: nat)
    requires Reachable(s) && Finished(s, id) && OneTtlPerKey(s)
    ensures var p := s.phases[id];
      p.via.FromCache? ==>
        && Wrote(s, p.via.flight)
        && var stored := s.flights[p.via.flight].stage.settledAt; stored <= p.via.at <= stored + s.calls[id].ttl
  {
    ReachableInv(s);
    assert CallOk(s, id);
  }

  /******* Signal age *******/

  // The age a decision reports is the distance from the sample's own timestamp.
  function Age(a: Answer, at: int): int {
    at - a.sample.time
  }

  // A cache hit never rejuvenates a reading: its age at the hit is its age when stored plus the time
  // since, at most the storing TTL; and two decisions served from one entry differ by the time between them.
  lemma AgeNeverResets(s: State, i: nat, j: nat)
    requires Reachable(s) && Finished(s, i) && Finished(s, j)
    requires s.phases[i].via.FromCache? && s.phases[j].via.FromCache?
      && s.phases[i].via.flight == s.phases[j].via.flight
    ensures var a, b, st := s.phases[i], s.phases[j], s.flights[s.phases[i].via.flight].stage;
      && Wrote(s, a.via.flight)
      && Age(b.answer, b.via.at) - Age(a.answer, a.via.at) == b.via.at - a.via.at
      && Age(st.answer, st.settledAt) <= Age(a.answer, a.via.at)
           <= Age(st.answer, st.settledAt) + LeaderCall(s, a.via.flight).ttl
  {
    ReachableInv(s);
    assert CallOk(s, i) && CallOk(s, j);
  }

  /******* Failures *******/

  // Whatever happened, the cache holds only successes and ErrMissing, each written by a flight of
  // its own key under a positive TTL.
  lemma CacheHoldsOnlyGoodAnswers(s: State, key: string)
    requires Reachable(s) && key in s.cache
    ensures s.cache[key].answer.err.NoError? || s.cache[key].answer.err.Missing?
    ensures Cacheable(s.cache[key].answer)
      && key in s.origin && FlightKey(s, s.origin[key]) == key
      && Wrote(s, s.origin[key]) && s.flights[s.origin[key]].stage.answer == s.cache[key].answer
  {
    ReachableInv(s);
    assert EntryOk(s, key);
  }

  // What the store does with each outcome of the upstream call.
  lemma SettleByOutcome(s: State, id: nat)
    requires Shaped(s) && Enabled(s, Settle(id))
    ensures var answer, ttl := s.flights[s.phases[id].flight].stage.answer, s.calls[id].ttl;
      var cache := Apply(s, Settle(id)).cache;
      if ttl <= 0 then cache == s.cache
      else
        match answer.err
        case NoError => cache == s.cache[CallKey(s, id) := Entry(answer, s.now + ttl)]
        case Missing => cache == s.cache[CallKey(s, id) := Entry(answer, s.now + ttl)]
        case Canceled => cache == s.cache
        case Failed(_) => cache == s.cache
  {
  }

  // A flight that ended in any other error, its leader's cancellation included, is behind no cache entry and
  // behind no cache hit: only the callers that shared it saw the error.
  lemma FailedFlightNeverServes(s: State, f: nat)
    requires Reachable(s) && f < |s.flights| && !s.flights[f].stage.Asking?
    requires s.flights[f].stage.answer.err.Canceled? || s.flights[f].stage.answer.err.Failed?
    ensures (forall key :: key in s.origin ==> s.origin[key] != f)
      && (forall id :: 0 <= id < |s.calls| && s.phases[id].Returned? && s.phases[id].via.flight == f ==>
        s.phases[id].via.FromFlight?)
  {
    ReachableInv(s);
    forall key | key in s.origin ensures s.origin[key] != f { assert EntryOk(s, key); }
    forall id | 0 <= id < |s.calls| && s.phases[id].Returned? && s.phases[id].via.flight == f
      ensures s.phases[id].via.FromFlight?
    {
      assert CallOk(s, id);
    }
  }

  // The only step that changes the map is the store of a cacheable answer under a positive TTL.
  lemma OnlyGoodStoresChangeTheMap(s: State, a: Action)
    requires Shaped(s) && Apply(s, a).cache != s.cache
    ensures a.Settle? && Enabled(s, a)
    ensures var f := s.phases[a.id].flight; var st := s.flights[f].stage;
      && Cacheable(st.answer) && s.calls[a.id].ttl > 0
      && forall key :: key != CallKey(s, a.id) ==>
           (key in Apply(s, a).cache <==> key in s.cache)
           && (key in s.cache ==> Apply(s, a).cache[key] == s.cache[key])
  {
  }

  // A caller sees a cancellation only if the context of the caller that led its flight was cancelled.
  lemma CancellationIsTheLeaders(s: State, id: nat)
    requires Reachable(s) && Finished(s, id)
    requires s.phases[id].answer.err.Canceled?
    ensures var p := s.phases[id];
      p.via.FromFlight? && LeaderCall(s, p.via.flight).ctx in s.cancelled
  {
    ReachableInv(s);
    assert CallOk(s, id) && FlightOk(s, s.phases[id].via.flight);
  }

  // It need not be the caller's own: a follower under a live context can be handed its leader's
  // cancellation.
  lemma FollowerInheritsCancellation(start: int, addr: string, query: string, ttl: int) returns (s: State)
    ensures Reachable(s) && Finished(s, 1) && s.phases[1].answer.err.Canceled?
      && s.calls[1] == Call(addr, query, ttl, 1, start, CacheKey(addr, query)) && s.calls[1].ctx !in s.cancelled
  {
    var actions := ReachLeaderGone(start, addr, query, ttl);
    RunSnoc(start, actions, Wake(1));
    FollowerIsTold(start, addr, query, ttl);
    s := Run(start, actions + [Wake(1)]);
  }

  lemma ReachLeaderCancelled(start: int, addr: string, query: string, ttl: int) returns (actions: seq<Action>)
    ensures Run(start, actions) == LeaderCancelled(start, addr, query, ttl)
  {
    actions := TwoMisses(start, addr, query, ttl);
    RunAppend(start, actions, [EnterDo(0), EnterDo(1), Cancel(0)]);
    ThreeSteps(BothMissed(start, addr, query, ttl), EnterDo(0), EnterDo(1), Cancel(0));
    FollowerJoins(start, addr, query, ttl);
    actions := actions + [EnterDo(0), EnterDo(1), Cancel(0)];
  }

  lemma ReachLeaderGone(start: int, addr: string, query: string, ttl: int) returns (actions: seq<Action>)
    ensures Run(start, actions) == LeaderGone(start, addr, query, ttl)
  {
    actions := ReachLeaderCancelled(start, addr, query, ttl);
    var canceled := Answer(Sample(0.0, 0), Canceled);
    RunAppend(start, actions, [Reply(0, canceled), Settle(0), Land(0)]);
    ThreeSteps(LeaderCancelled(start, addr, query, ttl), Reply(0, canceled), Settle(0), Land(0));
    LeaderGivesUp(start, addr, query, ttl);
    actions := actions + [Reply(0, canceled), Settle(0), Land(0)];
  }

  // One leader and one follower of its flight, the leader's context just cancelled.
  function LeaderCancelled(start: int, addr: string, query: string, ttl: int): State {
    BothMissed(start, addr, query, ttl)
      .(phases := [Leading(0), Following(0, start)], flights := [Flight(0, start, start, Asking)],
        table := map[CacheKey(addr, query) := 0], cancelled := {0})
  }

  lemma FollowerJoins(start: int, addr: string, query: string, ttl: int)
    ensures Apply(Apply(Apply(BothMissed(start, addr, query, ttl), EnterDo(0)), EnterDo(1)), Cancel(0))
         == LeaderCancelled(start, addr, query, ttl)
  {
  }

  function LeaderGone(start: int, addr: string, query: string, ttl: int): State {
    var canceled := Answer(Sample(0.0, 0), Canceled);
    LeaderCancelled(start, addr, query, ttl)
      .(phases := [Returned(canceled, FromFlight(0, start), start), Following(0, start)],
        flights := [Flight(0, start, start, Landed(canceled, start, start, start))], table := map[])
  }

  lemma LeaderGivesUp(start: int, addr: string, query: string, ttl: int)
    ensures var canceled := Answer(Sample(0.0, 0), Canceled);
      Apply(Apply(Apply(LeaderCancelled(start, addr, query, ttl), Reply(0, canceled)), Settle(0)), Land(0))
      == LeaderGone(start, addr, query, ttl)
  {
  }

  lemma FollowerIsTold(start: int, addr: string, query: string, ttl: int)
    ensures var canceled := Answer(Sample(0.0, 0), Canceled);
      Apply(LeaderGone(start, addr, query, ttl), Wake(1))
      == LeaderGone(start, addr, query, ttl)
           .(phases := [Returned(canceled, FromFlight(0, start), start),
                        Returned(canceled, FromFlight(0, start), start)])
  {
  }

  /******* One upstream call per TTL window *******/

  // h is a write to f's key, no older than f's, that had expired by m.
  ghost predicate ExpiredWrite(s: State, f: nat, h: nat, m: int)
    requires Shaped(s) && f < |s.flights|
  {
    && h < |s.flights| && FlightKey(s, h) == FlightKey(s, f) && Wrote(s, f) && Wrote(s, h)
    && s.flights[f].stage.settledAt <= s.flights[h].stage.settledAt
    && s.flights[h].stage.settledAt + LeaderCall(s, h).ttl < m
  }

  ghost predicate Superseded(s: State, f: nat, m: int)
    requires Shaped(s) && f < |s.flights|
  {
    exists h: nat :: ExpiredWrite(s, f, h, m)
  }

  // A caching lookup that missed at m found every earlier write of its key superseded and expired.
  ghost predicate MissJustified(s: State, key: string, m: int)
    requires Shaped(s)
  {
    forall f {:trigger Superseded(s, f, m)} ::
      0 <= f < |s.flights| && FlightKey(s, f) == key && Wrote(s, f) && s.flights[f].stage.settledAt < m ==>
        Superseded(s, f, m)
  }

  ghost predicate WindowInv(s: State)
    requires Shaped(s)
  {
    && (forall i :: 0 <= i < |s.calls| && s.phases[i].Missed? && s.calls[i].ttl > 0 ==>
          MissJustified(s, CallKey(s, i), s.phases[i].missedAt))
    && (forall g :: 0 <= g < |s.flights| && LeaderCall(s, g).ttl > 0 ==>
          MissJustified(s, FlightKey(s, g), s.flights[g].missedAt))
  }

  lemma ExpiredWriteKept(s: State, s': State, f: nat, h: nat, m: int)
    requires Grows(s, s') && f < |s.flights| && ExpiredWrite(s, f, h, m)
    ensures ExpiredWrite(s', f, h, m)
  {
    assert FlightGrows(s.flights[f], s'.flights[f], s.now) && FlightGrows(s.flights[h], s'.flights[h], s.now);
  }

  lemma JustificationKept(s: State, s': State, key: string, m: int)
    requires Grows(s, s') && MissJustified(s, key, m) && m <= s.now
    ensures MissJustified(s', key, m)
  {
    forall f | 0 <= f < |s'.flights| && FlightKey(s', f) == key && Wrote(s', f) && s'.flights[f].stage.settledAt < m
      ensures Superseded(s', f, m)
    {
      assert f < |s.flights| && FlightGrows(s.flights[f], s'.flights[f], s.now);
      assert Wrote(s, f) && FlightKey(s, f) == key && Superseded(s, f, m);
      var h: nat :| ExpiredWrite(s, f, h, m);
      ExpiredWriteKept(s, s', f, h, m);
    }
  }

  lemma FreshMissJustified(s: State, id: nat)
    requires Inv(s) && Enabled(s, LookUp(id)) && s.calls[id].ttl > 0
    requires Lookup(s.cache, CallKey(s, id), s.calls[id].ttl, s.now).None?
    ensures MissJustified(s, CallKey(s, id), s.now)
  {
    var key := CallKey(s, id);
    forall f | 0 <= f < |s.flights| && FlightKey(s, f) == key && Wrote(s, f)
      ensures Superseded(s, f, s.now)
    {
      assert FlightOk(s, f) && LastWriteCovers(s, f) && EntryOk(s, key);
      assert ExpiredWrite(s, f, s.origin[key], s.now);
    }
  }

  // Where the missed calls and the flights of the next state come from.
  ghost predicate MissComesFrom(s: State, s': State, i: nat)
    requires Shaped(s) && Shaped(s') && i < |s'.calls|
  {
    s'.phases[i].Missed? ==>
      i < |s.calls| && (s'.phases[i] == s.phases[i] || (s'.phases[i].missedAt == s.now && Enabled(s, LookUp(i))
        && Lookup(s.cache, CallKey(s, i), s.calls[i].ttl, s.now).None?))
  }

  ghost predicate FlightComesFrom(s: State, s': State, g: nat)
    requires Shaped(s) && Shaped(s') && g < |s'.flights|
  {
    var fl := s'.flights[g];
    g < |s.flights| || (fl.leader < |s.calls| && s.phases[fl.leader] == Missed(fl.missedAt))
  }

  lemma WhereFrom(s: State, a: Action)
    requires Shaped(s) && Enabled(s, a)
    ensures var s' := Next(s, a);
      && Grows(s, s')
      && (forall i :: 0 <= i < |s'.calls| ==> MissComesFrom(s, s', i))
      && (forall g :: 0 <= g < |s'.flights| ==> FlightComesFrom(s, s', g))
  {
    NextGrows(s, a);
  }

  lemma WindowKeepsCall(s: State, s': State, i: nat)
    requires Inv(s) && WindowInv(s) && Grows(s, s')
    requires i < |s'.calls| && s'.phases[i].Missed? && s'.calls[i].ttl > 0 && MissComesFrom(s, s', i)
    ensures MissJustified(s', CallKey(s', i), s'.phases[i].missedAt)
  {
    assert CallOk(s, i);
    if s'.phases[i] != s.phases[i] {
      FreshMissJustified(s, i);
    }
    JustificationKept(s, s', CallKey(s, i), s'.phases[i].missedAt);
  }

  lemma WindowKeepsFlight(s: State, s': State, g: nat)
    requires Inv(s) && WindowInv(s) && Grows(s, s')
    requires g < |s'.flights| && LeaderCall(s', g).ttl > 0 && FlightComesFrom(s, s', g)
    ensures MissJustified(s', FlightKey(s', g), s'.flights[g].missedAt)
  {
    if g < |s.flights| {
      assert FlightOk(s, g) && FlightGrows(s.flights[g], s'.flights[g], s.now);
    } else {
      assert CallOk(s, s'.flights[g].leader);
    }
    JustificationKept(s, s', FlightKey(s', g), s'.flights[g].missedAt);
  }

  lemma WindowKeeps(s: State, a: Action)
    requires Inv(s) && WindowInv(s) && Enabled(s, a)
    ensures Shaped(Next(s, a)) && WindowInv(Next(s, a))
  {
    var s' := Next(s, a);
    WhereFrom(s, a);
    forall i | 0 <= i < |s'.calls| && s'.phases[i].Missed? && s'.calls[i].ttl > 0
      ensures MissJustified(s', CallKey(s', i), s'.phases[i].missedAt)
    {
      WindowKeepsCall(s, s', i);
    }
    forall g | 0 <= g < |s'.flights| && LeaderCall(s', g).ttl > 0
      ensures MissJustified(s', FlightKey(s', g), s'.flights[g].missedAt)
    {
      WindowKeepsFlight(s, s', g);
    }
  }

  lemma {:induction false} RunWindow(start: int, actions: seq<Action>)
    ensures Inv(Run(start, actions)) && WindowInv(Run(start, actions))
  {
    RunInv(start, actions);
    if actions != [] {
      var before, a := actions[..|actions| - 1], actions[|actions| - 1];
      RunWindow(start, before);
      if Enabled(Run(start, before), a) {
        WindowKeeps(Run(start, before), a);
      }
    }
  }

  lemma ReachableWindow(s: State)
    requires Reachable(s)
    ensures WindowInv(s)
  {
    var start: int, actions: seq<Action> :| s == Run(start, actions);
    RunWindow(start, actions);
  }

  // Under any interleaving with one TTL per key: no flight grows out of a caching lookup made after a
  // store of its key and no later than one TTL after it.
  lemma NoLookupInWindowLeadsUpstream(s: State, f: nat, g: nat)
    requires Reachable(s) && f < |s.flights| && g < |s.flights|
    requires OneTtlPerKey(s) && FlightKey(s, f) == FlightKey(s, g) && Wrote(s, f)
    ensures var stored, ttl := s.flights[f].stage.settledAt, LeaderCall(s, f).ttl;
      !(stored < s.flights[g].missedAt <= stored + ttl)
  {
    ReachableWindow(s);
    LookupOutsideWindow(s, f, g);
  }

  lemma LookupOutsideWindow(s: State, f: nat, g: nat)
    requires Shaped(s) && WindowInv(s) && OneTtlPerKey(s)
    requires f < |s.flights| && g < |s.flights| && FlightKey(s, f) == FlightKey(s, g) && Wrote(s, f)
    ensures var stored, ttl := s.flights[f].stage.settledAt, LeaderCall(s, f).ttl;
      !(stored < s.flights[g].missedAt <= stored + ttl)
  {
    assert s.calls[s.flights[g].leader].ttl == s.calls[s.flights[f].leader].ttl;
    if s.flights[f].stage.settledAt < s.flights[g].missedAt {
      assert MissJustified(s, FlightKey(s, g), s.flights[g].missedAt) && Superseded(s, f, s.flights[g].missedAt);
      var h: nat :| ExpiredWrite(s, f, h, s.flights[g].missedAt);
      assert s.calls[s.flights[h].leader].ttl == s.calls[s.flights[f].leader].ttl;
    }
  }

  // So a flight of the key that starts inside the window was looked up for no later than the store.
  lemma StartInWindowLookedBefore(s: State, f: nat, g: nat)
    requires Reachable(s) && f < |s.flights| && g < |s.flights|
    requires OneTtlPerKey(s) && FlightKey(s, f) == FlightKey(s, g) && Wrote(s, f)
    requires var stored := s.flights[f].stage.settledAt;
      stored < s.flights[g].startedAt <= stored + LeaderCall(s, f).ttl
    ensures s.flights[g].missedAt <= s.flights[f].stage.settledAt
  {
    ReachableInv(s);
    assert FlightOk(s, g);
    NoLookupInWindowLeadsUpstream(s, f, g);
  }

  // A landed flight is what its leader returned with.
  ghost predicate LeaderReturned(s: State, f: nat)
    requires Shaped(s) && f < |s.flights|
  {
    var fl := s.flights[f];
    fl.stage.Landed? ==>
      var p := s.phases[fl.leader];
      p.Returned? && p.via.FromFlight? && p.via.flight == f && p.returnedAt == fl.stage.landedAt
  }

  ghost predicate LeadersReturned(s: State)
    requires Shaped(s)
  {
    forall f :: 0 <= f < |s.flights| ==> LeaderReturned(s, f)
  }

  lemma LandReturnsLeader(s: State, a: Action, f: nat)
    requires Shaped(s) && Enabled(s, a) && f < |s.flights| && InAir(s, f)
    requires forall i :: 0 <= i < |s.phases| && s.phases[i].Leading? ==> CallOk(s, i)
    requires Grows(s, Next(s, a)) && !InAir(Next(s, a), f)
    ensures LeaderReturned(Next(s, a), f)
  {
    if a.Land? { assert CallOk(s, a.id); }
  }

  lemma LeadersStay(s: State, a: Action)
    requires Inv(s) && LeadersReturned(s) && Enabled(s, a)
    ensures Shaped(Next(s, a)) && LeadersReturned(Next(s, a))
  {
    var s' := Next(s, a);
    NextGrows(s, a);
    forall f | 0 <= f < |s'.flights| ensures LeaderReturned(s', f) {
      if f < |s.flights| {
        assert FlightGrows(s.flights[f], s'.flights[f], s.now) && LeaderReturned(s, f);
        if !InAir(s, f) {
          ReturnedStays(s, a, s.flights[f].leader);
        } else if !InAir(s', f) {
          LandReturnsLeader(s, a, f);
        }
      }
    }
  }

  lemma {:induction false} RunLeaders(start: int, actions: seq<Action>)
    ensures Inv(Run(start, actions)) && LeadersReturned(Run(start, actions))
  {
    RunInv(start, actions);
    if actions != [] {
      var before, a := actions[..|actions| - 1], actions[|actions| - 1];
      RunLeaders(start, before);
      if Enabled(Run(start, before), a) {
        LeadersStay(Run(start, before), a);
      }
    }
  }

  // One call leads at most one flight.
  lemma LeadersDiffer(s: State, f: nat, g: nat)
    requires Inv(s) && LeadersReturned(s) && f < |s.flights| && g < |s.flights|
    requires s.flights[f].leader == s.flights[g].leader
    ensures f == g
  {
    assert FlightOk(s, f) && FlightOk(s, g) && LeaderReturned(s, f) && LeaderReturned(s, g);
  }

  // The flights of f's key that started while f's stored answer was still fresh.
  ghost function StartedInWindow(s: State, f: nat): set<nat>
    requires Shaped(s) && f < |s.flights| && Wrote(s, f)
  {
    var stored := s.flights[f].stage.settledAt;
    set g: nat | g < |s.flights| && FlightKey(s, g) == FlightKey(s, f)
      && stored < s.flights[g].startedAt <= stored + LeaderCall(s, f).ttl
  }

  // The other calls of that key that had begun and not returned when f's answer was stored.
  ghost function OpenAtStore(s: State, f: nat): set<nat>
    requires Shaped(s) && f < |s.flights| && Wrote(s, f)
  {
    var stored := s.flights[f].stage.settledAt;
    set i: nat | i < |s.calls| && i != s.flights[f].leader && CallKey(s, i) == FlightKey(s, f)
      && s.calls[i].beganAt <= stored && (s.phases[i].Returned? ==> stored < s.phases[i].returnedAt)
  }

  lemma {:induction false} FewerThanLeaders(s: State, flights: set<nat>, callers: set<nat>)
    requires Inv(s) && LeadersReturned(s)
    requires forall g :: g in flights ==> g < |s.flights| && s.flights[g].leader in callers
    ensures |flights| <= |callers|
    decreases flights
  {
    if flights != {} {
      var g :| g in flights;
      forall h | h in flights - {g} ensures s.flights[h].leader in callers - {s.flights[g].leader} {
        if s.flights[h].leader == s.flights[g].leader { LeadersDiffer(s, g, h); }
      }
      FewerThanLeaders(s, flights - {g}, callers - {s.flights[g].leader});
    }
  }

  lemma LeaderWasOpen(s: State, f: nat, g: nat)
    requires Reachable(s) && Inv(s) && LeadersReturned(s) && OneTtlPerKey(s) && f < |s.flights| && Wrote(s, f)
    requires g in StartedInWindow(s, f)
    ensures s.flights[g].leader in OpenAtStore(s, f)
  {
    StartInWindowLookedBefore(s, f, g);
    assert FlightOk(s, f) && FlightOk(s, g) && LeaderReturned(s, g);
    if s.flights[g].leader == s.flights[f].leader { LeadersDiffer(s, f, g); }
  }

  // Under any interleaving with one TTL per key, the flights of a key that start within the TTL of a store are at
  // most as many as the other calls of the key that were under way at the store: none, if there were none.
  lemma FlightsInWindowAreBounded(s: State, f: nat)
    requires Reachable(s) && OneTtlPerKey(s) && f < |s.flights| && Wrote(s, f)
    ensures |StartedInWindow(s, f)| <= |OpenAtStore(s, f)|
  {
    var start: int, actions: seq<Action> :| s == Run(start, actions);
    RunLeaders(start, actions);
    forall g | g in StartedInWindow(s, f) ensures s.flights[g].leader in OpenAtStore(s, f) {
      LeaderWasOpen(s, f, g);
    }
    FewerThanLeaders(s, StartedInWindow(s, f), OpenAtStore(s, f));
  }

  /******* The bound is reached *******/

  // n + 1 calls of one query that all looked at the start, before any of them asked.
  function ManyCalls(start: int, addr: string, query: string, ttl: int, n: nat): seq<Call> {
    seq(n + 1, i requires 0 <= i => Call(addr, query, ttl, i, start, CacheKey(addr, query)))
  }

  function ManyMissed(start: int, addr: string, query: string, ttl: int, n: nat): State {
    Init(start).(calls := ManyCalls(start, addr, query, ttl, n), phases := seq(n + 1, i => Missed(start)))
  }

  // The last of them has begun and not looked yet.
  function LastBegun(start: int, addr: string, query: string, ttl: int, n: nat): State {
    Init(start).(calls := ManyCalls(start, addr, query, ttl, n), phases := seq(n, i => Missed(start)) + [Begun])
  }

  lemma LastLooks(start: int, addr: string, query: string, ttl: int, n: nat)
    ensures Shaped(LastBegun(start, addr, query, ttl, n))
    ensures Apply(LastBegun(start, addr, query, ttl, n), LookUp(n)) == ManyMissed(start, addr, query, ttl, n)
  {
    var s, t := LastBegun(start, addr, query, ttl, n), ManyMissed(start, addr, query, ttl, n);
    assert s.phases[n := Missed(start)] == t.phases;
  }

  lemma LastBegins(start: int, addr: string, query: string, ttl: int, n: nat)
    requires n > 0
    ensures var s := ManyMissed(start, addr, query, ttl, n - 1);
      var call := Call(addr, query, ttl, n, start, CacheKey(addr, query));
      Shaped(s) && s.(calls := s.calls + [call], phases := s.phases + [Begun]) == LastBegun(start, addr, query, ttl, n)
  {
    var call := Call(addr, query, ttl, n, start, CacheKey(addr, query));
    assert ManyCalls(start, addr, query, ttl, n) == ManyCalls(start, addr, query, ttl, n - 1) + [call];
  }

  lemma {:induction false} ManyMiss(start: int, addr: string, query: string, ttl: int, n: nat)
    returns (actions: seq<Action>)
    ensures Run(start, actions) == ManyMissed(start, addr, query, ttl, n)
  {
    if n == 0 {
      actions := OneBegins(start, [], Init(start), addr, query, ttl, 0);
      assert Run(start, actions) == LastBegun(start, addr, query, ttl, 0);
    } else {
      actions := ManyMiss(start, addr, query, ttl, n - 1);
      LastBegins(start, addr, query, ttl, n);
      actions := OneBegins(start, actions, ManyMissed(start, addr, query, ttl, n - 1), addr, query, ttl, n);
    }
    LastLooks(start, addr, query, ttl, n);
    RunSnoc(start, actions, LookUp(n));
    actions := actions + [LookUp(n)];
  }

  // Call 0 stored its answer at the start; a nanosecond later calls 1 to k have asked again, one after the other.
  ghost predicate Refetched(s: State, start: int, addr: string, query: string, ttl: int, n: nat, k: nat) {
    && Shaped(s) && s.now == start + 1 && s.calls == ManyCalls(start, addr, query, ttl, n) && s.table == map[]
    && k <= n && |s.flights| == k + 1 && s.flights[0].leader == 0
    && (s.flights[0].stage.Landed? && s.flights[0].stage.settledAt == start && Cacheable(s.flights[0].stage.answer))
    && (forall g :: 0 < g <= k ==> s.flights[g].startedAt == start + 1)
    && (forall i :: 0 < i <= k ==> s.phases[i].Returned? && s.phases[i].returnedAt == start + 1)
    && (forall i :: k < i <= n ==> s.phases[i].Missed?)
  }

  lemma {:induction false} ReachRefetched(start: int, addr: string, query: string, ttl: int, n: nat, k: nat)
    returns (actions: seq<Action>)
    requires ttl > 0 && k <= n
    ensures Refetched(Run(start, actions), start, addr, query, ttl, n, k)
  {
    var answer := Answer(Sample(0.0, 0), NoError);
    if k == 0 {
      actions := ManyMiss(start, addr, query, ttl, n);
      FirstOfMany(start, addr, query, ttl, n, answer);
      actions := RunFetch(start, actions, ManyMissed(start, addr, query, ttl, n), 0, answer, 0, 0);
      RunSnoc(start, actions, Tick(1));
      actions := actions + [Tick(1)];
    } else {
      actions := ReachRefetched(start, addr, query, ttl, n, k - 1);
      var s := Run(start, actions);
      actions := RunFetch(start, actions, s, k, answer, 0, 0);
      RunInv(start, actions);
      OneMoreRefetch(s, start, addr, query, ttl, n, k, answer);
    }
  }

  lemma FirstOfMany(start: int, addr: string, query: string, ttl: int, n: nat, answer: Answer)
    requires ttl > 0 && Cacheable(answer)
    ensures Shaped(ManyMissed(start, addr, query, ttl, n))
    ensures var s := Fetched(ManyMissed(start, addr, query, ttl, n), 0, answer, 0, 0);
      Refetched(Apply(s, Tick(1)), start, addr, query, ttl, n, 0)
  {
  }

  lemma OneMoreRefetch(s: State, start: int, addr: string, query: string, ttl: int, n: nat, k: nat, answer: Answer)
    requires 0 < k <= n && Refetched(s, start, addr, query, ttl, n, k - 1) && Shaped(Fetched(s, k, answer, 0, 0))
    ensures Refetched(Fetched(s, k, answer, 0, 0), start, addr, query, ttl, n, k)
  {
  }

  function UpTo(n: nat): (r: set<nat>)
    ensures forall i: nat :: i in r <==> 0 < i <= n
    ensures |r| == n
  {
    if n == 0 then {} else UpTo(n - 1) + {n}
  }

  lemma SameKeys(s: State, start: int, addr: string, query: string, ttl: int, n: nat)
    requires Shaped(s) && s.calls == ManyCalls(start, addr, query, ttl, n)
    ensures forall i :: 0 <= i < |s.calls| ==> CallKey(s, i) == CacheKey(addr, query) && s.calls[i].ttl == ttl
    ensures forall g :: 0 <= g < |s.flights| ==> FlightKey(s, g) == CacheKey(addr, query)
  {
  }

  lemma RefetchedSets(s: State, start: int, addr: string, query: string, ttl: int, n: nat)
    requires Refetched(s, start, addr, query, ttl, n, n) && ttl > 0 && Wrote(s, 0) && FlightOk(s, 0)
    ensures StartedInWindow(s, 0) == OpenAtStore(s, 0) == UpTo(n)
  {
    SameKeys(s, start, addr, query, ttl, n);
  }

  // The bound is exact, because the lookup and `Do` are two steps: for every n and every positive TTL, n callers can
  // miss together with the one that stores, and each then lead a flight of its own inside the window.
  lemma OverlappingMissesFetchAgain(start: int, addr: string, query: string, ttl: int, n: nat)
    returns (actions: seq<Action>)
    requires ttl > 0
    ensures var s := Run(start, actions);
      && Shaped(s) && OneTtlPerKey(s) && |s.flights| == n + 1 && Wrote(s, 0) && FlightKey(s, 0) == CacheKey(addr, query)
      && |StartedInWindow(s, 0)| == |OpenAtStore(s, 0)| == n
  {
    actions := ReachRefetched(start, addr, query, ttl, n, n);
    var s := Run(start, actions);
    RunInv(start, actions);
    assert FlightOk(s, 0);
    SameKeys(s, start, addr, query, ttl, n);
    RefetchedSets(s, start, addr, query, ttl, n);
  }
}
