// CachingSource.Get under concurrency: any number of callers, interleaved at every point where
// a goroutine can be preempted (between the lookup and `group.Do`, inside the upstream call, before and
// after the store, before the flight's followers wake).
//
// `singleflight.Do` has its documented meaning: the first caller for a key runs the function, callers
// that arrive before it returns wait for the same pair, then the key is free again.
module Flights {
  import opened Metrics

  // One call of Get: its arguments, the context it runs under, when it began, and the key it computed first.
  datatype Call = Call(addr: string, query: string, ttl: int, ctx: nat, beganAt: int, key: string)

  // The life of one upstream flight, with the instants at which each part happened.
  datatype Stage =
    | Asking
    | Answered(answer: Answer, answeredAt: int)
    | Stored(answer: Answer, answeredAt: int, settledAt: int)
    | Landed(answer: Answer, answeredAt: int, settledAt: int, landedAt: int)

  datatype Flight = Flight(leader: nat, missedAt: int, startedAt: int, stage: Stage)

  // How a finished call came by its answer, and the instant it committed to that source.
  datatype Via = FromCache(flight: nat, at: int) | FromFlight(flight: nat, at: int)

  datatype Phase =
    | Begun
    | Missed(missedAt: int)
    | Leading(flight: nat)
    | Following(flight: nat, joinedAt: int)
    | Returned(answer: Answer, via: Via, returnedAt: int)

  // `cache` and `table` are the program's state (the TTL map and the singleflight map). The rest is
  // the clock, the callers' program counters, the flights ever made and the cancelled contexts;
  // `origin` remembers which flight wrote each cache entry.
  datatype State = State(
    now: int,
    calls: seq<Call>,
    phases: seq<Phase>,
    flights: seq<Flight>,
    table: map<string, nat>,
    cache: map<string, Entry>,
    origin: map<string, nat>,
    cancelled: set<nat>)

  datatype Action =
    | Tick(d: nat)
    | Cancel(ctx: nat)
    | Begin(addr: string, query: string, ttl: int, callCtx: nat)
    | LookUp(id: nat)
    | EnterDo(id: nat)
    | Reply(id: nat, answer: Answer)
    | Settle(id: nat)
    | Land(id: nat)
    | Wake(id: nat)

  function Init(start: int): State {
    State(start, [], [], [], map[], map[], map[], {})
  }

  function CallKey(s: State, id: nat): string
    requires id < |s.calls|
  {
    s.calls[id].key
  }

  predicate Shaped(s: State) {
    && |s.phases| == |s.calls|
    && (forall f :: 0 <= f < |s.flights| ==> s.flights[f].leader < |s.calls|)
    && (forall i :: 0 <= i < |s.phases| ==> PhaseShaped(s.phases[i], |s.flights|))
    && (forall key :: key in s.table ==> s.table[key] < |s.flights|)
    && (forall key :: key in s.origin ==> s.origin[key] < |s.flights|)
    && s.cache.Keys == s.origin.Keys
  }

  predicate PhaseShaped(p: Phase, n: nat) {
    && (p.Leading? || p.Following? ==> p.flight < n)
    && (p.Returned? ==> p.via.flight < n)
  }

  // The call whose arguments (key, TTL, context) govern flight f.
  function LeaderCall(s: State, f: nat): Call
    requires Shaped(s) && f < |s.flights|
  {
    s.calls[s.flights[f].leader]
  }

  function FlightKey(s: State, f: nat): string
    requires Shaped(s) && f < |s.flights|
  {
    CallKey(s, s.flights[f].leader)
  }

  predicate InAir(s: State, f: nat)
    requires f < |s.flights|
  {
    !s.flights[f].stage.Landed?
  }

  // Flight f has passed its store point and wrote the cache there.
  predicate Wrote(s: State, f: nat)
    requires Shaped(s) && f < |s.flights|
  {
    var st := s.flights[f].stage;
    (st.Stored? || st.Landed?) && LeaderCall(s, f).ttl > 0 && Cacheable(st.answer)
  }

  predicate LeadsAt(s: State, id: nat)
    requires Shaped(s)
  {
    id < |s.calls| && s.phases[id].Leading?
  }

  predicate Enabled(s: State, a: Action)
    requires Shaped(s)
  {
    match a
    case Tick(_) => true
    case Cancel(_) => true
    case Begin(_, _, _, _) => true
    case LookUp(id) => id < |s.calls| && s.phases[id].Begun?
    case EnterDo(id) => id < |s.calls| && s.phases[id].Missed?
    case Reply(id, answer) =>
      // A backend reports cancellation only when the context it was given is cancelled.
      && LeadsAt(s, id) && s.flights[s.phases[id].flight].stage.Asking?
      && (answer.err.Canceled? ==> LeaderCall(s, s.phases[id].flight).ctx in s.cancelled)
    case Settle(id) => LeadsAt(s, id) && s.flights[s.phases[id].flight].stage.Answered?
    case Land(id) => LeadsAt(s, id) && s.flights[s.phases[id].flight].stage.Stored?
    case Wake(id) =>
      id < |s.calls| && s.phases[id].Following? && s.flights[s.phases[id].flight].stage.Landed?
  }

  function AfterLookUp(s: State, id: nat): State
    requires Shaped(s) && Enabled(s, LookUp(id))
  {
    var key := CallKey(s, id);
    var hit := Lookup(s.cache, key, s.calls[id].ttl, s.now);
    if hit.Some? then
      s.(phases := s.phases[id := Returned(hit.value, FromCache(s.origin[key], s.now), s.now)])
    else
      s.(phases := s.phases[id := Missed(s.now)])
  }

  function AfterEnterDo(s: State, id: nat): State
    requires Shaped(s) && Enabled(s, EnterDo(id))
  {
    var key := CallKey(s, id);
    if key in s.table then
      s.(phases := s.phases[id := Following(s.table[key], s.now)])
    else
      s.(phases := s.phases[id := Leading(|s.flights|)],
         flights := s.flights + [Flight(id, s.phases[id].missedAt, s.now, Asking)],
         table := s.table[key := |s.flights|])
  }

  function WithStage(s: State, f: nat, stage: Stage): State
    requires f < |s.flights|
  {
    s.(flights := s.flights[f := s.flights[f].(stage := stage)])
  }

  function AfterSettle(s: State, id: nat): State
    requires Shaped(s) && Enabled(s, Settle(id))
  {
    var f, key, ttl := s.phases[id].flight, CallKey(s, id), s.calls[id].ttl;
    var st := s.flights[f].stage;
    WithStage(s, f, Stored(st.answer, st.answeredAt, s.now))
      .(cache := Settled(s.cache, key, st.answer, ttl, s.now),
        origin := if ttl > 0 && Cacheable(st.answer) then s.origin[key := f] else s.origin)
  }

  function AfterLand(s: State, id: nat): State
    requires Shaped(s) && Enabled(s, Land(id))
  {
    var f := s.phases[id].flight;
    var st := s.flights[f].stage;
    WithStage(s, f, Landed(st.answer, st.answeredAt, st.settledAt, s.now))
      .(table := s.table - {CallKey(s, id)},
        phases := s.phases[id := Returned(st.answer, FromFlight(f, s.flights[f].startedAt), s.now)])
  }

  function Next(s: State, a: Action): State
    requires Shaped(s) && Enabled(s, a)
  {
    match a
    case Tick(d) => s.(now := s.now + d)
    case Cancel(ctx) => s.(cancelled := s.cancelled + {ctx})
    case Begin(addr, query, ttl, ctx) =>
      s.(calls := s.calls + [Call(addr, query, ttl, ctx, s.now, CacheKey(addr, query))], phases := s.phases + [Begun])
    case LookUp(id) => AfterLookUp(s, id)
    case EnterDo(id) => AfterEnterDo(s, id)
    case Reply(id, answer) => WithStage(s, s.phases[id].flight, Answered(answer, s.now))
    case Settle(id) => AfterSettle(s, id)
    case Land(id) => AfterLand(s, id)
    case Wake(id) =>
      var p := s.phases[id];
      s.(phases := s.phases[id := Returned(s.flights[p.flight].stage.answer, FromFlight(p.flight, p.joinedAt), s.now)])
  }

  // An action that is not enabled changes nothing, so every sequence of actions is a run.
  function Apply(s: State, a: Action): State {
    if Shaped(s) && Enabled(s, a) then Next(s, a) else s
  }

  function Run(start: int, actions: seq<Action>): State {
    if actions == [] then Init(start)
    else Apply(Run(start, actions[..|actions| - 1]), actions[|actions| - 1])
  }

  lemma RunSnoc(start: int, actions: seq<Action>, a: Action)
    ensures Run(start, actions + [a]) == Apply(Run(start, actions), a)
  {
    assert (actions + [a])[..|actions|] == actions;
  }

  /******* What every reachable state satisfies *******/

  ghost predicate CallOk(s: State, id: nat)
    requires Shaped(s) && id < |s.calls|
  {
    var c := s.calls[id];
    match s.phases[id]
    case Begun => c.beganAt <= s.now
    case Missed(at) => c.beganAt <= at <= s.now
    case Leading(f) => s.flights[f].leader == id && InAir(s, f)
    case Following(f, j) =>
      && FlightKey(s, f) == CallKey(s, id)
      && c.beganAt <= j <= s.now && s.flights[f].startedAt <= j
      && (s.flights[f].stage.Landed? ==> j <= s.flights[f].stage.landedAt)
    case Returned(answer, via, at) =>
      && FlightKey(s, via.flight) == CallKey(s, id)
      && c.beganAt <= via.at <= at <= s.now
      && ServedOk(s, c.ttl, answer, via, at)
  }

  // The answer is the flight's own, and the flight was either stored and still fresh or in the air.
  ghost predicate ServedOk(s: State, ttl: int, answer: Answer, via: Via, at: int)
    requires Shaped(s) && via.flight < |s.flights|
  {
    var st := s.flights[via.flight].stage;
    match via
    case FromCache(f, t) =>
      ttl > 0 && Wrote(s, f) && answer == st.answer && st.settledAt <= t <= st.settledAt + LeaderCall(s, f).ttl
    case FromFlight(f, j) =>
      st.Landed? && answer == st.answer && s.flights[f].startedAt <= j <= st.landedAt <= at
  }

  ghost predicate FlightOk(s: State, f: nat)
    requires Shaped(s) && f < |s.flights|
  {
    var fl := s.flights[f];
    && LeaderCall(s, f).beganAt <= fl.missedAt <= fl.startedAt <= s.now
    && StageOk(fl.stage, fl.startedAt, s.now)
    && (InAir(s, f) ==>
          s.phases[fl.leader] == Leading(f) && FlightKey(s, f) in s.table && s.table[FlightKey(s, f)] == f)
    && (!fl.stage.Asking? && fl.stage.answer.err.Canceled? ==> LeaderCall(s, f).ctx in s.cancelled)
    && (Wrote(s, f) ==> LastWriteCovers(s, f))
  }

  ghost predicate StageOk(st: Stage, startedAt: int, now: int) {
    match st
    case Asking => true
    case Answered(_, t) => startedAt <= t <= now
    case Stored(_, t, u) => startedAt <= t <= u <= now
    case Landed(_, t, u, v) => startedAt <= t <= u <= v <= now
  }

  // An entry is never removed, and the flight it came from is the last of its key to have written.
  ghost predicate LastWriteCovers(s: State, f: nat)
    requires Shaped(s) && f < |s.flights| && Wrote(s, f)
  {
    var key := FlightKey(s, f);
    && key in s.cache && key in s.origin && s.origin[key] < |s.flights| && Wrote(s, s.origin[key])
    && s.flights[f].stage.settledAt <= s.flights[s.origin[key]].stage.settledAt
  }

  ghost predicate TableOk(s: State, key: string)
    requires Shaped(s) && key in s.table
  {
    s.table[key] < |s.flights| && FlightKey(s, s.table[key]) == key && InAir(s, s.table[key])
  }

  ghost predicate EntryOk(s: State, key: string)
    requires Shaped(s) && key in s.cache
  {
    && key in s.origin && s.origin[key] < |s.flights|
    && FlightKey(s, s.origin[key]) == key && Wrote(s, s.origin[key])
    && var st := s.flights[s.origin[key]].stage;
       s.cache[key] == Entry(st.answer, st.settledAt + LeaderCall(s, s.origin[key]).ttl)
  }

  ghost predicate KeyOk(c: Call) {
    c.key == CacheKey(c.addr, c.query)
  }

  ghost predicate Inv(s: State) {
    && Shaped(s)
    && (forall id :: 0 <= id < |s.calls| ==> KeyOk(s.calls[id]))
    && (forall id :: 0 <= id < |s.calls| ==> CallOk(s, id))
    && (forall f :: 0 <= f < |s.flights| ==> FlightOk(s, f))
    && (forall key :: key in s.table ==> TableOk(s, key))
    && (forall key :: key in s.cache ==> EntryOk(s, key))
  }

  /******* One step keeps it *******/

  // Calls and flights are only ever added, and a flight's stage only moves forward.
  ghost predicate Grows(s: State, s': State) {
    && Shaped(s) && Shaped(s')
    && s.now <= s'.now && s.cancelled <= s'.cancelled
    && |s.calls| <= |s'.calls| && (forall i :: 0 <= i < |s.calls| ==> s'.calls[i] == s.calls[i])
    && |s.flights| <= |s'.flights|
    && (forall f :: 0 <= f < |s.flights| ==> FlightGrows(s.flights[f], s'.flights[f], s.now))
    && (forall f :: |s.flights| <= f < |s'.flights| ==> s'.flights[f].stage.Asking?)
  }

  ghost predicate FlightGrows(a: Flight, b: Flight, now: int) {
    && b.leader == a.leader && b.missedAt == a.missedAt && b.startedAt == a.startedAt
    && (b.stage != a.stage ==>
         match a.stage
         case Asking => b.stage.Answered?
         case Answered(v, t) => b.stage == Stored(v, t, now)
         case Stored(v, t, u) => b.stage == Landed(v, t, u, now)
         case Landed(_, _, _, _) => false)
  }

  lemma ReplyGrows(s: State, id: nat, answer: Answer)
    requires Shaped(s) && Enabled(s, Reply(id, answer))
    ensures Grows(s, Next(s, Reply(id, answer)))
  {
  }

  lemma SettleGrows(s: State, id: nat)
    requires Shaped(s) && Enabled(s, Settle(id))
    ensures Grows(s, AfterSettle(s, id))
  {
  }

  lemma LandGrows(s: State, id: nat)
    requires Shaped(s) && Enabled(s, Land(id))
    ensures Grows(s, AfterLand(s, id))
  {
  }

  lemma LookUpGrows(s: State, id: nat)
    requires Shaped(s) && Enabled(s, LookUp(id))
    ensures Grows(s, AfterLookUp(s, id))
  {
  }

  lemma EnterDoGrows(s: State, id: nat)
    requires Shaped(s) && Enabled(s, EnterDo(id))
    ensures Grows(s, AfterEnterDo(s, id))
  {
  }

  lemma NextGrows(s: State, a: Action)
    requires Shaped(s) && Enabled(s, a)
    ensures Grows(s, Next(s, a))
  {
    match a
    case LookUp(id) => LookUpGrows(s, id);
    case EnterDo(id) => EnterDoGrows(s, id);
    case Reply(id, answer) => ReplyGrows(s, id, answer);
    case Settle(id) => SettleGrows(s, id);
    case Land(id) => LandGrows(s, id);
    case _ =>
  }

  lemma KeepCall(s: State, s': State, i: nat)
    requires Grows(s, s') && i < |s.calls| && CallOk(s, i)
    requires s'.phases[i] == s.phases[i] && (s.phases[i].Leading? ==> InAir(s', s.phases[i].flight))
    ensures CallOk(s', i)
  {
    var p := s.phases[i];
    if p.Leading? || p.Following? {
      assert FlightGrows(s.flights[p.flight], s'.flights[p.flight], s.now);
    } else if p.Returned? {
      assert FlightGrows(s.flights[p.via.flight], s'.flights[p.via.flight], s.now);
    }
  }

  lemma KeepFlight(s: State, s': State, f: nat)
    requires Grows(s, s') && f < |s.flights| && FlightOk(s, f)
    requires s'.flights[f].stage == s.flights[f].stage
    requires InAir(s, f) ==> s'.phases[s.flights[f].leader] == Leading(f)
    requires InAir(s, f) ==> FlightKey(s, f) in s'.table && s'.table[FlightKey(s, f)] == f
    requires Wrote(s', f) ==> LastWriteCovers(s', f)
    ensures FlightOk(s', f)
  {
    assert FlightGrows(s.flights[f], s'.flights[f], s.now);
  }

  lemma KeepCover(s: State, s': State, f: nat)
    requires Grows(s, s') && f < |s.flights| && Wrote(s, f) && LastWriteCovers(s, f)
    requires s'.cache == s.cache && s'.origin == s.origin
    ensures Wrote(s', f) && LastWriteCovers(s', f)
  {
    assert FlightGrows(s.flights[f], s'.flights[f], s.now);
    var g := s.origin[FlightKey(s, f)];
    assert FlightGrows(s.flights[g], s'.flights[g], s.now);
  }

  lemma KeepEntry(s: State, s': State, key: string)
    requires Grows(s, s') && key in s.cache && EntryOk(s, key)
    requires key in s'.cache && s'.cache[key] == s.cache[key] && s'.origin[key] == s.origin[key]
    ensures EntryOk(s', key)
  {
    assert FlightGrows(s.flights[s.origin[key]], s'.flights[s.origin[key]], s.now);
  }

  lemma KeepTable(s: State, s': State, key: string)
    requires Grows(s, s') && key in s.table && TableOk(s, key)
    requires key in s'.table && s'.table[key] == s.table[key] && InAir(s', s.table[key])
    ensures TableOk(s', key)
  {
    assert FlightGrows(s.flights[s.table[key]], s'.flights[s.table[key]], s.now);
  }

  // A step that writes no cache entry, moves no flight and takes no key out of the table; it may
  // add calls, one flight and one key, whose own facts the caller supplies.
  lemma QuietStep(s: State, s': State, changed: set<nat>)
    requires Inv(s) && Grows(s, s') && s'.cache == s.cache && s'.origin == s.origin
    requires forall f :: 0 <= f < |s.flights| ==> s'.flights[f] == s.flights[f]
    requires forall f :: |s.flights| <= f < |s'.flights| ==> FlightOk(s', f)
    requires forall key :: key in s.table ==> key in s'.table && s'.table[key] == s.table[key]
    requires forall key :: key in s'.table && key !in s.table ==> TableOk(s', key)
    requires forall i :: 0 <= i < |s.calls| && i !in changed ==> s'.phases[i] == s.phases[i]
    requires forall i :: i in changed && i < |s.calls| ==> !s.phases[i].Leading?
    requires forall i :: |s.calls| <= i < |s'.calls| ==> KeyOk(s'.calls[i])
    requires forall i :: 0 <= i < |s'.calls| && (i in changed || i >= |s.calls|) ==> CallOk(s', i)
    ensures Inv(s')
  {
    forall i | 0 <= i < |s'.calls| ensures CallOk(s', i) {
      if i !in changed && i < |s.calls| {
        assert CallOk(s, i);
        KeepCall(s, s', i);
      }
    }
    forall f | 0 <= f < |s.flights| ensures FlightOk(s', f) {
      assert FlightOk(s, f);
      if Wrote(s, f) { KeepCover(s, s', f); }
      KeepFlight(s, s', f);
    }
    forall key | key in s.table ensures TableOk(s', key) { KeepTable(s, s', key); }
    forall key | key in s'.cache ensures EntryOk(s', key) { KeepEntry(s, s', key); }
  }

  // A step that only moves the program counter of one call that is not leading.
  lemma OnePhaseStep(s: State, s': State, id: nat)
    requires Inv(s) && Grows(s, s') && id < |s.calls| && !s.phases[id].Leading?
    requires s' == s.(phases := s.phases[id := s'.phases[id]]) && CallOk(s', id)
    ensures Inv(s')
  {
    QuietStep(s, s', {id});
  }

  lemma EnvironmentKeeps(s: State, a: Action)
    requires Inv(s) && (a.Tick? || a.Cancel? || a.Begin?)
    ensures Inv(Next(s, a))
  {
    QuietStep(s, Next(s, a), {});
  }

  lemma HitIsServed(s: State, id: nat)
    requires Shaped(s) && Enabled(s, LookUp(id)) && CallOk(s, id)
    requires var key := CallKey(s, id); key in s.cache ==> EntryOk(s, key) && FlightOk(s, s.origin[key])
    ensures var s' := AfterLookUp(s, id);
      Grows(s, s') && CallOk(s', id) && s' == s.(phases := s.phases[id := s'.phases[id]])
  {
  }

  lemma LookUpKeeps(s: State, id: nat)
    requires Inv(s) && Enabled(s, LookUp(id))
    ensures Inv(Next(s, LookUp(id)))
  {
    var key := CallKey(s, id);
    assert CallOk(s, id);
    if key in s.cache { assert EntryOk(s, key) && FlightOk(s, s.origin[key]); }
    HitIsServed(s, id);
    OnePhaseStep(s, AfterLookUp(s, id), id);
  }

  lemma WakeKeeps(s: State, id: nat)
    requires Inv(s) && Enabled(s, Wake(id))
    ensures Inv(Next(s, Wake(id)))
  {
    assert CallOk(s, id) && FlightOk(s, s.phases[id].flight);
    OnePhaseStep(s, Next(s, Wake(id)), id);
  }

  lemma JoinIsServed(s: State, id: nat)
    requires Shaped(s) && Enabled(s, EnterDo(id)) && CallOk(s, id)
    requires var key := CallKey(s, id); key in s.table ==> TableOk(s, key) && FlightOk(s, s.table[key])
    ensures var s' := AfterEnterDo(s, id); Grows(s, s') && CallOk(s', id)
    ensures var s' := AfterEnterDo(s, id); CallKey(s, id) !in s.table ==>
      FlightOk(s', |s.flights|) && TableOk(s', CallKey(s, id))
  {
  }

  lemma JoinKeeps(s: State, id: nat)
    requires Inv(s) && Enabled(s, EnterDo(id)) && CallKey(s, id) in s.table
    ensures Inv(Next(s, EnterDo(id)))
  {
    var key := CallKey(s, id);
    assert CallOk(s, id) && TableOk(s, key) && FlightOk(s, s.table[key]);
    JoinIsServed(s, id);
    OnePhaseStep(s, AfterEnterDo(s, id), id);
  }

  lemma EnterDoKeeps(s: State, id: nat)
    requires Inv(s) && Enabled(s, EnterDo(id))
    ensures Inv(Next(s, EnterDo(id)))
  {
    if CallKey(s, id) in s.table {
      JoinKeeps(s, id);
    } else {
      assert CallOk(s, id);
      JoinIsServed(s, id);
      QuietStep(s, AfterEnterDo(s, id), {id});
    }
  }

  // A step of a leader: its own call, its own flight and its own key may change, nothing else does.
  ghost predicate LeaderStep(s: State, s': State, id: nat) {
    && Grows(s, s') && LeadsAt(s, id)
    && |s'.calls| == |s.calls| && |s'.flights| == |s.flights|
    && (forall i :: 0 <= i < |s.calls| && i != id ==> s'.phases[i] == s.phases[i])
    && (forall f :: 0 <= f < |s.flights| && f != s.phases[id].flight ==> s'.flights[f] == s.flights[f])
    && (forall k :: k != CallKey(s, id) ==>
          (k in s'.table <==> k in s.table) && (k in s.table ==> s'.table[k] == s.table[k]))
  }

  lemma OthersKeep(s: State, s': State, id: nat)
    requires Inv(s) && LeaderStep(s, s', id)
    requires forall f :: 0 <= f < |s.flights| ==> LastWriteCoversAfter(s', f)
    ensures forall i :: 0 <= i < |s'.calls| && i != id ==> CallOk(s', i)
    ensures forall f :: 0 <= f < |s'.flights| && f != s.phases[id].flight ==> FlightOk(s', f)
    ensures forall k :: k in s'.table && k != CallKey(s, id) ==> TableOk(s', k)
  {
    var mine := s.phases[id].flight;
    assert CallOk(s, id) && FlightOk(s, mine);
    forall i | 0 <= i < |s'.calls| && i != id ensures CallOk(s', i) { assert CallOk(s, i); KeepCall(s, s', i); }
    forall f | 0 <= f < |s'.flights| && f != mine ensures FlightOk(s', f) {
      assert FlightOk(s, f);
      if InAir(s, f) { assert TableOk(s, FlightKey(s, f)); }
      assert LastWriteCoversAfter(s', f);
      KeepFlight(s, s', f);
    }
    forall k | k in s'.table && k != CallKey(s, id) ensures TableOk(s', k) {
      assert TableOk(s, k);
      KeepTable(s, s', k);
    }
  }

  ghost predicate LastWriteCoversAfter(s: State, f: nat)
    requires Shaped(s) && f < |s.flights|
  {
    Wrote(s, f) ==> LastWriteCovers(s, f)
  }

  lemma SettleCovers(s: State, id: nat, f: nat)
    requires Inv(s) && Enabled(s, Settle(id)) && f < |s.flights|
    ensures Shaped(AfterSettle(s, id)) && LastWriteCoversAfter(AfterSettle(s, id), f)
  {
    SettleGrows(s, id);
    assert CallOk(s, id) && FlightOk(s, f);
    if f != s.phases[id].flight && Wrote(s, f) {
      assert FlightOk(s, s.origin[FlightKey(s, f)]);
      SettleCoversOther(s, id, f);
    }
  }

  lemma SettleCoversOther(s: State, id: nat, f: nat)
    requires Shaped(s) && Enabled(s, Settle(id)) && f < |s.flights| && f != s.phases[id].flight
    requires Wrote(s, f) && LastWriteCovers(s, f) && FlightOk(s, f) && CallOk(s, id)
    requires Grows(s, AfterSettle(s, id))
    ensures LastWriteCoversAfter(AfterSettle(s, id), f)
  {
    var g, s' := s.origin[FlightKey(s, f)], AfterSettle(s, id);
    assert FlightGrows(s.flights[f], s'.flights[f], s.now) && FlightGrows(s.flights[g], s'.flights[g], s.now);
  }

  lemma SettleEntry(s: State, id: nat, k: string)
    requires Shaped(s) && Enabled(s, Settle(id)) && CallOk(s, id) && (k in s.cache ==> EntryOk(s, k))
    requires k in AfterSettle(s, id).cache && Grows(s, AfterSettle(s, id))
    ensures EntryOk(AfterSettle(s, id), k)
  {
    var s' := AfterSettle(s, id);
    if k != CallKey(s, id) || !Wrote(s', s.phases[id].flight) { KeepEntry(s, s', k); }
  }

  lemma SettleOwn(s: State, id: nat)
    requires Shaped(s) && Enabled(s, Settle(id)) && CallOk(s, id) && FlightOk(s, s.phases[id].flight)
    requires TableOk(s, CallKey(s, id)) && Grows(s, AfterSettle(s, id))
    requires LastWriteCoversAfter(AfterSettle(s, id), s.phases[id].flight)
    ensures var s' := AfterSettle(s, id);
      LeaderStep(s, s', id) && CallOk(s', id) && FlightOk(s', s.phases[id].flight) && TableOk(s', CallKey(s, id))
  {
  }

  lemma SettleKeeps(s: State, id: nat)
    requires Inv(s) && Enabled(s, Settle(id))
    ensures Inv(Next(s, Settle(id)))
  {
    var s' := AfterSettle(s, id);
    var mine := s.phases[id].flight;
    SettleGrows(s, id);
    assert CallOk(s, id) && FlightOk(s, mine);
    forall f | 0 <= f < |s.flights| ensures LastWriteCoversAfter(s', f) { SettleCovers(s, id, f); }
    SettleOwn(s, id);
    OthersKeep(s, s', id);
    forall k | k in s'.cache ensures EntryOk(s', k) { SettleEntry(s, id, k); }
  }

  lemma LandOwn(s: State, id: nat)
    requires Shaped(s) && Enabled(s, Land(id)) && CallOk(s, id) && FlightOk(s, s.phases[id].flight)
    requires Grows(s, AfterLand(s, id))
    requires LastWriteCoversAfter(AfterLand(s, id), s.phases[id].flight)
    ensures var s' := AfterLand(s, id);
      LeaderStep(s, s', id) && CallOk(s', id) && FlightOk(s', s.phases[id].flight) && CallKey(s, id) !in s'.table
  {
  }

  // A step that leaves the map alone keeps what is known about its writes and entries.
  lemma SameMapKeeps(s: State, s': State)
    requires Inv(s) && Grows(s, s') && s'.cache == s.cache && s'.origin == s.origin
    requires |s'.flights| == |s.flights|
    requires forall f :: 0 <= f < |s.flights| && Wrote(s', f) ==> Wrote(s, f)
    ensures forall f :: 0 <= f < |s'.flights| ==> LastWriteCoversAfter(s', f)
    ensures forall k :: k in s'.cache ==> EntryOk(s', k)
  {
    forall f | 0 <= f < |s.flights| ensures LastWriteCoversAfter(s', f) {
      assert FlightOk(s, f);
      if Wrote(s', f) { KeepCover(s, s', f); }
    }
    forall k | k in s'.cache ensures EntryOk(s', k) { KeepEntry(s, s', k); }
  }

  lemma ReplyKeeps(s: State, id: nat, answer: Answer)
    requires Inv(s) && Enabled(s, Reply(id, answer))
    ensures Inv(Next(s, Reply(id, answer)))
  {
    var s' := Next(s, Reply(id, answer));
    assert CallOk(s, id) && FlightOk(s, s.phases[id].flight);
    ReplyGrows(s, id, answer);
    SameMapKeeps(s, s');
    OthersKeep(s, s', id);
  }

  lemma LandKeeps(s: State, id: nat)
    requires Inv(s) && Enabled(s, Land(id))
    ensures Inv(Next(s, Land(id)))
  {
    var s' := AfterLand(s, id);
    assert CallOk(s, id) && FlightOk(s, s.phases[id].flight);
    LandGrows(s, id);
    SameMapKeeps(s, s');
    LandOwn(s, id);
    OthersKeep(s, s', id);
  }

  lemma ApplyKeeps(s: State, a: Action)
    requires Inv(s)
    ensures Inv(Apply(s, a))
  {
    if Enabled(s, a) {
      match a
      case Tick(_) => EnvironmentKeeps(s, a);
      case Cancel(_) => EnvironmentKeeps(s, a);
      case Begin(_, _, _, _) => EnvironmentKeeps(s, a);
      case LookUp(id) => LookUpKeeps(s, id);
      case EnterDo(id) => EnterDoKeeps(s, id);
      case Reply(id, answer) => ReplyKeeps(s, id, answer);
      case Settle(id) => SettleKeeps(s, id);
      case Land(id) => LandKeeps(s, id);
      case Wake(id) => WakeKeeps(s, id);
    }
  }

  // A returned call keeps its answer.
  lemma ReturnedStays(s: State, a: Action, i: nat)
    requires Shaped(s) && Enabled(s, a) && i < |s.calls| && s.phases[i].Returned?
    ensures i < |Next(s, a).phases| && Next(s, a).phases[i] == s.phases[i]
  {
  }

  // A run of actions from any state, first action first.
  function ApplyAll(s: State, actions: seq<Action>): State
    decreases |actions|
  {
    if actions == [] then s else ApplyAll(Apply(s, actions[0]), actions[1..])
  }

  lemma {:induction false} RunAppend(start: int, before: seq<Action>, after: seq<Action>)
    ensures Run(start, before + after) == ApplyAll(Run(start, before), after)
    decreases |after|
  {
    if after == [] {
      assert before + after == before;
    } else {
      RunSnoc(start, before, after[0]);
      RunAppend(start, before + [after[0]], after[1..]);
      assert before + after == (before + [after[0]]) + after[1..];
    }
  }

  lemma {:induction false} RunInv(start: int, actions: seq<Action>)
    ensures Inv(Run(start, actions))
  {
    if actions != [] {
      RunInv(start, actions[..|actions| - 1]);
      ApplyKeeps(Run(start, actions[..|actions| - 1]), actions[|actions| - 1]);
    }
  }

  // The states that some run from some start reaches (RunInv: every state of a run is shaped).
  ghost predicate Reachable(s: State) {
    Shaped(s) && exists start: int, actions: seq<Action> :: s == Run(start, actions)
  }

  lemma ReachableInv(s: State)
    requires Reachable(s)
    ensures Inv(s)
  {
    var start: int, actions: seq<Action> :| s == Run(start, actions);
    RunInv(start, actions);
  }
}
