// Get calls that do not overlap. Each call has three instants: its lookup, the moment the backend's answer
// was taken, and the moment it was stored (all equal when the call is a hit). The backend is any
// function of address, query and time.
module Sequential {
  import opened Wrappers
  import opened Metrics

  datatype Op = Op(addr: string, query: string, ttl: int, lookupAt: int, answeredAt: int, storedAt: int)

  function Key(op: Op): string {
    CacheKey(op.addr, op.query)
  }

  predicate Timed(ops: seq<Op>) {
    && (forall i :: 0 <= i < |ops| ==> ops[i].lookupAt <= ops[i].answeredAt <= ops[i].storedAt)
    && (forall i, j :: 0 <= i < j < |ops| ==> ops[i].storedAt <= ops[j].lookupAt)
  }

  // What the backend would have said directly.
  function Direct(source: Backend, op: Op, at: int): Answer {
    source(op.addr, op.query, at)
  }

  function CacheAfter(source: Backend, ops: seq<Op>): map<string, Entry> {
    if ops == [] then map[]
    else
      var op, before := ops[|ops| - 1], CacheAfter(source, ops[..|ops| - 1]);
      if Lookup(before, Key(op), op.ttl, op.lookupAt).Some? then before
      else Settled(before, Key(op), Direct(source, op, op.answeredAt), op.ttl, op.storedAt)
  }

  predicate WentUp(source: Backend, ops: seq<Op>, i: nat)
    requires i < |ops|
  {
    Lookup(CacheAfter(source, ops[..i]), Key(ops[i]), ops[i].ttl, ops[i].lookupAt).None?
  }

  // What call i returned.
  function ReadAt(source: Backend, ops: seq<Op>, i: nat): Answer
    requires i < |ops|
  {
    var hit := Lookup(CacheAfter(source, ops[..i]), Key(ops[i]), ops[i].ttl, ops[i].lookupAt);
    if hit.Some? then hit.value else Direct(source, ops[i], ops[i].answeredAt)
  }

  // Call i asked the backend and its answer was written to the cache.
  predicate Wrote(source: Backend, ops: seq<Op>, i: nat)
    requires i < |ops|
  {
    WentUp(source, ops, i) && ops[i].ttl > 0 && Cacheable(Direct(source, ops[i], ops[i].answeredAt))
  }

  function LastWriter(source: Backend, ops: seq<Op>, key: string): Option<nat> {
    if ops == [] then None
    else
      var n := |ops| - 1;
      if Key(ops[n]) == key && Wrote(source, ops, n) then Some(n) else LastWriter(source, ops[..n], key)
  }

  lemma {:induction false} WriterIsLast(source: Backend, ops: seq<Op>, key: string)
    ensures var w := LastWriter(source, ops, key);
      && (w.Some? ==> w.value < |ops| && Key(ops[w.value]) == key && Wrote(source, ops, w.value))
      && (forall i :: 0 <= i < |ops| && Key(ops[i]) == key && Wrote(source, ops, i) ==> w.Some? && i <= w.value)
  {
    if ops != [] {
      var n := |ops| - 1;
      WriterIsLast(source, ops[..n], key);
      forall i | 0 <= i < n ensures Wrote(source, ops[..n], i) <==> Wrote(source, ops, i) {
        assert ops[..n][..i] == ops[..i];
      }
    }
  }

  // The cache is the last write of each key.
  lemma {:induction false} CacheIsLastWrite(source: Backend, ops: seq<Op>, key: string)
    ensures var cache, w := CacheAfter(source, ops), LastWriter(source, ops, key);
      && (key in cache <==> w.Some?)
      && (w.Some? ==> w.value < |ops| && var op := ops[w.value];
           cache[key] == Entry(Direct(source, op, op.answeredAt), op.storedAt + op.ttl))
  {
    if ops != [] {
      CacheIsLastWrite(source, ops[..|ops| - 1], key);
    }
  }

  // The object, called once for each of the operations in turn, does what the history says.
  method Replay(source: Backend, ops: seq<Op>) returns (cache: map<string, Entry>, answers: seq<Answer>)
    ensures cache == CacheAfter(source, ops)
    ensures |answers| == |ops| && forall i :: 0 <= i < |ops| ==> answers[i] == ReadAt(source, ops, i)
  {
    var cached := new CachingSource();
    answers := [];
    for n := 0 to |ops|
      invariant fresh(cached) && cached.cache == CacheAfter(source, ops[..n])
      invariant |answers| == n && forall i :: 0 <= i < n ==> answers[i] == ReadAt(source, ops, i)
    {
      assert ops[..n + 1][..n] == ops[..n];
      var op := ops[n];
      var answer, upstream := cached.Get(source, op.addr, op.query, op.ttl, op.lookupAt, op.answeredAt, op.storedAt);
      answers := answers + [answer];
    }
    assert ops[..|ops|] == ops;
    cache := cached.cache;
  }

  /******* A cached read is a recent direct read *******/

  // Call i returned the direct answer of some call j of the same key at or before it, made then and there
  // or stored no longer than its own TTL before i looked.
  lemma ReadIsADirectRead(source: Backend, ops: seq<Op>, i: nat) returns (j: nat)
    requires Timed(ops) && i < |ops|
    ensures j <= i && Key(ops[j]) == Key(ops[i]) && WentUp(source, ops, j)
    ensures ReadAt(source, ops, i) == Direct(source, ops[j], ops[j].answeredAt)
    ensures j < i ==> Wrote(source, ops, j) && ops[j].storedAt <= ops[i].lookupAt <= ops[j].storedAt + ops[j].ttl
    ensures j == i <==> WentUp(source, ops, i)
  {
    if WentUp(source, ops, i) {
      j := i;
    } else {
      CacheIsLastWrite(source, ops[..i], Key(ops[i]));
      WriterIsLast(source, ops[..i], Key(ops[i]));
      j := LastWriter(source, ops[..i], Key(ops[i])).value;
      assert ops[..i][..j] == ops[..j];
    }
  }

  predicate NulFree(ops: seq<Op>) {
    forall i :: 0 <= i < |ops| ==> !HasNul(ops[i].addr)
  }

  // Every call uses the TTL `ttl`, and an answer waits at most `delay` before it is stored.
  predicate Uniform(ops: seq<Op>, ttl: int, delay: int) {
    forall i :: 0 <= i < |ops| ==> ops[i].ttl == ttl && ops[i].storedAt - ops[i].answeredAt <= delay
  }

  // The bare source, asked at a suitable instant of the last ttl + delay, would have said the same.
  lemma CachedReadRefinesDirect(source: Backend, ops: seq<Op>, ttl: int, delay: int, i: nat) returns (s: int)
    requires Timed(ops) && NulFree(ops) && Uniform(ops, ttl, delay) && i < |ops|
    ensures ops[i].lookupAt - ttl - delay <= s <= ops[i].answeredAt || s == ops[i].answeredAt
    ensures ReadAt(source, ops, i) == Direct(source, ops[i], s)
  {
    var j := ReadIsADirectRead(source, ops, i);
    CacheKeyInjective(ops[j].addr, ops[j].query, ops[i].addr, ops[i].query);
    s := ops[j].answeredAt;
  }

  // The series call `op` reads did not change from ttl + delay before its lookup until it answered.
  ghost predicate Steady(source: Backend, op: Op, ttl: int, delay: int) {
    forall u :: op.lookupAt - ttl - delay <= u <= op.answeredAt ==>
      Direct(source, op, u) == Direct(source, op, op.answeredAt)
  }

  lemma SteadyReadIsDirect(source: Backend, ops: seq<Op>, ttl: int, delay: int, i: nat)
    requires Timed(ops) && NulFree(ops) && Uniform(ops, ttl, delay) && i < |ops|
    requires Steady(source, ops[i], ttl, delay)
    ensures ReadAt(source, ops, i) == Direct(source, ops[i], ops[i].answeredAt)
  {
    var s := CachedReadRefinesDirect(source, ops, ttl, delay, i);
  }

  /******* Upstream rate *******/

  // After a write of a key, no call asks the backend for that key until more than the TTL has passed.
  lemma UpstreamCallsAreSpaced(source: Backend, ops: seq<Op>, ttl: int, i: nat, j: nat)
    requires Timed(ops) && i < j < |ops| && Key(ops[i]) == Key(ops[j])
    requires forall k :: 0 <= k < |ops| && Key(ops[k]) == Key(ops[i]) ==> ops[k].ttl == ttl
    requires ttl > 0 && Wrote(source, ops, i) && WentUp(source, ops, j)
    ensures ops[j].lookupAt > ops[i].storedAt + ttl
  {
    WriterIsLast(source, ops[..j], Key(ops[j]));
    CacheIsLastWrite(source, ops[..j], Key(ops[j]));
    assert ops[..j][..i] == ops[..i];
    var w := LastWriter(source, ops[..j], Key(ops[j])).value;
    assert i <= w && ops[i].storedAt <= ops[w].storedAt;
  }

  predicate WritesKey(source: Backend, ops: seq<Op>, key: string, i: nat) {
    i < |ops| && Key(ops[i]) == key && Wrote(source, ops, i)
  }

  // The calls of a key that wrote, in order.
  function Writers(source: Backend, ops: seq<Op>, key: string): seq<nat> {
    if ops == [] then []
    else
      var n := |ops| - 1;
      Writers(source, ops[..n], key) + (if WritesKey(source, ops, key, n) then [n] else [])
  }

  lemma PrefixWrites(source: Backend, ops: seq<Op>, key: string, n: nat, i: nat)
    requires i < n <= |ops|
    ensures WritesKey(source, ops[..n], key, i) <==> WritesKey(source, ops, key, i)
  {
    assert ops[..n][..i] == ops[..i];
  }

  // ws are the places of the calls that write the key, in order and all of them.
  ghost predicate AreTheWrites(source: Backend, ops: seq<Op>, key: string, ws: seq<nat>) {
    && (forall k :: 0 <= k < |ws| ==> WritesKey(source, ops, key, ws[k]))
    && (forall k, l :: 0 <= k < l < |ws| ==> ws[k] < ws[l])
    && (forall i: nat :: WritesKey(source, ops, key, i) ==> i in ws)
  }

  lemma {:induction false} WritersAreTheWrites(source: Backend, ops: seq<Op>, key: string)
    ensures AreTheWrites(source, ops, key, Writers(source, ops, key))
  {
    if ops != [] {
      var n := |ops| - 1;
      WritersAreTheWrites(source, ops[..n], key);
      OneMoreWrite(source, ops, key, Writers(source, ops[..n], key));
    }
  }

  lemma OneMoreWrite(source: Backend, ops: seq<Op>, key: string, ws: seq<nat>)
    requires ops != [] && AreTheWrites(source, ops[..|ops| - 1], key, ws)
    ensures AreTheWrites(source, ops, key, ws + (if WritesKey(source, ops, key, |ops| - 1) then [|ops| - 1] else []))
  {
    var n := |ops| - 1;
    var more := ws + (if WritesKey(source, ops, key, n) then [n] else []);
    forall k | 0 <= k < |ws| ensures WritesKey(source, ops, key, ws[k]) && ws[k] < n {
      assert WritesKey(source, ops[..n], key, ws[k]);
      PrefixWrites(source, ops, key, n, ws[k]);
    }
    forall i: nat | WritesKey(source, ops, key, i) ensures i in more {
      if i < n {
        PrefixWrites(source, ops, key, n, i);
        assert i in ws;
      }
    }
  }

  // n cacheable upstream calls of one key span at least (n - 1) * (ttl + 1) nanoseconds, hence strictly
  // more than (n - 1) * ttl.
  lemma {:induction false} UpstreamRateBound(source: Backend, ops: seq<Op>, key: string, ttl: int, n: nat)
    requires Timed(ops) && ttl > 0
    requires forall k :: 0 <= k < |ops| && Key(ops[k]) == key ==> ops[k].ttl == ttl
    requires 0 < n <= |Writers(source, ops, key)|
    ensures var ws := Writers(source, ops, key);
      && ws[0] < |ops| && ws[n - 1] < |ops|
      && (n - 1) * (ttl + 1) <= ops[ws[n - 1]].storedAt - ops[ws[0]].storedAt
  {
    WritersAreTheWrites(source, ops, key);
    var ws := Writers(source, ops, key);
    if n > 1 {
      UpstreamRateBound(source, ops, key, ttl, n - 1);
      assert WritesKey(source, ops, key, ws[n - 2]) && WritesKey(source, ops, key, ws[n - 1]);
      UpstreamCallsAreSpaced(source, ops, ttl, ws[n - 2], ws[n - 1]);
      assert (n - 1) * (ttl + 1) == (n - 2) * (ttl + 1) + (ttl + 1);
    }
  }

  /******* Errors are retried *******/

  lemma {:induction false} UnwrittenKeyKeepsItsEntry(source: Backend, ops: seq<Op>, i: nat, key: string)
    requires i <= |ops| && (forall k :: i <= k < |ops| ==> Key(ops[k]) != key || !Wrote(source, ops, k))
    ensures var a, b := CacheAfter(source, ops[..i]), CacheAfter(source, ops);
      (key in a <==> key in b) && (key in a ==> a[key] == b[key])
  {
    if i == |ops| {
      assert ops[..i] == ops;
    } else {
      var n := |ops| - 1;
      assert ops[..n][..i] == ops[..i];
      forall k | i <= k < n ensures Key(ops[..n][k]) != key || !Wrote(source, ops[..n], k) {
        assert ops[..n][..k] == ops[..k];
      }
      UnwrittenKeyKeepsItsEntry(source, ops[..n], i, key);
      assert Key(ops[n]) != key || !Wrote(source, ops, n);
    }
  }

  // A caching call that got an error other than ErrMissing is followed, for that key, by a call that
  // goes upstream, whatever happened to other keys in between.
  lemma FailureIsRetried(source: Backend, ops: seq<Op>, i: nat, j: nat)
    requires Timed(ops) && i < j < |ops| && Key(ops[i]) == Key(ops[j])
    requires ops[i].ttl > 0 && (ReadAt(source, ops, i).err.Canceled? || ReadAt(source, ops, i).err.Failed?)
    requires forall k :: i < k < j ==> Key(ops[k]) != Key(ops[i])
    ensures WentUp(source, ops, i) && WentUp(source, ops, j)
  {
    var key := Key(ops[i]);
    var r := ReadIsADirectRead(source, ops, i);
    forall k | i <= k < j ensures Key(ops[..j][k]) != key || !Wrote(source, ops[..j], k) {
      assert ops[..j][..k] == ops[..k];
    }
    UnwrittenKeyKeepsItsEntry(source, ops[..j], i, key);
    assert ops[..j][..i] == ops[..i];
  }
}
