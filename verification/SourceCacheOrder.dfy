/**
 Stamps and the order of claims.

 The cache evicts by stamp, and a request takes its stamp before the lock. A claim is late when some cached
 source already carries a later stamp. Stamps order the claims exactly as long as no claim is late, and
 eviction by stamp is eviction of the least recently claimed exactly as long as they do.
 */
module SourceCacheOrder {
  import opened Common
  import opened SourceCache

  /** Source `s` goes from unclaimed to claimed. */
  predicate ClaimStep(c: Cache, d: Cache, s: Id) {
    s in c.sources && s in d.sources && !c.sources[s].claimed && d.sources[s].claimed
  }

  predicate IsCached(c: Cache, s: Id) { s in c.entries.Values }

  // ---- what a step does to stamps ----------------------------------------------------------

  /** No source is claimed or stamped anew, and none enters the cache. */
  ghost predicate Calm(c: Cache, d: Cache) {
    && (forall s :: s in c.sources ==> s in d.sources && d.sources[s].lastUsed == c.sources[s].lastUsed && (d.sources[s].claimed ==> c.sources[s].claimed))
    && (forall s :: IsCached(d, s) ==> IsCached(c, s))
  }

  /** Request `p` claims `s` and is answered; nothing else about sources changes, and only `s` may enter the cache. */
  ghost predicate ClaimsNow(c: Cache, d: Cache, p: Id, s: Id) {
    && p in c.requests && !c.requests[p].at.Answered?
    && s in c.sources && !c.sources[s].claimed
    && d.sources == c.sources[s := c.sources[s].(claimed := true, lastUsed := c.requests[p].stamp)]
    && IsCached(d, s) && (forall t :: IsCached(d, t) ==> t == s || IsCached(c, t))
    && p in d.requests && d.requests[p].at.Answered?
  }

  ghost predicate RequestsGrow(c: Cache, d: Cache) {
    && c.clock <= d.clock
    && (forall p :: p in c.requests ==> p in d.requests && d.requests[p].stamp == c.requests[p].stamp && (c.requests[p].at.Answered? ==> d.requests[p].at.Answered?))
    && (forall p :: p in d.requests && p !in c.requests ==> d.requests[p].stamp == c.clock && d.clock == c.clock + 1)
    && (forall p, q :: p in d.requests && p !in c.requests && q in d.requests && q !in c.requests ==> p == q)
  }

  /** Only request `p`, not yet answered, changes its place. */
  predicate OneMoves(c: Cache, d: Cache, p: Id) {
    && p in c.requests && !c.requests[p].at.Answered? && p in d.requests && d.clock == c.clock
    && d.requests == c.requests[p := c.requests[p].(at := d.requests[p].at)]
  }

  lemma OneMovesGrows(c: Cache, d: Cache, p: Id)
    requires OneMoves(c, d, p)
    ensures RequestsGrow(c, d)
  {
  }

  lemma ClaimMoves(c: Cache, p: Id, s: Id)
    requires p in c.requests && s in c.sources && !c.requests[p].at.Answered?
    ensures OneMoves(c, Claim(c, p, s), p) && OneMoves(c, Insert(c, p, s), p)
  {
  }

  lemma LookUpMoves(c: Cache, p: Id)
    requires Enabled(c, LookUp(p))
    ensures OneMoves(c, Next(c, LookUp(p)), p)
  {
    var k := c.requests[p].key;
    if k in c.entries && c.entries[k] in c.sources { ClaimMoves(c, p, c.entries[k]); }
    hide Collides, Claim;
  }

  lemma EnterMoves(c: Cache, p: Id)
    requires Inv(c) && Enabled(c, Enter(p))
    ensures OneMoves(c, Next(c, Enter(p)), p)
  {
    var k, s := c.requests[p].key, c.requests[p].at.source;
    assert RequestOk(c, p, c.requests[p]);
    if k in c.entries && c.entries[k] in c.sources { ClaimMoves(c, p, c.entries[k]); }
    ClaimMoves(c, p, s);
    hide Collides, Claim, Insert, IdleNow, Inv, RequestOk;
  }

  lemma ConcludeMoves(c: Cache, p: Id, v: Option<Key>)
    requires Enabled(c, Conclude(p, v))
    ensures OneMoves(c, Next(c, Conclude(p, v)), p)
  {
    hide Enabled, Next, Insert, AnswerNow, IsVictim;
    ConcludeIs(c, p, v);
    var d := if v.Some? then c.(entries := c.entries - {v.value}) else c;
    var s := c.requests[p].at.source;
    if s in c.sources { ClaimMoves(d, p, s); }
    SaturatedMoves(d, p);
  }

  lemma ConcludeIs(c: Cache, p: Id, v: Option<Key>)
    requires Enabled(c, Conclude(p, v))
    ensures p in c.requests && c.requests[p].at.Scanning?
    ensures var d := if v.Some? then c.(entries := c.entries - {v.value}) else c;
            var s := c.requests[p].at.source;
            Next(c, Conclude(p, v)) == if |d.entries| >= d.max || s !in d.sources then AnswerNow(d, p, Saturated) else Insert(d, p, s)
  {
    hide IsVictim, Insert, AnswerNow;
  }

  lemma SaturatedMoves(c: Cache, p: Id)
    requires p in c.requests && !c.requests[p].at.Answered?
    ensures OneMoves(c, AnswerNow(c, p, Saturated), p)
  {
  }

  lemma RequestsAsk(c: Cache, x: Action)
    requires Inv(c) && Enabled(c, x) && (x.LookUp? || x.Enter? || x.Conclude?)
    ensures RequestsGrow(c, Next(c, x))
  {
    hide Inv, Enabled, Next, OneMoves, RequestsGrow;
    match x
    case LookUp(p) => LookUpMoves(c, p); OneMovesGrows(c, Next(c, x), p);
    case Enter(p) => EnterMoves(c, p); OneMovesGrows(c, Next(c, x), p);
    case Conclude(p, v) => ConcludeMoves(c, p, v); OneMovesGrows(c, Next(c, x), p);
  }

  lemma RequestsStep(c: Cache, x: Action)
    requires Inv(c) && Enabled(c, x)
    ensures RequestsGrow(c, Next(c, x))
  {
    if x.LookUp? || x.Enter? || x.Conclude? {
      RequestsAsk(c, x);
      hide RequestsGrow, Next, Enabled;
    } else {
      hide Collides, Idle, IdleNow;
    }
  }

  /** A claim of a cached source. */
  lemma ClaimCached(c: Cache, p: Id, s: Id)
    requires p in c.requests && !c.requests[p].at.Answered? && s in c.sources && IsCached(c, s)
    ensures Calm(c, Claim(c, p, s)) || ClaimsNow(c, Claim(c, p, s), p, s)
  {
  }

  /** The claim of a source that enters the cache, where nothing was under its key. */
  lemma InsertClaims(c: Cache, d: Cache, p: Id, s: Id)
    requires d == c.(entries := d.entries) && p in c.requests && !c.requests[p].at.Answered? && s in c.sources && !c.sources[s].claimed
    requires forall t :: IsCached(d, t) ==> IsCached(c, t)
    ensures ClaimsNow(c, Insert(d, p, s), p, s)
  {
    var e := Insert(d, p, s);
    var k := c.requests[p].key;
    assert e.entries == d.entries[k := s];
    assert e.entries[k] in e.entries.Values;
    forall t | IsCached(e, t) ensures t == s || IsCached(c, t) {
      var o :| o in e.entries && e.entries[o] == t;
      if o != k { assert d.entries[o] in d.entries.Values; assert IsCached(d, t); }
    }
  }

  lemma FewerEntries(c: Cache, d: Cache, gone: set<Key>)
    requires d == c.(entries := c.entries - gone)
    ensures forall t :: IsCached(d, t) ==> IsCached(c, t)
  {
    forall t | IsCached(d, t) ensures IsCached(c, t) {
      var o :| o in d.entries && d.entries[o] == t;
      assert c.entries[o] in c.entries.Values;
    }
  }

  lemma EntryIsCached(c: Cache, k: Key)
    requires k in c.entries
    ensures IsCached(c, c.entries[k])
  {
  }

  lemma LookUpShape(c: Cache, p: Id)
    requires Enabled(c, LookUp(p))
    ensures Calm(c, Next(c, LookUp(p))) || exists s :: ClaimsNow(c, Next(c, LookUp(p)), p, s)
  {
    var k := c.requests[p].key;
    if k in c.entries && c.entries[k] in c.sources {
      EntryIsCached(c, k);
      ClaimCached(c, p, c.entries[k]);
    }
    hide Collides;
  }

  lemma EnterShape(c: Cache, p: Id)
    requires Inv(c) && Enabled(c, Enter(p))
    ensures Calm(c, Next(c, Enter(p))) || exists s :: ClaimsNow(c, Next(c, Enter(p)), p, s)
  {
    var k, s := c.requests[p].key, c.requests[p].at.source;
    assert RequestOk(c, p, c.requests[p]);
    assert s in c.sources && !c.sources[s].claimed;
    hide Inv, Collides, IdleNow, RequestOk;
    if k in c.entries && c.entries[k] in c.sources {
      EntryIsCached(c, k);
      ClaimCached(c, p, c.entries[k]);
    } else {
      InsertClaims(c, c, p, s);
    }
  }

  lemma ConcludeShapes(c: Cache, p: Id, v: Option<Key>)
    requires Inv(c) && Enabled(c, Conclude(p, v))
    ensures Calm(c, Next(c, Conclude(p, v))) || exists s :: ClaimsNow(c, Next(c, Conclude(p, v)), p, s)
  {
    var s := c.requests[p].at.source;
    var d := if v.Some? then c.(entries := c.entries - {v.value}) else c;
    assert RequestOk(c, p, c.requests[p]);
    assert s in c.sources && !c.sources[s].claimed;
    hide Inv, RequestOk, IsVictim;
    if v.Some? { FewerEntries(c, d, {v.value}); }
    InsertClaims(c, d, p, s);
  }

  /** Every step is calm, or is one request claiming one source. */
  lemma StepShape(c: Cache, x: Action)
    requires Inv(c) && Enabled(c, x)
    ensures Calm(c, Next(c, x))
            || ((x.LookUp? || x.Enter? || x.Conclude?) && exists s :: ClaimsNow(c, Next(c, x), x.request, s))
  {
    match x
    case LookUp(p) => LookUpShape(c, p);
    case Enter(p) => EnterShape(c, p);
    case Conclude(p, v) => ConcludeShapes(c, p, v);
    case EvictStream(_, removed) => FewerEntries(c, Next(c, x), removed);
    case Create(_, _) => assert c.next !in c.sources;
    case _ => hide IdleNow, Idle;
  }

  // ---- stamps are distinct -----------------------------------------------------------------

  predicate UsedBy(c: Cache, s: Id, p: Id) {
    p in c.requests && c.requests[p].at.Answered? && s in c.sources && c.requests[p].stamp == c.sources[s].lastUsed
  }

  ghost predicate Used(c: Cache, s: Id) { exists p :: UsedBy(c, s, p) }

  predicate SameStamp(c: Cache, a: Id, b: Id) {
    IsCached(c, a) && IsCached(c, b) && a in c.sources && b in c.sources && c.sources[a].lastUsed == c.sources[b].lastUsed
  }

  /** Requests have distinct stamps; a cached source carries the stamp of an answered request; and no two the same. */
  ghost predicate StampsInv(c: Cache) {
    && (forall p :: p in c.requests ==> c.requests[p].stamp < c.clock)
    && (forall p, q :: p in c.requests && q in c.requests && c.requests[p].stamp == c.requests[q].stamp ==> p == q)
    && (forall s :: IsCached(c, s) ==> Used(c, s))
    && (forall a, b :: SameStamp(c, a, b) ==> a == b)
  }

  lemma RequestStamps(c: Cache, d: Cache)
    requires StampsInv(c) && RequestsGrow(c, d)
    ensures forall p :: p in d.requests ==> d.requests[p].stamp < d.clock
    ensures forall p, q :: p in d.requests && q in d.requests && d.requests[p].stamp == d.requests[q].stamp ==> p == q
  {
  }

  lemma UsedStays(c: Cache, d: Cache, s: Id)
    requires RequestsGrow(c, d) && Used(c, s) && s in d.sources && s in c.sources && d.sources[s].lastUsed == c.sources[s].lastUsed
    ensures Used(d, s)
  {
    var p :| UsedBy(c, s, p);
    assert UsedBy(d, s, p);
  }

  lemma CalmStamps(c: Cache, d: Cache)
    requires StampsInv(c) && RequestsGrow(c, d) && Calm(c, d)
    ensures StampsInv(d)
  {
    RequestStamps(c, d);
    forall s | IsCached(d, s) ensures Used(d, s) {
      assert IsCached(c, s) && Used(c, s);
      var p :| UsedBy(c, s, p);
      UsedStays(c, d, s);
    }
    forall a, b | SameStamp(d, a, b) ensures a == b {
      assert Used(c, a) && Used(c, b);
      var p, q :| UsedBy(c, a, p) && UsedBy(c, b, q);
      assert SameStamp(c, a, b);
    }
  }

  /** No cached source carries the stamp of a request that is still unanswered. */
  lemma AnsweredOnly(c: Cache, p: Id, t: Id)
    requires StampsInv(c) && IsCached(c, t) && t in c.sources && p in c.requests && !c.requests[p].at.Answered?
    ensures c.sources[t].lastUsed != c.requests[p].stamp
  {
    assert Used(c, t);
    var q :| UsedBy(c, t, q);
  }

  lemma ClaimStamps(c: Cache, d: Cache, p: Id, s: Id)
    requires StampsInv(c) && RequestsGrow(c, d) && ClaimsNow(c, d, p, s)
    ensures StampsInv(d)
  {
    RequestStamps(c, d);
    assert UsedBy(d, s, p);
    forall t | IsCached(d, t) ensures Used(d, t) {
      if t != s {
        assert IsCached(c, t) && Used(c, t);
        var q :| UsedBy(c, t, q);
        UsedStays(c, d, t);
      }
    }
    forall t | IsCached(c, t) && t in c.sources ensures c.sources[t].lastUsed != c.requests[p].stamp { AnsweredOnly(c, p, t); }
    forall a, b | SameStamp(d, a, b) ensures a == b {
      assert a != s && b != s ==> Used(c, a) && Used(c, b) && SameStamp(c, a, b);
    }
  }

  lemma {:induction false} RunStamps(states: seq<Cache>, actions: seq<Action>, i: nat)
    requires IsRun(states, actions) && i < |states|
    ensures StampsInv(states[i])
  {
    if i == 0 {
    } else {
      RunStamps(states, actions, i - 1);
      RunInv(states, actions, i - 1);
      RunStep(states, actions, i - 1);
      var c, x := states[i - 1], actions[i - 1];
      RequestsStep(c, x);
      StepShape(c, x);
      hide IsRun, Inv, StampsInv, Calm, ClaimsNow, RequestsGrow, Next, Enabled;
      if Calm(c, Next(c, x)) {
        CalmStamps(c, Next(c, x));
      } else {
        var s :| ClaimsNow(c, Next(c, x), x.request, s);
        ClaimStamps(c, Next(c, x), x.request, s);
      }
    }
  }

  // ---- when a stamp goes back --------------------------------------------------------------

  lemma ClaimIsThat(c: Cache, d: Cache, p: Id, s: Id, t: Id)
    requires ClaimsNow(c, d, p, s)
    ensures ClaimStep(c, d, t) <==> t == s
    ensures t in c.sources && t != s ==> t in d.sources && d.sources[t] == c.sources[t]
    ensures d.sources[s].lastUsed == c.requests[p].stamp
  {
  }

  lemma CalmClaimsNone(c: Cache, d: Cache, t: Id)
    requires Calm(c, d)
    ensures !ClaimStep(c, d, t)
  {
  }

  /** In every run a claim, by whichever of the three ways, stamps its source with the claiming request's stamp;
      so it lowers the source's stamp if and only if the request took its own before that. */
  lemma ClaimLowersIff(states: seq<Cache>, actions: seq<Action>, i: nat, s: Id)
    requires IsRun(states, actions) && i < |actions| && ClaimStep(states[i], states[i + 1], s)
    ensures actions[i].LookUp? || actions[i].Enter? || actions[i].Conclude?
    ensures var p := actions[i].request;
            p in states[i].requests
            && (states[i + 1].sources[s].lastUsed < states[i].sources[s].lastUsed <==> states[i].requests[p].stamp < states[i].sources[s].lastUsed)
            && states[i + 1].sources[s].lastUsed == states[i].requests[p].stamp
  {
    RunInv(states, actions, i);
    RunStep(states, actions, i);
    var c, x := states[i], actions[i];
    StepShape(c, x);
    hide IsRun, Inv, Calm, ClaimsNow, Next, Enabled, ClaimStep;
    if Calm(c, Next(c, x)) {
      CalmClaimsNone(c, Next(c, x), s);
      assert false;
    } else {
      var t :| ClaimsNow(c, Next(c, x), x.request, t);
      ClaimIsThat(c, Next(c, x), x.request, t, s);
      ClaimHasRequest(c, Next(c, x), x.request, t);
    }
  }

  lemma ClaimHasRequest(c: Cache, d: Cache, p: Id, s: Id)
    requires ClaimsNow(c, d, p, s)
    ensures p in c.requests && s in c.sources
  {
  }

  // ---- stamps and the order of claims ------------------------------------------------------

  /** The step that last claimed `s`, counted from one; zero if none did. */
  function ClaimTime(states: seq<Cache>, i: nat, s: Id): nat
    requires i < |states|
  {
    if i == 0 then 0 else if ClaimStep(states[i - 1], states[i], s) then i else ClaimTime(states, i - 1, s)
  }

  lemma {:induction false} ClaimTimeBound(states: seq<Cache>, i: nat, s: Id)
    requires i < |states|
    ensures ClaimTime(states, i, s) <= i
  {
    if i > 0 { ClaimTimeBound(states, i - 1, s); }
  }

  predicate Earlier(c: Cache, a: Id, b: Id) {
    IsCached(c, a) && IsCached(c, b) && a in c.sources && b in c.sources && c.sources[a].lastUsed < c.sources[b].lastUsed
  }

  /** Of any two cached sources the one with the smaller stamp was claimed first. */
  ghost predicate InOrder(states: seq<Cache>, i: nat)
    requires i < |states|
  {
    forall a, b :: Earlier(states[i], a, b) ==> ClaimTime(states, i, a) < ClaimTime(states, i, b)
  }

  /** The step claims a source with a stamp that some other cached source already exceeds. */
  ghost predicate LateClaim(c: Cache, d: Cache) {
    exists s, b :: ClaimStep(c, d, s) && Earlier(d, s, b)
  }

  lemma CalmOrder(states: seq<Cache>, i: nat)
    requires i + 1 < |states| && Calm(states[i], states[i + 1]) && (forall s :: IsCached(states[i], s) ==> s in states[i].sources)
    ensures InOrder(states, i) ==> InOrder(states, i + 1)
    ensures !LateClaim(states[i], states[i + 1])
  {
    var c, d := states[i], states[i + 1];
    forall s ensures !ClaimStep(c, d, s) { CalmClaimsNone(c, d, s); }
    if InOrder(states, i) {
      forall a, b | Earlier(d, a, b) ensures ClaimTime(states, i + 1, a) < ClaimTime(states, i + 1, b) {
        assert Earlier(c, a, b);
      }
    }
  }

  lemma ClaimOrder(states: seq<Cache>, i: nat, p: Id, s: Id)
    requires i + 1 < |states| && ClaimsNow(states[i], states[i + 1], p, s) && InOrder(states, i)
    requires forall t :: IsCached(states[i], t) ==> t in states[i].sources
    ensures InOrder(states, i + 1) <==> !LateClaim(states[i], states[i + 1])
  {
    var c, d := states[i], states[i + 1];
    forall t ensures ClaimStep(c, d, t) <==> t == s { ClaimIsThat(c, d, p, s, t); }
    if LateClaim(c, d) {
      var t, b :| ClaimStep(c, d, t) && Earlier(d, t, b);
      ClaimTimeBound(states, i + 1, b);
      assert ClaimTime(states, i + 1, s) == i + 1;
    } else {
      forall b ensures !Earlier(d, s, b) { assert ClaimStep(c, d, s); }
      forall a, b | Earlier(d, a, b) ensures ClaimTime(states, i + 1, a) < ClaimTime(states, i + 1, b) {
        if b == s {
          ClaimTimeBound(states, i, a);
        } else {
          ClaimIsThat(c, d, p, s, a);
          ClaimIsThat(c, d, p, s, b);
          assert Earlier(c, a, b);
        }
      }
    }
  }

  lemma CachedExist(c: Cache)
    requires Inv(c)
    ensures forall s :: IsCached(c, s) ==> s in c.sources
  {
    forall s | IsCached(c, s) ensures s in c.sources {
      var k :| k in c.entries && c.entries[k] == s;
    }
  }

  /** In every run, stamps that order the claims keep ordering them if and only if the next claim is not late. */
  lemma OrderKeptIff(states: seq<Cache>, actions: seq<Action>, i: nat)
    requires IsRun(states, actions) && i < |actions| && i + 1 < |states| && InOrder(states, i)
    ensures InOrder(states, i + 1) <==> !LateClaim(states[i], states[i + 1])
  {
    RunInv(states, actions, i);
    RunStep(states, actions, i);
    var c, x := states[i], actions[i];
    StepShape(c, x);
    CachedExist(c);
    hide IsRun, Inv, Calm, ClaimsNow, Next, Enabled, InOrder, LateClaim, IsCached;
    if Calm(c, Next(c, x)) {
      CalmOrder(states, i);
    } else {
      var s :| ClaimsNow(c, Next(c, x), x.request, s);
      ClaimOrder(states, i, x.request, s);
    }
  }

  /** So a run without late claims has its stamps in the order of the claims throughout. */
  lemma {:induction false} OrderedWithoutLateClaims(states: seq<Cache>, actions: seq<Action>, i: nat)
    requires IsRun(states, actions) && i < |states|
    requires forall k :: 0 <= k < i ==> !LateClaim(states[k], states[k + 1])
    ensures InOrder(states, i)
  {
    if i == 0 {
      assert forall s :: !IsCached(states[0], s);
    } else {
      OrderedWithoutLateClaims(states, actions, i - 1);
      assert |states| == |actions| + 1 && !LateClaim(states[i - 1], states[i - 1 + 1]);
      hide IsRun, InOrder, LateClaim;
      OrderKeptIff(states, actions, i - 1);
    }
  }

  // ---- eviction ----------------------------------------------------------------------------

  /** `k` has the smallest stamp of the cached keys `ks`. */
  ghost predicate OldestStamp(c: Cache, ks: set<Key>, k: Key) {
    && k in ks && k in c.entries && c.entries[k] in c.sources
    && forall o :: o in ks && o in c.entries && c.entries[o] in c.sources ==> c.sources[c.entries[k]].lastUsed <= c.sources[c.entries[o]].lastUsed
  }

  /** `k` was claimed before every other of the cached keys `ks`. */
  ghost predicate LeastRecentlyClaimed(states: seq<Cache>, i: nat, ks: set<Key>, k: Key)
    requires i < |states|
  {
    && k in ks && k in states[i].entries
    && forall o :: o in ks && o in states[i].entries && o != k ==>
         ClaimTime(states, i, states[i].entries[k]) < ClaimTime(states, i, states[i].entries[o])
  }

  lemma DifferentSources(c: Cache, k: Key, o: Key)
    requires Inv(c) && StampsInv(c) && k in c.entries && o in c.entries && o != k
    ensures c.entries[k] in c.sources && c.entries[o] in c.sources && c.entries[k] != c.entries[o]
    ensures c.sources[c.entries[k]].lastUsed != c.sources[c.entries[o]].lastUsed
    ensures IsCached(c, c.entries[k]) && IsCached(c, c.entries[o])
  {
    EntryIsCached(c, k);
    EntryIsCached(c, o);
    assert EntriesInv(c);
    if c.sources[c.entries[k]].lastUsed == c.sources[c.entries[o]].lastUsed { assert SameStamp(c, c.entries[k], c.entries[o]); }
  }

  lemma OrderedPick(states: seq<Cache>, actions: seq<Action>, i: nat, ks: set<Key>, k: Key)
    requires IsRun(states, actions) && i < |states| && InOrder(states, i) && OldestStamp(states[i], ks, k)
    ensures LeastRecentlyClaimed(states, i, ks, k)
  {
    var c := states[i];
    RunInv(states, actions, i);
    RunStamps(states, actions, i);
    hide IsRun, Inv, StampsInv;
    forall o | o in ks && o in c.entries && o != k ensures ClaimTime(states, i, c.entries[k]) < ClaimTime(states, i, c.entries[o]) {
      DifferentSources(c, k, o);
      assert Earlier(c, c.entries[k], c.entries[o]);
    }
  }

  lemma UnorderedPick(states: seq<Cache>, i: nat, a: Id, b: Id) returns (ks: set<Key>, k: Key)
    requires i < |states| && Inv(states[i]) && Earlier(states[i], a, b) && ClaimTime(states, i, a) >= ClaimTime(states, i, b)
    ensures ks <= states[i].entries.Keys && OldestStamp(states[i], ks, k) && !LeastRecentlyClaimed(states, i, ks, k)
  {
    var c := states[i];
    k :| k in c.entries && c.entries[k] == a;
    var o :| o in c.entries && c.entries[o] == b;
    ks := {k, o};
    assert o != k;
  }

  ghost predicate PicksAgree(states: seq<Cache>, i: nat, ks: set<Key>, k: Key)
    requires i < |states|
  {
    ks <= states[i].entries.Keys && OldestStamp(states[i], ks, k) ==> LeastRecentlyClaimed(states, i, ks, k)
  }

  /** In every state of every run: picking by stamp is picking the least recently claimed, whichever entries
      happen to be idle, if and only if the stamps are in the order of the claims. */
  lemma EvictionAgreesIff(states: seq<Cache>, actions: seq<Action>, i: nat)
    requires IsRun(states, actions) && i < |states|
    ensures InOrder(states, i) <==> forall ks, k :: PicksAgree(states, i, ks, k)
  {
    RunInv(states, actions, i);
    if InOrder(states, i) {
      forall ks, k ensures PicksAgree(states, i, ks, k) {
        if ks <= states[i].entries.Keys && OldestStamp(states[i], ks, k) { OrderedPick(states, actions, i, ks, k); }
      }
    } else {
      var a, b :| Earlier(states[i], a, b) && ClaimTime(states, i, a) >= ClaimTime(states, i, b);
      var ks, k := UnorderedPick(states, i, a, b);
      assert !PicksAgree(states, i, ks, k);
    }
  }

  /** What is evicted, in a run without late claims, was claimed before every other entry idle through the scan. */
  lemma EvictsLeastRecentlyClaimed(states: seq<Cache>, actions: seq<Action>, i: nat, p: Id, k: Key)
    requires IsRun(states, actions) && i < |actions| && i < |states| && actions[i] == Conclude(p, Some(k))
    requires forall j :: 0 <= j < i ==> !LateClaim(states[j], states[j + 1])
    ensures p in states[i].requests && states[i].requests[p].at.Scanning?
    ensures LeastRecentlyClaimed(states, i, states[i].requests[p].at.start + {k}, k)
  {
    var c := states[i];
    RunStep(states, actions, i);
    RunInv(states, actions, i);
    OrderedWithoutLateClaims(states, actions, i);
    VictimIsOldest(c, p, k);
    hide IsRun, InOrder, LateClaim, OldestStamp, LeastRecentlyClaimed, Inv, Next;
    OrderedPick(states, actions, i, c.requests[p].at.start + {k}, k);
  }

  lemma VictimIsOldest(c: Cache, p: Id, k: Key)
    requires Inv(c) && Enabled(c, Conclude(p, Some(k)))
    ensures OldestStamp(c, c.requests[p].at.start + {k}, k)
  {
    assert RequestOk(c, p, c.requests[p]);
    hide EntriesOk, ClaimsOk, Collides, PrivateOk;
  }

  // ---- a late claim ------------------------------------------------------------------------

  /** Request 0 is stamped before request 1, creates its source while request 1 claims, and claims after it. */
  function LateRun(a: Key, b: Key): seq<Cache> {
    var first := Empty(2);
    var asked := first.(requests := map[0 := Request(a, 0, Stamped)], clock := 1);
    var both := asked.(requests := map[0 := Request(a, 0, Stamped), 1 := Request(b, 1, Stamped)], clock := 2);
    var creating := Go(both, 1, Creating);
    var created := Go(both, 1, Created(0)).(sources := map[0 := Source(b, false, 1)], next := 1);
    var claimed := Cache(2, map[b := 0], map[0 := Source(b, true, 1)], map[1 := Lease(0, Held)],
                         map[0 := Request(a, 0, Stamped), 1 := Request(b, 1, Answered(Leased(1)))], None, 2, 2);
    var lateCreating := Go(claimed, 0, Creating);
    var lateCreated := Go(claimed, 0, Created(2)).(sources := map[0 := Source(b, true, 1), 2 := Source(a, false, 0)], next := 3);
    var late := Cache(2, map[b := 0, a := 2], map[0 := Source(b, true, 1), 2 := Source(a, true, 0)], map[1 := Lease(0, Held), 3 := Lease(2, Held)],
                      map[0 := Request(a, 0, Answered(Leased(3))), 1 := Request(b, 1, Answered(Leased(1)))], None, 2, 4);
    [first, asked, both, creating, created, claimed, lateCreating, lateCreated, late]
  }

  function LateActions(a: Key, b: Key): seq<Action> {
    [Begin(0, a), Begin(1, b), LookUp(1), Create(1, true), Enter(1), LookUp(0), Create(0, true), Enter(0)]
  }

  ghost predicate LateStep(a: Key, b: Key, i: nat)
    requires i < 8
  {
    var ss, xs := LateRun(a, b), LateActions(a, b);
    Enabled(ss[i], xs[i]) && Next(ss[i], xs[i]) == ss[i + 1]
  }

  lemma LateAsks(a: Key, b: Key)
    ensures LateStep(a, b, 0) && LateStep(a, b, 1)
  {
    hide Collides, Idle, IdleNow;
  }

  lemma LateCreates(a: Key, b: Key)
    ensures LateStep(a, b, 2) && LateStep(a, b, 3)
  {
    var ss := LateRun(a, b);
    assert !Collides(ss[2], b);
    hide Collides, Idle, IdleNow;
    assert Next(ss[2], LookUp(1)) == ss[3];
  }

  lemma LateEnters(a: Key, b: Key)
    ensures LateStep(a, b, 4)
  {
    var ss := LateRun(a, b);
    assert !Collides(ss[4], b);
    hide Collides, Idle, IdleNow;
    assert Next(ss[4], Enter(1)) == Insert(ss[4], 1, 0);
  }

  lemma LateLooks(a: Key, b: Key)
    requires !SameObject(a, b)
    ensures LateStep(a, b, 5)
  {
    var ss := LateRun(a, b);
    assert !Collides(ss[5], a);
    hide Collides, Idle, IdleNow;
  }

  lemma LateCreatesToo(a: Key, b: Key)
    ensures LateStep(a, b, 6)
  {
    hide Collides, Idle, IdleNow;
  }

  lemma LateEntersToo(a: Key, b: Key)
    requires !SameObject(a, b)
    ensures LateStep(a, b, 7)
  {
    LateInserts(a, b);
    hide Next, Insert;
  }

  lemma LateInserts(a: Key, b: Key)
    requires !SameObject(a, b)
    ensures var ss := LateRun(a, b);
            Enabled(ss[7], Enter(0)) && Next(ss[7], Enter(0)) == Insert(ss[7], 0, 2) && Insert(ss[7], 0, 2) == ss[8]
  {
    var ss := LateRun(a, b);
    assert !Collides(ss[7], a);
    hide Collides, Idle, IdleNow;
    assert Insert(ss[7], 0, 2) == ss[8];
    hide Insert;
  }

  lemma LateIsRun(a: Key, b: Key)
    requires !SameObject(a, b)
    ensures IsRun(LateRun(a, b), LateActions(a, b))
  {
    LateAsks(a, b);
    LateCreates(a, b);
    LateEnters(a, b);
    LateLooks(a, b);
    LateCreatesToo(a, b);
    LateEntersToo(a, b);
    hide Next, Enabled;
  }

  /** Late claims happen: in this run the source claimed last carries the smaller stamp, so there is a pick by
      stamp that is not the least recently claimed. */
  lemma LateClaimHappens(a: Key, b: Key)
    requires !SameObject(a, b)
    ensures var ss, xs := LateRun(a, b), LateActions(a, b);
            && IsRun(ss, xs) && LateClaim(ss[7], ss[8]) && !InOrder(ss, 8)
            && exists ks, k :: !PicksAgree(ss, 8, ks, k)
  {
    var ss, xs := LateRun(a, b), LateActions(a, b);
    LateIsRun(a, b);
    var c, d := ss[7], ss[8];
    assert d.entries[a] == 2 && d.entries[b] == 0;
    EntryIsCached(d, a);
    EntryIsCached(d, b);
    assert ClaimStep(c, d, 2) && Earlier(d, 2, 0);
    hide Next, Enabled;
    ClaimTimeBound(ss, 8, 0);
    assert ClaimTime(ss, 8, 2) == 8;
    EvictionAgreesIff(ss, xs, 8);
  }
}
