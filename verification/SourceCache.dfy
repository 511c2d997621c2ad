/**
 The bounded cache of imported sources under any interleaving of its callers.

 A request stamps itself, looks the key up under the lock, creates the source without the lock,
 and re-checks under the lock; when the cache is full it scans for idle entries while leases
 are still being released around it. A lease is released by two separate atomic swaps, and may
 be released again when it is dropped. The packed and the NV12 cache run the same steps.
 */
module SourceCache {
  import opened Common

  type Id = int

  /** `shape` is the topology and read strategy; the rest identifies the DMA-BUF of one stream. */
  datatype Key = Key(stream: int, device: int, inode: int, shape: int)

  datatype Source = Source(key: Key, claimed: bool, lastUsed: nat)

  /** `Clearing` is between the two swaps of `release`. */
  datatype LeaseAt = Held | Clearing | Released | Dropped

  datatype Lease = Lease(source: Id, at: LeaseAt)

  datatype Answer = Leased(lease: Id) | ActiveReuse | Collision | CreateFailed | Saturated

  /** A scan remembers which entries were idle when it started. */
  datatype At =
    | Stamped
    | Creating
    | Created(source: Id)
    | Scanning(source: Id, start: set<Key>, remaining: set<Key>, seen: set<Key>)
    | Answered(answer: Answer)

  datatype Request = Request(key: Key, stamp: nat, at: At)

  datatype Cache = Cache(
    max: nat,
    entries: map<Key, Id>,
    sources: map<Id, Source>,
    leases: map<Id, Lease>,
    requests: map<Id, Request>,
    lock: Option<Id>,
    clock: nat,
    next: Id)

  function Empty(max: nat): Cache { Cache(max, map[], map[], map[], map[], None, 0, 0) }

  predicate SameObject(a: Key, b: Key) { a.stream == b.stream && a.device == b.device && a.inode == b.inode }

  /** The DMA-BUF is cached with another topology or strategy. */
  predicate Collides(c: Cache, k: Key) { exists o :: o in c.entries && SameObject(o, k) && o.shape != k.shape }

  /** The lease still holds its reference to the source. */
  predicate Alive(l: Lease, s: Id) { l.source == s && !l.at.Dropped? }

  /** The cache holds the only reference, and nobody has claimed it. */
  predicate IdleSource(sources: map<Id, Source>, leases: map<Id, Lease>, s: Id) {
    s in sources && !sources[s].claimed && forall l :: l in leases ==> !Alive(leases[l], s)
  }

  predicate Idle(c: Cache, k: Key) { k in c.entries && IdleSource(c.sources, c.leases, c.entries[k]) }

  function IdleNow(c: Cache): set<Key> { set k | k in c.entries && Idle(c, k) }

  function Go(c: Cache, p: Id, at: At): Cache
    requires p in c.requests
  {
    c.(requests := c.requests[p := c.requests[p].(at := at)])
  }

  function AnswerNow(c: Cache, p: Id, a: Answer): Cache
    requires p in c.requests
  {
    Go(c, p, Answered(a)).(lock := None)
  }

  /** `claim`: compare-and-swap the claim, stamp the source, hand out a lease. */
  function Claim(c: Cache, p: Id, s: Id): Cache
    requires p in c.requests && s in c.sources
  {
    if c.sources[s].claimed then AnswerNow(c, p, ActiveReuse)
    else
      AnswerNow(c, p, Leased(c.next)).(
        sources := c.sources[s := c.sources[s].(claimed := true, lastUsed := c.requests[p].stamp)],
        leases := c.leases[c.next := Lease(s, Held)],
        next := c.next + 1)
  }

  /** A new source enters the cache already claimed by its creator. */
  function Insert(c: Cache, p: Id, s: Id): Cache
    requires p in c.requests && s in c.sources
  {
    var d := Claim(c, p, s);
    d.(entries := d.entries[c.requests[p].key := s])
  }

  datatype Action =
    | Begin(request: Id, key: Key)
    | LookUp(request: Id)
    | Create(request: Id, ok: bool)
    | Enter(request: Id)
    | Scan(request: Id, key: Key)
    | Conclude(request: Id, victim: Option<Key>)
    | SwapReleased(lease: Id)
    | ClearClaim(lease: Id)
    | ReleaseAgain(lease: Id)
    | DropLease(lease: Id)
    | EvictStream(stream: int, removed: set<Key>)

  predicate RequestAt(c: Cache, p: Id, at: At) { p in c.requests && c.requests[p].at == at }

  /** The least recently stamped of the entries seen idle. */
  predicate IsVictim(c: Cache, seen: set<Key>, v: Option<Key>) {
    match v
    case None => seen == {}
    case Some(k) => k in seen && k in c.entries && c.entries[k] in c.sources
                    && forall o :: o in seen && o in c.entries && c.entries[o] in c.sources ==> c.sources[c.entries[k]].lastUsed <= c.sources[c.entries[o]].lastUsed
  }

  predicate Enabled(c: Cache, x: Action) {
    match x
    case Begin(p, _) => p !in c.requests
    case LookUp(p) => RequestAt(c, p, Stamped) && c.lock.None?
    case Create(p, _) => RequestAt(c, p, Creating)
    case Enter(p) => p in c.requests && c.requests[p].at.Created? && c.lock.None?
    case Scan(p, k) => p in c.requests && c.requests[p].at.Scanning? && k in c.requests[p].at.remaining
    case Conclude(p, v) =>
      p in c.requests && c.requests[p].at.Scanning? && c.requests[p].at.remaining == {} && IsVictim(c, c.requests[p].at.seen, v)
    case SwapReleased(l) => l in c.leases && c.leases[l].at.Held?
    case ClearClaim(l) => l in c.leases && c.leases[l].at.Clearing?
    case ReleaseAgain(l) => l in c.leases && !c.leases[l].at.Held? && !c.leases[l].at.Dropped?
    case DropLease(l) => l in c.leases && c.leases[l].at.Released?
    case EvictStream(stream, removed) =>
      c.lock.None? && forall k :: k in removed ==> k.stream == stream && Idle(c, k)
  }

  /** What the re-check does once nothing is cached under the key: insert, or look for room first. */
  function Admit(c: Cache, p: Id, s: Id): Cache
    requires p in c.requests && s in c.sources
  {
    if |c.entries| >= c.max then Go(c, p, Scanning(s, IdleNow(c), c.entries.Keys, {})).(lock := Some(p)) else Insert(c, p, s)
  }

  function Next(c: Cache, x: Action): Cache
    requires Enabled(c, x)
  {
    match x
    case Begin(p, k) => c.(requests := c.requests[p := Request(k, c.clock, Stamped)], clock := c.clock + 1)
    case LookUp(p) =>
      var k := c.requests[p].key;
      if k in c.entries && c.entries[k] in c.sources then Claim(c, p, c.entries[k])
      else if Collides(c, k) then AnswerNow(c, p, Collision)
      else Go(c, p, Creating)
    case Create(p, ok) =>
      if ok then Go(c, p, Created(c.next)).(sources := c.sources[c.next := Source(c.requests[p].key, false, c.requests[p].stamp)], next := c.next + 1)
      else Go(c, p, Answered(CreateFailed))
    case Enter(p) =>
      var k, s := c.requests[p].key, c.requests[p].at.source;
      if k in c.entries && c.entries[k] in c.sources then Claim(c, p, c.entries[k])
      else if Collides(c, k) then AnswerNow(c, p, Collision)
      else if s in c.sources then Admit(c, p, s)
      else c
    case Scan(p, k) =>
      var at := c.requests[p].at;
      Go(c, p, Scanning(at.source, at.start, at.remaining - {k}, if Idle(c, k) then at.seen + {k} else at.seen))
    case Conclude(p, v) =>
      var s := c.requests[p].at.source;
      var d := if v.Some? then c.(entries := c.entries - {v.value}) else c;
      if |d.entries| >= d.max || s !in d.sources then AnswerNow(d, p, Saturated) else Insert(d, p, s)
    case SwapReleased(l) => c.(leases := c.leases[l := c.leases[l].(at := Clearing)])
    case ClearClaim(l) =>
      var s := c.leases[l].source;
      var d := c.(leases := c.leases[l := c.leases[l].(at := Released)]);
      if s in c.sources then d.(sources := c.sources[s := c.sources[s].(claimed := false)]) else d
    case ReleaseAgain(_) => c
    case DropLease(l) => c.(leases := c.leases[l := c.leases[l].(at := Dropped)])
    case EvictStream(_, removed) => c.(entries := c.entries - removed)
  }

  // ---- the invariant -----------------------------------------------------------------------

  predicate Holding(l: Lease, s: Id) { l.source == s && (l.at.Held? || l.at.Clearing?) }

  /** Nobody but its creator has seen this source yet. */
  predicate Owns(at: At, s: Id) { (at.Created? || at.Scanning?) && at.source == s }

  ghost predicate EntriesOk(max: nat, entries: map<Key, Id>, sources: map<Id, Source>) {
    && |entries| <= max
    && (forall k :: k in entries ==> entries[k] in sources && sources[entries[k]].key == k)
    && (forall a, b :: a in entries && b in entries && SameObject(a, b) ==> a == b)
  }

  ghost predicate ClaimsOk(entries: map<Key, Id>, sources: map<Id, Source>, leases: map<Id, Lease>) {
    && (forall l, m, s :: l in leases && m in leases && Holding(leases[l], s) && Holding(leases[m], s) ==> l == m)
    && (forall l, s :: l in leases && Holding(leases[l], s) ==> s in sources && sources[s].claimed)
    && (forall s :: s in sources && sources[s].claimed ==> exists l :: l in leases && Holding(leases[l], s))
    && (forall l, s :: l in leases && Alive(leases[l], s) ==> s in sources && sources[s].key in entries && entries[sources[s].key] == s)
  }

  /** Bounded, one entry per DMA-BUF of a stream, each under its own key. */
  ghost predicate EntriesInv(c: Cache) { EntriesOk(c.max, c.entries, c.sources) }

  /** A source is claimed exactly while one lease holds it, and any lease not yet dropped keeps its source cached. */
  ghost predicate ClaimsInv(c: Cache) { ClaimsOk(c.entries, c.sources, c.leases) }

  /** A source its creator has not inserted yet: unclaimed, for its key, and in no entry. */
  ghost predicate PrivateOk(c: Cache, k: Key, s: Id) {
    s in c.sources && !c.sources[s].claimed && c.sources[s].key == k && s !in c.entries.Values
  }

  /** During a scan the entries stay put, what was seen idle stays idle, and the key is still missing. */
  ghost predicate ScanInv(c: Cache, k: Key, at: At)
    requires at.Scanning?
  {
    && |c.entries| >= c.max && k !in c.entries && !Collides(c, k)
    && at.remaining <= c.entries.Keys && at.start <= at.seen + at.remaining
    && (forall o :: o in at.seen || o in at.start ==> Idle(c, o))
  }

  ghost predicate RequestOk(c: Cache, p: Id, q: Request) {
    && (q.at.Created? ==> PrivateOk(c, q.key, q.at.source))
    && (q.at.Scanning? ==> PrivateOk(c, q.key, q.at.source) && c.lock == Some(p) && ScanInv(c, q.key, q.at))
  }

  ghost predicate RequestsInv(c: Cache) {
    && (forall s :: s in c.sources ==> s < c.next)
    && (forall l :: l in c.leases ==> l < c.next)
    && (forall p :: p in c.requests ==> RequestOk(c, p, c.requests[p]))
    && (forall p, q, s :: p in c.requests && q in c.requests && Owns(c.requests[p].at, s) && Owns(c.requests[q].at, s) ==> p == q)
    && (c.lock.Some? ==> c.lock.value in c.requests && c.requests[c.lock.value].at.Scanning?)
  }

  ghost predicate Inv(c: Cache) { EntriesInv(c) && ClaimsInv(c) && RequestsInv(c) }

  // ---- every step keeps it -----------------------------------------------------------------

  /** Another request keeps what it knows when its own source, and a scan's entries, are left alone. */
  lemma RequestStays(c: Cache, d: Cache, p: Id, q: Request)
    requires RequestOk(c, p, q)
    requires q.at.Created? || q.at.Scanning? ==> PrivateOk(d, q.key, q.at.source)
    requires q.at.Scanning? ==> d.lock == c.lock && d.entries == c.entries && d.max == c.max && forall o :: Idle(c, o) ==> Idle(d, o)
    ensures RequestOk(d, p, q)
  {
  }

  ghost predicate OthersPrivate(c: Cache, d: Cache, movers: set<Id>) {
    forall q :: q in c.requests && q !in movers && (c.requests[q].at.Created? || c.requests[q].at.Scanning?) ==>
      PrivateOk(d, c.requests[q].key, c.requests[q].at.source)
  }

  /** No other request is scanning, or what a scan relies on is untouched. */
  ghost predicate ScansSafe(c: Cache, d: Cache, movers: set<Id>) {
    || (forall q :: q in c.requests && q !in movers ==> !c.requests[q].at.Scanning?)
    || (d.lock == c.lock && d.entries == c.entries && d.max == c.max && forall o :: Idle(c, o) ==> Idle(d, o))
  }

  lemma RequestsKeep(c: Cache, d: Cache, movers: set<Id>)
    requires RequestsInv(c) && c.next <= d.next
    requires (forall s :: s in d.sources ==> s < d.next) && (forall l :: l in d.leases ==> l < d.next)
    requires forall q :: q !in movers && q in d.requests ==> q in c.requests && d.requests[q] == c.requests[q]
    requires forall p :: p in movers && p in d.requests ==> RequestOk(d, p, d.requests[p])
    requires forall p, s :: p in movers && p in d.requests && Owns(d.requests[p].at, s) ==>
               s >= c.next || (p in c.requests && Owns(c.requests[p].at, s))
    requires forall p, q :: p in movers && q in movers ==> p == q
    requires OthersPrivate(c, d, movers) && ScansSafe(c, d, movers)
    requires d.lock.Some? ==> d.lock.value in d.requests && d.requests[d.lock.value].at.Scanning?
    ensures RequestsInv(d)
  {
    forall q | q in d.requests && q !in movers ensures RequestOk(d, q, d.requests[q]) {
      assert RequestOk(c, q, c.requests[q]);
      hide Idle, ScanInv, PrivateOk;
      RequestStays(c, d, q, c.requests[q]);
    }
    forall q | q in c.requests && (c.requests[q].at.Created? || c.requests[q].at.Scanning?) ensures c.requests[q].at.source < c.next {
      assert RequestOk(c, q, c.requests[q]);
    }
    hide RequestOk;
  }

  /** With the lock free, or held by `p`, no other request is scanning. */
  lemma OnlyScanner(c: Cache, p: Id)
    requires RequestsInv(c) && (c.lock.None? || c.lock == Some(p))
    ensures forall q :: q in c.requests && q != p ==> !c.requests[q].at.Scanning?
    ensures forall d :: ScansSafe(c, d, {p})
  {
    forall q | q in c.requests && q != p ensures !c.requests[q].at.Scanning? { assert RequestOk(c, q, c.requests[q]); }
  }

  /** A source in no entry that nobody has claimed, other than one of the movers created itself. */
  ghost predicate Unseen(c: Cache, movers: set<Id>, s: Id) {
    && s in c.sources && !c.sources[s].claimed && s !in c.entries.Values
    && (forall p :: p in movers && p in c.requests ==> !Owns(c.requests[p].at, s))
  }

  ghost predicate Untouched(c: Cache, d: Cache, s: Id) {
    s in c.sources && s in d.sources && d.sources[s] == c.sources[s] && s !in d.entries.Values
  }

  /** Sources nobody else has seen are not touched by claims, inserts or evictions of others. */
  lemma OthersStay(c: Cache, d: Cache, movers: set<Id>)
    requires RequestsInv(c)
    requires forall s :: Unseen(c, movers, s) ==> Untouched(c, d, s)
    ensures OthersPrivate(c, d, movers)
  {
    forall q | q in c.requests && q !in movers && (c.requests[q].at.Created? || c.requests[q].at.Scanning?)
      ensures PrivateOk(d, c.requests[q].key, c.requests[q].at.source)
    {
      var s := c.requests[q].at.source;
      assert RequestOk(c, q, c.requests[q]) && Owns(c.requests[q].at, s);
      assert Unseen(c, movers, s);
    }
  }

  lemma SameAll(c: Cache, d: Cache)
    requires d.entries == c.entries && d.sources == c.sources && d.leases == c.leases && d.max == c.max
    ensures EntriesInv(c) ==> EntriesInv(d)
    ensures ClaimsInv(c) ==> ClaimsInv(d)
    ensures forall o :: Idle(c, o) <==> Idle(d, o)
  {
    hide EntriesOk, ClaimsOk, IdleSource;
  }

  /** A request that only changes its own place and perhaps gives the lock back. */
  lemma PlaceKeeps(c: Cache, d: Cache, p: Id)
    requires Inv(c) && d == c.(requests := d.requests, lock := d.lock, clock := d.clock)
    requires forall q :: q != p && q in d.requests ==> q in c.requests && d.requests[q] == c.requests[q]
    requires c.requests.Keys <= d.requests.Keys
    requires p in d.requests && !d.requests[p].at.Created? && !d.requests[p].at.Scanning?
    requires ((c.lock.None? || c.lock == Some(p)) && d.lock.None?) || (d.lock == c.lock && (p !in c.requests || !c.requests[p].at.Scanning?))
    ensures Inv(d)
  {
    PlaceFacts(c, d, p);
    hide *;
    RequestsKeep(c, d, {p});
    InvOf(d);
  }

  lemma InvOf(c: Cache)
    requires EntriesInv(c) && ClaimsInv(c) && RequestsInv(c)
    ensures Inv(c)
  {
  }

  lemma PlaceFacts(c: Cache, d: Cache, p: Id)
    requires Inv(c) && d == c.(requests := d.requests, lock := d.lock, clock := d.clock)
    requires c.requests.Keys <= d.requests.Keys
    requires p in d.requests && !d.requests[p].at.Created? && !d.requests[p].at.Scanning?
    requires ((c.lock.None? || c.lock == Some(p)) && d.lock.None?) || (d.lock == c.lock && (p !in c.requests || !c.requests[p].at.Scanning?))
    ensures RequestsInv(c) && EntriesInv(d) && ClaimsInv(d)
    ensures c.next <= d.next && (forall s :: s in d.sources ==> s < d.next) && (forall l :: l in d.leases ==> l < d.next)
    ensures RequestOk(d, p, d.requests[p]) && (forall s :: !Owns(d.requests[p].at, s))
    ensures OthersPrivate(c, d, {p}) && ScansSafe(c, d, {p})
  {
    SameAll(c, d);
    OthersStay(c, d, {p});
    if c.lock.None? || c.lock == Some(p) { OnlyScanner(c, p); }
    hide EntriesOk, ClaimsOk, IdleSource, OthersPrivate;
  }

  lemma LeaseSteps(c: Cache, x: Action)
    requires Enabled(c, x) && (x.SwapReleased? || x.ClearClaim? || x.ReleaseAgain? || x.DropLease?)
    ensures var d := Next(c, x);
            && d.leases.Keys == c.leases.Keys && d.entries == c.entries && d.sources.Keys == c.sources.Keys
            && (forall l, s :: l in d.leases && Holding(d.leases[l], s) ==> Holding(c.leases[l], s))
            && (forall l, s :: l in d.leases && Alive(d.leases[l], s) ==> Alive(c.leases[l], s))
            && (forall l, s :: l in c.leases && Holding(c.leases[l], s) ==> Holding(d.leases[l], s) || (x == ClearClaim(l)))
            && (forall s :: s in d.sources && d.sources[s] != c.sources[s] ==>
                  x.ClearClaim? && s == c.leases[x.lease].source && d.sources[s] == c.sources[s].(claimed := false))
            && (x.ClearClaim? ==> forall s :: s in d.sources && s == c.leases[x.lease].source ==> !d.sources[s].claimed)
  {
  }

  lemma LeaseClaims(c: Cache, x: Action)
    requires ClaimsInv(c) && Enabled(c, x) && (x.SwapReleased? || x.ClearClaim? || x.ReleaseAgain? || x.DropLease?)
    ensures ClaimsInv(Next(c, x))
  {
    var d := Next(c, x);
    LeaseSteps(c, x);
    assert x.ClearClaim? ==> Holding(c.leases[x.lease], c.leases[x.lease].source);
    hide Next, Enabled;
    forall s | s in d.sources && d.sources[s].claimed ensures exists l :: l in d.leases && Holding(d.leases[l], s) {
      var l :| l in c.leases && Holding(c.leases[l], s);
      assert l in d.leases && Holding(d.leases[l], s);
    }
    forall l, s | l in d.leases && Holding(d.leases[l], s) ensures s in d.sources && d.sources[s].claimed {
      assert Holding(c.leases[l], s);
    }
  }

  /** Releasing and dropping only ever make entries idle: a second release changes nothing. */
  lemma LeaseStepKeeps(c: Cache, x: Action)
    requires Inv(c) && Enabled(c, x) && (x.SwapReleased? || x.ClearClaim? || x.ReleaseAgain? || x.DropLease?)
    ensures Inv(Next(c, x))
  {
    hide EntriesInv, ClaimsInv, EntriesOk, ClaimsOk, RequestsInv, Enabled, Next;
    LeaseClaims(c, x);
    LeaseIdle(c, x);
    LeaseFrame(c, x);
    hide *;
    RequestsKeep(c, Next(c, x), {});
    InvOf(Next(c, x));
  }

  lemma LeaseFrame(c: Cache, x: Action)
    requires Inv(c) && Enabled(c, x) && (x.SwapReleased? || x.ClearClaim? || x.ReleaseAgain? || x.DropLease?)
    ensures var d := Next(c, x);
            && d.requests == c.requests && d.next == c.next && d.lock == c.lock && RequestsInv(c)
            && (forall s :: s in d.sources ==> s < d.next) && (forall l :: l in d.leases ==> l < d.next)
            && (d.lock.Some? ==> d.lock.value in d.requests && d.requests[d.lock.value].at.Scanning?)
  {
    hide EntriesInv, ClaimsInv, RequestOk;
  }

  lemma LeaseIdle(c: Cache, x: Action)
    requires Inv(c) && Enabled(c, x) && (x.SwapReleased? || x.ClearClaim? || x.ReleaseAgain? || x.DropLease?)
    ensures EntriesInv(Next(c, x)) && OthersPrivate(c, Next(c, x), {}) && ScansSafe(c, Next(c, x), {})
  {
    var d := Next(c, x);
    LeaseSteps(c, x);
    assert x.ClearClaim? ==> Holding(c.leases[x.lease], c.leases[x.lease].source);
    forall o | Idle(c, o) ensures Idle(d, o) {}
    OthersStay(c, d, {});
  }

  // ---- claiming and inserting --------------------------------------------------------------

  /** `d` is `c` with source `s` claimed by a new lease. */
  ghost predicate ClaimedBy(c: Cache, d: Cache, s: Id) {
    && s in c.sources && !c.sources[s].claimed
    && s in d.sources && d.sources == c.sources[s := d.sources[s]] && d.sources[s].key == c.sources[s].key && d.sources[s].claimed
    && d.leases == c.leases[c.next := Lease(s, Held)]
  }

  lemma ClaimClaims(c: Cache, d: Cache, s: Id)
    requires ClaimsInv(c) && ClaimedBy(c, d, s) && c.next !in c.leases
    requires forall k :: k in c.entries ==> k in d.entries && d.entries[k] == c.entries[k]
    requires c.sources[s].key in d.entries && d.entries[c.sources[s].key] == s
    ensures ClaimsInv(d)
  {
    forall t | t in d.sources && d.sources[t].claimed ensures exists l :: l in d.leases && Holding(d.leases[l], t) {
      if t == s {
        assert Holding(d.leases[c.next], s);
      } else {
        var l :| l in c.leases && Holding(c.leases[l], t);
        assert l in d.leases && Holding(d.leases[l], t);
      }
    }
    assert forall l, t :: l in d.leases && l != c.next && Holding(d.leases[l], t) ==> l in c.leases && Holding(c.leases[l], t);
    assert forall l, t :: l in d.leases && l != c.next && Alive(d.leases[l], t) ==> l in c.leases && Alive(c.leases[l], t);
  }

  /** Claiming a cached source, or finding it still claimed. */
  lemma ClaimKeeps(c: Cache, p: Id, k: Key)
    requires Inv(c) && p in c.requests && c.lock.None? && k in c.entries
    ensures k in c.entries && c.entries[k] in c.sources && Inv(Claim(c, p, c.entries[k]))
  {
    var s := c.entries[k];
    var d := Claim(c, p, s);
    if c.sources[s].claimed {
      PlaceKeeps(c, d, p);
    } else {
      assert ClaimedBy(c, d, s) && c.next !in c.leases;
      ClaimClaims(c, d, s);
      assert EntriesInv(d);
      OnlyScanner(c, p);
      assert s in c.entries.Values;
      OthersStay(c, d, {p});
      hide EntriesInv, ClaimsInv, Idle, OthersPrivate;
      RequestsKeep(c, d, {p});
    }
  }

  lemma BeginKeeps(c: Cache, p: Id, k: Key)
    requires Inv(c) && Enabled(c, Begin(p, k))
    ensures Inv(Next(c, Begin(p, k)))
  {
    PlaceKeeps(c, Next(c, Begin(p, k)), p);
  }

  lemma LookUpKeeps(c: Cache, p: Id)
    requires Inv(c) && Enabled(c, LookUp(p))
    ensures Inv(Next(c, LookUp(p)))
  {
    var k := c.requests[p].key;
    if k in c.entries {
      ClaimKeeps(c, p, k);
    } else {
      hide Collides, EntriesOk, ClaimsOk;
      PlaceKeeps(c, Next(c, LookUp(p)), p);
    }
  }

  /** Creating a source touches nothing anybody else can see. */
  lemma CreateKeeps(c: Cache, p: Id, ok: bool)
    requires Inv(c) && Enabled(c, Create(p, ok))
    ensures Inv(Next(c, Create(p, ok)))
  {
    var d := Next(c, Create(p, ok));
    if !ok {
      PlaceKeeps(c, d, p);
    } else {
      CreatedFacts(c, d, p);
      hide *;
      RequestsKeep(c, d, {p});
      InvOf(d);
    }
  }

  lemma CreatedFacts(c: Cache, d: Cache, p: Id)
    requires Inv(c) && Enabled(c, Create(p, true)) && d == Next(c, Create(p, true))
    ensures RequestsInv(c) && EntriesInv(d) && ClaimsInv(d) && c.next <= d.next
    ensures (forall s :: s in d.sources ==> s < d.next) && (forall l :: l in d.leases ==> l < d.next)
    ensures p in d.requests && RequestOk(d, p, d.requests[p]) && (forall s :: Owns(d.requests[p].at, s) ==> s >= c.next)
    ensures forall q :: q !in {p} && q in d.requests ==> q in c.requests && d.requests[q] == c.requests[q]
    ensures OthersPrivate(c, d, {p}) && ScansSafe(c, d, {p})
    ensures d.lock.Some? ==> d.lock.value in d.requests && d.requests[d.lock.value].at.Scanning?
  {
    CreatedTables(c, d, p);
    OthersStay(c, d, {p});
    forall k | k in d.entries ensures d.entries[k] != c.next { assert c.entries[k] in c.sources; }
    hide EntriesOk, ClaimsOk, OthersPrivate, Idle;
  }

  lemma CreatedTables(c: Cache, d: Cache, p: Id)
    requires EntriesInv(c) && ClaimsInv(c) && c.next !in c.sources && d.entries == c.entries && d.leases == c.leases && d.max == c.max
    requires c.next in d.sources && d.sources == c.sources[c.next := d.sources[c.next]] && !d.sources[c.next].claimed
    ensures EntriesInv(d) && ClaimsInv(d)
    ensures forall o :: Idle(c, o) ==> Idle(d, o)
  {
    CreatedClaims(c.entries, c.sources, c.leases, c.next, d.sources[c.next]);
    assert EntriesInv(d);
    hide EntriesOk, ClaimsOk;
  }

  lemma CreatedClaims(entries: map<Key, Id>, sources: map<Id, Source>, leases: map<Id, Lease>, s: Id, made: Source)
    requires ClaimsOk(entries, sources, leases) && s !in sources && !made.claimed
    ensures ClaimsOk(entries, sources[s := made], leases)
  {
    forall t | t in sources && sources[t].claimed ensures exists l :: l in leases && Holding(leases[l], t) {}
    forall l, t | l in leases && Holding(leases[l], t) ensures t != s { assert t in sources; }
    forall l, t | l in leases && Alive(leases[l], t) ensures t != s { assert t in sources; }
  }

  // ---- the re-check ------------------------------------------------------------------------

  /** What a request about to insert knows. */
  ghost predicate Insertable(c: Cache, p: Id, s: Id) {
    && p in c.requests && Owns(c.requests[p].at, s) && PrivateOk(c, c.requests[p].key, s)
    && c.requests[p].key !in c.entries && !Collides(c, c.requests[p].key) && |c.entries| < c.max
  }

  lemma InsertEntries(c: Cache, p: Id, s: Id)
    requires EntriesInv(c) && Insertable(c, p, s)
    ensures EntriesInv(Insert(c, p, s))
  {
    var k, d := c.requests[p].key, Insert(c, p, s);
    forall o | o in c.entries ensures !SameObject(o, k) {
      assert SameObject(o, k) && o.shape != k.shape ==> Collides(c, k);
      assert o != k;
    }
    assert d.entries == c.entries[k := s] && |d.entries| == |c.entries| + 1;
    hide Collides;
  }

  /** Inserting keeps the cache bounded, one entry per DMA-BUF, and claimed by the one lease handed out. */
  lemma InsertKeeps(c: Cache, p: Id, s: Id)
    requires EntriesInv(c) && ClaimsInv(c) && RequestsInv(c) && Insertable(c, p, s) && (c.lock.None? || c.lock == Some(p))
    ensures Inv(Insert(c, p, s))
  {
    var d := Insert(c, p, s);
    InsertEntries(c, p, s);
    assert ClaimedBy(c, d, s) && c.next !in c.leases;
    ClaimClaims(c, d, s);
    OnlyScanner(c, p);
    InsertOthers(c, p, s);
    assert RequestOk(d, p, d.requests[p]) && (forall t :: !Owns(d.requests[p].at, t)) && d.lock.None?;
    assert (forall t :: t in d.sources ==> t < d.next) && (forall l :: l in d.leases ==> l < d.next) && c.next <= d.next;
    assert forall q :: q !in {p} && q in d.requests ==> q in c.requests && d.requests[q] == c.requests[q];
    hide *;
    RequestsKeep(c, d, {p});
    InvOf(d);
  }

  lemma InsertOthers(c: Cache, p: Id, s: Id)
    requires RequestsInv(c) && Insertable(c, p, s)
    ensures OthersPrivate(c, Insert(c, p, s), {p})
  {
    var d := Insert(c, p, s);
    forall t | Unseen(c, {p}, t) ensures Untouched(c, d, t) {
      assert t != s;
      forall k | k in d.entries ensures d.entries[k] != t {
        assert k in c.entries ==> c.entries[k] in c.entries.Values;
      }
    }
    hide Insert;
    OthersStay(c, d, {p});
  }

  lemma StartsScan(c: Cache, p: Id, s: Id)
    requires Inv(c) && p in c.requests && Owns(c.requests[p].at, s) && PrivateOk(c, c.requests[p].key, s) && c.lock.None?
    requires c.requests[p].key !in c.entries && !Collides(c, c.requests[p].key) && |c.entries| >= c.max
    ensures Inv(Admit(c, p, s))
  {
    var d := Admit(c, p, s);
    SameAll(c, d);
    OthersStay(c, d, {p});
    OnlyScanner(c, p);
    assert ScanInv(d, d.requests[p].key, d.requests[p].at);
    assert RequestOk(d, p, d.requests[p]);
    assert forall t :: Owns(d.requests[p].at, t) ==> Owns(c.requests[p].at, t);
    assert d.lock == Some(p) && d.requests[p].at.Scanning?;
    assert (forall t :: t in d.sources ==> t < d.next) && (forall l :: l in d.leases ==> l < d.next) && c.next <= d.next;
    assert RequestsInv(c) && EntriesInv(d) && ClaimsInv(d);
    assert forall q :: q !in {p} && q in d.requests ==> q in c.requests && d.requests[q] == c.requests[q];
    hide *;
    RequestsKeep(c, d, {p});
    InvOf(d);
  }

  lemma EnterKeeps(c: Cache, p: Id)
    requires Inv(c) && Enabled(c, Enter(p))
    ensures Inv(Next(c, Enter(p)))
  {
    var k, s := c.requests[p].key, c.requests[p].at.source;
    assert RequestOk(c, p, c.requests[p]) && Owns(c.requests[p].at, s);
    if k in c.entries {
      ClaimKeeps(c, p, k);
    } else if Collides(c, k) {
      hide Collides, EntriesOk, ClaimsOk;
      PlaceKeeps(c, Next(c, Enter(p)), p);
    } else {
      hide Collides, EntriesOk, ClaimsOk;
      if |c.entries| >= c.max { StartsScan(c, p, s); } else { InsertKeeps(c, p, s); }
    }
  }

  lemma ScanKeeps(c: Cache, p: Id, k: Key)
    requires Inv(c) && Enabled(c, Scan(p, k))
    ensures Inv(Next(c, Scan(p, k)))
  {
    var d := Next(c, Scan(p, k));
    assert RequestOk(c, p, c.requests[p]);
    SameAll(c, d);
    OthersStay(c, d, {p});
    assert ScanInv(d, d.requests[p].key, d.requests[p].at);
    assert RequestOk(d, p, d.requests[p]);
    assert forall t :: Owns(d.requests[p].at, t) ==> Owns(c.requests[p].at, t);
    assert (forall t :: t in d.sources ==> t < d.next) && (forall l :: l in d.leases ==> l < d.next) && c.next <= d.next;
    assert RequestsInv(c) && EntriesInv(d) && ClaimsInv(d) && ScansSafe(c, d, {p});
    assert forall q :: q !in {p} && q in d.requests ==> q in c.requests && d.requests[q] == c.requests[q];
    assert d.lock.Some? ==> d.lock.value in d.requests && d.requests[d.lock.value].at.Scanning?;
    hide *;
    RequestsKeep(c, d, {p});
    InvOf(d);
  }

  // ---- eviction ----------------------------------------------------------------------------

  /** Entries leave; each was idle. */
  lemma EvictTables(c: Cache, gone: set<Key>)
    requires EntriesInv(c) && ClaimsInv(c) && forall k :: k in gone ==> Idle(c, k)
    ensures var d := c.(entries := c.entries - gone); EntriesInv(d) && ClaimsInv(d) && |d.entries| == |c.entries| - |gone|
  {
    var d := c.(entries := c.entries - gone);
    assert d.entries.Keys == c.entries.Keys - gone && gone <= c.entries.Keys;
    EvictClaims(c, gone);
    hide ClaimsOk, Idle;
  }

  lemma EvictClaims(c: Cache, gone: set<Key>)
    requires ClaimsInv(c) && forall k :: k in gone ==> Idle(c, k)
    ensures ClaimsOk(c.entries - gone, c.sources, c.leases)
  {
    var entries := c.entries - gone;
    forall l, s | l in c.leases && Alive(c.leases[l], s) ensures s in c.sources && c.sources[s].key in entries && entries[c.sources[s].key] == s {
      assert c.entries[c.sources[s].key] == s;
    }
  }

  lemma EvictRequests(c: Cache, gone: set<Key>, movers: set<Id>)
    requires RequestsInv(c)
    ensures OthersPrivate(c, c.(entries := c.entries - gone), movers)
  {
    var d := c.(entries := c.entries - gone);
    forall t | Unseen(c, movers, t) ensures Untouched(c, d, t) {
      forall k | k in d.entries ensures d.entries[k] != t { assert c.entries[k] in c.entries.Values; }
    }
    OthersStay(c, d, movers);
  }

  lemma EvictStreamKeeps(c: Cache, stream: int, removed: set<Key>)
    requires Inv(c) && Enabled(c, EvictStream(stream, removed))
    ensures Inv(Next(c, EvictStream(stream, removed)))
  {
    var d := Next(c, EvictStream(stream, removed));
    EvictTables(c, removed);
    EvictRequests(c, removed, {});
    forall q | q in c.requests ensures !c.requests[q].at.Scanning? { assert RequestOk(c, q, c.requests[q]); }
    assert ScansSafe(c, d, {});
    assert RequestsInv(c);
    hide EntriesOk, ClaimsOk, OthersPrivate, ScansSafe, RequestOk, Idle;
    RequestsKeep(c, d, {});
  }

  /** The record with the victim gone and the scan over, the request again only owning its source. */
  function Concluded(c: Cache, p: Id, gone: set<Key>): Cache
    requires p in c.requests && c.requests[p].at.Scanning?
  {
    Go(c.(entries := c.entries - gone), p, Created(c.requests[p].at.source)).(lock := None)
  }

  lemma ConcludedKeeps(c: Cache, p: Id, gone: set<Key>)
    requires Inv(c) && p in c.requests && c.requests[p].at.Scanning? && forall k :: k in gone ==> Idle(c, k)
    ensures Inv(Concluded(c, p, gone))
  {
    var d := Concluded(c, p, gone);
    var s := c.requests[p].at.source;
    assert RequestOk(c, p, c.requests[p]) && Owns(c.requests[p].at, s);
    EvictTables(c, gone);
    EvictRequests(c, gone, {p});
    OnlyScanner(c, p);
    forall o | o in d.entries ensures d.entries[o] != s { assert c.entries[o] in c.entries.Values; }
    assert RequestOk(d, p, d.requests[p]) && forall t :: Owns(d.requests[p].at, t) ==> Owns(c.requests[p].at, t);
    SamePrivate(c.(entries := c.entries - gone), d, c, {p});
    assert (forall t :: t in d.sources ==> t < d.next) && (forall l :: l in d.leases ==> l < d.next) && c.next <= d.next;
    assert RequestsInv(c) && EntriesInv(d) && ClaimsInv(d) && ScansSafe(c, d, {p}) && d.lock.None?;
    assert forall q :: q !in {p} && q in d.requests ==> q in c.requests && d.requests[q] == c.requests[q];
    hide *;
    RequestsKeep(c, d, {p});
    InvOf(d);
  }

  lemma SamePrivate(d: Cache, e: Cache, c: Cache, movers: set<Id>)
    requires OthersPrivate(c, d, movers) && e.sources == d.sources && e.entries == d.entries
    ensures OthersPrivate(c, e, movers)
  {
  }

  /** The evicted entry makes room: the request inserts, unless the cache has no room at all. */
  lemma ConcludeKeeps(c: Cache, p: Id, v: Option<Key>)
    requires Inv(c) && Enabled(c, Conclude(p, v))
    ensures Inv(Next(c, Conclude(p, v)))
  {
    var s := c.requests[p].at.source;
    assert RequestOk(c, p, c.requests[p]);
    var gone := if v.Some? then {v.value} else {};
    var e := Concluded(c, p, gone);
    ConcludedKeeps(c, p, gone);
    ConcludeShape(c, p, v);
    ConcludeReady(c, p, gone);
    hide Next, EntriesOk, ClaimsOk, Collides, PrivateOk, Concluded, RequestOk;
    if |e.entries| >= e.max {
      PlaceKeeps(e, AnswerNow(e, p, Saturated), p);
    } else {
      InsertKeeps(e, p, s);
    }
  }

  /** Fewer entries, and still none under the request's key or colliding with it. */
  lemma ConcludeReady(c: Cache, p: Id, gone: set<Key>)
    requires p in c.requests && c.requests[p].at.Scanning? && RequestOk(c, p, c.requests[p])
    ensures var e, s := Concluded(c, p, gone), c.requests[p].at.source;
            && p in e.requests && e.requests[p].at.Created? && Owns(e.requests[p].at, s) && e.lock.None?
            && PrivateOk(e, e.requests[p].key, s) && e.requests[p].key !in e.entries && !Collides(e, e.requests[p].key)
  {
    var e, s, k := Concluded(c, p, gone), c.requests[p].at.source, c.requests[p].key;
    assert PrivateOk(c, k, s) && ScanInv(c, k, c.requests[p].at);
    forall o | o in e.entries ensures e.entries[o] != s { assert c.entries[o] in c.entries.Values; }
    assert forall o :: o in e.entries ==> o in c.entries;
  }

  lemma ConcludeShape(c: Cache, p: Id, v: Option<Key>)
    requires Enabled(c, Conclude(p, v)) && c.requests[p].at.source in c.sources
    ensures var e, s := Concluded(c, p, if v.Some? then {v.value} else {}), c.requests[p].at.source;
            && p in e.requests && e.requests[p].key == c.requests[p].key
            && Next(c, Conclude(p, v)) == if |e.entries| >= e.max then AnswerNow(e, p, Saturated) else Insert(e, p, s)
  {
    hide IsVictim, Insert, AnswerNow;
    if v.None? { assert c.entries - {} == c.entries; }
    UnlockedFirst(if v.Some? then c.(entries := c.entries - {v.value}) else c, p);
  }

  /** Leaving the scan first changes nothing: both continuations set the place and drop the lock themselves. */
  lemma UnlockedFirst(d: Cache, p: Id)
    requires p in d.requests && d.requests[p].at.Scanning?
    ensures var e, s := Go(d, p, Created(d.requests[p].at.source)).(lock := None), d.requests[p].at.source;
            AnswerNow(e, p, Saturated) == AnswerNow(d, p, Saturated) && (s in d.sources ==> Insert(e, p, s) == Insert(d, p, s))
  {
  }

  // ---- every run ---------------------------------------------------------------------------

  lemma StepKeeps(c: Cache, x: Action)
    requires Inv(c) && Enabled(c, x)
    ensures Inv(Next(c, x))
  {
    hide Inv, Next;
    match x
    case Begin(p, k) => BeginKeeps(c, p, k);
    case LookUp(p) => LookUpKeeps(c, p);
    case Create(p, ok) => CreateKeeps(c, p, ok);
    case Enter(p) => EnterKeeps(c, p);
    case Scan(p, k) => ScanKeeps(c, p, k);
    case Conclude(p, v) => ConcludeKeeps(c, p, v);
    case EvictStream(stream, removed) => EvictStreamKeeps(c, stream, removed);
    case _ => LeaseStepKeeps(c, x);
  }

  ghost predicate IsRun(states: seq<Cache>, actions: seq<Action>) {
    && |states| == |actions| + 1 && states[0] == Empty(states[0].max)
    && forall i :: 0 <= i < |actions| ==> Enabled(states[i], actions[i]) && states[i + 1] == Next(states[i], actions[i])
  }

  lemma RunStep(states: seq<Cache>, actions: seq<Action>, i: nat)
    requires IsRun(states, actions) && i < |actions|
    ensures |states| == |actions| + 1 && Enabled(states[i], actions[i]) && states[i + 1] == Next(states[i], actions[i])
  {
    hide Enabled, Next;
  }

  lemma {:induction false} RunInv(states: seq<Cache>, actions: seq<Action>, i: nat)
    requires IsRun(states, actions) && i < |states|
    ensures Inv(states[i])
  {
    if i > 0 {
      RunInv(states, actions, i - 1);
      RunStep(states, actions, i - 1);
      hide IsRun, Inv, Enabled, Next;
      StepKeeps(states[i - 1], actions[i - 1]);
    }
  }

  /** In every state: never more entries than `max`; one entry per DMA-BUF of a stream; one lease per source
      not yet fully released; and a lease not yet dropped still has its source in the cache. */
  lemma CacheIsSound(states: seq<Cache>, actions: seq<Action>, i: nat)
    requires IsRun(states, actions) && i < |states|
    ensures var c := states[i];
            && |c.entries| <= c.max
            && (forall a, b :: a in c.entries && b in c.entries && SameObject(a, b) ==> a == b)
            && (forall l, m :: l in c.leases && m in c.leases && Holding(c.leases[l], c.leases[l].source) && Holding(c.leases[m], c.leases[l].source) ==> l == m)
            && (forall l :: l in c.leases && Alive(c.leases[l], c.leases[l].source) ==> c.leases[l].source in c.entries.Values)
  {
    RunInv(states, actions, i);
    var c := states[i];
    hide IsRun, RequestsInv;
    forall l | l in c.leases && Alive(c.leases[l], c.leases[l].source) ensures c.leases[l].source in c.entries.Values {
      var s := c.leases[l].source;
      assert c.entries[c.sources[s].key] == s;
    }
  }

  /** Releasing again, late or repeatedly, frees nobody's claim: only the one clearing step of a lease's first
      release lowers a claim, and it lowers that lease's own. */
  lemma OnlyOwnClaimFreed(states: seq<Cache>, actions: seq<Action>, i: nat, s: Id)
    requires IsRun(states, actions) && i < |actions| && s in states[i].sources && states[i].sources[s].claimed
    requires s in states[i + 1].sources && !states[i + 1].sources[s].claimed
    ensures actions[i].ClearClaim?
    ensures var l := actions[i].lease;
            && l in states[i].leases && states[i].leases[l] == Lease(s, Clearing)
            && forall m :: m in states[i].leases && Holding(states[i].leases[m], s) ==> m == l
  {
    RunStep(states, actions, i);
    RunInv(states, actions, i);
    var c, x := states[i], actions[i];
    assert c.next !in c.sources;
    OnlyClearLowers(c, x, s);
    hide IsRun, RequestsInv, EntriesInv, Next, Enabled;
    assert Holding(c.leases[x.lease], s);
  }

  lemma ClaimRaises(c: Cache, p: Id, s: Id, t: Id)
    requires p in c.requests && s in c.sources && t in c.sources && c.sources[t].claimed
    ensures t in Claim(c, p, s).sources && Claim(c, p, s).sources[t].claimed
  {
  }

  /** One step lowers a claim only by clearing it for the lease that held it. */
  lemma OnlyClearLowers(c: Cache, x: Action, s: Id)
    requires Enabled(c, x) && c.next !in c.sources && s in c.sources && c.sources[s].claimed
    requires s in Next(c, x).sources && !Next(c, x).sources[s].claimed
    ensures x.ClearClaim? && x.lease in c.leases && c.leases[x.lease] == Lease(s, Clearing)
  {
    forall p, t | p in c.requests && t in c.sources ensures s in Claim(c, p, t).sources && Claim(c, p, t).sources[s].claimed {
      ClaimRaises(c, p, t, s);
    }
    match x
    case LookUp(_) =>
    case Create(_, _) =>
    case Enter(_) =>
    case Conclude(p, v) =>
      var t := c.requests[p].at.source;
      var d := if v.Some? then c.(entries := c.entries - {v.value}) else c;
      if t in d.sources { ClaimRaises(d, p, t, s); }
    case ClearClaim(_) =>
    case _ =>
  }

  /** An entry is evicted only when nothing refers to it, and no older one was idle throughout the scan. */
  lemma EvictsLeastRecent(states: seq<Cache>, actions: seq<Action>, i: nat, p: Id, k: Key, o: Key)
    requires IsRun(states, actions) && i < |actions| && actions[i] == Conclude(p, Some(k))
    ensures p in states[i].requests && states[i].requests[p].at.Scanning?
    ensures k in states[i].entries && Idle(states[i], k)
    ensures o in states[i].requests[p].at.start ==>
              o in states[i].entries && states[i].entries[k] in states[i].sources && states[i].entries[o] in states[i].sources
              && states[i].sources[states[i].entries[k]].lastUsed <= states[i].sources[states[i].entries[o]].lastUsed
  {
    RunStep(states, actions, i);
    RunInv(states, actions, i);
    var c := states[i];
    assert RequestOk(c, p, c.requests[p]);
    hide IsRun, ClaimsOk, Collides;
  }
}
