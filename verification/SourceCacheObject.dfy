/** The cache as the object the importer keeps behind its lock, with the two eviction loops. */
module SourceCacheObject {
  import opened Common
  import opened SourceCache

  predicate Older(c: Cache, k: Key, victim: Option<Key>)
    requires EntriesInv(c) && k in c.entries && (victim.Some? ==> victim.value in c.entries)
  {
    victim.None? || c.sources[c.entries[k]].lastUsed < c.sources[c.entries[victim.value]].lastUsed
  }

  lemma OneMoreSeen(c: Cache, seen: set<Key>, k: Key, victim: Option<Key>)
    requires EntriesInv(c) && k in c.entries && IsVictim(c, seen, victim)
    ensures IsVictim(c, seen + {k}, if Older(c, k, victim) then Some(k) else victim)
  {
    hide SameObject;
  }

  lemma SeenSo(c: Cache, remaining: set<Key>, k: Key)
    requires k in remaining && k in c.entries
    ensures IdleNow(c) - (remaining - {k}) == if Idle(c, k) then (IdleNow(c) - remaining) + {k} else IdleNow(c) - remaining
  {
    hide Idle;
  }

  /** The scan of `evict_one_idle`: every entry is looked at once, in any order. */
  method PickOldest(c: Cache) returns (victim: Option<Key>)
    requires EntriesInv(c)
    ensures IsVictim(c, IdleNow(c), victim) && (victim.Some? ==> victim.value in c.entries)
  {
    hide EntriesInv, IdleNow, Idle;
    var remaining := c.entries.Keys;
    victim := None;
    NoneSeen(c);
    while remaining != {}
      invariant remaining <= c.entries.Keys && (victim.Some? ==> victim.value in c.entries)
      invariant IsVictim(c, IdleNow(c) - remaining, victim)
      decreases |remaining|
    {
      hide IsVictim;
      var k :| k in remaining;
      SeenSo(c, remaining, k);
      if Idle(c, k) {
        OneMoreSeen(c, IdleNow(c) - remaining, k, victim);
        if Older(c, k, victim) {
          victim := Some(k);
        }
      }
      remaining := remaining - {k};
    }
    assert IdleNow(c) - {} == IdleNow(c);
  }

  lemma NoneSeen(c: Cache)
    ensures IsVictim(c, IdleNow(c) - c.entries.Keys, None)
  {
    assert IdleNow(c) - c.entries.Keys == {};
  }

  lemma VictimIdle(c: Cache, victim: Option<Key>)
    requires IsVictim(c, IdleNow(c), victim) && victim.Some?
    ensures Idle(c, victim.value)
  {
  }

  class LockedCache {
    var state: Cache

    constructor (max: nat)
      ensures state == Empty(max) && Inv(state)
    {
      state := Empty(max);
    }

    /** `evict_one_idle`: removes the idle entry with the smallest stamp. */
    method EvictOneIdle() returns (victim: Option<Key>)
      requires Inv(state)
      modifies this
      ensures IsVictim(old(state), IdleNow(old(state)), victim)
      ensures state == old(state).(entries := old(state).entries - if victim.Some? then {victim.value} else {})
      ensures EntriesInv(state) && ClaimsInv(state)
      ensures victim.Some? <==> |state.entries| < |old(state).entries|
    {
      victim := PickOldest(state);
      var gone := if victim.Some? then {victim.value} else {};
      if victim.Some? { VictimIdle(state, victim); }
      hide IsVictim, IdleNow, Idle;
      EvictTables(state, gone);
      state := state.(entries := state.entries - gone);
    }

    /** `evict_stream`: one pass drops the idle entries of the stream, another counts those that stayed. */
    method EvictStream(stream: int) returns (evicted: nat, retained: nat)
      requires Inv(state) && state.lock.None?
      modifies this
      ensures var gone := IdleOf(old(state), stream);
              state == Next(old(state), SourceCache.EvictStream(stream, gone)) && Inv(state) && evicted == |gone|
      ensures retained == |EntriesOf(state, stream)|
    {
      hide Inv, EntriesInv, ClaimsInv, Idle;
      IdleLeaves(state, stream);
      var before := |state.entries|;
      RetainOthers(stream);
      evicted := before - |state.entries|;
      retained := CountOf(stream);
    }

    method RetainOthers(stream: int)
      modifies this
      ensures state == old(state).(entries := old(state).entries - IdleOf(old(state), stream))
    {
      ghost var c := state;
      ghost var gone := IdleOf(c, stream);
      var remaining := state.entries.Keys;
      assert gone - remaining == {} && c.entries - {} == c.entries;
      hide Idle;
      while remaining != {}
        invariant remaining <= c.entries.Keys && state == c.(entries := c.entries - (gone - remaining))
        decreases |remaining|
      {
        var k :| k in remaining;
        SameIdle(c, gone - remaining, k);
        OneMoreLooked(c.entries, gone, remaining, k);
        if k.stream == stream && Idle(state, k) {
          state := state.(entries := state.entries - {k});
        }
        remaining := remaining - {k};
      }
      assert gone - {} == gone;
    }

    method CountOf(stream: int) returns (n: nat)
      ensures n == |EntriesOf(state, stream)|
    {
      n := 0;
      var remaining := state.entries.Keys;
      assert EntriesOf(state, stream) - remaining == {};
      while remaining != {}
        invariant remaining <= state.entries.Keys && n == |EntriesOf(state, stream) - remaining|
        decreases |remaining|
      {
        var k :| k in remaining;
        assert EntriesOf(state, stream) - (remaining - {k})
            == (EntriesOf(state, stream) - remaining) + if k.stream == stream then {k} else {};
        if k.stream == stream {
          n := n + 1;
        }
        remaining := remaining - {k};
      }
      assert EntriesOf(state, stream) - {} == EntriesOf(state, stream);
    }
  }

  function EntriesOf(c: Cache, stream: int): set<Key> { set k | k in c.entries && k.stream == stream }

  function IdleOf(c: Cache, stream: int): set<Key> { set k | k in IdleNow(c) && k.stream == stream }

  lemma IdleLeaves(c: Cache, stream: int)
    requires Inv(c) && c.lock.None?
    ensures var gone := IdleOf(c, stream);
            && Enabled(c, SourceCache.EvictStream(stream, gone)) && Inv(c.(entries := c.entries - gone))
            && |c.entries - gone| == |c.entries| - |gone|
  {
    hide *;
    var gone := IdleOf(c, stream);
    MayEvict(c, stream);
    EvictStreamKeeps(c, stream, gone);
    EvictTables(c, gone);
    Evicts(c, stream, gone);
  }

  lemma MayEvict(c: Cache, stream: int)
    requires Inv(c) && c.lock.None?
    ensures EntriesInv(c) && ClaimsInv(c) && Enabled(c, SourceCache.EvictStream(stream, IdleOf(c, stream)))
    ensures forall k :: k in IdleOf(c, stream) ==> Idle(c, k)
  {
    hide EntriesInv, ClaimsInv, RequestsInv, Idle;
  }

  lemma Evicts(c: Cache, stream: int, gone: set<Key>)
    requires Enabled(c, SourceCache.EvictStream(stream, gone))
    ensures Next(c, SourceCache.EvictStream(stream, gone)) == c.(entries := c.entries - gone)
  {
    hide Enabled;
  }

  lemma OneMoreLooked<K, V>(m: map<K, V>, gone: set<K>, remaining: set<K>, k: K)
    requires k in remaining
    ensures m - (gone - (remaining - {k})) == (if k in gone then (m - (gone - remaining)) - {k} else m - (gone - remaining))
  {
    var before, after := gone - remaining, gone - (remaining - {k});
    assert after == if k in gone then before + {k} else before;
  }

  /** Whether an entry is idle does not depend on the other entries. */
  lemma SameIdle(c: Cache, gone: set<Key>, k: Key)
    requires k !in gone
    ensures Idle(c.(entries := c.entries - gone), k) <==> Idle(c, k)
  {
  }
}
