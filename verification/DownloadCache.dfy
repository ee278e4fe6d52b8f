/** The shared cache behind the client download relay: reference counts, a disk budget, eviction of
    idle files, and the streaming of a file that is still being fetched. */
module DownloadCache {
  import opened Sums

  type Url = nat

  /** An entry is known by its URL as long as it is in the cache. `done` means that its fetch ended,
      `failed` that it ended with an error; `used` is the time of the last use. */
  datatype Entry = Entry(refs: nat, done: bool, failed: bool, abandoned: bool, size: nat, used: nat, created: nat)

  datatype Lookup = Hit | Started | Absent | Busy

  function Charge(e: Entry, maxBytes: nat): nat { if e.done then e.size else maxBytes }

  ghost function Charges(entries: map<Url, Entry>, maxBytes: nat): Url -> int
  {
    u => if u in entries then Charge(entries[u], maxBytes) else 0
  }

  /** What the cache is charged for: the largest size while fetching, the real size afterwards. */
  ghost function Charged(entries: map<Url, Entry>, maxBytes: nat): int { Sum(entries.Keys, Charges(entries, maxBytes)) }

  predicate Idle(e: Entry) { e.done && e.refs == 0 }

  /** `a` is `b` without some idle finished entries. */
  ghost predicate OnlyIdleLeft(a: map<Url, Entry>, b: map<Url, Entry>)
  {
    && (forall u :: u in a ==> u in b && a[u] == b[u])
    && (forall u :: u in b && u !in a ==> Idle(b[u]))
  }

  predicate Expired(e: Entry, ttl: nat, now: nat) { Idle(e) && now > e.created + ttl }

  /** What the sweep leaves. */
  function Fresh(entries: map<Url, Entry>, ttl: nat, now: nat): map<Url, Entry>
  {
    map u | u in entries && !Expired(entries[u], ttl, now) :: entries[u]
  }

  /** Eviction goes by age: whatever idle entry stays was used no earlier than any that went. */
  ghost predicate OldestFirst(a: map<Url, Entry>, b: map<Url, Entry>)
  {
    forall gone, kept :: gone in b && gone !in a && kept in a && Idle(a[kept]) ==> b[gone].used <= a[kept].used
  }

  /** Nothing went, or there was no room and idle entries went, the longest unused first. */
  ghost predicate Cleared(a: map<Url, Entry>, b: map<Url, Entry>, maxBytes: nat, cacheBytes: nat)
  {
    a == b || (Charged(b, maxBytes) + maxBytes > cacheBytes && OnlyIdleLeft(a, b) && OldestFirst(a, b))
  }

  predicate EntryFine(e: Entry, maxBytes: nat)
  {
    && e.size <= maxBytes
    && (e.abandoned ==> e.refs == 0 && !e.done)
    && (Idle(e) ==> !e.failed)
    && (!e.done ==> !e.failed)
  }

  function Fetching(entries: map<Url, Entry>): set<Url> { set u | u in entries && !entries[u].done }

  lemma ChargedRemove(entries: map<Url, Entry>, maxBytes: nat, u: Url)
    requires u in entries
    ensures Charged(entries - {u}, maxBytes) == Charged(entries, maxBytes) - Charge(entries[u], maxBytes)
  {
    var rest := entries - {u};
    SumRemove(entries.Keys, Charges(entries, maxBytes), u);
    assert rest.Keys == entries.Keys - {u};
    SumCongruence(rest.Keys, Charges(entries, maxBytes), Charges(rest, maxBytes));
  }

  lemma ChargedPut(entries: map<Url, Entry>, maxBytes: nat, u: Url, e: Entry)
    ensures Charged(entries[u := e], maxBytes)
            == Charged(entries, maxBytes) + Charge(e, maxBytes) - (if u in entries then Charge(entries[u], maxBytes) else 0)
  {
    var next := entries[u := e];
    if u in entries {
      assert next.Keys == entries.Keys;
      SumChangeOne(entries.Keys, Charges(entries, maxBytes), Charges(next, maxBytes), u);
    } else {
      assert next.Keys == entries.Keys + {u};
      SumInsert(entries.Keys, Charges(next, maxBytes), u);
      SumCongruence(entries.Keys, Charges(entries, maxBytes), Charges(next, maxBytes));
    }
  }

  /** Dropping idle entries only lowers the charge and keeps everything else. */
  lemma {:induction false} EvictionLowersCharge(a: map<Url, Entry>, b: map<Url, Entry>, maxBytes: nat)
    requires OnlyIdleLeft(a, b)
    ensures Charged(a, maxBytes) <= Charged(b, maxBytes)
    ensures Fetching(a) == Fetching(b)
  {
    SumCongruence(a.Keys, Charges(a, maxBytes), Charges(b, maxBytes));
    SumSuperset(a.Keys, b.Keys, Charges(b, maxBytes));
  }

  lemma EvictOldest(a: map<Url, Entry>, b: map<Url, Entry>, u: Url)
    requires OnlyIdleLeft(a, b) && OldestFirst(a, b)
    requires u in a && Idle(a[u]) && forall k :: k in a && Idle(a[k]) ==> a[u].used <= a[k].used
    ensures OnlyIdleLeft(a - {u}, b) && OldestFirst(a - {u}, b)
    ensures |a - {u}| < |a|
  {
    var c := a - {u};
    assert c.Keys == a.Keys - {u};
    assert |c.Keys| < |a.Keys|;
  }

  function InUse(entries: map<Url, Entry>): set<Url> { set u | u in entries && !Idle(entries[u]) }

  /** The part of the charge that eviction cannot free. */
  ghost function Pinned(entries: map<Url, Entry>, maxBytes: nat): int { Sum(InUse(entries), Charges(entries, maxBytes)) }

  lemma PinnedStays(a: map<Url, Entry>, b: map<Url, Entry>, maxBytes: nat)
    requires OnlyIdleLeft(a, b)
    ensures Pinned(a, maxBytes) == Pinned(b, maxBytes)
  {
    assert InUse(a) == InUse(b);
    SumCongruence(InUse(a), Charges(a, maxBytes), Charges(b, maxBytes));
  }

  lemma PinnedAtMost(a: map<Url, Entry>, maxBytes: nat)
    ensures Pinned(a, maxBytes) <= Charged(a, maxBytes)
    ensures (forall u :: u in a ==> !Idle(a[u])) ==> Pinned(a, maxBytes) == Charged(a, maxBytes)
  {
    SumSuperset(InUse(a), a.Keys, Charges(a, maxBytes));
    if forall u :: u in a ==> !Idle(a[u]) {
      assert InUse(a) == a.Keys;
    }
  }

  /** `a` is `b` without the expired entries among those already visited. */
  ghost predicate Swept(a: map<Url, Entry>, b: map<Url, Entry>, todo: set<Url>, ttl: nat, now: nat)
  {
    && (forall u :: u in a ==> u in b && a[u] == b[u])
    && (forall u :: u in b ==> (u in a <==> u in todo || !Expired(b[u], ttl, now)))
  }

  lemma SweepOne(a: map<Url, Entry>, b: map<Url, Entry>, todo: set<Url>, u: Url, ttl: nat, now: nat)
    requires Swept(a, b, todo, ttl, now) && u in todo && todo <= a.Keys
    ensures Swept(if Expired(a[u], ttl, now) then a - {u} else a, b, todo - {u}, ttl, now)
  {
  }

  lemma WithoutAbsent(a: map<Url, Entry>, u: Url, e: Entry)
    requires u !in a
    ensures a - {u} == a && a[u := e] - {u} == a
  {
  }

  class Relay {
    const maxBytes: nat
    const cacheBytes: nat
    const slots: nat
    const ttl: nat
    var entries: map<Url, Entry>
    var closed: bool
    // Fetch slots taken; a slot is returned after its entry is done.
    var fetches: nat

    constructor (maxBytes: nat, cacheBytes: nat, slots: nat, ttl: nat)
      ensures Valid() && entries == map[] && !closed && fetches == 0
      ensures this.maxBytes == maxBytes && this.cacheBytes == cacheBytes && this.slots == slots && this.ttl == ttl
    {
      this.maxBytes, this.cacheBytes, this.slots, this.ttl := maxBytes, cacheBytes, slots, ttl;
      entries, closed, fetches := map[], false, 0;
    }

    /** The budget holds, and every entry is in one of the states the code expects. */
    ghost predicate Valid()
      reads this
    {
      && Charged(entries, maxBytes) <= cacheBytes
      && (forall u :: u in entries ==> EntryFine(entries[u], maxBytes))
      && |Fetching(entries)| <= fetches <= slots
    }

    // ------------------------------------------------------------------ eviction

    /** One pass over the cache: the charge, and the idle entry that was used longest ago. */
    method Survey() returns (total: int, oldest: Url, found: bool)
      ensures total == Charged(entries, maxBytes)
      ensures found ==> oldest in entries && Idle(entries[oldest])
                        && forall u :: u in entries && Idle(entries[u]) ==> entries[oldest].used <= entries[u].used
      ensures !found ==> forall u :: u in entries ==> !Idle(entries[u])
    {
      total, oldest, found := 0, 0, false;
      var todo := entries.Keys;
      ghost var seen: set<Url> := {};
      ghost var charges := Charges(entries, maxBytes);
      while todo != {}
        invariant seen !! todo && seen + todo == entries.Keys
        invariant total == Sum(seen, charges)
        invariant found ==> oldest in seen && Idle(entries[oldest])
                            && forall u :: u in seen && Idle(entries[u]) ==> entries[oldest].used <= entries[u].used
        invariant !found ==> forall u :: u in seen ==> !Idle(entries[u])
      {
        var u :| u in todo;
        var e := entries[u];
        SumInsert(seen, charges, u);
        assert charges(u) == Charge(e, maxBytes);
        total := total + if e.done then e.size else maxBytes;
        if e.done && e.refs == 0 && (!found || e.used < entries[oldest].used) {
          oldest, found := u, true;
        }
        seen, todo := seen + {u}, todo - {u};
      }
      assert seen == entries.Keys;
    }

    /** makeRoomLocked: terminates, evicts only idle entries and the oldest first, and makes room exactly
        when the entries in use leave enough of it. */
    method MakeRoom() returns (ok: bool)
      requires Valid()
      modifies this`entries
      ensures Valid()
      ensures OnlyIdleLeft(entries, old(entries)) && OldestFirst(entries, old(entries))
      ensures ok <==> Charged(entries, maxBytes) + maxBytes <= cacheBytes
      ensures ok <==> Pinned(old(entries), maxBytes) + maxBytes <= cacheBytes
      ensures !ok ==> forall u :: u in entries ==> !Idle(entries[u])
      ensures Charged(old(entries), maxBytes) + maxBytes <= cacheBytes ==> entries == old(entries)
    {
      while true
        invariant Valid() && OnlyIdleLeft(entries, old(entries)) && OldestFirst(entries, old(entries))
        invariant Charged(old(entries), maxBytes) + maxBytes <= cacheBytes ==> entries == old(entries)
        decreases |entries|
      {
        var total, oldest, found := Survey();
        PinnedStays(entries, old(entries), maxBytes);
        PinnedAtMost(entries, maxBytes);
        if total + maxBytes <= cacheBytes {
          return true;
        }
        if !found {
          return false;
        }
        EvictOldest(entries, old(entries), oldest);
        Remove(oldest);
      }
    }

    /** The sweep at the start of acquire: idle entries past their time. */
    method DropExpired(now: nat)
      requires Valid()
      modifies this`entries
      ensures Valid() && OnlyIdleLeft(entries, old(entries))
      ensures entries == Fresh(old(entries), ttl, now)
    {
      ghost var was := entries;
      var todo := entries.Keys;
      while todo != {}
        invariant Valid() && todo <= entries.Keys && Swept(entries, was, todo, ttl, now)
      {
        var u :| u in todo;
        SweepOne(entries, was, todo, u, ttl, now);
        todo := todo - {u};
        if entries[u].done && entries[u].refs == 0 && now > entries[u].created + ttl {
          Remove(u);
        }
      }
    }

    // ------------------------------------------------------------------ readers

    /** acquire; `directory` tells whether the cache directory exists or can be made. An abandoned entry
        gains no reader, nobody loses an entry that is being read, and a fetch starts only with its
        largest size reserved. */
    method Acquire(url: Url, head: bool, now: nat, directory: bool) returns (r: Lookup)
      requires Valid()
      modifies this`entries, this`fetches
      ensures Valid()
      ensures OnlyIdleLeft(entries - {url}, old(entries) - {url})
      ensures r == Hit ==> url in old(entries) && !old(entries)[url].abandoned
                           && url in entries && entries[url] == old(entries)[url].(refs := old(entries)[url].refs + 1, used := now)
      ensures r == Started ==> !head && (url in old(entries) ==> Idle(old(entries)[url]))
                               && url in entries && entries[url] == Entry(1, false, false, false, 0, now, now)
      ensures r == Absent ==> head && url !in entries
      ensures r != Hit && r != Started ==> OnlyIdleLeft(entries, old(entries))
      ensures fetches == old(fetches) + if r == Started then 1 else 0
      ensures closed ==> r == Busy && entries == old(entries)
      // An entry that is neither abandoned nor expired is always found; a missing one is fetched exactly if
      // a slot, the directory and the room are there, after everything idle has gone if need be.
      ensures !closed && url in old(entries) && !Expired(old(entries)[url], ttl, now) ==> r == if old(entries)[url].abandoned then Busy else Hit
      ensures !closed && (url in old(entries) ==> Expired(old(entries)[url], ttl, now)) ==>
                && (head ==> r == Absent)
                && (!head ==> (r == Started <==> old(fetches) < slots && directory
                                                 && Pinned(old(entries), maxBytes) + maxBytes <= cacheBytes))
      // Every expired entry goes; others only for room, the longest unused first.
      ensures !closed ==> LookedUp(Fresh(old(entries), ttl, now), entries, r, url, head, now, old(fetches) < slots)
    {
      if closed {
        return Busy;
      }
      DropExpired(now);
      r := Look(url, head, now, directory);
      LookMeans(old(entries), entries, r, url, head, now, old(fetches) < slots);
      PinnedStays(Fresh(old(entries), ttl, now), old(entries), maxBytes);
    }

    /** What acquire makes of the swept cache `a`; `free` tells whether there is a slot. */
    ghost predicate LookedUp(a: map<Url, Entry>, b: map<Url, Entry>, r: Lookup, url: Url, head: bool, now: nat, free: bool)
    {
      if url in a then
        if a[url].abandoned then r == Busy && b == a
        else r == Hit && b == a[url := a[url].(refs := a[url].refs + 1, used := now)]
      else if head then r == Absent && b == a
      else if !free then r == Busy && b == a
      else
        && (r == Started || r == Busy) && Cleared(b - {url}, a, maxBytes, cacheBytes)
        && if r == Started then url in b && b[url] == Entry(1, false, false, false, 0, now, now) else url !in b
    }

    lemma LookMeans(was: map<Url, Entry>, b: map<Url, Entry>, r: Lookup, url: Url, head: bool, now: nat, free: bool)
      requires LookedUp(Fresh(was, ttl, now), b, r, url, head, now, free)
      ensures OnlyIdleLeft(b - {url}, was - {url}) && (r != Hit && r != Started ==> OnlyIdleLeft(b, was))
      ensures r == Hit ==> url in was && !was[url].abandoned && url in b && b[url] == was[url].(refs := was[url].refs + 1, used := now)
      ensures r == Started ==> !head && (url in was ==> Idle(was[url])) && url in b && b[url] == Entry(1, false, false, false, 0, now, now)
      ensures r == Absent ==> head && url !in b
      ensures OnlyIdleLeft(Fresh(was, ttl, now), was)
    {
      if r == Busy && url !in b {
        assert b - {url} == b;
      }
    }

    /** The rest of acquire, after the sweep. */
    method Look(url: Url, head: bool, now: nat, directory: bool) returns (r: Lookup)
      requires Valid()
      modifies this`entries, this`fetches
      ensures Valid()
      ensures LookedUp(old(entries), entries, r, url, head, now, old(fetches) < slots)
      ensures r == Started <==> url !in old(entries) && !head && old(fetches) < slots && directory
                                && Pinned(old(entries), maxBytes) + maxBytes <= cacheBytes
      ensures fetches == old(fetches) + if r == Started then 1 else 0
    {
      if url in entries {
        var e := entries[url];
        if e.abandoned {
          return Busy;
        }
        Put(url, e.(refs := e.refs + 1, used := now));
        return Hit;
      }
      if head {
        return Absent;
      }
      if fetches == slots {
        return Busy;
      }
      var started := Admit(url, now, directory);
      return if started then Started else Busy;
    }

    /** The rest of acquire for a missing entry and a free slot. */
    method Admit(url: Url, now: nat, directory: bool) returns (started: bool)
      requires Valid() && url !in entries && fetches < slots
      modifies this`entries, this`fetches
      ensures Valid()
      ensures started <==> directory && Pinned(old(entries), maxBytes) + maxBytes <= cacheBytes
      ensures OnlyIdleLeft(entries - {url}, old(entries)) && OldestFirst(entries - {url}, old(entries))
      ensures Charged(old(entries), maxBytes) + maxBytes <= cacheBytes ==> entries - {url} == old(entries)
      ensures fetches == old(fetches) + if started then 1 else 0
      ensures if started then url in entries && entries[url] == Entry(1, false, false, false, 0, now, now) else url !in entries
    {
      var room := MakeRoom();
      WithoutAbsent(entries, url, Entry(1, false, false, false, 0, now, now));
      if !room || !directory {
        return false;
      }
      fetches := fetches + 1;
      StartEntry(url, now);
      return true;
    }

    method StartEntry(url: Url, now: nat)
      requires Valid() && url !in entries && |Fetching(entries)| < fetches && Charged(entries, maxBytes) + maxBytes <= cacheBytes
      modifies this`entries
      ensures Valid() && entries == old(entries)[url := Entry(1, false, false, false, 0, now, now)]
    {
      var e := Entry(1, false, false, false, 0, now, now);
      ChargedPut(entries, maxBytes, url, e);
      FetchingPut(entries, url, e);
      entries := entries[url := e];
    }

    /** An entry changes without a change of its charge or of its being fetched. */
    method Put(url: Url, e: Entry)
      requires Valid() && url in entries && EntryFine(e, maxBytes)
      requires e.done == entries[url].done && (e.done ==> e.size == entries[url].size)
      modifies this`entries
      ensures Valid() && entries == old(entries)[url := e]
    {
      ChargedPut(entries, maxBytes, url, e);
      FetchingPut(entries, url, e);
      entries := entries[url := e];
    }

    method Remove(url: Url)
      requires Valid() && url in entries
      modifies this`entries
      ensures Valid() && entries == old(entries) - {url}
    {
      ChargedRemove(entries, maxBytes, url);
      FetchingRemove(entries, url);
      entries := entries - {url};
    }

    /** release: the last reader of a running fetch abandons it, the last reader of a failed one removes it. */
    method Release(url: Url, now: nat)
      requires Valid() && url in entries && entries[url].refs > 0
      modifies this`entries
      ensures Valid()
      ensures var e := old(entries)[url].(refs := old(entries)[url].refs - 1, used := now);
              entries == if e.refs == 0 && !e.done then old(entries)[url := e.(abandoned := true)]
                         else if e.refs == 0 && e.failed then old(entries) - {url}
                         else old(entries)[url := e]
    {
      var e := entries[url];
      e := e.(refs := e.refs - 1, used := now);
      if e.refs == 0 && !e.done {
        Put(url, e.(abandoned := true));
      } else if e.refs == 0 && (e.failed || e.abandoned) {
        Remove(url);
      } else {
        Put(url, e);
      }
    }

    // ------------------------------------------------------------------ the fetch

    /** A chunk was written, unless it would pass the largest size. */
    method Progress(url: Url, n: nat) returns (ok: bool)
      requires Valid() && url in entries && !entries[url].done
      modifies this`entries
      ensures Valid()
      ensures ok <==> old(entries)[url].size + n <= maxBytes
      ensures entries == if ok then old(entries)[url := old(entries)[url].(size := old(entries)[url].size + n)] else old(entries)
    {
      var e := entries[url];
      if e.size + n > maxBytes {
        return false;
      }
      Put(url, e.(size := e.size + n));
      return true;
    }

    /** The end of fetch: the entry is charged its real size, or goes if nobody reads a useless file. */
    method Finish(url: Url, failed: bool)
      requires Valid() && url in entries && !entries[url].done
      modifies this`entries
      ensures Valid()
      ensures var e := old(entries)[url];
              entries == if (failed || e.abandoned) && e.refs == 0 then old(entries) - {url}
                         else old(entries)[url := e.(done := true, failed := failed)]
    {
      var e := entries[url];
      if (failed || e.abandoned) && e.refs == 0 {
        Remove(url);
      } else {
        var d := e.(done := true, failed := failed);
        ChargedPut(entries, maxBytes, url, d);
        FetchingPut(entries, url, d);
        entries := entries[url := d];
      }
    }

    /** close: no lookup succeeds from here on. */
    method Close()
      requires Valid()
      modifies this`closed
      ensures Valid() && closed
    {
      closed := true;
    }

    method ReturnSlot()
      requires Valid() && fetches > 0 && |Fetching(entries)| < fetches
      modifies this`fetches
      ensures Valid() && fetches == old(fetches) - 1
    {
      fetches := fetches - 1;
    }
  }

  lemma FetchingPut(entries: map<Url, Entry>, u: Url, e: Entry)
    ensures |Fetching(entries[u := e])| <= |Fetching(entries)| + (if e.done || u in Fetching(entries) then 0 else 1)
  {
    var before, next := Fetching(entries), Fetching(entries[u := e]);
    if e.done {
      assert next == before - {u};
    } else {
      assert next == before + {u};
    }
  }

  lemma FetchingRemove(entries: map<Url, Entry>, u: Url)
    ensures |Fetching(entries - {u})| <= |Fetching(entries)|
  {
    assert Fetching(entries - {u}) == Fetching(entries) - {u};
  }
}
