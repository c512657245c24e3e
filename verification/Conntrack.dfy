/** The per-flow authorisation table: entries found by flow key and, while their reply is
    outstanding, by authorisation id. */
module Conntrack {
  import opened Bytes

  const UINT64_SIZE: nat := 0x1_0000_0000_0000_0000

  datatype Failure = SendError | AuthTimeout | AuthStatus | AuthRejected | MissingToken

  /** A conntrack; `closed` says its channel is closed. */
  datatype Entry = Entry(
    key: string,
    authID: nat,
    appID: string,
    token: string,
    err: Option<Failure>,
    closed: bool,
    started: bool,
    lastUsed: int)

  /** objs holds every entry ever made; byKey and byID refer to them by index. */
  datatype Table = Table(
    nextAuthID: nat,
    byKey: map<string, nat>,
    byID: map<nat, nat>,
    objs: seq<Entry>)

  const EMPTY := Table(0, map[], map[], [])

  /** atomic.AddUint64(&nextAuthID, 1) */
  function NextID(t: Table): (id: nat)
  {
    if t.nextAuthID + 1 < UINT64_SIZE then t.nextAuthID + 1 else 0
  }

  /** The entry still waits for its reply. */
  predicate Pending(t: Table, r: nat)
  {
    r < |t.objs| && t.objs[r].authID in t.byID && t.byID[t.objs[r].authID] == r
  }

  ghost predicate KeysCoherent(t: Table)
  {
    forall k :: k in t.byKey ==> t.byKey[k] < |t.objs| && t.objs[t.byKey[k]].key == k
  }

  ghost predicate IdsCoherent(t: Table)
  {
    forall id :: id in t.byID ==>
      var r := t.byID[id];
      && r < |t.objs| && t.objs[r].authID == id && !t.objs[r].closed
      && t.objs[r].err.None? && t.objs[r].token == ""
      && t.objs[r].key in t.byKey && t.byKey[t.objs[r].key] == r
  }

  ghost predicate IdsCounted(t: Table)
  {
    t.nextAuthID == |t.objs| < UINT64_SIZE && forall r :: 0 <= r < |t.objs| ==> t.objs[r].authID == r + 1
  }

  /** Both indexes agree with the entries, every byID entry is the byKey entry of its key,
      and ids count the entries made. */
  ghost predicate Coherent(t: Table)
  {
    KeysCoherent(t) && IdsCoherent(t) && IdsCounted(t)
  }

  // ---------------------------------------------------------------------------------
  // The critical sections

  /** markAuth up to the unlock: the entry whose channel is to be closed, if any. */
  function MarkLocked(t: Table, authID: nat, token: string, err: Option<Failure>): (r: (Table, Option<nat>))
    requires authID in t.byID ==> t.byID[authID] < |t.objs|
  {
    if authID !in t.byID then (t, None)
    else
      var ref := t.byID[authID];
      var e := t.objs[ref].(token := if token != "" then token else t.objs[ref].token, err := err);
      (t.(byID := t.byID - {authID}, objs := t.objs[ref := e]), Some(ref))
  }

  /** timeoutAuth up to the unlock: whether the caller won and must close the channel. */
  function TimeoutLocked(t: Table, ref: nat, err: Failure): (r: (Table, bool))
    requires ref < |t.objs|
  {
    var e := t.objs[ref];
    if !Pending(t, ref) then (t, false)
    else
      (t.(byID := t.byID - {e.authID},
          byKey := if e.key in t.byKey && t.byKey[e.key] == ref then t.byKey - {e.key} else t.byKey,
          objs := t.objs[ref := e.(err := Some(err))]), true)
  }

  /** close(ct.authCh) */
  function CloseRef(t: Table, ref: nat): (u: Table)
    requires ref < |t.objs|
  {
    t.(objs := t.objs[ref := t.objs[ref].(closed := true)])
  }

  function Touch(t: Table, ref: nat, now: int): (u: Table)
    requires ref < |t.objs|
  {
    t.(objs := t.objs[ref := t.objs[ref].(lastUsed := now)])
  }

  function Insert(t: Table, key: string, appID: string, now: int): (u: Table)
  {
    var id := NextID(t);
    Table(id, t.byKey[key := |t.objs|], t.byID[id := |t.objs|],
          t.objs + [Entry(key, id, appID, "", None, false, false, now)])
  }

  predicate Completed(t: Table, k: string)
    requires k in t.byKey
  {
    t.byKey[k] < |t.objs| && t.objs[t.byKey[k]].closed
  }

  function Used(t: Table, k: string): int
    requires k in t.byKey
  {
    if t.byKey[k] < |t.objs| then t.objs[t.byKey[k]].lastUsed else 0
  }

  predicate Idle(e: Entry, cutoff: int)
  {
    e.closed && e.lastUsed <= cutoff
  }

  /** What cleanup may have left of the key index: entries are only dropped once completed;
      every idle one is; others only while the limit is reached, oldest first. */
  ghost predicate Trimmed(t: Table, m: map<string, nat>, now: int, limit: int, idleAfter: nat)
  {
    && m.Keys <= t.byKey.Keys && (forall k :: k in m ==> m[k] == t.byKey[k])
    && (forall k :: k in t.byKey && k !in m ==> Completed(t, k))
    && (forall k :: k in m && Completed(t, k) ==> Used(t, k) > now - idleAfter)
    && (forall k, s :: LimitVictim(t, m, k, now, idleAfter) && s in m && Completed(t, s) ==> Used(t, k) <= Used(t, s))
    && ((exists k :: LimitVictim(t, m, k, now, idleAfter)) ==> |m| + 1 >= limit)
  }

  /** Dropped although not idle, to get below the limit. */
  ghost predicate LimitVictim(t: Table, m: map<string, nat>, k: string, now: int, idleAfter: nat)
  {
    k in t.byKey && k !in m && Used(t, k) > now - idleAfter
  }

  /** cleanup ends below the limit, or with nothing completed left to drop. */
  ghost predicate Cleaned(t: Table, u: Table, now: int, limit: int, idleAfter: nat)
  {
    && u == t.(byKey := u.byKey) && Trimmed(t, u.byKey, now, limit, idleAfter)
    && (|u.byKey| < limit || forall k :: k in u.byKey ==> !Completed(t, k))
  }

  /** getOrCreate for a key that is not there: clean up at the limit, then insert. */
  ghost predicate Created(t: Table, mid: Table, u: Table, key: string, appID: string, now: int, limit: int, idleAfter: nat)
  {
    && (if |t.byKey| >= limit then Cleaned(t, mid, now, limit, idleAfter) else mid == t)
    && u == Insert(mid, key, appID, now)
  }

  // ---------------------------------------------------------------------------------
  // What the critical sections keep

  lemma MarkKeeps(t: Table, authID: nat, token: string, err: Option<Failure>)
    requires Coherent(t)
    ensures var (u, ref) := MarkLocked(t, authID, token, err);
            && Coherent(u) && |u.objs| == |t.objs|
            && (ref.Some? ==>
                  && Pending(t, ref.value) && !Pending(u, ref.value)
                  && u.objs[ref.value].err == err && u.objs[ref.value].token == token)
            && (forall r :: 0 <= r < |t.objs| && ref != Some(r) ==>
                  u.objs[r] == t.objs[r] && (Pending(u, r) <==> Pending(t, r)))
  {
  }

  lemma TimeoutKeeps(t: Table, ref: nat, err: Failure)
    requires Coherent(t) && ref < |t.objs|
    ensures var (u, won) := TimeoutLocked(t, ref, err);
            && Coherent(u) && |u.objs| == |t.objs| && (won <==> Pending(t, ref)) && !Pending(u, ref)
            && (won ==> u.objs[ref].err == Some(err))
            && (forall r :: 0 <= r < |t.objs| && (r != ref || !won) ==>
                  u.objs[r] == t.objs[r] && (Pending(u, r) <==> Pending(t, r)))
  {
    var (u, won) := TimeoutLocked(t, ref, err);
    if won {
      forall id | id in u.byID
        ensures u.objs[u.byID[id]].key in u.byKey && u.byKey[u.objs[u.byID[id]].key] == u.byID[id]
      {
        assert id in t.byID && t.byID[id] != ref;
      }
    }
  }

  lemma CloseKeeps(t: Table, ref: nat)
    requires Coherent(t) && ref < |t.objs| && !Pending(t, ref)
    ensures Coherent(CloseRef(t, ref)) && forall r :: Pending(CloseRef(t, ref), r) <==> Pending(t, r)
  {
  }

  lemma TouchKeeps(t: Table, ref: nat, now: int)
    requires Coherent(t) && ref < |t.objs|
    ensures Coherent(Touch(t, ref, now)) && forall r :: Pending(Touch(t, ref, now), r) <==> Pending(t, r)
  {
  }

  lemma ClosedNotIndexed(t: Table, r: nat)
    requires Coherent(t) && r < |t.objs| && t.objs[r].closed
    ensures t.objs[r].authID !in t.byID && t.byID - {t.objs[r].authID} == t.byID
  {
  }

  /** Dropping a least recently used completed entry while the limit is reached. */
  lemma TrimOne(t: Table, m: map<string, nat>, k: string, now: int, limit: int, idleAfter: nat)
    requires Trimmed(t, m, now, limit, idleAfter) && |m| >= limit
    requires k in m && Completed(t, k) && forall s :: s in m && Completed(t, s) ==> Used(t, k) <= Used(t, s)
    ensures |m - {k}| == |m| - 1 && Trimmed(t, m - {k}, now, limit, idleAfter)
  {
    var n := m - {k};
    assert n.Keys == m.Keys - {k};
    forall v, s | LimitVictim(t, n, v, now, idleAfter) && s in n && Completed(t, s)
      ensures Used(t, v) <= Used(t, s)
    {
      assert v == k || LimitVictim(t, m, v, now, idleAfter);
    }
  }

  lemma TrimIdle(t: Table, m: map<string, nat>, now: int, limit: int, idleAfter: nat)
    requires KeysCoherent(t)
    requires forall k :: k in m <==> k in t.byKey && !Idle(t.objs[t.byKey[k]], now - idleAfter)
    requires forall k :: k in m ==> m[k] == t.byKey[k]
    ensures Trimmed(t, m, now, limit, idleAfter)
  {
    forall k | LimitVictim(t, m, k, now, idleAfter)
      ensures false
    {
    }
  }

  lemma TrimDone(t: Table, m: map<string, nat>, now: int, limit: int, idleAfter: nat)
    requires Coherent(t) && Trimmed(t, m, now, limit, idleAfter)
    requires |m| < limit || forall k :: k in m ==> !t.objs[t.byKey[k]].closed
    ensures Cleaned(t, t.(byKey := m), now, limit, idleAfter) && Coherent(t.(byKey := m))
  {
    CleanKeeps(t, t.(byKey := m), now, limit, idleAfter);
  }

  lemma TrimSub(t: Table, m: map<string, nat>, now: int, limit: int, idleAfter: nat)
    requires Trimmed(t, m, now, limit, idleAfter)
    ensures m.Keys <= t.byKey.Keys && forall k :: k in m ==> m[k] == t.byKey[k]
  {
  }

  /** A new entry gets an id nothing else carries, as long as fewer than 2^64 entries exist. */
  lemma InsertKeeps(t: Table, key: string, appID: string, now: int)
    requires Coherent(t) && key !in t.byKey && |t.objs| + 1 < UINT64_SIZE
    ensures var u := Insert(t, key, appID, now);
            && Coherent(u) && NextID(t) !in t.byID
            && (forall r :: 0 <= r < |t.objs| ==> t.objs[r].authID != NextID(t))
            && Pending(u, |t.objs|) && u.byKey[key] == |t.objs|
            && (forall r :: 0 <= r < |t.objs| ==> u.objs[r] == t.objs[r] && (Pending(u, r) <==> Pending(t, r)))
  {
  }

  /** Cleaning never drops a pending entry, so the id index stays covered by the key index. */
  lemma CleanKeeps(t: Table, u: Table, now: int, limit: int, idleAfter: nat)
    requires Coherent(t) && Cleaned(t, u, now, limit, idleAfter)
    ensures Coherent(u) && forall r :: Pending(t, r) <==> Pending(u, r)
  {
  }

  /** After a creation the table is within its limit, or holds no completed entry at all. */
  lemma CreateWithinLimit(t: Table, u: Table, key: string, appID: string, now: int, limit: int, idleAfter: nat)
    requires Coherent(t) && key !in t.byKey && |t.objs| + 1 < UINT64_SIZE
    requires if |t.byKey| >= limit then Cleaned(t, u, now, limit, idleAfter) else u == t
    ensures var v := Insert(u, key, appID, now);
            |v.byKey| <= limit || forall k :: k in v.byKey ==> !Completed(v, k)
  {
    var v := Insert(u, key, appID, now);
    assert v.byKey.Keys == u.byKey.Keys + {key};
    if |u.byKey| >= limit {
      forall k | k in v.byKey
        ensures !Completed(v, k)
      {
        if k != key {
          assert k in u.byKey && !Completed(t, k) && t.byKey[k] < |t.objs|;
        }
      }
    }
  }

  lemma CreateKeeps(t: Table, mid: Table, key: string, appID: string, now: int, limit: int, idleAfter: nat)
    requires Coherent(t) && key !in t.byKey && |t.objs| + 1 < UINT64_SIZE
    requires if |t.byKey| >= limit then Cleaned(t, mid, now, limit, idleAfter) else mid == t
    ensures var u := Insert(mid, key, appID, now);
            && Coherent(u) && key in u.byKey && u.byKey[key] == |mid.objs| < |u.objs|
            && Created(t, mid, u, key, appID, now, limit, idleAfter)
            && (|u.byKey| <= limit || forall k :: k in u.byKey ==> !Completed(u, k))
  {
    if |t.byKey| >= limit {
      CleanKeeps(t, mid, now, limit, idleAfter);
    }
    InsertKeeps(mid, key, appID, now);
    CreateWithinLimit(t, mid, key, appID, now, limit, idleAfter);
  }

  // ---------------------------------------------------------------------------------
  // The manager object

  class ConntrackMgr {
    var nextAuthID: nat
    var byKey: map<string, nat>
    var byID: map<nat, nat>
    var objs: seq<Entry>
    const limit: int
    const idleAfter: nat

    constructor (limit: int, idleAfter: nat)
      ensures T() == EMPTY && Coherent(T())
      ensures this.limit == limit && this.idleAfter == idleAfter
    {
      nextAuthID, byKey, byID, objs := 0, map[], map[], [];
      this.limit := limit;
      this.idleAfter := idleAfter;
    }

    ghost function T(): (t: Table)
      reads this
    {
      Table(nextAuthID, byKey, byID, objs)
    }

    method MarkAuth(authID: nat, token: string, err: Option<Failure>)
      requires Coherent(T())
      modifies this
      ensures Coherent(T())
      ensures var (u, ref) := MarkLocked(old(T()), authID, token, err);
              T() == if ref.Some? then CloseRef(u, ref.value) else u
    {
      MarkKeeps(T(), authID, token, err);
      if authID !in byID { return; }
      var ref := byID[authID];
      byID := byID - {authID};
      if token != "" {
        objs := objs[ref := objs[ref].(token := token)];
      }
      objs := objs[ref := objs[ref].(err := err)];
      assert T() == MarkLocked(old(T()), authID, token, err).0;
      CloseKeeps(T(), ref);
      objs := objs[ref := objs[ref].(closed := true)];
    }

    method TimeoutAuth(ref: nat, err: Failure) returns (won: bool)
      requires Coherent(T()) && ref < |objs|
      modifies this
      ensures Coherent(T())
      ensures var (u, w) := TimeoutLocked(old(T()), ref, err);
              won == w && T() == if won then CloseRef(u, ref) else u
    {
      TimeoutKeeps(T(), ref, err);
      var id := objs[ref].authID;
      if id !in byID || byID[id] != ref { return false; }
      byID := byID - {id};
      var key := objs[ref].key;
      if key in byKey && byKey[key] == ref {
        byKey := byKey - {key};
      }
      objs := objs[ref := objs[ref].(err := Some(err))];
      assert T() == TimeoutLocked(old(T()), ref, err).0;
      CloseKeeps(T(), ref);
      objs := objs[ref := objs[ref].(closed := true)];
      return true;
    }

    /** getOrCreate; `mid` is the table between cleanup and the creation. */
    method GetOrCreate(key: string, appID: string, now: int) returns (ref: nat, ghost mid: Table)
      requires Coherent(T()) && |objs| + 1 < UINT64_SIZE
      modifies this
      ensures Coherent(T()) && ref < |objs| && key in byKey && byKey[key] == ref
      ensures key in old(byKey) ==> ref == old(byKey)[key] && T() == Touch(old(T()), ref, now)
      ensures key !in old(byKey) ==> Created(old(T()), mid, T(), key, appID, now, limit, idleAfter)
      ensures key !in old(byKey) ==> |byKey| <= limit || forall k :: k in byKey ==> !Completed(T(), k)
    {
      mid := T();
      if key in byKey {
        ref := byKey[key];
        TouchKeeps(T(), ref, now);
        objs := objs[ref := objs[ref].(lastUsed := now)];
      } else {
        ref, mid := Create(key, appID, now);
      }
    }

    method Create(key: string, appID: string, now: int) returns (ref: nat, ghost mid: Table)
      requires Coherent(T()) && |objs| + 1 < UINT64_SIZE && key !in byKey
      modifies this
      ensures Coherent(T()) && ref < |objs| && key in byKey && byKey[key] == ref
      ensures Created(old(T()), mid, T(), key, appID, now, limit, idleAfter)
      ensures |byKey| <= limit || forall k :: k in byKey ==> !Completed(T(), k)
    {
      if |byKey| >= limit {
        Cleanup(now);
      }
      mid := T();
      CreateKeeps(old(T()), mid, key, appID, now, limit, idleAfter);
      ref := Add(key, appID, now);
    }

    method Add(key: string, appID: string, now: int) returns (ref: nat)
      modifies this
      ensures ref == |old(objs)| && T() == Insert(old(T()), key, appID, now)
    {
      nextAuthID := if nextAuthID + 1 < UINT64_SIZE then nextAuthID + 1 else 0;
      ref := |objs|;
      objs := objs + [Entry(key, nextAuthID, appID, "", None, false, false, now)];
      byKey := byKey[key := ref];
      byID := byID[nextAuthID := ref];
    }

    /** cleanup: drop the idle, then the oldest completed entries while the limit is reached. */
    method Cleanup(now: int)
      requires Coherent(T())
      modifies this`byKey, this`byID
      ensures Coherent(T()) && Cleaned(old(T()), T(), now, limit, idleAfter)
    {
      ghost var t := T();
      byKey, byID := DropIdle(t, byKey, byID, objs, now - idleAfter);
      TrimIdle(t, byKey, now, limit, idleAfter);
      byKey, byID := DropOldest(t, byKey, byID, objs, now, limit, idleAfter);
      TrimDone(t, byKey, now, limit, idleAfter);
    }
  }

  /** The first loop of cleanup: drops every completed entry idle since `cutoff`. */
  method DropIdle(ghost t: Table, keys: map<string, nat>, ids: map<nat, nat>, objs: seq<Entry>, cutoff: int)
    returns (byKey: map<string, nat>, byID: map<nat, nat>)
    requires Coherent(t) && keys == t.byKey && ids == t.byID && objs == t.objs
    ensures byID == ids
    ensures forall k :: k in byKey <==> k in keys && !Idle(objs[keys[k]], cutoff)
    ensures forall k :: k in byKey ==> byKey[k] == keys[k]
  {
    byKey, byID := keys, ids;
    var todo := byKey.Keys;
    while todo != {}
      invariant todo <= keys.Keys && byID == ids
      invariant forall k :: k in byKey <==> k in keys && (k in todo || !Idle(objs[keys[k]], cutoff))
      invariant forall k :: k in byKey ==> byKey[k] == keys[k]
      decreases |todo|
    {
      var k :| k in todo;
      todo := todo - {k};
      var ct := objs[byKey[k]];
      if ct.closed && ct.lastUsed <= cutoff {
        ClosedNotIndexed(t, byKey[k]);
        byKey := byKey - {k};
        byID := byID - {ct.authID};
      }
    }
  }

  /** The scan of cleanup's second loop: a least recently used completed entry, if any. */
  method OldestCompleted(byKey: map<string, nat>, objs: seq<Entry>) returns (oldest: Option<string>)
    requires forall k :: k in byKey ==> byKey[k] < |objs|
    ensures oldest.None? ==> forall k :: k in byKey ==> !objs[byKey[k]].closed
    ensures oldest.Some? ==>
              && oldest.value in byKey && objs[byKey[oldest.value]].closed
              && forall k :: k in byKey && objs[byKey[k]].closed ==>
                   objs[byKey[oldest.value]].lastUsed <= objs[byKey[k]].lastUsed
  {
    oldest := None;
    var todo := byKey.Keys;
    while todo != {}
      invariant todo <= byKey.Keys
      invariant oldest.None? ==> forall k :: k in byKey && k !in todo ==> !objs[byKey[k]].closed
      invariant oldest.Some? ==>
                  && oldest.value in byKey && objs[byKey[oldest.value]].closed
                  && forall k :: k in byKey && k !in todo && objs[byKey[k]].closed ==>
                       objs[byKey[oldest.value]].lastUsed <= objs[byKey[k]].lastUsed
      decreases |todo|
    {
      var k :| k in todo;
      todo := todo - {k};
      var ct := objs[byKey[k]];
      if !ct.closed || (oldest.Some? && ct.lastUsed >= objs[byKey[oldest.value]].lastUsed) {
        continue;
      }
      oldest := Some(k);
    }
  }

  /** The second loop of cleanup. */
  method DropOldest(ghost t: Table, keys: map<string, nat>, ids: map<nat, nat>, objs: seq<Entry>,
                    now: int, limit: int, idleAfter: nat)
    returns (byKey: map<string, nat>, byID: map<nat, nat>)
    requires Coherent(t) && ids == t.byID && objs == t.objs && Trimmed(t, keys, now, limit, idleAfter)
    ensures byID == ids && Trimmed(t, byKey, now, limit, idleAfter)
    ensures |byKey| < limit || forall k :: k in byKey ==> !objs[t.byKey[k]].closed
  {
    byKey, byID := keys, ids;
    while |byKey| >= limit
      invariant byID == ids && Trimmed(t, byKey, now, limit, idleAfter)
      decreases |byKey|
    {
      TrimSub(t, byKey, now, limit, idleAfter);
      var oldest := OldestCompleted(byKey, objs);
      if oldest.None? { return; }
      var k := oldest.value;
      TrimOne(t, byKey, k, now, limit, idleAfter);
      ClosedNotIndexed(t, byKey[k]);
      var id := objs[byKey[k]].authID;
      byKey := byKey - {k};
      byID := byID - {id};
    }
  }
}
