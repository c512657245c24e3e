/** The fake-IP allocator: names bound to addresses of a private range, reused by age. */
module FakeIp {
  import opened Bytes

  const UINT32_SIZE: nat := 0x1_0000_0000
  const REUSE_AFTER: int := 30 * 60 * 1_000_000_000

  // ---------------------------------------------------------------------------------
  // The range

  lemma {:induction false} Pow2Sum(a: nat, b: nat)
    ensures Pow2(a) * Pow2(b) == Pow2(a + b)
    decreases a
  {
    if a > 0 {
      Pow2Sum(a - 1, b);
      assert Pow2(a) * Pow2(b) == 2 * (Pow2(a - 1) * Pow2(b));
    }
  }

  /** The start of the block of `count` addresses that holds `address`. */
  function AlignDown(address: nat, count: nat): (base: nat)
    requires count > 0
  {
    address / count * count
  }

  lemma AlignFits(address: nat, count: nat, blocks: nat)
    requires count > 0 && address < blocks * count
    ensures AlignDown(address, count) <= address && AlignDown(address, count) + count <= blocks * count
  {
    var q := address / count;
    assert q * count <= address;
    if q >= blocks {
      MulMonotone(blocks, q, count);
      assert false;
    }
    MulMonotone(q + 1, blocks, count);
    assert (q + 1) * count == q * count + count;
  }

  lemma Pow2Values()
    ensures Pow2(2) == 4 && Pow2(32) == UINT32_SIZE
  {
    assert Pow2(8) == 256;
    Pow2Sum(8, 8);
    Pow2Sum(16, 16);
  }

  /** The network address of a prefix. */
  function Masked(address: nat, bits: nat): (base: nat)
    requires bits <= 32
  {
    AlignDown(address, Pow2(32 - bits))
  }

  /** The block of 2^(32-bits) addresses of a prefix ends inside the 32-bit space. */
  lemma BlockFits(address: nat, bits: nat)
    requires address < UINT32_SIZE && bits <= 32
    ensures Masked(address, bits) <= address && Masked(address, bits) + Pow2(32 - bits) <= UINT32_SIZE
  {
    Pow2Values();
    Pow2Sum(bits, 32 - bits);
    AlignFits(address, Pow2(32 - bits), Pow2(bits));
  }

  /** uint32 conversion. */
  function U32(n: nat): (r: nat)
    ensures r < UINT32_SIZE && (n < UINT32_SIZE <==> r == n)
  {
    if n < UINT32_SIZE then n else n % UINT32_SIZE
  }

  // ---------------------------------------------------------------------------------
  // What the store means: each handed-out address with the name it stands for

  datatype Binding = Binding(domain: string, resolved: Option<nat>, lastUsed: int)

  datatype Pool = Pool(first: nat, next: nat, last: nat, table: map<nat, Binding>)

  /** Exactly first..next-1 are bound, each to a name of its own. */
  ghost predicate PoolOk(p: Pool)
  {
    && p.first <= p.next <= p.last + 1 < UINT32_SIZE
    && (forall a :: a in p.table <==> p.first <= a < p.next)
    && (forall a, b :: a in p.table && b in p.table && p.table[a].domain == p.table[b].domain ==> a == b)
  }

  ghost predicate Knows(p: Pool, domain: string)
  {
    exists a :: a in p.table && p.table[a].domain == domain
  }

  predicate Reusable(b: Binding, now: int)
  {
    b.lastUsed <= now - REUSE_AFTER
  }

  /** assign: keep a known name, else take the next address, else the least recently used
      stale one, else refuse. */
  ghost predicate Assigned(p: Pool, domain: string, resolved: Option<nat>, now: int, r: Option<nat>, q: Pool)
  {
    var b := Binding(domain, resolved, now);
    if Knows(p, domain) then
      r.Some? && r.value in p.table && p.table[r.value].domain == domain && q == p.(table := p.table[r.value := b])
    else if p.next <= p.last then
      r == Some(p.next) && q == p.(next := p.next + 1, table := p.table[p.next := b])
    else if exists a :: a in p.table && Reusable(p.table[a], now) then
      && r.Some? && r.value in p.table && Reusable(p.table[r.value], now)
      && (forall a :: a in p.table ==> p.table[r.value].lastUsed <= p.table[a].lastUsed)
      && q == p.(table := p.table[r.value := b])
    else
      r.None? && q == p
  }

  /** LookupDestination: the binding, refreshed. */
  ghost predicate Found(p: Pool, address: nat, now: int, r: Option<Binding>, q: Pool)
  {
    if address in p.table
    then r == Some(p.table[address].(lastUsed := now)) && q == p.(table := p.table[address := r.value])
    else r.None? && q == p
  }

  lemma AssignKeeps(p: Pool, domain: string, resolved: Option<nat>, now: int, r: Option<nat>, q: Pool)
    requires PoolOk(p) && Assigned(p, domain, resolved, now, r, q)
    ensures PoolOk(q) && q.first == p.first && q.last == p.last
    ensures r.Some? ==> p.first <= r.value <= p.last && q.table[r.value] == Binding(domain, resolved, now)
    ensures forall a :: a in p.table && Some(a) != r ==> a in q.table && q.table[a] == p.table[a]
  {
  }

  /** Refused exactly when the name is new and every address of the range was used within
      the last thirty minutes. */
  lemma RefusedIff(p: Pool, domain: string, resolved: Option<nat>, now: int, r: Option<nat>, q: Pool)
    requires PoolOk(p) && Assigned(p, domain, resolved, now, r, q)
    ensures r.None? <==> !Knows(p, domain) && forall a :: p.first <= a <= p.last ==> a in p.table && p.table[a].lastUsed > now - REUSE_AFTER
  {
    if !Knows(p, domain) && p.next <= p.last {
      assert p.next !in p.table;
    }
  }

  // ---------------------------------------------------------------------------------
  // Whole runs

  datatype Op =
    | AssignOp(domain: string, resolved: Option<nat>, now: int, address: Option<nat>)
    | LookupOp(asked: nat, now: int, found: Option<Binding>)

  ghost predicate Step(p: Pool, op: Op, q: Pool)
  {
    match op
    case AssignOp(domain, resolved, now, address) => Assigned(p, domain, resolved, now, address, q)
    case LookupOp(asked, now, found) => Found(p, asked, now, found, q)
  }

  /** Operations in the order they held the lock, each from one pool to the next. */
  ghost predicate Run(pools: seq<Pool>, ops: seq<Op>)
  {
    && |pools| == |ops| + 1 && PoolOk(pools[0]) && pools[0].table == map[]
    && forall i :: 0 <= i < |ops| ==> Step(pools[i], ops[i], pools[i + 1])
  }

  ghost predicate Nondecreasing(ops: seq<Op>)
  {
    forall i, j :: 0 <= i <= j < |ops| ==> ops[i].now <= ops[j].now
  }

  /** The operation handed out or confirmed address a for the name. */
  predicate Uses(op: Op, a: nat, domain: string)
  {
    match op
    case AssignOp(d, _, _, address) => address == Some(a) && d == domain
    case LookupOp(asked, _, found) => asked == a && found.Some? && found.value.domain == domain
  }

  /** The name an operation is about, if it found one. */
  function NameOf(op: Op): (domain: string)
    ensures forall a, d :: Uses(op, a, d) ==> d == domain
  {
    match op
    case AssignOp(d, _, _, _) => d
    case LookupOp(_, _, found) => if found.Some? then found.value.domain else ""
  }

  lemma StepKeeps(p: Pool, op: Op, q: Pool)
    requires PoolOk(p) && Step(p, op, q)
    ensures PoolOk(q) && q.first == p.first && q.last == p.last
  {
  }

  /** Using an address stamps it; leaving it alone leaves its binding alone. */
  lemma StepTouches(p: Pool, op: Op, q: Pool, a: nat, domain: string)
    requires PoolOk(p) && Step(p, op, q)
    ensures Uses(op, a, domain) ==> a in q.table && q.table[a].domain == domain && q.table[a].lastUsed == op.now
    ensures a in q.table && q.table[a].domain == domain && !Uses(op, a, domain) ==> a in p.table && q.table[a] == p.table[a]
    ensures a in p.table && p.table[a].domain == domain && op.now < p.table[a].lastUsed + REUSE_AFTER ==>
              a in q.table && q.table[a].domain == domain
  {
  }

  lemma {:induction false} RunOk(pools: seq<Pool>, ops: seq<Op>, i: nat)
    requires Run(pools, ops) && i < |pools|
    ensures PoolOk(pools[i]) && pools[i].first == pools[0].first && pools[i].last == pools[0].last
  {
    if i > 0 {
      RunOk(pools, ops, i - 1);
      StepKeeps(pools[i - 1], ops[i - 1], pools[i]);
    }
  }

  /** The operations after i and before j are stamped less than `late` after op i, and those that
      use the address again not more than `early` before it. */
  ghost predicate Stamped(ops: seq<Op>, i: nat, j: nat, a: nat, early: nat, late: int)
    requires i < |ops|
  {
    forall m :: i < m < j && m < |ops| ==>
      && ops[m].now < ops[i].now + late
      && (Uses(ops[m], a, NameOf(ops[m])) ==> ops[m].now >= ops[i].now - early)
  }

  /** However stamps are ordered: if no later use of an address is stamped more than `early` before
      one that bound it to a name, the name is kept for thirty minutes less `early` after that. */
  lemma {:induction false} RunKeepsWithin(pools: seq<Pool>, ops: seq<Op>, i: nat, j: nat, a: nat, domain: string, early: nat)
    requires Run(pools, ops) && i < j < |pools| && Uses(ops[i], a, domain)
    requires Stamped(ops, i, j, a, early, REUSE_AFTER - early)
    ensures a in pools[j].table && pools[j].table[a].domain == domain && pools[j].table[a].lastUsed >= ops[i].now - early
    decreases j
  {
    var k := j - 1;
    RunOk(pools, ops, k);
    assert Step(pools[k], ops[k], pools[j]);
    StepTouches(pools[k], ops[k], pools[j], a, domain);
    if i < k {
      RunKeepsWithin(pools, ops, i, k, a, domain, early);
      assert ops[k].now < ops[i].now + (REUSE_AFTER - early);
    }
  }

  /** In particular, with stamps in order a name keeps its address for thirty minutes after each
      use, however many other names are assigned meanwhile. */
  lemma RunKeepsName(pools: seq<Pool>, ops: seq<Op>, i: nat, j: nat, a: nat, domain: string)
    requires Run(pools, ops) && Nondecreasing(ops) && i < j < |pools| && Uses(ops[i], a, domain)
    requires ops[j - 1].now < ops[i].now + REUSE_AFTER
    ensures a in pools[j].table && pools[j].table[a].domain == domain && pools[j].table[a].lastUsed >= ops[i].now
  {
    assert Stamped(ops, i, j, a, 0, REUSE_AFTER) by {
      forall m | i < m < j && m < |ops|
        ensures ops[m].now < ops[i].now + REUSE_AFTER && ops[m].now >= ops[i].now
      {
        assert ops[m].now <= ops[j - 1].now && ops[i].now <= ops[m].now;
      }
    }
    RunKeepsWithin(pools, ops, i, j, a, domain, 0);
  }

  /** So a connection to the address within that time still reaches the name. */
  lemma RunRestoresName(pools: seq<Pool>, ops: seq<Op>, i: nat, j: nat, a: nat, domain: string)
    requires Run(pools, ops) && Nondecreasing(ops) && i < j < |ops| && Uses(ops[i], a, domain)
    requires ops[j].LookupOp? && ops[j].asked == a && ops[j].now < ops[i].now + REUSE_AFTER
    ensures ops[j].found.Some? && ops[j].found.value.domain == domain
  {
    assert ops[j - 1].now <= ops[j].now;
    RunKeepsName(pools, ops, i, j, a, domain);
    assert Step(pools[j], ops[j], pools[j + 1]);
  }

  /** The promise in general: an address that op i used stands for its name up to pool j if the
      operations between are stamped as `early` and `late` allow. */
  ghost predicate Kept(pools: seq<Pool>, ops: seq<Op>, i: nat, j: nat, a: nat, domain: string, early: nat, late: int)
  {
    && i < j < |pools| && i < |ops| && Run(pools, ops) && Uses(ops[i], a, domain) && Stamped(ops, i, j, a, early, late) ==>
         a in pools[j].table && pools[j].table[a].domain == domain
  }

  /** A pool of one address: used for "x", used again with a stamp `early` before that, and taken
      by "y" as soon as that stamp allows. */
  lemma EarlyStampRebinds(early: nat) returns (pools: seq<Pool>, ops: seq<Op>)
    ensures Run(pools, ops) && |ops| == 3
    ensures Uses(ops[0], 2, "x") && Uses(ops[1], 2, "x") && Uses(ops[2], 2, "y")
    ensures ops[1].now == ops[0].now - early && ops[2].now == ops[0].now - early + REUSE_AFTER
    ensures 2 in pools[3].table && pools[3].table[2].domain == "y"
  {
    var back: int, late: int := 0 - early, REUSE_AFTER - early;
    var empty := Pool(2, 2, 2, map[]);
    var bound := (b: Binding) => Pool(2, 3, 2, map[2 := b]);
    var p1, p2, p3 := bound(Binding("x", None, 0)), bound(Binding("x", None, back)), bound(Binding("y", None, late));
    pools := [empty, p1, p2, p3];
    ops := [AssignOp("x", None, 0, Some(2)), AssignOp("x", None, back, Some(2)), AssignOp("y", None, late, Some(2))];
    assert Step(empty, ops[0], p1);
    assert 2 in p1.table && p1.table[2].domain == "x" && p1.table[2 := Binding("x", None, back)] == p2.table;
    assert Step(p1, ops[1], p2);
    assert Reusable(p2.table[2], late) && p2.table[2 := Binding("y", None, late)] == p3.table;
    assert Step(p2, ops[2], p3);
  }

  /** Exactly: when later uses of an address may be stamped up to `early` before the one that gave
      it a name, the name is safe from everything stamped less than `late` after it if and only
      if `late` is at most thirty minutes less `early`. */
  lemma KeptIff(early: nat, late: int)
    ensures (forall pools, ops, i: nat, j: nat, a: nat, domain :: Kept(pools, ops, i, j, a, domain, early, late))
            <==> late <= REUSE_AFTER - early
  {
    if late <= REUSE_AFTER - early {
      forall pools, ops, i: nat, j: nat, a: nat, domain
        ensures Kept(pools, ops, i, j, a, domain, early, late)
      {
        KeptWithin(pools, ops, i, j, a, domain, early, late);
      }
    } else {
      var pools, ops := EarlyStampRebinds(early);
      assert !Kept(pools, ops, 0, 3, 2, "x", early, late);
    }
  }

  lemma KeptWithin(pools: seq<Pool>, ops: seq<Op>, i: nat, j: nat, a: nat, domain: string, early: nat, late: int)
    requires late <= REUSE_AFTER - early
    ensures Kept(pools, ops, i, j, a, domain, early, late)
  {
    if i < j < |pools| && i < |ops| && Run(pools, ops) && Uses(ops[i], a, domain) && Stamped(ops, i, j, a, early, late) {
      assert Stamped(ops, i, j, a, early, REUSE_AFTER - early);
      RunKeepsWithin(pools, ops, i, j, a, domain, early);
    }
  }

  /** assign reads the clock before it waits for the lock, so stamps can arrive out of order;
      then an address used a nanosecond ago can move to another name. */
  lemma LateStampRebinds() returns (pools: seq<Pool>, ops: seq<Op>)
    ensures Run(pools, ops) && |ops| == 3 && !Nondecreasing(ops)
    ensures Uses(ops[0], 2, "x") && Uses(ops[1], 2, "x") && ops[2].now == ops[0].now + 1
    ensures 2 in pools[3].table && pools[3].table[2].domain == "y"
  {
    pools, ops := EarlyStampRebinds(REUSE_AFTER - 1);
    assert ops[0].now > ops[1].now;
  }

  ghost predicate UsedAt(ops: seq<Op>, k: nat, b: Binding, a: nat)
  {
    k < |ops| && Uses(ops[k], a, b.domain) && ops[k].now == b.lastUsed
  }

  ghost predicate Unused(ops: seq<Op>, a: nat, from: nat, to: nat)
  {
    forall m :: from <= m < to && m < |ops| ==> !Uses(ops[m], a, NameOf(ops[m]))
  }

  /** Every binding goes back to the operation that last used the address. */
  lemma {:induction false} RunUsed(pools: seq<Pool>, ops: seq<Op>, i: nat, a: nat) returns (k: nat)
    requires Run(pools, ops) && i < |pools| && a in pools[i].table
    ensures k < i && UsedAt(ops, k, pools[i].table[a], a) && Unused(ops, a, k + 1, i)
  {
    RunOk(pools, ops, i - 1);
    var b := pools[i].table[a];
    assert Step(pools[i - 1], ops[i - 1], pools[i]);
    StepTouches(pools[i - 1], ops[i - 1], pools[i], a, b.domain);
    if Uses(ops[i - 1], a, b.domain) {
      k := i - 1;
    } else {
      k := RunUsed(pools, ops, i - 1, a);
      StepTouches(pools[i - 1], ops[i - 1], pools[i], a, NameOf(ops[i - 1]));
    }
  }

  /** Whatever the order of stamps, an address changes its name only when the operation that used
      it last was stamped at least thirty minutes before. */
  lemma RunRebindStale(pools: seq<Pool>, ops: seq<Op>, j: nat, a: nat) returns (k: nat)
    requires Run(pools, ops) && j < |ops| && a in pools[j].table
    requires a !in pools[j + 1].table || pools[j + 1].table[a].domain != pools[j].table[a].domain
    ensures k < j && UsedAt(ops, k, pools[j].table[a], a) && Unused(ops, a, k + 1, j)
    ensures ops[k].now <= ops[j].now - REUSE_AFTER
  {
    RunOk(pools, ops, j);
    k := RunUsed(pools, ops, j, a);
    assert Step(pools[j], ops[j], pools[j + 1]);
    StepTouches(pools[j], ops[j], pools[j + 1], a, pools[j].table[a].domain);
  }

  /** A new name is turned away only if each address of the range was used by an operation
      less than thirty minutes earlier. */
  lemma RunRefusal(pools: seq<Pool>, ops: seq<Op>, j: nat, a: nat) returns (k: nat)
    requires Run(pools, ops) && j < |ops| && ops[j].AssignOp? && ops[j].address.None?
    requires pools[0].first <= a <= pools[0].last
    ensures k < j && ops[k].now > ops[j].now - REUSE_AFTER
    ensures a in pools[j].table && Uses(ops[k], a, pools[j].table[a].domain)
  {
    RunOk(pools, ops, j);
    var op := ops[j];
    RefusedIff(pools[j], op.domain, op.resolved, op.now, op.address, pools[j + 1]);
    k := RunUsed(pools, ops, j, a);
  }

  // ---------------------------------------------------------------------------------
  // The store

  class Entry {
    var domain: string
    const address: nat
    var resolved: Option<nat>
    var lastUsed: int

    constructor (domain: string, address: nat, resolved: Option<nat>, lastUsed: int)
      ensures this.domain == domain && this.address == address && this.resolved == resolved && this.lastUsed == lastUsed
    {
      this.domain, this.address, this.resolved, this.lastUsed := domain, address, resolved, lastUsed;
    }

    method Set(domain: string, resolved: Option<nat>, lastUsed: int)
      modifies this
      ensures Bound() == Binding(domain, resolved, lastUsed)
    {
      this.domain, this.resolved, this.lastUsed := domain, resolved, lastUsed;
    }

    ghost function Bound(): (b: Binding)
      reads this
    {
      Binding(domain, resolved, lastUsed)
    }
  }

  /** Both maps hold the same entries, each under its address and the name the table has for it. */
  ghost predicate Inverse(names: map<string, Entry>, addresses: map<nat, Entry>, table: map<nat, Binding>)
  {
    && table.Keys == addresses.Keys
    && (forall a :: a in addresses ==>
          addresses[a].address == a && table[a].domain in names && names[table[a].domain] == addresses[a])
    && (forall d :: d in names ==>
          && names[d].address in addresses && addresses[names[d].address] == names[d]
          && table[names[d].address].domain == d)
  }

  lemma InverseMore(names: map<string, Entry>, addresses: map<nat, Entry>, table: map<nat, Binding>, entry: Entry, b: Binding)
    requires Inverse(names, addresses, table) && b.domain !in names && entry.address !in addresses
    ensures Inverse(names[b.domain := entry], addresses[entry.address := entry], table[entry.address := b])
  {
  }

  lemma InverseTouched(names: map<string, Entry>, addresses: map<nat, Entry>, table: map<nat, Binding>, a: nat, b: Binding)
    requires Inverse(names, addresses, table) && a in addresses && table[a].domain == b.domain
    ensures Inverse(names, addresses, table[a := b])
  {
  }

  /** An entry of the maps takes a name that is free. */
  lemma InverseMoved(names: map<string, Entry>, addresses: map<nat, Entry>, table: map<nat, Binding>, entry: Entry, b: Binding)
    requires Inverse(names, addresses, table) && b.domain !in names
    requires entry.address in addresses && addresses[entry.address] == entry
    ensures Inverse((names - {table[entry.address].domain})[b.domain := entry], addresses, table[entry.address := b])
  {
  }

  class FakeIPStore {
    const first: nat
    const last: nat
    var next: nat
    var domainToIP: map<string, Entry>
    var ipToDomain: map<nat, Entry>
    ghost var table: map<nat, Binding>

    /** The maps are inverse to each other and share their entries. */
    ghost predicate Valid()
      reads this, ipToDomain.Values
    {
      && first <= next <= last + 1 < UINT32_SIZE
      && (forall a :: a in ipToDomain <==> first <= a < next)
      && Inverse(domainToIP, ipToDomain, table)
      && (forall a :: a in ipToDomain ==> table[a] == ipToDomain[a].Bound())
    }

    ghost function Contents(): (p: Pool)
      reads this
    {
      Pool(first, next, last, table)
    }

    /** newFakeIPStore for a prefix between /8 and /30: nothing wraps around. */
    constructor (address: nat, bits: nat)
      requires address < UINT32_SIZE && 8 <= bits <= 30
      ensures Valid() && PoolOk(Contents()) && table == map[]
      ensures first == next == Masked(address, bits) + 2
      ensures last == Masked(address, bits) + Pow2(32 - bits) - 2 && first <= last
    {
      var base := Masked(address, bits);
      var count := Pow2(32 - bits);
      BlockFits(address, bits);
      Pow2Values();
      Pow2Monotone(2, 32 - bits);
      first, next, last := U32(base + 2), U32(base + 2), U32(base + count - 2);
      domainToIP, ipToDomain, table := map[], map[], map[];
    }

    /** oldestReusable: a least recently used stale entry, if there is one. */
    method OldestReusable(now: int) returns (oldest: Entry?)
      requires Valid()
      ensures oldest == null ==> forall d :: d in domainToIP ==> domainToIP[d].lastUsed > now - REUSE_AFTER
      ensures oldest != null ==>
                && oldest.domain in domainToIP && domainToIP[oldest.domain] == oldest
                && oldest.lastUsed <= now - REUSE_AFTER
                && forall d :: d in domainToIP ==> oldest.lastUsed <= domainToIP[d].lastUsed
    {
      var cutoff := now - REUSE_AFTER;
      oldest := null;
      var todo := domainToIP.Keys;
      while todo != {}
        invariant todo <= domainToIP.Keys
        invariant oldest == null ==> forall d :: d in domainToIP && d !in todo ==> domainToIP[d].lastUsed > cutoff
        invariant oldest != null ==>
                    && oldest.domain in domainToIP && domainToIP[oldest.domain] == oldest && oldest.lastUsed <= cutoff
                    && forall d :: d in domainToIP && d !in todo ==> oldest.lastUsed <= domainToIP[d].lastUsed
        decreases |todo|
      {
        var d :| d in todo;
        todo := todo - {d};
        var entry := domainToIP[d];
        if entry.lastUsed > cutoff || (oldest != null && entry.lastUsed >= oldest.lastUsed) {
          continue;
        }
        oldest := entry;
      }
    }

    lemma Indexed(domain: string)
      requires Valid()
      ensures domain in domainToIP <==> Knows(Contents(), domain)
      ensures domain in domainToIP ==> domainToIP[domain] in ipToDomain.Values
    {
      if domain in domainToIP {
        var a := domainToIP[domain].address;
        assert a in Contents().table && Contents().table[a].domain == domain;
      }
    }

    method Refresh(entry: Entry, resolved: Option<nat>, now: int)
      requires Valid() && entry.address in ipToDomain && ipToDomain[entry.address] == entry
      modifies this`table, entry
      ensures Valid()
      ensures Contents() == old(Contents()).(table := old(table)[entry.address := Binding(old(entry.domain), resolved, now)])
    {
      InverseTouched(domainToIP, ipToDomain, table, entry.address, Binding(entry.domain, resolved, now));
      entry.Set(entry.domain, resolved, now);
      table := table[entry.address := entry.Bound()];
    }

    method Rebind(entry: Entry, domain: string, resolved: Option<nat>, now: int)
      requires Valid() && entry.address in ipToDomain && ipToDomain[entry.address] == entry && domain !in domainToIP
      modifies this`domainToIP, this`table, entry
      ensures Valid()
      ensures Contents() == old(Contents()).(table := old(table)[entry.address := Binding(domain, resolved, now)])
    {
      var others := domainToIP - {entry.domain};
      InverseMoved(domainToIP, ipToDomain, table, entry, Binding(domain, resolved, now));
      entry.Set(domain, resolved, now);
      domainToIP := others[domain := entry];
      table := table[entry.address := entry.Bound()];
    }

    /** Enter a new entry under the next address and its name. */
    method Link(entry: Entry)
      requires Valid() && next <= last && entry.address == next
      requires entry.domain !in domainToIP
      modifies this
      ensures Valid() && ipToDomain == old(ipToDomain)[entry.address := entry]
      ensures Contents() == old(Contents()).(next := entry.address + 1, table := old(table)[entry.address := entry.Bound()])
    {
      InverseMore(domainToIP, ipToDomain, table, entry, entry.Bound());
      table := table[entry.address := entry.Bound()];
      ipToDomain := ipToDomain[entry.address := entry];
      domainToIP := domainToIP[entry.domain := entry];
      next := U32(next + 1);
    }

    method Take(domain: string, resolved: Option<nat>, now: int) returns (address: nat, entry: Entry)
      requires Valid() && domain !in domainToIP && next <= last
      modifies this
      ensures Valid() && address == old(next)
      ensures fresh(entry) && ipToDomain == old(ipToDomain)[address := entry]
      ensures Contents() == old(Contents()).(next := address + 1, table := old(table)[address := Binding(domain, resolved, now)])
    {
      address := next;
      entry := new Entry(domain, address, resolved, now);
      Link(entry);
    }

    method Assign(domain: string, resolved: Option<nat>, now: int) returns (r: Option<nat>)
      requires Valid()
      modifies this, ipToDomain.Values
      ensures Valid() && fresh(ipToDomain.Values - old(ipToDomain.Values))
      ensures Assigned(old(Contents()), domain, resolved, now, r, Contents())
    {
      Indexed(domain);
      if domain in domainToIP {
        var entry := domainToIP[domain];
        Refresh(entry, resolved, now);
        return Some(entry.address);
      }
      if next > last {
        var entry := OldestReusable(now);
        StaleIn(now, entry);
        if entry == null { return None; }
        Rebind(entry, domain, resolved, now);
        return Some(entry.address);
      }
      var address, entry := Take(domain, resolved, now);
      return Some(address);
    }

    /** What the scan over names found, said of addresses. */
    lemma StaleIn(now: int, oldest: Entry?)
      requires Valid()
      requires oldest == null ==> forall d :: d in domainToIP ==> domainToIP[d].lastUsed > now - REUSE_AFTER
      requires oldest != null ==>
                 && oldest.domain in domainToIP && domainToIP[oldest.domain] == oldest
                 && oldest.lastUsed <= now - REUSE_AFTER
                 && forall d :: d in domainToIP ==> oldest.lastUsed <= domainToIP[d].lastUsed
      ensures var p := Contents();
              if oldest == null then forall a :: a in p.table ==> !Reusable(p.table[a], now)
              else
                && oldest.address in p.table && ipToDomain[oldest.address] == oldest && Reusable(p.table[oldest.address], now)
                && forall a :: a in p.table ==> p.table[oldest.address].lastUsed <= p.table[a].lastUsed
    {
    }

    method LookupDestination(address: nat, now: int) returns (r: Option<Binding>)
      requires Valid()
      modifies this`table, ipToDomain.Values
      ensures Valid() && Found(old(Contents()), address, now, r, Contents())
    {
      if address !in ipToDomain { return None; }
      var entry := ipToDomain[address];
      InverseTouched(domainToIP, ipToDomain, table, address, Binding(entry.domain, entry.resolved, now));
      entry.lastUsed := now;
      table := table[address := entry.Bound()];
      return Some(Binding(entry.domain, entry.resolved, entry.lastUsed));
    }
  }

  /** newFakeIPStore: refused outside /8../30; otherwise an empty pool of all addresses of the
      range but the first two and the last. */
  method NewFakeIPStore(address: nat, bits: nat) returns (store: FakeIPStore?)
    requires address < UINT32_SIZE && bits <= 32
    ensures store == null <==> bits < 8 || bits > 30
    ensures store != null ==>
              && fresh(store) && store.Valid()
              && store.Contents() == Pool(Masked(address, bits) + 2, Masked(address, bits) + 2,
                                          Masked(address, bits) + Pow2(32 - bits) - 2, map[])
  {
    if bits < 8 || bits > 30 { return null; }
    store := new FakeIPStore(address, bits);
  }

  /** Where the TUN sends a connection, and what it shows for it. */
  datatype Target = Literal(address: nat, port: nat) | Name(domain: string, port: nat)

  /** routeDestination: an address the store knows is shown as its name, and dialled as the
      resolved address when there is one. */
  method RouteDestination(store: FakeIPStore, address: nat, port: nat, now: int) returns (dial: Target, display: Target)
    requires store.Valid()
    modifies store`table, store.ipToDomain.Values
    ensures store.Valid()
    ensures var p := old(store.Contents());
            if address in p.table
            then
              && display == Name(p.table[address].domain, port)
              && dial == match p.table[address].resolved { case None => display case Some(r) => Literal(r, port) }
              && store.Contents() == p.(table := p.table[address := p.table[address].(lastUsed := now)])
            else dial == display == Literal(address, port) && store.Contents() == p
  {
    dial, display := Literal(address, port), Literal(address, port);
    var found := store.LookupDestination(address, now);
    if found.Some? {
      display := Name(found.value.domain, port);
      dial := if found.value.resolved.Some? then Literal(found.value.resolved.value, port) else display;
    }
  }

  lemma {:induction false} IntervalSize(s: set<nat>, lo: nat, hi: nat)
    requires lo <= hi && forall a :: a in s <==> lo <= a < hi
    ensures |s| == hi - lo
    decreases hi - lo
  {
    if lo < hi {
      IntervalSize(s - {hi - 1}, lo, hi - 1);
    }
  }

  /** Both maps have exactly one entry per address handed out. */
  lemma Sizes(store: FakeIPStore)
    requires store.Valid()
    ensures |store.ipToDomain| == |store.domainToIP| == store.next - store.first
    ensures PoolOk(store.Contents())
  {
    IntervalSize(store.ipToDomain.Keys, store.first, store.next);
    var home := map d | d in store.domainToIP :: store.domainToIP[d].address;
    InjectiveSize(home);
    assert home.Keys == store.domainToIP.Keys;
    forall a | a in store.ipToDomain
      ensures a in home.Values
    {
      assert home[store.ipToDomain[a].domain] == a;
    }
    assert home.Values == store.ipToDomain.Keys;
  }

  lemma {:induction false} InjectiveSize(m: map<string, nat>)
    requires forall d, e :: d in m && e in m && m[d] == m[e] ==> d == e
    ensures |m.Values| == |m|
    decreases |m|
  {
    if m == map[] {
      assert m.Values == {};
    } else {
      var d :| d in m;
      var rest := m - {d};
      assert rest.Keys == m.Keys - {d};
      assert rest.Values == m.Values - {m[d]} by {
        forall v | v in m.Values && v != m[d]
          ensures v in rest.Values
        {
          var e :| e in m && m[e] == v;
          assert e in rest && rest[e] == v;
        }
      }
      InjectiveSize(rest);
    }
  }
}
