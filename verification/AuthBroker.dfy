/** Authentication challenges and the broker that pairs each pending one with at most one
    response, under handlers, responders and cancellations in any interleaving. */
module AuthBroker {
  import opened Bytes

  const MAX_IMAGE: nat := 4 * 1024 * 1024

  datatype Kind =
    | Password | Sms | SecondarySms | Totp | CasCallback | OAuthCallback | GraphText | GraphClick
    | SelectMethod | UnknownKind(name: string)

  datatype Challenge = Challenge(id: string, kind: Kind, imageSize: nat, allowSkip: bool, choices: seq<string>)

  datatype Response = Response(challengeID: string, value: string, skip: bool, choiceID: string)

  ghost predicate ValidChallenge(c: Challenge)
  {
    && c.id != "" && !c.kind.UnknownKind? && c.imageSize <= MAX_IMAGE
    && "" !in c.choices && (forall i, j :: 0 <= i < j < |c.choices| ==> c.choices[i] != c.choices[j])
    && (c.kind.SelectMethod? ==> c.choices != [])
  }

  /** Skipping needs leave, and even then the usual answer: a choice where a method is to be
      selected, a value otherwise. */
  ghost predicate ValidResponse(r: Response, c: Challenge)
  {
    && ValidChallenge(c) && r.challengeID == c.id && (r.skip ==> c.allowSkip)
    && if c.kind.SelectMethod? then r.choiceID in c.choices else r.value != ""
  }

  /** AuthChallenge.Validate */
  method ValidateChallenge(c: Challenge) returns (ok: bool)
    ensures ok <==> ValidChallenge(c)
  {
    if c.id == "" || c.kind.UnknownKind? || c.imageSize > MAX_IMAGE { return false; }
    var seen: set<string> := {};
    for i := 0 to |c.choices|
      invariant "" !in c.choices[..i] && forall j, k :: 0 <= j < k < i ==> c.choices[j] != c.choices[k]
      invariant forall x :: x in seen <==> x in c.choices[..i]
    {
      if c.choices[i] == "" { return false; }
      if c.choices[i] in seen {
        var j :| 0 <= j < i && c.choices[j] == c.choices[i];
        return false;
      }
      seen := seen + {c.choices[i]};
    }
    assert c.choices[..|c.choices|] == c.choices;
    ok := !(c.kind.SelectMethod? && |c.choices| == 0);
  }

  /** AuthResponse.Validate */
  method ValidateResponse(r: Response, c: Challenge) returns (ok: bool)
    ensures ok <==> ValidResponse(r, c)
  {
    var valid := ValidateChallenge(c);
    if !valid || r.challengeID != c.id || (r.skip && !c.allowSkip) { return false; }
    if c.kind.SelectMethod? {
      if r.choiceID == "" { return false; }
      for i := 0 to |c.choices|
        invariant r.choiceID !in c.choices[..i]
      {
        if c.choices[i] == r.choiceID { return true; }
      }
      assert c.choices[..|c.choices|] == c.choices;
      return false;
    }
    ok := r.value != "";
  }

  // ---------------------------------------------------------------------------------
  // The broker

  /** A pending challenge with its one-slot channel. */
  datatype Pending = Pending(challenge: Challenge, responded: bool, slot: Option<Response>)

  /** insts holds every pending challenge ever registered; items finds those still pending. */
  datatype Broker = Broker(items: map<string, nat>, insts: seq<Pending>)

  function Register(b: Broker, c: Challenge): (r: (Broker, bool))
  {
    if c.id in b.items then (b, false)
    else (Broker(b.items[c.id := |b.insts|], b.insts + [Pending(c, false, None)]), true)
  }

  /** The first critical section of respond: the instance claimed, if any. */
  ghost function Claim(b: Broker, r: Response): (res: (Broker, Option<nat>))
    requires r.challengeID in b.items ==> b.items[r.challengeID] < |b.insts|
  {
    if r.challengeID !in b.items then (b, None)
    else
      var i := b.items[r.challengeID];
      if b.insts[i].responded || !ValidResponse(r, b.insts[i].challenge) then (b, None)
      else (b.(insts := b.insts[i := b.insts[i].(responded := true)]), Some(i))
  }

  function Send(b: Broker, i: nat, r: Response): (c: Broker)
    requires i < |b.insts|
  {
    b.(insts := b.insts[i := b.insts[i].(slot := Some(r))])
  }

  /** A cancelled responder gives its claim back if the challenge is still the pending one. */
  function Unclaim(b: Broker, i: nat): (c: Broker)
    requires i < |b.insts|
  {
    var id := b.insts[i].challenge.id;
    if id in b.items && b.items[id] == i then b.(insts := b.insts[i := b.insts[i].(responded := false)]) else b
  }

  function Receive(b: Broker, i: nat): (c: Broker)
    requires i < |b.insts|
  {
    b.(insts := b.insts[i := b.insts[i].(slot := None)])
  }

  /** Handle's deferred delete. */
  function Remove(b: Broker, i: nat): (c: Broker)
    requires i < |b.insts|
  {
    b.(items := b.items - {b.insts[i].challenge.id})
  }

  /** respond's first critical section as the code runs it. */
  class AuthBroker {
    var items: map<string, nat>
    var insts: seq<Pending>

    constructor ()
      ensures B() == Broker(map[], [])
    {
      items, insts := map[], [];
    }

    ghost function B(): (b: Broker)
      reads this
    {
      Broker(items, insts)
    }

    method HandleLocked(c: Challenge) returns (ok: bool)
      modifies this
      ensures (B(), ok) == Register(old(B()), c)
    {
      if c.id in items { return false; }
      items, insts := items[c.id := |insts|], insts + [Pending(c, false, None)];
      return true;
    }

    method RespondLocked(r: Response) returns (claimed: Option<nat>)
      requires r.challengeID in items ==> items[r.challengeID] < |insts|
      modifies this`insts
      ensures (B(), claimed) == Claim(old(B()), r)
    {
      if r.challengeID !in items { return None; }
      var i := items[r.challengeID];
      if insts[i].responded { return None; }
      var ok := ValidateResponse(r, insts[i].challenge);
      if !ok { return None; }
      insts := insts[i := insts[i].(responded := true)];
      return Some(i);
    }

    method CancelLocked(i: nat)
      requires i < |insts|
      modifies this`insts
      ensures B() == Unclaim(old(B()), i)
    {
      var id := insts[i].challenge.id;
      if id in items && items[id] == i {
        insts := insts[i := insts[i].(responded := false)];
      }
    }
  }

  // ---------------------------------------------------------------------------------
  // Handlers and responders interleaved

  datatype Pc =
    | Idle
    | Announcing(i: nat)
    | Waiting(i: nat)
    | Completing(i: nat, got: Response)
    | Leaving(i: nat, result: Option<Response>)
    | Handled(i: nat, result: Option<Response>)
    | Claimed(i: nat, reply: Response)
    | Aborting(i: nat)
    | Responded(ok: bool)

  /** sends lists the instances a response was put into; handler and claimer name the thread
      running each instance and the responder that claimed it. */
  datatype Sys = Sys(b: Broker, pcs: map<nat, Pc>, sends: seq<nat>, handler: map<nat, nat>, claimer: map<nat, nat>)

  datatype Action =
    | Start(c: Challenge)
    | Announce(ok: bool)
    | Take
    | Cancel
    | Complete(ok: bool)
    | Leave
    | Respond(r: Response)
    | Deliver
    | Abort
    | GiveUp

  const START := Sys(Broker(map[], []), map[], [], map[], map[])

  function At(pcs: map<nat, Pc>, tid: nat): (pc: Pc)
  {
    if tid in pcs then pcs[tid] else Idle
  }

  predicate Handling(pc: Pc)
  {
    pc.Announcing? || pc.Waiting? || pc.Completing? || pc.Leaving?
  }

  predicate Claiming(pc: Pc)
  {
    pc.Claimed? || pc.Aborting?
  }

  /** Instances and threads refer to instances that exist. */
  ghost predicate Grounded(s: Sys)
  {
    && (forall id :: id in s.b.items ==> s.b.items[id] < |s.b.insts|)
    && (forall tid :: tid in s.pcs && (Handling(s.pcs[tid]) || Claiming(s.pcs[tid])) ==> s.pcs[tid].i < |s.b.insts|)
  }

  /** One step of thread tid; sending is possible only into an empty slot. */
  ghost predicate Step(s: Sys, u: Sys, tid: nat, a: Action)
    requires Grounded(s)
  {
    var pc := At(s.pcs, tid);
    match a
    case Start(c) =>
      var (b, ok) := Register(s.b, c);
      && pc.Idle? && ValidChallenge(c) && ok
      && u == s.(b := b, pcs := s.pcs[tid := Announcing(|s.b.insts|)], handler := s.handler[|s.b.insts| := tid])
    case Announce(ok) =>
      pc.Announcing? && u == s.(pcs := s.pcs[tid := if ok then Waiting(pc.i) else Leaving(pc.i, None)])
    case Take =>
      && pc.Waiting? && s.b.insts[pc.i].slot.Some?
      && u == s.(b := Receive(s.b, pc.i), pcs := s.pcs[tid := Completing(pc.i, s.b.insts[pc.i].slot.value)])
    case Cancel => pc.Waiting? && u == s.(pcs := s.pcs[tid := Leaving(pc.i, None)])
    case Complete(ok) =>
      pc.Completing? && u == s.(pcs := s.pcs[tid := Leaving(pc.i, if ok then Some(pc.got) else None)])
    case Leave =>
      && pc.Leaving?
      && u == s.(b := Remove(s.b, pc.i), pcs := s.pcs[tid := Handled(pc.i, pc.result)], handler := s.handler - {pc.i})
    case Respond(r) =>
      var (b, claimed) := Claim(s.b, r);
      && pc.Idle?
      && if claimed.None? then u == s.(pcs := s.pcs[tid := Responded(false)])
         else u == s.(b := b, pcs := s.pcs[tid := Claimed(claimed.value, r)], claimer := s.claimer[claimed.value := tid])
    case Deliver =>
      && pc.Claimed? && s.b.insts[pc.i].slot.None?
      && u == s.(b := Send(s.b, pc.i, pc.reply), pcs := s.pcs[tid := Responded(true)], sends := s.sends + [pc.i],
                 claimer := s.claimer - {pc.i})
    case Abort => pc.Claimed? && u == s.(pcs := s.pcs[tid := Aborting(pc.i)])
    case GiveUp =>
      && pc.Aborting?
      && u == s.(b := Unclaim(s.b, pc.i), pcs := s.pcs[tid := Responded(false)], claimer := s.claimer - {pc.i})
  }

  /** What may be said of instance i. */
  ghost predicate InstOk(s: Sys, i: nat, p: Pending)
  {
    && (i in s.claimer || i in s.sends ==> p.responded)
    && (i in s.claimer ==> i !in s.sends)
    && (p.slot.Some? ==> i in s.sends && ValidResponse(p.slot.value, p.challenge))
    && (i in s.handler ==> p.challenge.id in s.b.items && s.b.items[p.challenge.id] == i)
  }

  ghost predicate PcOk(s: Sys, tid: nat, pc: Pc)
  {
    && (Handling(pc) ==> pc.i < |s.b.insts| && pc.i in s.handler && s.handler[pc.i] == tid)
    && (Claiming(pc) ==> pc.i < |s.b.insts| && pc.i in s.claimer && s.claimer[pc.i] == tid)
    && (pc.Claimed? ==> ValidResponse(pc.reply, s.b.insts[pc.i].challenge))
    && (pc.Completing? ==> ValidResponse(pc.got, s.b.insts[pc.i].challenge))
    && ((pc.Leaving? || pc.Handled?) && pc.result.Some? ==>
          pc.i < |s.b.insts| && ValidResponse(pc.result.value, s.b.insts[pc.i].challenge))
  }

  ghost predicate Inv(s: Sys)
  {
    && (forall id :: id in s.b.items ==>
          s.b.items[id] < |s.b.insts| && s.b.insts[s.b.items[id]].challenge.id == id && s.b.items[id] in s.handler)
    && (forall i :: 0 <= i < |s.b.insts| ==> InstOk(s, i, s.b.insts[i]))
    && (forall tid :: tid in s.pcs ==> PcOk(s, tid, s.pcs[tid]))
    && (forall i :: i in s.handler || i in s.claimer || i in s.sends ==> i < |s.b.insts|)
    && Distinct(s.sends)
  }

  /** Only thread tid moved, holding what it held. */
  lemma MoveKeeps(s: Sys, tid: nat, pc: Pc)
    requires Inv(s) && Grounded(s) && PcOk(s, tid, pc)
    ensures Inv(s.(pcs := s.pcs[tid := pc]))
  {
  }

  lemma StartKeeps(s: Sys, u: Sys, tid: nat, c: Challenge)
    requires Inv(s) && Grounded(s) && Step(s, u, tid, Start(c))
    ensures Inv(u)
  {
    var i := |s.b.insts|;
    assert i !in s.handler && i !in s.claimer && i !in s.sends;
    assert InstOk(u, i, u.b.insts[i]);
  }

  lemma TakeKeeps(s: Sys, u: Sys, tid: nat)
    requires Inv(s) && Grounded(s) && Step(s, u, tid, Take)
    ensures Inv(u)
  {
  }

  lemma LeaveKeeps(s: Sys, u: Sys, tid: nat)
    requires Inv(s) && Grounded(s) && Step(s, u, tid, Leave)
    ensures Inv(u)
  {
  }

  lemma ClaimKeeps(s: Sys, tid: nat, i: nat, r: Response)
    requires Inv(s) && Grounded(s) && At(s.pcs, tid).Idle?
    requires i < |s.b.insts| && !s.b.insts[i].responded && ValidResponse(r, s.b.insts[i].challenge)
    ensures Inv(s.(b := s.b.(insts := s.b.insts[i := s.b.insts[i].(responded := true)]),
                   pcs := s.pcs[tid := Claimed(i, r)], claimer := s.claimer[i := tid]))
  {
    assert i !in s.claimer && i !in s.sends;
  }

  lemma RespondKeeps(s: Sys, u: Sys, tid: nat, r: Response)
    requires Inv(s) && Grounded(s) && Step(s, u, tid, Respond(r))
    ensures Inv(u)
  {
    var claimed := Claim(s.b, r).1;
    if claimed.None? {
      MoveKeeps(s, tid, Responded(false));
    } else {
      ClaimKeeps(s, tid, claimed.value, r);
    }
  }

  lemma DeliverKeeps(s: Sys, u: Sys, tid: nat)
    requires Inv(s) && Grounded(s) && Step(s, u, tid, Deliver)
    ensures Inv(u)
  {
    var i := s.pcs[tid].i;
    assert PcOk(s, tid, s.pcs[tid]) && InstOk(s, i, s.b.insts[i]);
    assert Distinct(s.sends + [i]);
  }

  lemma GiveUpKeeps(s: Sys, u: Sys, tid: nat)
    requires Inv(s) && Grounded(s) && Step(s, u, tid, GiveUp)
    ensures Inv(u)
  {
  }

  lemma StepKeeps(s: Sys, u: Sys, tid: nat, a: Action)
    requires Inv(s) && Grounded(s) && Step(s, u, tid, a)
    ensures Inv(u)
  {
    match a
    case Start(c) => StartKeeps(s, u, tid, c);
    case Take => TakeKeeps(s, u, tid);
    case Leave => LeaveKeeps(s, u, tid);
    case Respond(r) => RespondKeeps(s, u, tid, r);
    case Deliver => DeliverKeeps(s, u, tid);
    case GiveUp => GiveUpKeeps(s, u, tid);
    case _ => MoveKeeps(s, tid, At(u.pcs, tid));
  }

  // ---------------------------------------------------------------------------------
  // Whole runs

  ghost predicate Run(states: seq<Sys>, steps: seq<(nat, Action)>)
  {
    && |states| == |steps| + 1 && states[0] == START
    && forall i :: 0 <= i < |steps| ==>
         Grounded(states[i]) && Step(states[i], states[i + 1], steps[i].0, steps[i].1)
  }

  lemma {:induction false} RunInv(states: seq<Sys>, steps: seq<(nat, Action)>, n: nat)
    requires Run(states, steps) && n < |states|
    ensures Inv(states[n])
  {
    if n > 0 {
      RunInv(states, steps, n - 1);
      StepKeeps(states[n - 1], states[n], steps[n - 1].0, steps[n - 1].1);
    }
  }

  /** In every reachable state: no instance was sent two responses; a responder that holds a
      claim finds the slot empty, so it never blocks; and what a handler returned validates
      against its own challenge. */
  lemma RunSafe(states: seq<Sys>, steps: seq<(nat, Action)>, n: nat, tid: nat)
    requires Run(states, steps) && n < |states|
    ensures Distinct(states[n].sends)
    ensures var s, pc := states[n], At(states[n].pcs, tid);
            && (pc.Claimed? ==> pc.i < |s.b.insts| && s.b.insts[pc.i].slot.None? && pc.i !in s.sends)
            && (pc.Handled? && pc.result.Some? ==>
                  pc.i < |s.b.insts| && ValidResponse(pc.result.value, s.b.insts[pc.i].challenge))
  {
    RunInv(states, steps, n);
    PcSafe(states[n], tid);
  }

  lemma PcSafe(s: Sys, tid: nat)
    requires Inv(s)
    ensures var pc := At(s.pcs, tid);
            && (pc.Claimed? ==> pc.i < |s.b.insts| && s.b.insts[pc.i].slot.None? && pc.i !in s.sends)
            && (pc.Handled? && pc.result.Some? ==>
                  pc.i < |s.b.insts| && ValidResponse(pc.result.value, s.b.insts[pc.i].challenge))
  {
    if tid in s.pcs {
      assert PcOk(s, tid, s.pcs[tid]);
      var pc := s.pcs[tid];
      if pc.Claimed? {
        assert InstOk(s, pc.i, s.b.insts[pc.i]);
      }
    }
  }

  /** Two responders of one instance never both succeed: a success is a send, and sends are
      distinct, so the second success would be for another instance. */
  lemma {:induction false} RunOneSuccess(states: seq<Sys>, steps: seq<(nat, Action)>, m: nat, n: nat)
    requires Run(states, steps) && m < n < |steps|
    requires steps[m].1.Deliver? && steps[n].1.Deliver?
    ensures At(states[m].pcs, steps[m].0).Claimed? && At(states[n].pcs, steps[n].0).Claimed?
    ensures At(states[m].pcs, steps[m].0).i != At(states[n].pcs, steps[n].0).i
  {
    assert Step(states[m], states[m + 1], steps[m].0, steps[m].1);
    var i := At(states[m].pcs, steps[m].0).i;
    assert i in states[m + 1].sends by { assert states[m + 1].sends[|states[m].sends|] == i; }
    SendsGrow(states, steps, m + 1, n, i);
    assert Step(states[n], states[n + 1], steps[n].0, steps[n].1);
    RunSafe(states, steps, n, steps[n].0);
  }

  lemma {:induction false} SendsGrow(states: seq<Sys>, steps: seq<(nat, Action)>, m: nat, n: nat, i: nat)
    requires Run(states, steps) && m <= n < |states| && i in states[m].sends
    ensures i in states[n].sends
    decreases n - m
  {
    if m < n {
      assert Step(states[m], states[m + 1], steps[m].0, steps[m].1);
      SendsGrow(states, steps, m + 1, n, i);
    }
  }
}
