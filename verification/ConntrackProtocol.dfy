/** Writers, waiters, timeouts and the reply reader interleaved over one conntrack table.
    Removing an entry from byID and closing its channel are two steps, because the code
    unlocks in between. */
module ConntrackProtocol {
  import opened Bytes
  import opened Conntrack

  // ---------------------------------------------------------------------------------
  // Replies

  /** The decoded reply body; undecodable bodies are None. */
  datatype Response = Response(code: int, conntrackHash: nat, connectToken: string, token: string)

  datatype Verdict = Verdict(authID: nat, token: string, err: Option<Failure>)

  predicate IsSpace(c: char)
  {
    c == ' ' || ('\t' <= c <= '\r') || c == '\U{0085}' || c == '\U{00A0}' || c == '\U{1680}'
    || ('\U{2000}' <= c <= '\U{200a}') || c == '\U{2028}' || c == '\U{2029}' || c == '\U{202f}'
    || c == '\U{205f}' || c == '\U{3000}'
  }

  function TrimSpace(s: string): (r: string)
    ensures r != "" ==> !IsSpace(r[0]) && !IsSpace(r[|r| - 1])
    ensures r == "" <==> forall i :: 0 <= i < |s| ==> IsSpace(s[i])
    decreases |s|
  {
    if s == "" then ""
    else if IsSpace(s[0]) then
      assert forall i :: 0 < i < |s| ==> s[i] == s[1..][i - 1];
      TrimSpace(s[1..])
    else if IsSpace(s[|s| - 1]) then TrimSpace(s[..|s| - 1])
    else s
  }

  /** handleAuthResp with markAuthErrorFromPayload: what is passed to markAuth, if it is called. */
  function HandleAuthResp(status: Byte, body: Option<Response>): (v: Option<Verdict>)
    ensures v.Some? <==> body.Some? && body.value.conntrackHash != 0
    ensures v.Some? ==> (v.value.err.None? <==>
              status == 0 && body.value.code == 0
              && (exists i :: 0 <= i < |body.value.connectToken + body.value.token|
                    && !IsSpace((body.value.connectToken + body.value.token)[i])))
    ensures v.Some? && v.value.err.None? ==> v.value.token != ""
  {
    if body.None? || body.value.conntrackHash == 0 then None
    else if status != 0 then Some(Verdict(body.value.conntrackHash, "", Some(AuthStatus)))
    else
      var resp := body.value;
      var first := TrimSpace(resp.connectToken);
      var token := if first == "" then TrimSpace(resp.token) else first;
      assert token != "" <==> exists i :: 0 <= i < |resp.connectToken + resp.token| && !IsSpace((resp.connectToken + resp.token)[i]) by {
        NonSpaceIn(resp.connectToken, resp.token);
      }
      Some(Verdict(resp.conntrackHash, token,
                   if resp.code != 0 then Some(AuthRejected)
                   else if token == "" then Some(MissingToken)
                   else None))
  }

  lemma NonSpaceIn(a: string, b: string)
    ensures (TrimSpace(a) != "" || TrimSpace(b) != "")
            <==> exists i :: 0 <= i < |a + b| && !IsSpace((a + b)[i])
  {
    if TrimSpace(a) != "" {
      var i :| 0 <= i < |a| && !IsSpace(a[i]);
      assert (a + b)[i] == a[i];
    }
    if TrimSpace(b) != "" {
      var i :| 0 <= i < |b| && !IsSpace(b[i]);
      assert (a + b)[|a| + i] == b[i];
    }
  }

  // ---------------------------------------------------------------------------------
  // Threads and steps

  datatype Outcome = Sent(token: string) | Refused(err: Failure) | NoToken | TokenTooLong

  /** Where a thread stands in WritePacket, ensureAuth or the reply reader. */
  datatype Pc =
    | Idle
    | Looking(ref: nat)
    | Claiming(ref: nat)
    | Sending(ref: nat)
    | SendFailed(ref: nat)
    | Waiting(ref: nat)
    | Expiring(ref: nat)
    | Awaiting(ref: nat)
    | Closing(ref: nat, next: Pc)
    | Checking(ref: nat)
    | Done(outcome: Outcome)

  /** closes and sends record every close(authCh) and every authorisation request attempted;
      closer and claimer name the thread that took on each. */
  datatype Sys = Sys(
    t: Table,
    pcs: map<nat, Pc>,
    closes: seq<nat>,
    sends: seq<nat>,
    closer: map<nat, nat>,
    claimer: map<nat, nat>)

  datatype Action =
    | Get(key: string, appID: string, now: int, mid: Table, limit: int, idleAfter: nat)
    | Look
    | Claim
    | Send(ok: bool)
    | MarkFailed
    | Wake
    | Fire
    | Expire
    | Close
    | Check
    | Reply(status: Byte, body: Option<Response>)

  const START := Sys(EMPTY, map[], [], [], map[], map[])

  function At(pcs: map<nat, Pc>, tid: nat): (pc: Pc)
  {
    if tid in pcs then pcs[tid] else Idle
  }

  predicate HasRef(pc: Pc)
  {
    !pc.Idle? && !pc.Done?
  }

  /** How ensureAuth continues once the channel of its entry is closed. */
  function Settled(t: Table, ref: nat): (pc: Pc)
    requires ref < |t.objs|
  {
    match t.objs[ref].err
    case None => Checking(ref)
    case Some(e) => Done(Refused(e))
  }

  /** What WritePacket makes of the token. */
  function Judge(token: string): (o: Outcome)
  {
    if token == "" then NoToken else if |token| > 0xFF then TokenTooLong else Sent(token)
  }

  function Start(t: Table, ref: nat): (u: Table)
    requires ref < |t.objs|
  {
    t.(objs := t.objs[ref := t.objs[ref].(started := true)])
  }

  /** Every index and every thread refers to an entry that exists. */
  ghost predicate Grounded(s: Sys)
  {
    && (forall k :: k in s.t.byKey ==> s.t.byKey[k] < |s.t.objs|)
    && (forall id :: id in s.t.byID ==> s.t.byID[id] < |s.t.objs|)
    && (forall tid :: tid in s.pcs && HasRef(s.pcs[tid]) ==> s.pcs[tid].ref < |s.t.objs|)
  }

  /** markAuth's critical section run by `tid`, which continues as `next`. */
  ghost predicate Marks(s: Sys, u: Sys, tid: nat, authID: nat, token: string, err: Option<Failure>, next: Pc)
    requires Grounded(s)
  {
    var (t, ref) := MarkLocked(s.t, authID, token, err);
    match ref
    case None => u == s.(pcs := s.pcs[tid := next])
    case Some(r) => u == s.(t := t, pcs := s.pcs[tid := Closing(r, next)], closer := s.closer[r := tid])
  }

  /** One step of thread `tid`. */
  ghost predicate Step(s: Sys, u: Sys, tid: nat, a: Action)
    requires Grounded(s)
  {
    var pc := At(s.pcs, tid);
    match a
    case Get(key, appID, now, mid, limit, idleAfter) =>
      && pc.Idle? && |s.t.objs| + 1 < UINT64_SIZE
      && if key in s.t.byKey
         then u == s.(t := Touch(s.t, s.t.byKey[key], now), pcs := s.pcs[tid := Looking(s.t.byKey[key])])
         else Created(s.t, mid, u.t, key, appID, now, limit, idleAfter)
              && u == s.(t := u.t, pcs := s.pcs[tid := Looking(|s.t.objs|)])
    case Look =>
      pc.Looking? && u == s.(pcs := s.pcs[tid := if s.t.objs[pc.ref].closed then Settled(s.t, pc.ref) else Claiming(pc.ref)])
    case Claim =>
      pc.Claiming?
      && if s.t.objs[pc.ref].started
         then u == s.(pcs := s.pcs[tid := Waiting(pc.ref)])
         else u == s.(t := Start(s.t, pc.ref), pcs := s.pcs[tid := Sending(pc.ref)], claimer := s.claimer[pc.ref := tid])
    case Send(ok) =>
      pc.Sending?
      && u == s.(sends := s.sends + [pc.ref], pcs := s.pcs[tid := if ok then Waiting(pc.ref) else SendFailed(pc.ref)])
    case MarkFailed =>
      pc.SendFailed? && Marks(s, u, tid, s.t.objs[pc.ref].authID, "", Some(SendError), Done(Refused(SendError)))
    case Wake =>
      (pc.Waiting? || pc.Awaiting?) && s.t.objs[pc.ref].closed && u == s.(pcs := s.pcs[tid := Settled(s.t, pc.ref)])
    case Fire =>
      pc.Waiting? && u == s.(pcs := s.pcs[tid := Expiring(pc.ref)])
    case Expire =>
      pc.Expiring?
      && var (t, won) := TimeoutLocked(s.t, pc.ref, AuthTimeout);
         if won
         then u == s.(t := t, pcs := s.pcs[tid := Closing(pc.ref, Done(Refused(AuthTimeout)))],
                      closer := s.closer[pc.ref := tid])
         else u == s.(pcs := s.pcs[tid := Awaiting(pc.ref)])
    case Close =>
      pc.Closing?
      && u == s.(t := CloseRef(s.t, pc.ref), pcs := s.pcs[tid := pc.next], closes := s.closes + [pc.ref],
                 closer := s.closer - {pc.ref})
    case Check =>
      pc.Checking? && u == s.(pcs := s.pcs[tid := Done(Judge(s.t.objs[pc.ref].token))])
    case Reply(status, body) =>
      pc.Idle?
      && var v := HandleAuthResp(status, body);
         match v
         case None => u == s
         case Some(d) => Marks(s, u, tid, d.authID, d.token, d.err, Idle)
  }

  // ---------------------------------------------------------------------------------
  // The invariant

  /** What the protocol needs to know of one entry. */
  datatype Face = Face(pending: bool, closed: bool, failed: bool, hasToken: bool, started: bool)

  function FaceOf(t: Table, r: nat): (f: Face)
    requires r < |t.objs|
  {
    Face(Pending(t, r), t.objs[r].closed, t.objs[r].err.Some?, t.objs[r].token != "", t.objs[r].started)
  }

  function Faces(t: Table): (fs: seq<Face>)
    ensures |fs| == |t.objs| && forall r :: 0 <= r < |fs| ==> fs[r] == FaceOf(t, r)
  {
    seq(|t.objs|, r requires 0 <= r < |t.objs| => FaceOf(t, r))
  }

  /** The system with its table reduced to faces. */
  datatype View = View(
    fs: seq<Face>,
    pcs: map<nat, Pc>,
    closes: seq<nat>,
    sends: seq<nat>,
    closer: map<nat, nat>,
    claimer: map<nat, nat>)

  function ViewOf(s: Sys): (v: View)
  {
    View(Faces(s.t), s.pcs, s.closes, s.sends, s.closer, s.claimer)
  }

  predicate Returns(pc: Pc)
  {
    pc.Idle? || (pc.Done? && pc.outcome.Refused?)
  }

  /** A thread's position is justified by the state. */
  ghost predicate PcOk(v: View, tid: nat, pc: Pc)
  {
    && (HasRef(pc) ==> pc.ref < |v.fs|)
    && (pc.Sending? ==> pc.ref in v.claimer && v.claimer[pc.ref] == tid && pc.ref !in v.sends)
    && (pc.Awaiting? ==> !v.fs[pc.ref].pending)
    && (pc.Closing? ==> pc.ref in v.closer && v.closer[pc.ref] == tid && Returns(pc.next))
    && (pc.Checking? ==> v.fs[pc.ref].closed && !v.fs[pc.ref].failed)
    && (pc.Done? ==> pc.outcome != NoToken && (pc.outcome.Sent? ==> pc.outcome.token != ""))
  }

  ghost predicate PcsOk(v: View)
  {
    forall tid :: tid in v.pcs ==> PcOk(v, tid, v.pcs[tid])
  }

  /** Exactly the settled entries whose channel is still open have a committed closer. */
  ghost predicate ClosersOk(v: View)
  {
    && (forall r :: 0 <= r < |v.fs| && !v.fs[r].pending && !v.fs[r].closed ==> r in v.closer)
    && (forall r :: r in v.closer ==>
          && r < |v.fs| && !v.fs[r].pending && !v.fs[r].closed
          && v.closer[r] in v.pcs && v.pcs[v.closer[r]].Closing? && v.pcs[v.closer[r]].ref == r)
  }

  /** One close per closed channel. */
  ghost predicate ClosesOk(v: View)
  {
    Distinct(v.closes) && forall r :: r in v.closes <==> 0 <= r < |v.fs| && v.fs[r].closed
  }

  /** One request per claimed entry. */
  ghost predicate SendsOk(v: View)
  {
    && Distinct(v.sends) && (forall r :: r in v.sends ==> r in v.claimer)
    && (forall r :: r in v.claimer <==> 0 <= r < |v.fs| && v.fs[r].started)
  }

  /** Closed entries are settled, pending ones carry no result, and an entry settled without
      an error has a token. */
  ghost predicate FacesOk(v: View)
  {
    forall r :: 0 <= r < |v.fs| ==>
      && (v.fs[r].closed ==> !v.fs[r].pending)
      && (!v.fs[r].pending && !v.fs[r].failed ==> v.fs[r].hasToken)
  }

  ghost predicate Sound(v: View)
  {
    PcsOk(v) && ClosersOk(v) && ClosesOk(v) && SendsOk(v) && FacesOk(v)
  }

  ghost predicate Inv(s: Sys)
    ensures Inv(s) ==> Grounded(s)
  {
    && Coherent(s.t) && Sound(ViewOf(s))
    && assert (forall tid :: tid in s.pcs && HasRef(s.pcs[tid]) ==> s.pcs[tid].ref < |s.t.objs|) by { RefsExist(s); } true
  }

  lemma RefsExist(s: Sys)
    requires Sound(ViewOf(s))
    ensures forall tid :: tid in s.pcs && HasRef(s.pcs[tid]) ==> s.pcs[tid].ref < |s.t.objs|
  {
    forall tid | tid in s.pcs && HasRef(s.pcs[tid])
      ensures s.pcs[tid].ref < |s.t.objs|
    {
      assert PcOk(ViewOf(s), tid, ViewOf(s).pcs[tid]);
    }
  }

  // ---------------------------------------------------------------------------------
  // The moves on views

  /** Only thread `tid` moved. */
  lemma MoveSound(v: View, tid: nat, pc: Pc)
    requires Sound(v) && !At(v.pcs, tid).Closing? && !pc.Closing? && PcOk(v, tid, pc)
    ensures Sound(v.(pcs := v.pcs[tid := pc]))
  {
  }

  /** A pending entry was settled by `tid`, which now owes the close. */
  lemma SettleSound(v: View, tid: nat, r: nat, f: Face, next: Pc)
    requires Sound(v) && !At(v.pcs, tid).Closing? && Returns(next)
    requires r < |v.fs| && v.fs[r].pending && f.started == v.fs[r].started
    requires !f.pending && !f.closed && (f.failed || f.hasToken)
    ensures Sound(v.(fs := v.fs[r := f], pcs := v.pcs[tid := Closing(r, next)], closer := v.closer[r := tid]))
  {
    assert r !in v.closer;
  }

  lemma CloseSound(v: View, tid: nat, next: Pc)
    requires Sound(v) && At(v.pcs, tid).Closing? && next == At(v.pcs, tid).next
    ensures var r := At(v.pcs, tid).ref;
            && r < |v.fs| && !v.fs[r].pending && r !in v.closes
            && Sound(v.(fs := v.fs[r := v.fs[r].(closed := true)], pcs := v.pcs[tid := next],
                        closes := v.closes + [r], closer := v.closer - {r}))
  {
  }

  lemma StartSound(v: View, tid: nat, r: nat)
    requires Sound(v) && At(v.pcs, tid) == Claiming(r) && r < |v.fs| && !v.fs[r].started
    ensures Sound(v.(fs := v.fs[r := v.fs[r].(started := true)], pcs := v.pcs[tid := Sending(r)],
                     claimer := v.claimer[r := tid]))
  {
    assert r !in v.claimer && r !in v.sends;
  }

  lemma SendSound(v: View, tid: nat, r: nat, pc: Pc)
    requires Sound(v) && At(v.pcs, tid) == Sending(r) && (pc == Waiting(r) || pc == SendFailed(r))
    ensures Sound(v.(sends := v.sends + [r], pcs := v.pcs[tid := pc]))
  {
  }

  lemma AddSound(v: View, tid: nat)
    requires Sound(v) && At(v.pcs, tid).Idle?
    ensures Sound(v.(fs := v.fs + [Face(true, false, false, false, false)], pcs := v.pcs[tid := Looking(|v.fs|)]))
  {
  }

  // ---------------------------------------------------------------------------------
  // Every step keeps the invariant

  lemma MarkFace(t: Table, authID: nat, token: string, err: Option<Failure>)
    requires Coherent(t) && authID in t.byID
    ensures var (u, ref) := MarkLocked(t, authID, token, err);
            && Coherent(u) && ref.Some? && ref.value < |t.objs|
            && Faces(t)[ref.value].pending
            && Faces(u) == Faces(t)[ref.value := Face(false, false, err.Some?, token != "", t.objs[ref.value].started)]
  {
    MarkKeeps(t, authID, token, err);
  }

  lemma TimeoutFace(t: Table, ref: nat)
    requires Coherent(t) && Pending(t, ref)
    ensures var u := TimeoutLocked(t, ref, AuthTimeout).0;
            Coherent(u) && Faces(u) == Faces(t)[ref := Face(false, false, true, false, t.objs[ref].started)]
  {
    TimeoutKeeps(t, ref, AuthTimeout);
  }

  lemma CloseFace(t: Table, ref: nat)
    requires Coherent(t) && ref < |t.objs| && !Pending(t, ref)
    ensures Coherent(CloseRef(t, ref)) && Faces(CloseRef(t, ref)) == Faces(t)[ref := Faces(t)[ref].(closed := true)]
  {
    CloseKeeps(t, ref);
  }

  lemma MarksKeeps(s: Sys, u: Sys, tid: nat, authID: nat, token: string, err: Option<Failure>, next: Pc)
    requires Inv(s) && (At(s.pcs, tid).Idle? || At(s.pcs, tid).SendFailed?) && Returns(next)
    requires err.None? ==> token != ""
    requires Marks(s, u, tid, authID, token, err, next)
    ensures Inv(u)
  {
    var v := ViewOf(s);
    if authID !in s.t.byID {
      MoveSound(v, tid, next);
    } else {
      var r := s.t.byID[authID];
      MarkFace(s.t, authID, token, err);
      SettleSound(v, tid, r, Face(false, false, err.Some?, token != "", v.fs[r].started), next);
    }
  }

  lemma ExpireKeeps(s: Sys, u: Sys, tid: nat)
    requires Inv(s) && Step(s, u, tid, Expire)
    ensures Inv(u)
  {
    var r := At(s.pcs, tid).ref;
    var v := ViewOf(s);
    if Pending(s.t, r) {
      TimeoutFace(s.t, r);
      SettleSound(v, tid, r, Face(false, false, true, false, v.fs[r].started), Done(Refused(AuthTimeout)));
    } else {
      MoveSound(v, tid, Awaiting(r));
    }
  }

  lemma CloseStepKeeps(s: Sys, u: Sys, tid: nat)
    requires Inv(s) && Step(s, u, tid, Close)
    ensures Inv(u)
  {
    var pc := At(s.pcs, tid);
    CloseSound(ViewOf(s), tid, pc.next);
    CloseFace(s.t, pc.ref);
  }

  lemma GetKeeps(s: Sys, u: Sys, tid: nat, a: Action)
    requires Inv(s) && a.Get? && Step(s, u, tid, a)
    ensures Inv(u)
  {
    if a.key in s.t.byKey {
      FindKeeps(s, u, tid, a);
    } else {
      NewFace(s.t, a.mid, u.t, a.key, a.appID, a.now, a.limit, a.idleAfter);
      AddSound(ViewOf(s), tid);
    }
  }

  lemma FindKeeps(s: Sys, u: Sys, tid: nat, a: Action)
    requires Inv(s) && a.Get? && Step(s, u, tid, a) && a.key in s.t.byKey
    ensures Inv(u)
  {
    TouchKeeps(s.t, s.t.byKey[a.key], a.now);
    MoveSound(ViewOf(s), tid, Looking(s.t.byKey[a.key]));
    assert Faces(u.t) == Faces(s.t);
  }

  /** A creation adds one pending entry and changes no other, whatever it evicts. */
  lemma NewFace(t: Table, mid: Table, u: Table, key: string, appID: string, now: int, limit: int, idleAfter: nat)
    requires Coherent(t) && key !in t.byKey && |t.objs| + 1 < UINT64_SIZE
    requires Created(t, mid, u, key, appID, now, limit, idleAfter)
    ensures Coherent(u) && Faces(u) == Faces(t) + [Face(true, false, false, false, false)]
  {
    if |t.byKey| >= limit {
      CleanKeeps(t, mid, now, limit, idleAfter);
    }
    assert Coherent(mid) && Faces(mid) == Faces(t);
    InsertKeeps(mid, key, appID, now);
    assert Faces(u) == Faces(mid) + [Face(true, false, false, false, false)];
  }

  lemma StartKeeps(t: Table, ref: nat)
    requires Coherent(t) && ref < |t.objs|
    ensures Coherent(Start(t, ref)) && Faces(Start(t, ref)) == Faces(t)[ref := Faces(t)[ref].(started := true)]
  {
  }

  lemma StepKeeps(s: Sys, u: Sys, tid: nat, a: Action)
    requires Inv(s) && Step(s, u, tid, a)
    ensures Inv(u)
  {
    var pc := At(s.pcs, tid);
    match a
    case Get(_, _, _, _, _, _) => GetKeeps(s, u, tid, a);
    case Claim =>
      if s.t.objs[pc.ref].started {
        MoveSound(ViewOf(s), tid, Waiting(pc.ref));
      } else {
        StartKeeps(s.t, pc.ref);
        StartSound(ViewOf(s), tid, pc.ref);
      }
    case Send(ok) => SendSound(ViewOf(s), tid, pc.ref, if ok then Waiting(pc.ref) else SendFailed(pc.ref));
    case MarkFailed =>
      MarksKeeps(s, u, tid, s.t.objs[pc.ref].authID, "", Some(SendError), Done(Refused(SendError)));
    case Expire => ExpireKeeps(s, u, tid);
    case Close => CloseStepKeeps(s, u, tid);
    case Reply(status, body) =>
      var v := HandleAuthResp(status, body);
      if v.Some? {
        MarksKeeps(s, u, tid, v.value.authID, v.value.token, v.value.err, Idle);
      }
    case _ => MoveSound(ViewOf(s), tid, At(u.pcs, tid));
  }

  // ---------------------------------------------------------------------------------
  // Whole runs

  /** A run: one more state than steps, each step taken by some thread. */
  ghost predicate Run(states: seq<Sys>, steps: seq<(nat, Action)>)
  {
    && |states| == |steps| + 1 && states[0] == START
    && forall i :: 0 <= i < |steps| ==>
         Grounded(states[i]) && Step(states[i], states[i + 1], steps[i].0, steps[i].1)
  }

  lemma {:induction false} RunInv(states: seq<Sys>, steps: seq<(nat, Action)>, i: nat)
    requires Run(states, steps) && i < |states|
    ensures Inv(states[i])
  {
    if i > 0 {
      RunInv(states, steps, i - 1);
      StepKeeps(states[i - 1], states[i], steps[i - 1].0, steps[i - 1].1);
    }
  }

  /** In every reachable state: no channel was closed twice and exactly the closed ones were
      closed; no entry had more than one request sent; no writer found its token missing, and
      every packet sent carries a nonempty token. */
  lemma RunSafe(states: seq<Sys>, steps: seq<(nat, Action)>, i: nat)
    requires Run(states, steps) && i < |states|
    ensures Distinct(states[i].closes)
    ensures forall r :: r in states[i].closes <==> 0 <= r < |states[i].t.objs| && states[i].t.objs[r].closed
    ensures Distinct(states[i].sends)
    ensures forall tid :: tid in states[i].pcs && states[i].pcs[tid].Done? ==>
              states[i].pcs[tid].outcome != NoToken && states[i].pcs[tid].outcome != Sent("")
  {
    RunInv(states, steps, i);
    var v := ViewOf(states[i]);
    forall tid | tid in v.pcs && v.pcs[tid].Done?
      ensures v.pcs[tid].outcome != NoToken && v.pcs[tid].outcome != Sent("")
    {
      assert PcOk(v, tid, v.pcs[tid]);
    }
  }

  /** Thread c, and no other, is about to close the channel of entry r. */
  ghost predicate ClosesNext(s: Sys, c: nat, r: nat)
  {
    && At(s.pcs, c).Closing? && At(s.pcs, c).ref == r
    && forall d :: d in s.pcs && s.pcs[d].Closing? && s.pcs[d].ref == r ==> d == c
  }

  lemma AwaitedCloses(s: Sys, tid: nat)
    requires Inv(s) && At(s.pcs, tid).Awaiting?
    ensures var r := At(s.pcs, tid).ref;
            r < |s.t.objs| && (s.t.objs[r].closed || exists c :: ClosesNext(s, c, r))
  {
    var v := ViewOf(s);
    var r := At(v.pcs, tid).ref;
    assert PcOk(v, tid, v.pcs[tid]);
    if !v.fs[r].closed {
      var c := v.closer[r];
      forall d | d in s.pcs && s.pcs[d].Closing? && s.pcs[d].ref == r
        ensures d == c
      {
        assert PcOk(v, d, v.pcs[d]);
      }
      assert ClosesNext(s, c, r);
    }
  }

  /** A waiter that lost the timeout race is never stranded: its channel is closed, or exactly
      one thread stands right before closing it. */
  lemma RunCloser(states: seq<Sys>, steps: seq<(nat, Action)>, i: nat, tid: nat)
    requires Run(states, steps) && i < |states| && At(states[i].pcs, tid).Awaiting?
    ensures var s, r := states[i], At(states[i].pcs, tid).ref;
            r < |s.t.objs| && (s.t.objs[r].closed || exists c :: ClosesNext(s, c, r))
  {
    RunInv(states, steps, i);
    AwaitedCloses(states[i], tid);
  }

  /** If entry r was settled in t, its token and error are still the same in u, and a closed
      channel stayed closed. */
  ghost predicate Frozen(t: Table, u: Table, r: nat)
  {
    r < |t.objs| && !Pending(t, r) ==>
      && r < |u.objs| && !Pending(u, r)
      && u.objs[r].token == t.objs[r].token && u.objs[r].err == t.objs[r].err
      && (t.objs[r].closed ==> u.objs[r].closed)
  }

  lemma MarkFreezes(t: Table, authID: nat, token: string, err: Option<Failure>, r: nat)
    requires Coherent(t)
    ensures Frozen(t, MarkLocked(t, authID, token, err).0, r)
  {
    MarkKeeps(t, authID, token, err);
  }

  lemma CreateFreezes(t: Table, mid: Table, u: Table, key: string, appID: string, now: int, limit: int, idleAfter: nat, r: nat)
    requires Coherent(t) && key !in t.byKey && |t.objs| + 1 < UINT64_SIZE
    requires Created(t, mid, u, key, appID, now, limit, idleAfter)
    ensures Frozen(t, u, r)
  {
    if |t.byKey| >= limit {
      CleanKeeps(t, mid, now, limit, idleAfter);
    }
    InsertKeeps(mid, key, appID, now);
  }

  lemma StepFreezes(s: Sys, u: Sys, tid: nat, a: Action, r: nat)
    requires Inv(s) && Step(s, u, tid, a)
    ensures Frozen(s.t, u.t, r)
  {
    match a
    case Get(key, appID, now, mid, limit, idleAfter) =>
      if key !in s.t.byKey {
        CreateFreezes(s.t, mid, u.t, key, appID, now, limit, idleAfter, r);
      }
    case MarkFailed => MarkFreezes(s.t, s.t.objs[At(s.pcs, tid).ref].authID, "", Some(SendError), r);
    case Expire => TimeoutKeeps(s.t, At(s.pcs, tid).ref, AuthTimeout);
    case Reply(status, body) =>
      var v := HandleAuthResp(status, body);
      if v.Some? {
        MarkFreezes(s.t, v.value.authID, v.value.token, v.value.err, r);
      }
    case _ =>
  }

  lemma RunStepFreezes(states: seq<Sys>, steps: seq<(nat, Action)>, i: nat, r: nat)
    requires Run(states, steps) && i < |steps|
    ensures Frozen(states[i].t, states[i + 1].t, r)
  {
    RunInv(states, steps, i);
    StepFreezes(states[i], states[i + 1], steps[i].0, steps[i].1, r);
  }

  lemma FrozenTrans(t: Table, u: Table, w: Table, r: nat)
    requires Frozen(t, u, r) && Frozen(u, w, r)
    ensures Frozen(t, w, r)
  {
  }

  /** Once an entry is settled its token and error never change, and a closed channel stays closed. */
  lemma RunFreezes(states: seq<Sys>, steps: seq<(nat, Action)>, i: nat, j: nat, r: nat)
    requires Run(states, steps) && i <= j < |states|
    ensures Frozen(states[i].t, states[j].t, r)
  {
    var tables := seq(|states|, k requires 0 <= k < |states| => states[k].t);
    forall k | 0 <= k < |steps|
      ensures Frozen(tables[k], tables[k + 1], r)
    {
      RunStepFreezes(states, steps, k, r);
    }
    ChainFreezes(tables, i, j, r);
  }

  lemma {:induction false} ChainFreezes(tables: seq<Table>, i: nat, j: nat, r: nat)
    requires i <= j < |tables| && forall k :: 0 <= k < |tables| - 1 ==> Frozen(tables[k], tables[k + 1], r)
    ensures Frozen(tables[i], tables[j], r)
    decreases j - i
  {
    if i < j {
      ChainFreezes(tables, i + 1, j, r);
      FrozenTrans(tables[i], tables[i + 1], tables[j], r);
    }
  }

  /** A writer told to go ahead finds a token that no later step can take away. */
  lemma RunAuthorised(states: seq<Sys>, steps: seq<(nat, Action)>, i: nat, j: nat, tid: nat)
    requires Run(states, steps) && i <= j < |states| && At(states[i].pcs, tid).Checking?
    ensures var r := At(states[i].pcs, tid).ref;
            && r < |states[i].t.objs| && r < |states[j].t.objs|
            && states[i].t.objs[r].token != "" && states[j].t.objs[r].token == states[i].t.objs[r].token
  {
    RunInv(states, steps, i);
    var v := ViewOf(states[i]);
    var r := At(v.pcs, tid).ref;
    assert PcOk(v, tid, v.pcs[tid]);
    assert v.fs[r] == FaceOf(states[i].t, r);
    RunFreezes(states, steps, i, j, r);
  }
}
