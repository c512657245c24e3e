/** Processes changing and restoring the system DNS, interleaved action by action, with a crash
    possible before any of them. */
module DnsRuns {
  import opened Bytes
  import opened SystemDns

  /** Why recorded lists are being played back. */
  datatype Cause = Recovery | Rollback | Restoring

  /** Where a process stands in Apply or Restore. */
  datatype Pc =
    | Dead
    | Idle(applied: seq<Snapshot>)
    | Locked(server: string)
    | Playing(snaps: seq<Snapshot>, index: nat, ok: bool, why: Cause, server: string)
    | Removing(why: Cause, server: string)
    | Clean(server: string)
    | Reading(services: seq<string>, read: seq<Snapshot>, server: string)
    | Writing(snaps: seq<Snapshot>, server: string)
    | Setting(snaps: seq<Snapshot>, next: nat, server: string)
    | Releasing

  /** The machine and the processes on it. */
  datatype World = World(
    settings: map<string, Servers>,
    file: Option<seq<Snapshot>>,
    holder: Option<nat>,
    pcs: map<nat, Pc>)

  /** One action of a process; `effective` says whether a failing set took effect all the same. */
  datatype Action =
    | Spawn
    | Crash
    | Acquire(server: string)
    | ReadFile(ok: bool)
    | SetNext(ok: bool, effective: bool)
    | Finish
    | RemoveFile(ok: bool)
    | List(services: Option<seq<string>>)
    | ReadNext(ok: bool)
    | WriteFile(ok: bool)
    | BeginRestore
    | Release

  /** The list a process is about to give the service it has come to. */
  function Pending(pc: Pc): (r: Option<(string, Servers)>)
  {
    match pc
    case Playing(snaps, index, _, _, _) =>
      if 0 < index <= |snaps| then Some((snaps[index - 1].service, Effect(RestoreArgs(snaps[index - 1].servers)))) else None
    case Setting(snaps, next, server) => if next < |snaps| then Some((snaps[next].service, Effect([server]))) else None
    case _ => None
  }

  /** The settings after a set: as asked, or unchanged. */
  function AfterSet(settings: map<string, Servers>, want: (string, Servers), took: bool): (r: map<string, Servers>)
  {
    if took && want.0 in settings then settings[want.0 := want.1] else settings
  }

  /** A set on a service that does not exist fails. */
  predicate SetWorks(settings: map<string, Servers>, want: (string, Servers), ok: bool)
  {
    ok && want.0 in settings
  }

  function AfterPlay(pc: Pc, done: bool): (r: Pc)
    requires pc.Playing? && pc.index > 0
  {
    pc.(index := pc.index - 1, ok := pc.ok && done)
  }

  /** How a set that worked or failed goes on. */
  function Advanced(pc: Pc, done: bool): (r: Pc)
    requires Pending(pc).Some?
  {
    if pc.Playing? then AfterPlay(pc, done)
    else if done then pc.(next := pc.next + 1)
    else Playing(pc.snaps, |pc.snaps|, true, Rollback, pc.server)
  }

  /** How a finished playback or change goes on. */
  function Finished(pc: Pc): (r: Pc)
    requires (pc.Playing? && pc.index == 0) || (pc.Setting? && pc.next >= |pc.snaps|)
  {
    if pc.Setting? then Idle(pc.snaps)
    else if pc.ok then Removing(pc.why, pc.server)
    else if pc.why.Restoring? then Idle(pc.snaps)
    else Releasing
  }

  /** How a removal of the state file goes on. */
  function Removed(pc: Pc, ok: bool): (r: Pc)
    requires pc.Removing?
  {
    if ok && pc.why.Recovery? then Clean(pc.server) else Releasing
  }

  /** Process p takes one action. */
  ghost predicate Step(w: World, u: World, p: nat, a: Action)
  {
    var pc := if p in w.pcs then w.pcs[p] else Dead;
    match a
    case Spawn => p !in w.pcs && u == w.(pcs := w.pcs[p := Idle([])])
    case Crash =>
      p in w.pcs && u == w.(pcs := w.pcs[p := Dead], holder := if w.holder == Some(p) then None else w.holder)
    case Acquire(server) =>
      && pc == Idle([]) && server != "" && w.holder.None?
      && u == w.(holder := Some(p), pcs := w.pcs[p := Locked(server)])
    case ReadFile(ok) =>
      && pc.Locked?
      && u == w.(pcs := w.pcs[p := if w.file.None? then Clean(pc.server)
                                   else if !ok then Releasing
                                   else Playing(w.file.value, |w.file.value|, true, Recovery, pc.server)])
    case SetNext(ok, effective) =>
      && Pending(pc).Some?
      && var want := Pending(pc).value;
         var done := SetWorks(w.settings, want, ok);
         u == w.(settings := AfterSet(w.settings, want, ok || effective),
                 pcs := w.pcs[p := Advanced(pc, done)])
    case Finish =>
      && ((pc.Playing? && pc.index == 0) || (pc.Setting? && pc.next >= |pc.snaps|))
      && u == w.(pcs := w.pcs[p := Finished(pc)])
    case RemoveFile(ok) =>
      && pc.Removing?
      && u == w.(file := if ok then None else w.file,
                 pcs := w.pcs[p := Removed(pc, ok)])
    case List(services) =>
      && pc.Clean?
      && u == w.(pcs := w.pcs[p := if services.None? || services.value == [] then Releasing
                                   else Reading(services.value, [], pc.server)])
    case ReadNext(ok) =>
      && pc.Reading? && |pc.read| < |pc.services|
      && var service := pc.services[|pc.read|];
         u == w.(pcs := w.pcs[p :=
           if !ok || service !in w.settings then Releasing
           else
             var read := pc.read + [Snapshot(service, w.settings[service])];
             if |read| == |pc.services| then Writing(read, pc.server) else pc.(read := read)])
    case WriteFile(ok) =>
      && pc.Writing?
      && u == w.(file := if ok then Some(pc.snaps) else w.file,
                 pcs := w.pcs[p := if ok then Setting(pc.snaps, 0, pc.server) else Releasing])
    case BeginRestore =>
      && pc.Idle? && pc.applied != []
      && u == w.(pcs := w.pcs[p := Playing(pc.applied, |pc.applied|, true, Restoring, "")])
    case Release =>
      pc.Releasing? && u == w.(holder := None, pcs := w.pcs[p := Idle([])])
  }

  // ---------------------------------------------------------------------------------
  // The invariant

  /** A process that holds the lock. */
  predicate Holds(pc: Pc)
  {
    !pc.Dead? && pc != Idle([])
  }

  /** What the position of the lock holder says of the machine. */
  ghost predicate PcOk(w: World, pc: Pc, orig: map<string, Servers>)
  {
    match pc
    case Idle(applied) => applied != [] ==> w.file == Some(applied)
    case Playing(snaps, index, ok, why, _) =>
      && w.file == Some(snaps) && index <= |snaps| && Undone(w.settings, snaps, orig, index, ok)
      && (why.Restoring? ==> snaps != [])
    case Removing(_, _) => w.settings == orig
    case Clean(_) => w.settings == orig && w.file.None?
    case Reading(_, read, _) => w.settings == orig && w.file.None? && Faithful(read, orig)
    case Writing(snaps, _) => w.settings == orig && w.file.None? && Faithful(snaps, orig) && snaps != []
    case Setting(snaps, next, server) =>
      w.file == Some(snaps) && next <= |snaps| && snaps != [] && Changed(w.settings, snaps, next, server, orig)
    case _ => true
  }

  /** The first `next` recorded services point at the server. */
  ghost predicate Changed(settings: map<string, Servers>, snaps: seq<Snapshot>, next: nat, server: string, orig: map<string, Servers>)
  {
    && Faithful(snaps, orig) && Covered(settings, snaps, orig)
    && forall i :: 0 <= i < next && i < |snaps| ==> settings[snaps[i].service] == Effect([server])
  }

  ghost predicate Inv(w: World, orig: map<string, Servers>)
  {
    && WriteAhead(w.settings, w.file, orig)
    && (forall p :: p in w.pcs && Holds(w.pcs[p]) ==> w.holder == Some(p) && PcOk(w, w.pcs[p], orig))
    && (w.holder.Some? ==> w.holder.value in w.pcs && Holds(w.pcs[w.holder.value]))
  }

  /** Only process p moved, on an unchanged or newly written machine. */
  lemma MoveKeeps(w: World, u: World, p: nat, orig: map<string, Servers>)
    requires Inv(w, orig) && w.holder == Some(p) && p in u.pcs
    requires u == w.(settings := u.settings, file := u.file, holder := u.holder, pcs := w.pcs[p := u.pcs[p]])
    requires WriteAhead(u.settings, u.file, orig)
    requires if Holds(u.pcs[p]) then u.holder == Some(p) && PcOk(u, u.pcs[p], orig) else u.holder.None?
    ensures Inv(u, orig)
  {
  }

  lemma ChangedStep(s: map<string, Servers>, t: map<string, Servers>, snaps: seq<Snapshot>, next: nat, server: string,
                    orig: map<string, Servers>, done: bool)
    requires next < |snaps| && Changed(s, snaps, next, server, orig)
    requires t == s || t == s[snaps[next].service := Effect([server])]
    requires done ==> snaps[next].service in t && t[snaps[next].service] == Effect([server])
    ensures snaps[next].service in s && Changed(t, snaps, if done then next + 1 else next, server, orig)
    ensures Undone(t, snaps, orig, |snaps|, true)
  {
    CoveredUpdate(s, snaps, orig, next, Effect([server]));
  }

  lemma SetNextKeeps(w: World, u: World, p: nat, ok: bool, effective: bool, orig: map<string, Servers>)
    requires Inv(w, orig) && Step(w, u, p, SetNext(ok, effective))
    ensures Inv(u, orig)
  {
    var pc := w.pcs[p];
    var want := Pending(pc).value;
    var done := SetWorks(w.settings, want, ok);
    if pc.Playing? {
      UndoneStep(w.settings, u.settings, pc.snaps, orig, pc.index - 1, pc.ok, done);
    } else {
      ChangedStep(w.settings, u.settings, pc.snaps, pc.next, pc.server, orig, done);
    }
    MoveKeeps(w, u, p, orig);
  }

  lemma FinishKeeps(w: World, u: World, p: nat, orig: map<string, Servers>)
    requires Inv(w, orig) && Step(w, u, p, Finish)
    ensures Inv(u, orig)
  {
    var pc := w.pcs[p];
    if pc.Playing? && pc.ok {
      CoveredRestored(w.settings, pc.snaps, orig);
    }
    MoveKeeps(w, u, p, orig);
  }

  lemma StepKeeps(w: World, u: World, p: nat, a: Action, orig: map<string, Servers>)
    requires Inv(w, orig) && Step(w, u, p, a)
    ensures Inv(u, orig)
  {
    match a
    case Spawn =>
    case Crash =>
    case Acquire(_) =>
    case SetNext(ok, effective) => SetNextKeeps(w, u, p, ok, effective, orig);
    case Finish => FinishKeeps(w, u, p, orig);
    case _ => MoveKeeps(w, u, p, orig);
  }

  // ---------------------------------------------------------------------------------
  // Whole runs

  /** Any processes taking any actions in any order, from a machine at its original settings. */
  ghost predicate Run(orig: map<string, Servers>, worlds: seq<World>, steps: seq<(nat, Action)>)
  {
    && |worlds| == |steps| + 1 && worlds[0] == World(orig, None, None, map[])
    && forall i :: 0 <= i < |steps| ==> StepAt(worlds, steps, i)
  }

  ghost predicate StepAt(worlds: seq<World>, steps: seq<(nat, Action)>, i: nat)
    requires i < |steps| && |worlds| == |steps| + 1
  {
    Step(worlds[i], worlds[i + 1], steps[i].0, steps[i].1)
  }

  lemma RunMore(orig: map<string, Servers>, worlds: seq<World>, steps: seq<(nat, Action)>, w: World, p: nat, a: Action)
    requires Run(orig, worlds, steps) && Step(worlds[|steps|], w, p, a)
    ensures Run(orig, worlds + [w], steps + [(p, a)])
  {
    var more, acts := worlds + [w], steps + [(p, a)];
    forall i | 0 <= i < |acts|
      ensures StepAt(more, acts, i)
    {
      if i < |steps| {
        assert StepAt(worlds, steps, i);
        assert more[i] == worlds[i] && more[i + 1] == worlds[i + 1] && acts[i] == steps[i];
      }
    }
  }

  lemma {:induction false} RunInv(orig: map<string, Servers>, worlds: seq<World>, steps: seq<(nat, Action)>, i: nat)
    requires Run(orig, worlds, steps) && i < |worlds|
    ensures Inv(worlds[i], orig)
  {
    if i > 0 {
      RunInv(orig, worlds, steps, i - 1);
      assert StepAt(worlds, steps, i - 1);
      StepKeeps(worlds[i - 1], worlds[i], steps[i - 1].0, steps[i - 1].1, orig);
    }
  }

  /** In every reachable world, right after a crash included, a service whose setting differs
      from its original is recorded with that original in the state file. */
  lemma RunRecorded(orig: map<string, Servers>, worlds: seq<World>, steps: seq<(nat, Action)>, i: nat, service: string)
    requires Run(orig, worlds, steps) && i < |worlds|
    ensures worlds[i].settings.Keys == orig.Keys
    ensures service in orig && worlds[i].settings[service] != orig[service] ==>
              worlds[i].file.Some? && Snapshot(service, orig[service]) in worlds[i].file.value
  {
    RunInv(orig, worlds, steps, i);
    var w := worlds[i];
    if w.file.Some? && Recorded(w.file.value, service) {
      var k :| 0 <= k < |w.file.value| && w.file.value[k].service == service;
      assert w.file.value[k] == Snapshot(service, orig[service]);
    }
  }

  /** A process past its recovery phase, up to the moment it records its own snapshot, sees every
      service at its original and no state file. */
  lemma RunRecovered(orig: map<string, Servers>, worlds: seq<World>, steps: seq<(nat, Action)>, i: nat, p: nat)
    requires Run(orig, worlds, steps) && i < |worlds| && p in worlds[i].pcs
    requires worlds[i].pcs[p].Clean? || worlds[i].pcs[p].Reading? || worlds[i].pcs[p].Writing?
    ensures worlds[i].settings == orig && worlds[i].file.None?
  {
    RunInv(orig, worlds, steps, i);
  }

  /** When a Restore has set everything back without an error, every service is at its original,
      and once the file is removed nothing is left to recover. */
  lemma RunRestored(orig: map<string, Servers>, worlds: seq<World>, steps: seq<(nat, Action)>, i: nat)
    requires Run(orig, worlds, steps) && i < |steps| && steps[i].1.RemoveFile?
    ensures worlds[i + 1].settings == orig && (steps[i].1.ok ==> worlds[i + 1].file.None?)
  {
    RunInv(orig, worlds, steps, i);
    assert StepAt(worlds, steps, i);
  }

  /** When an Apply is through, exactly the recorded services point at the resolver. */
  lemma RunApplied(orig: map<string, Servers>, worlds: seq<World>, steps: seq<(nat, Action)>, i: nat)
    requires Run(orig, worlds, steps) && i < |steps| && steps[i].1.Finish?
    requires steps[i].0 in worlds[i].pcs && worlds[i].pcs[steps[i].0].Setting?
    ensures var pc := worlds[i].pcs[steps[i].0];
            worlds[i + 1].file == Some(pc.snaps) && Applied(worlds[i + 1].settings, pc.snaps, pc.server, orig)
  {
    RunInv(orig, worlds, steps, i);
    assert StepAt(worlds, steps, i);
    var pc := worlds[i].pcs[steps[i].0];
    ChangedAll(worlds[i].settings, pc.snaps, pc.server, orig);
  }

  lemma ChangedAll(settings: map<string, Servers>, snaps: seq<Snapshot>, server: string, orig: map<string, Servers>)
    requires Changed(settings, snaps, |snaps|, server, orig)
    ensures Applied(settings, snaps, server, orig)
  {
  }

  // ---------------------------------------------------------------------------------
  // Recovery can always be completed

  /** Actions of process p alone, from one world to the next. */
  ghost predicate Path(worlds: seq<World>, p: nat, acts: seq<Action>)
  {
    |worlds| == |acts| + 1 && forall i :: 0 <= i < |acts| ==> Step(worlds[i], worlds[i + 1], p, acts[i])
  }

  lemma PathCons(w: World, a: Action, worlds: seq<World>, p: nat, acts: seq<Action>)
    requires Path(worlds, p, acts) && Step(w, worlds[0], p, a)
    ensures Path([w] + worlds, p, [a] + acts)
  {
    var ws, bs := [w] + worlds, [a] + acts;
    forall i | 0 <= i < |bs|
      ensures Step(ws[i], ws[i + 1], p, bs[i])
    {
      if i > 0 {
        assert Step(worlds[i - 1], worlds[i], p, acts[i - 1]);
      }
    }
  }

  lemma {:induction false} Playback(w: World, p: nat, orig: map<string, Servers>) returns (worlds: seq<World>, acts: seq<Action>)
    requires Inv(w, orig) && p in w.pcs && w.pcs[p].Playing? && w.pcs[p].ok && w.pcs[p].why.Recovery?
    ensures Path(worlds, p, acts) && worlds[0] == w
    ensures var e := worlds[|worlds| - 1];
            p in e.pcs && e.pcs[p].Clean? && e.settings == orig && e.file.None?
    decreases w.pcs[p].index
  {
    var pc := w.pcs[p];
    if pc.index > 0 {
      var want := Pending(pc).value;
      assert want.0 in w.settings;
      var a := SetNext(true, false);
      var u := w.(settings := AfterSet(w.settings, want, true), pcs := w.pcs[p := AfterPlay(pc, true)]);
      assert Step(w, u, p, a);
      StepKeeps(w, u, p, a, orig);
      var ws, bs := Playback(u, p, orig);
      PathCons(w, a, ws, p, bs);
      worlds, acts := [w] + ws, [a] + bs;
    } else {
      var u := w.(pcs := w.pcs[p := Removing(Recovery, pc.server)]);
      var e := u.(file := None, pcs := u.pcs[p := Clean(pc.server)]);
      assert Step(w, u, p, Finish) && Step(u, e, p, RemoveFile(true));
      StepKeeps(w, u, p, Finish, orig);
      worlds, acts := [w, u, e], [Finish, RemoveFile(true)];
    }
  }

  /** From every reachable world whose lock is free, whatever crashed before, a new process has a
      finite sequence of actions that brings every service back to its original. */
  lemma RunCanRecover(orig: map<string, Servers>, before: seq<World>, steps: seq<(nat, Action)>, i: nat, p: nat, server: string)
    returns (worlds: seq<World>, acts: seq<Action>)
    requires Run(orig, before, steps) && i < |before| && before[i].holder.None? && p !in before[i].pcs && server != ""
    ensures Path(worlds, p, acts) && worlds[0] == before[i]
    ensures var e := worlds[|worlds| - 1];
            p in e.pcs && e.pcs[p].Clean? && e.settings == orig && e.file.None?
  {
    RunInv(orig, before, steps, i);
    var w := before[i];
    var a := w.(pcs := w.pcs[p := Idle([])]);
    var b := a.(holder := Some(p), pcs := a.pcs[p := Locked(server)]);
    assert Step(w, a, p, Spawn) && Step(a, b, p, Acquire(server));
    StepKeeps(w, a, p, Spawn, orig);
    StepKeeps(a, b, p, Acquire(server), orig);
    if w.file.None? {
      var c := b.(pcs := b.pcs[p := Clean(server)]);
      assert Step(b, c, p, ReadFile(true));
      worlds, acts := [w, a, b, c], [Spawn, Acquire(server), ReadFile(true)];
    } else {
      var c := b.(pcs := b.pcs[p := Playing(w.file.value, |w.file.value|, true, Recovery, server)]);
      assert Step(b, c, p, ReadFile(true));
      StepKeeps(b, c, p, ReadFile(true), orig);
      var ws, bs := Playback(c, p, orig);
      PathCons(b, ReadFile(true), ws, p, bs);
      PathCons(a, Acquire(server), [b] + ws, p, [ReadFile(true)] + bs);
      PathCons(w, Spawn, [a] + ([b] + ws), p, [Acquire(server)] + ([ReadFile(true)] + bs));
      worlds, acts := [w] + ([a] + ([b] + ws)), [Spawn] + ([Acquire(server)] + ([ReadFile(true)] + bs));
    }
  }
}
