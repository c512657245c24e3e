/** The DNS controller of each process on one machine. Every action may fail, and a process may die
    before any of them, as long as the machine has faults left; a restarted process is a new
    controller. Whatever calls are made, they are a run of the step system. */
module DnsController {
  import opened Bytes
  import opened SystemDns
  import opened DnsRuns

  /** The machine: DNS settings, the state file and the flock holder survive any process. */
  class Machine {
    ghost const orig: map<string, Servers>
    var settings: map<string, Servers>
    var file: Option<seq<Snapshot>>
    var holder: Option<nat>
    var faults: nat
    /** Where each process stands, and the run so far. */
    ghost var pcs: map<nat, Pc>
    ghost var worlds: seq<World>
    ghost var steps: seq<(nat, Action)>

    constructor (settings: map<string, Servers>, faults: nat)
      ensures this.settings == orig == settings && file.None? && holder.None? && this.faults == faults && Safe()
      ensures pcs == map[] && Logged()
    {
      orig, this.settings, file, holder, this.faults := settings, settings, None, None, faults;
      pcs, worlds, steps := map[], [World(settings, None, None, map[])], [];
    }

    ghost function W(): (w: World)
      reads this
    {
      World(settings, file, holder, pcs)
    }

    /** The log is a run that has led to where the machine is now. */
    ghost predicate Logged()
      reads this
    {
      Run(orig, worlds, steps) && worlds[|steps|] == W()
    }

    /** The machine has just made a step of process p. */
    ghost method Record(p: nat, a: Action, was: World)
      requires Run(orig, worlds, steps) && worlds[|steps|] == was && Step(was, W(), p, a)
      modifies this`worlds, this`steps
      ensures Logged() && steps == old(steps) + [(p, a)] && worlds == old(worlds) + [W()]
    {
      RunMore(orig, worlds, steps, W(), p, a);
      worlds, steps := worlds + [W()], steps + [(p, a)];
    }

    /** Whether the next action goes wrong. */
    method Fault() returns (hit: bool)
      modifies this`faults
      ensures faults == if hit then old(faults) - 1 else old(faults)
    {
      hit := *;
      hit := hit && faults > 0;
      if hit {
        faults := faults - 1;
      }
    }

    ghost predicate Safe()
      reads this
    {
      WriteAhead(settings, file, orig)
    }
  }

  /** So after any calls, a crash at any point included, a service away from its original is recorded
      in the state file. */
  lemma LoggedRecorded(m: Machine, service: string)
    requires m.Logged()
    ensures m.settings.Keys == m.orig.Keys
    ensures service in m.orig && m.settings[service] != m.orig[service] ==>
              m.file.Some? && Snapshot(service, m.orig[service]) in m.file.value
  {
    RunRecorded(m.orig, m.worlds, m.steps, |m.steps|, service);
  }

  class Controller {
    const host: Machine
    const pid: nat
    const interfaceName: string
    var snapshots: seq<Snapshot>
    var locked: bool
    var alive: bool

    constructor (host: Machine, pid: nat, interfaceName: string)
      requires host.holder != Some(pid) && pid !in host.pcs && host.Logged()
      modifies host`pcs, host`worlds, host`steps
      ensures this.host == host && this.pid == pid && alive && snapshots == [] && Valid() && Quiet()
    {
      this.host, this.pid, this.interfaceName := host, pid, interfaceName;
      snapshots, locked, alive := [], false, true;
      new;
      Become(Idle([]), Spawn);
    }

    ghost function At(): (pc: Pc)
      reads this, host
    {
      if pid in host.pcs then host.pcs[pid] else Dead
    }

    /** Only where this process stands changes, as the step says. */
    ghost method Become(pc: Pc, a: Action)
      requires host.Logged() && Step(host.W(), host.W().(pcs := host.pcs[pid := pc]), pid, a)
      modifies host`pcs, host`worlds, host`steps
      ensures host.Logged() && host.pcs == old(host.pcs)[pid := pc]
    {
      ghost var was := host.W();
      host.pcs := host.pcs[pid := pc];
      host.Record(pid, a, was);
    }

    /** A live process holds the lock iff it thinks so, and what it applied is on disk. */
    ghost predicate Valid()
      reads this, host
    {
      && host.Logged() && pid in host.pcs && (At().Dead? <==> !alive)
      && (host.holder == Some(pid) <==> alive && locked)
      && (alive && snapshots != [] ==> locked && host.file == Some(snapshots))
    }

    /** Between calls a live process holds the lock exactly while it has something to undo. */
    ghost predicate Quiet()
      reads this, host
    {
      alive ==> (locked <==> snapshots != []) && At() == Idle(snapshots)
    }

    /** Something went wrong on the way, or the process was already dead. */
    twostate predicate Hit()
      reads this, host
    {
      host.faults < old(host.faults) || !old(alive)
    }

    /** What a controller may do to the machine: nothing while another process holds the lock. */
    twostate predicate Polite()
      reads this, host
    {
      && host.faults <= old(host.faults) && (alive ==> old(alive)) && (!alive ==> Hit())
      && (host.holder == old(host.holder) || (host.holder in {None, Some(pid)} && old(host.holder) in {None, Some(pid)}))
      && (old(host.holder).Some? && old(host.holder) != Some(pid) ==>
            host.settings == old(host.settings) && host.file == old(host.file))
    }

    /** The process may die here; the system drops its lock. */
    method MayCrash()
      requires Valid()
      modifies this`alive, host`faults, host`holder, host`pcs, host`worlds, host`steps
      ensures Valid() && Polite()
      ensures alive ==> host.W() == old(host.W())
    {
      var crash := host.Fault();
      if crash && alive {
        ghost var was := host.W();
        if locked {
          host.holder := None;
        }
        alive, host.pcs := false, host.pcs[pid := Dead];
        host.Record(pid, Crash, was);
      }
    }

    /** networksetup -setdnsservers: on failure it may have taken effect or not. */
    method SetServers(service: string, args: seq<string>) returns (ok: bool)
      requires Valid() && (alive ==> locked && Pending(At()) == Some((service, Effect(args))))
      modifies this`alive, host`faults, host`holder, host`settings, host`pcs, host`worlds, host`steps
      ensures Valid() && Polite() && (alive ==> At() == Advanced(old(At()), ok))
      ensures host.settings == old(host.settings)
           || (service in old(host.settings) && host.settings == old(host.settings)[service := Effect(args)])
      ensures ok ==> alive && service in host.settings && host.settings[service] == Effect(args)
      ensures !ok ==> Hit() || service !in old(host.settings)
    {
      MayCrash();
      ok := false;
      if alive {
        ok := RunSet(service, args);
      }
    }

    method RunSet(service: string, args: seq<string>) returns (ok: bool)
      requires Valid() && alive && locked && Pending(At()) == Some((service, Effect(args)))
      modifies host`faults, host`settings, host`pcs, host`worlds, host`steps
      ensures Valid() && Polite() && At() == Advanced(old(At()), ok)
      ensures host.settings == old(host.settings)
           || (service in old(host.settings) && host.settings == old(host.settings)[service := Effect(args)])
      ensures if ok then service in host.settings && host.settings[service] == Effect(args) else Hit() || service !in old(host.settings)
    {
      ghost var was := host.W();
      var failing := host.Fault();
      var effective: bool := *;
      if service in host.settings && (effective || !failing) {
        host.settings := host.settings[service := Effect(args)];
      }
      ok := service in host.settings && !failing;
      host.pcs := host.pcs[pid := Advanced(At(), ok)];
      host.Record(pid, SetNext(!failing, effective), was);
    }

    /** restoreSnapshotsContext: last to first, going on after an error. */
    method RestoreSnapshots(snaps: seq<Snapshot>, ghost why: Cause, ghost server: string) returns (ok: bool)
      requires Valid() && (alive ==> locked && At() == Playing(snaps, |snaps|, true, why, server))
      requires host.file == Some(snaps) && host.Safe()
      modifies this`alive, host`faults, host`holder, host`settings, host`pcs, host`worlds, host`steps
      ensures Valid() && Polite() && host.Safe()
      ensures ok ==> host.settings == host.orig && (snaps != [] ==> alive)
      ensures !ok ==> Hit()
      ensures old(host.settings) == host.orig ==> host.settings == host.orig
      ensures alive ==> At() == Finished(Playing(snaps, 0, ok, why, server))
    {
      ok := PlayBack(snaps, why, server);
      if ok {
        CoveredRestored(host.settings, snaps, host.orig);
      }
      FinishSets();
    }

    /** The loop. */
    method PlayBack(snaps: seq<Snapshot>, ghost why: Cause, ghost server: string) returns (ok: bool)
      requires Valid() && (alive ==> locked && At() == Playing(snaps, |snaps|, true, why, server))
      requires Undone(host.settings, snaps, host.orig, |snaps|, true)
      modifies this`alive, host`faults, host`holder, host`settings, host`pcs, host`worlds, host`steps
      ensures Valid() && Polite() && Undone(host.settings, snaps, host.orig, 0, ok)
      ensures alive ==> At() == Playing(snaps, 0, ok, why, server)
      ensures if ok then snaps != [] ==> alive else Hit()
      ensures old(host.settings) == host.orig ==> host.settings == host.orig
    {
      ghost var clean := host.settings == host.orig;
      ok := true;
      for index := |snaps| downto 0
        invariant Valid() && Polite()
        invariant alive ==> locked && At() == Playing(snaps, index, ok, why, server)
        invariant Undone(host.settings, snaps, host.orig, index, ok)
        invariant if ok then index < |snaps| ==> alive else Hit()
        invariant clean ==> host.settings == host.orig
      {
        var done := RestoreOne(snaps, index, ok, why, server);
        ok := ok && done;
      }
    }

    method RestoreOne(snaps: seq<Snapshot>, index: nat, ghost ok: bool, ghost why: Cause, ghost server: string) returns (done: bool)
      requires Valid() && index < |snaps| && (alive ==> locked && At() == Playing(snaps, index + 1, ok, why, server))
      requires Undone(host.settings, snaps, host.orig, index + 1, ok)
      modifies this`alive, host`faults, host`holder, host`settings, host`pcs, host`worlds, host`steps
      ensures Valid() && Polite() && Undone(host.settings, snaps, host.orig, index, ok && done)
      ensures alive ==> At() == Playing(snaps, index, ok && done, why, server)
      ensures if done then alive else Hit()
      ensures old(host.settings) == host.orig ==> host.settings == host.orig
    {
      done := SetServers(snaps[index].service, RestoreArgs(snaps[index].servers));
      UndoneStep(old(host.settings), host.settings, snaps, host.orig, index, ok, done);
    }

    /** The end of a loop over sets is no action of its own. */
    ghost method FinishSets()
      requires Valid() && (alive ==> (At().Playing? && At().index == 0) || (At().Setting? && At().next >= |At().snaps|))
      modifies host`pcs, host`worlds, host`steps
      ensures Valid() && (alive ==> At() == Finished(old(At())))
    {
      if alive {
        Become(Finished(At()), Finish);
      }
    }

    /** acquireLock: a non-blocking flock, so it fails while another process holds it. */
    method AcquireLock(ghost server: string) returns (ok: bool)
      requires Valid() && snapshots == [] && server != "" && (alive ==> !locked && At() == Idle([]))
      modifies this`alive, this`locked, host`faults, host`holder, host`pcs, host`worlds, host`steps
      ensures Valid() && Polite() && (alive ==> locked == ok && At() == if ok then Locked(server) else Idle([]))
      ensures ok ==> alive && old(host.holder).None?
      ensures !ok ==> Hit() || old(host.holder).Some?
    {
      MayCrash();
      ok := false;
      if alive && host.holder.None? {
        var failing := host.Fault();
        if !failing {
          ghost var was := host.W();
          host.holder, locked, ok := Some(pid), true, true;
          host.pcs := host.pcs[pid := Locked(server)];
          host.Record(pid, Acquire(server), was);
        }
      }
    }

    method ReleaseLock()
      requires Valid() && (alive ==> locked && snapshots == [] && At().Releasing?)
      modifies this`alive, this`locked, host`faults, host`holder, host`pcs, host`worlds, host`steps
      ensures Valid() && Polite() && (alive ==> !locked && At() == Idle([]))
    {
      MayCrash();
      if alive {
        ghost var was := host.W();
        host.holder, locked, host.pcs := None, false, host.pcs[pid := Idle([])];
        host.Record(pid, Release, was);
      }
      locked := false;
    }

    /** os.Remove of the state file; a missing file is no error. */
    method RemoveFile() returns (ok: bool)
      requires Valid() && (alive ==> locked && snapshots == [] && At().Removing?) && host.Safe() && host.settings == host.orig
      modifies this`alive, host`faults, host`holder, host`file, host`pcs, host`worlds, host`steps
      ensures Valid() && Polite() && host.Safe()
      ensures ok ==> alive && host.file.None?
      ensures !ok ==> Hit()
      ensures alive ==> At() == Removed(old(At()), ok)
    {
      MayCrash();
      ok := false;
      if alive {
        ghost var was := host.W();
        var failing := host.Fault();
        if !failing {
          host.file, ok := None, true;
        }
        host.pcs := host.pcs[pid := Removed(At(), ok)];
        host.Record(pid, Action.RemoveFile(ok), was);
      }
    }

    /** recoverStaleSnapshot: on success nothing is left to undo. */
    method RecoverStale(ghost server: string) returns (ok: bool)
      requires Valid() && (alive ==> locked && At() == Locked(server)) && snapshots == [] && host.Safe()
      modifies this`alive, host`faults, host`holder, host`settings, host`file, host`pcs, host`worlds, host`steps
      ensures Valid() && Polite() && host.Safe()
      ensures ok ==> alive && host.settings == host.orig && host.file.None?
      ensures !ok ==> Hit()
      ensures old(host.settings) == host.orig ==> host.settings == host.orig
      ensures alive ==> At() == if ok then Clean(server) else Releasing
    {
      MayCrash();
      if !alive { return false; }
      if host.file.None? {
        Become(Clean(server), ReadFile(true));
        return true;
      }
      var unreadable := host.Fault();
      if unreadable {
        Become(Releasing, ReadFile(false));
        return false;
      }
      Become(Playing(host.file.value, |host.file.value|, true, Recovery, server), ReadFile(true));
      ok := PlayStale(host.file.value, server);
    }

    method PlayStale(snaps: seq<Snapshot>, ghost server: string) returns (ok: bool)
      requires Valid() && alive && locked && At() == Playing(snaps, |snaps|, true, Recovery, server)
      requires snapshots == [] && host.Safe() && host.file == Some(snaps)
      modifies this`alive, host`faults, host`holder, host`settings, host`file, host`pcs, host`worlds, host`steps
      ensures Valid() && Polite() && host.Safe()
      ensures if ok then alive && host.settings == host.orig && host.file.None? else Hit()
      ensures old(host.settings) == host.orig ==> host.settings == host.orig
      ensures alive ==> At() == if ok then Clean(server) else Releasing
    {
      var restored := RestoreSnapshots(snaps, Recovery, server);
      if !restored { return false; }
      ok := RemoveFile();
    }

    /** writeSnapshot: a temporary file renamed over the state file, so it is all or nothing. */
    method WriteSnapshot(snaps: seq<Snapshot>, ghost server: string) returns (ok: bool)
      requires Valid() && (alive ==> locked && snapshots == [] && At() == Writing(snaps, server)) && host.Safe()
      requires host.settings == host.orig && Faithful(snaps, host.orig)
      modifies this`alive, host`faults, host`holder, host`file, host`pcs, host`worlds, host`steps
      ensures Valid() && Polite() && host.Safe()
      ensures ok ==> alive && host.file == Some(snaps)
      ensures !ok ==> Hit()
      ensures alive ==> At() == if ok then Setting(snaps, 0, server) else Releasing
    {
      MayCrash();
      ok := false;
      if alive {
        ghost var was := host.W();
        var failing := host.Fault();
        if !failing {
          host.file, ok := Some(snaps), true;
        }
        host.pcs := host.pcs[pid := if ok then Setting(snaps, 0, server) else Releasing];
        host.Record(pid, WriteFile(ok), was);
      }
    }

    /** The originals of the listed services, if all can be read. */
    method ReadAll(services: seq<string>, ghost server: string) returns (r: Option<seq<Snapshot>>)
      requires Valid() && host.settings == host.orig && services != [] && (alive ==> At() == Reading(services, [], server))
      modifies this`alive, host`faults, host`holder, host`pcs, host`worlds, host`steps
      ensures Valid() && Polite()
      ensures r.Some? ==>
                && Faithful(r.value, host.orig) && |r.value| == |services|
                && forall i :: 0 <= i < |services| ==> r.value[i].service == services[i]
      ensures r.Some? ==> alive && At() == Writing(r.value, server)
      ensures r.None? && alive ==> At() == Releasing
      ensures r.None? ==> Hit() || exists i :: 0 <= i < |services| && services[i] !in host.settings
    {
      var snaps: seq<Snapshot> := [];
      for i := 0 to |services|
        invariant Valid() && Polite()
        invariant Faithful(snaps, host.orig) && |snaps| == i
        invariant forall j :: 0 <= j < i ==> snaps[j].service == services[j]
        invariant i > 0 ==> alive
        invariant alive ==> At() == if i < |services| then Reading(services, snaps, server) else Writing(snaps, server)
      {
        var read := ReadServers(services, snaps, server);
        if read.None? { return None; }
        snaps := snaps + [Snapshot(services[i], read.value)];
      }
      r := Some(snaps);
    }

    /** networksetup -getdnsservers for the next service. */
    method ReadServers(services: seq<string>, snaps: seq<Snapshot>, ghost server: string) returns (r: Option<Servers>)
      requires Valid() && |snaps| < |services| && (alive ==> At() == Reading(services, snaps, server))
      modifies this`alive, host`faults, host`holder, host`pcs, host`worlds, host`steps
      ensures Valid() && Polite()
      ensures match r
              case Some(servers) =>
                && alive && services[|snaps|] in host.settings && servers == host.settings[services[|snaps|]]
                && var more := snaps + [Snapshot(services[|snaps|], servers)];
                   At() == if |more| == |services| then Writing(more, server) else Reading(services, more, server)
              case None => (alive ==> At() == Releasing) && (Hit() || services[|snaps|] !in host.settings)
    {
      MayCrash();
      if !alive { return None; }
      var service := services[|snaps|];
      var failing := host.Fault();
      if failing || service !in host.settings {
        Become(Releasing, ReadNext(!failing));
        return None;
      }
      ghost var more := snaps + [Snapshot(service, host.settings[service])];
      Become(if |more| == |services| then Writing(more, server) else Reading(services, more, server), ReadNext(true));
      r := Some(host.settings[service]);
    }

    /** Point the recorded services at the tunnel's resolver, stopping at the first failure. */
    method SetAll(snaps: seq<Snapshot>, server: string) returns (ok: bool)
      requires Valid() && (alive ==> locked && At() == Setting(snaps, 0, server))
      requires host.file == Some(snaps) && host.Safe() && host.settings == host.orig
      modifies this`alive, host`faults, host`holder, host`settings, host`pcs, host`worlds, host`steps
      ensures Valid() && Polite() && host.Safe()
      ensures ok ==> Applied(host.settings, snaps, server, host.orig) && (snaps != [] ==> alive)
      ensures !ok ==> Hit()
      ensures alive ==> At() == if ok then Idle(snaps) else Playing(snaps, |snaps|, true, Rollback, server)
    {
      for i := 0 to |snaps|
        invariant Valid() && Polite() && (alive ==> locked && At() == Setting(snaps, i, server))
        invariant Changed(host.settings, snaps, i, server, host.orig)
        invariant i > 0 ==> alive
      {
        var done := SetOne(snaps, i, server);
        if !done { return false; }
      }
      ChangedAll(host.settings, snaps, server, host.orig);
      FinishSets();
      ok := true;
    }

    method SetOne(snaps: seq<Snapshot>, i: nat, server: string) returns (done: bool)
      requires Valid() && i < |snaps| && (alive ==> locked && At() == Setting(snaps, i, server))
      requires Changed(host.settings, snaps, i, server, host.orig)
      modifies this`alive, host`faults, host`holder, host`settings, host`pcs, host`worlds, host`steps
      ensures Valid() && Polite() && Changed(host.settings, snaps, if done then i + 1 else i, server, host.orig)
      ensures alive ==> At() == if done then Setting(snaps, i + 1, server) else Playing(snaps, |snaps|, true, Rollback, server)
      ensures if done then alive else Hit()
    {
      done := SetServers(snaps[i].service, [server]);
      ChangedStep(old(host.settings), host.settings, snaps, i, server, host.orig, done);
    }

    /** Apply once the lock is held and nothing stale is left: list the services and read their
        originals. */
    method Originals(services: Option<seq<string>>, ghost server: string) returns (r: Result<seq<Snapshot>, Failure>)
      requires Valid() && alive && locked && snapshots == [] && host.settings == host.orig && At() == Clean(server)
      modifies this`alive, host`faults, host`holder, host`pcs, host`worlds, host`steps
      ensures Valid() && Polite()
      ensures r.Ok? ==>
                && alive && services.Some? && Lists(r.value, services.value) && r.value != [] && Faithful(r.value, host.orig)
                && At() == Writing(r.value, server)
      ensures r.Err? ==> (alive ==> At() == Releasing) && (Hit() || !Known(services, host.orig))
    {
      MayCrash();
      if alive {
        Become(if services.None? || services.value == [] then Releasing else Reading(services.value, [], server), List(services));
      }
      if services.None? { return Err(ListFailed); }
      if services.value == [] { return Err(NoService); }
      var read := ReadAll(services.value, server);
      r := if read.Some? then Ok(read.value) else Err(ReadFailed);
    }

    /** ... record them and set the services, undoing what was done if that fails. */
    method SetRecorded(snaps: seq<Snapshot>, server: string) returns (err: Option<Failure>)
      requires Valid() && alive && locked && snapshots == [] && host.settings == host.orig && host.Safe()
      requires At() == Writing(snaps, server) && snaps != [] && Faithful(snaps, host.orig)
      modifies this`alive, this`locked, this`snapshots, host`faults, host`holder, host`settings, host`file, host`pcs, host`worlds, host`steps
      ensures Valid() && Quiet() && Polite() && host.Safe()
      ensures err.None? ==> alive && snapshots == snaps && Applied(host.settings, snaps, server, host.orig)
      ensures err.Some? ==> snapshots == [] && Hit()
      ensures err.Some? && alive && old(host.faults) <= 1 ==> host.settings == host.orig
    {
      var ok := WriteSnapshot(snaps, server);
      if !ok {
        ReleaseLock();
        return Some(WriteFailed);
      }
      ok := SetAll(snaps, server);
      if !ok {
        Undo(snaps, server);
        return Some(SetFailed);
      }
      snapshots := snaps;
      return None;
    }

    method Undo(snaps: seq<Snapshot>, ghost server: string)
      requires Valid() && snapshots == [] && host.file == Some(snaps) && host.Safe()
      requires alive ==> locked && At() == Playing(snaps, |snaps|, true, Rollback, server)
      modifies this`alive, this`locked, host`faults, host`holder, host`settings, host`file, host`pcs, host`worlds, host`steps
      ensures Valid() && Quiet() && Polite() && host.Safe()
      ensures alive && old(host.faults) == 0 ==> host.settings == host.orig
    {
      var restored := RestoreSnapshots(snaps, Rollback, server);
      if restored {
        var _ := Clear();
      } else {
        ReleaseLock();
      }
    }

    method Change(services: Option<seq<string>>, server: string) returns (err: Option<Failure>)
      requires Valid() && alive && locked && snapshots == [] && host.settings == host.orig && host.file.None?
      requires At() == Clean(server)
      modifies this`alive, this`locked, this`snapshots, host`faults, host`holder, host`settings, host`file, host`pcs, host`worlds, host`steps
      ensures Valid() && Quiet() && Polite() && host.Safe()
      ensures err.None? ==>
                && alive && services.Some? && Lists(snapshots, services.value) && snapshots != []
                && Faithful(snapshots, host.orig) && Applied(host.settings, snapshots, server, host.orig)
      ensures err.Some? ==> snapshots == [] && (Hit() || !Known(services, host.orig))
      ensures err.Some? && alive && old(host.faults) <= 1 ==> host.settings == host.orig
    {
      var snaps := Originals(services, server);
      if snaps.Err? {
        ReleaseLock();
        return Some(snaps.error);
      }
      err := SetRecorded(snaps.value, server);
    }

    method Apply(services: Option<seq<string>>, server: string) returns (err: Option<Failure>)
      requires Valid() && Quiet() && host.Safe()
      modifies this`alive, this`locked, this`snapshots, host`faults, host`holder, host`settings, host`file, host`pcs, host`worlds, host`steps
      ensures Valid() && Quiet() && Polite() && host.Safe()
      ensures old(snapshots) != [] ==>
                && err.None? && snapshots == old(snapshots)
                && host.settings == old(host.settings) && host.file == old(host.file)
      ensures old(snapshots) == [] && interfaceName == "" ==> err == Some(NoInterface) && host.settings == old(host.settings)
      ensures old(snapshots) == [] && interfaceName != "" && server == "" ==> err == Some(NoServer) && host.settings == old(host.settings)
      ensures old(snapshots) == [] && err.None? ==>
                && alive && services.Some? && Lists(snapshots, services.value) && host.file == Some(snapshots)
                && Faithful(snapshots, host.orig) && Applied(host.settings, snapshots, server, host.orig)
      ensures err.Some? ==> snapshots == []
      ensures err.Some? ==>
                || Hit() || old(host.holder).Some?
                || interfaceName == "" || server == "" || !Known(services, host.orig)
      ensures err.Some? && alive && old(host.faults) <= 1 && old(host.settings) == host.orig ==> host.settings == host.orig
    {
      if snapshots != [] { return None; }
      if interfaceName == "" { return Some(NoInterface); }
      if server == "" { return Some(NoServer); }
      var ok := AcquireLock(server);
      if !ok { return Some(LockFailed); }
      ok := RecoverStale(server);
      if !ok {
        ReleaseLock();
        return Some(RecoveryFailed);
      }
      err := Change(services, server);
    }

    /** Restore: on success every service is back at its original. */
    method Restore() returns (ok: bool)
      requires Valid() && Quiet() && host.Safe()
      modifies this`alive, this`locked, this`snapshots, host`faults, host`holder, host`settings, host`file, host`pcs, host`worlds, host`steps
      ensures Valid() && Quiet() && Polite() && host.Safe()
      ensures old(snapshots) == [] ==> ok && host.settings == old(host.settings) && host.file == old(host.file)
      ensures old(alive) && old(snapshots) != [] && ok ==> host.settings == host.orig && host.file.None?
      ensures old(alive) && old(snapshots) != [] && snapshots == [] ==> host.settings == host.orig
      ensures snapshots == old(snapshots) || snapshots == []
      ensures !ok ==> Hit()
    {
      if snapshots == [] { return true; }
      if !alive { return false; }
      Become(Playing(snapshots, |snapshots|, true, Restoring, ""), BeginRestore);
      ok := RestoreSnapshots(snapshots, Restoring, "");
      if ok {
        snapshots := [];
        ok := Clear();
      }
    }

    /** With everything set back, remove the record and let go of the lock. */
    method Clear() returns (ok: bool)
      requires Valid() && snapshots == [] && host.settings == host.orig && host.Safe()
      requires alive ==> locked && At().Removing? && !At().why.Recovery?
      modifies this`alive, this`locked, host`faults, host`holder, host`file, host`pcs, host`worlds, host`steps
      ensures Valid() && Quiet() && Polite() && host.Safe()
      ensures if ok then host.file.None? else Hit()
    {
      ok := RemoveFile();
      ReleaseLock();
    }
  }
}
