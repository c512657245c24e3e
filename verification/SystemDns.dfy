/** System DNS control with write-ahead recovery: the originals are on disk before any service
    is changed, and a stale file is played back before the next change. Here is what the settings,
    the record and the originals have to do with each other. */
module SystemDns {
  import opened Bytes

  /** A DNS server list as networksetup reports it; "Empty" is its word for the empty list. */
  type Servers = s: seq<string> | s != ["Empty"]

  datatype Snapshot = Snapshot(service: string, servers: Servers)

  /** The list `-setdnsservers` leaves behind for its arguments. */
  function Effect(args: seq<string>): (r: Servers)
    ensures args != ["Empty"] ==> r == args
  {
    if args == ["Empty"] then [] else args
  }

  /** The arguments with which a recorded list is restored. */
  function RestoreArgs(servers: Servers): (args: seq<string>)
    ensures args != [] && Effect(args) == servers
  {
    if servers == [] then ["Empty"] else servers
  }

  /** The record shows only originals. */
  ghost predicate Faithful(snaps: seq<Snapshot>, orig: map<string, Servers>)
  {
    forall i :: 0 <= i < |snaps| ==> snaps[i].service in orig && snaps[i].servers == orig[snaps[i].service]
  }

  ghost predicate Recorded(snaps: seq<Snapshot>, service: string)
  {
    exists i :: 0 <= i < |snaps| && snaps[i].service == service
  }

  /** Every service away from its original is recorded in snaps. */
  ghost predicate Covered(settings: map<string, Servers>, snaps: seq<Snapshot>, orig: map<string, Servers>)
  {
    settings.Keys == orig.Keys && forall s :: s in settings && settings[s] != orig[s] ==> Recorded(snaps, s)
  }

  /** The write-ahead invariant: what differs from the original is in the state file with
      that original. */
  ghost predicate WriteAhead(settings: map<string, Servers>, file: Option<seq<Snapshot>>, orig: map<string, Servers>)
  {
    match file
    case None => settings == orig
    case Some(snaps) => Faithful(snaps, orig) && Covered(settings, snaps, orig)
  }

  /** Restoring all of a covering record restores everything. */
  lemma CoveredRestored(settings: map<string, Servers>, snaps: seq<Snapshot>, orig: map<string, Servers>)
    requires Covered(settings, snaps, orig) && Faithful(snaps, orig)
    requires forall i :: 0 <= i < |snaps| ==> settings[snaps[i].service] == snaps[i].servers
    ensures settings == orig
  {
    forall s | s in settings
      ensures settings[s] == orig[s]
    {
      if Recorded(snaps, s) {
        var i :| 0 <= i < |snaps| && snaps[i].service == s;
      }
    }
  }

  lemma CoveredUpdate(settings: map<string, Servers>, snaps: seq<Snapshot>, orig: map<string, Servers>, i: nat, v: Servers)
    requires Covered(settings, snaps, orig) && i < |snaps| && snaps[i].service in settings
    ensures Covered(settings[snaps[i].service := v], snaps, orig)
  {
  }

  /** The records from index on were played back, if all went well. */
  ghost predicate Undone(settings: map<string, Servers>, snaps: seq<Snapshot>, orig: map<string, Servers>, index: nat, ok: bool)
  {
    && Faithful(snaps, orig) && Covered(settings, snaps, orig)
    && (ok ==> forall i :: index <= i < |snaps| ==> settings[snaps[i].service] == snaps[i].servers)
  }

  lemma UndoneStep(s: map<string, Servers>, t: map<string, Servers>, snaps: seq<Snapshot>, orig: map<string, Servers>,
                   index: nat, ok: bool, done: bool)
    requires index < |snaps| && Undone(s, snaps, orig, index + 1, ok)
    requires t == s || t == s[snaps[index].service := snaps[index].servers]
    requires done ==> snaps[index].service in t && t[snaps[index].service] == snaps[index].servers
    ensures Undone(t, snaps, orig, index, ok && done) && snaps[index].service in s
    ensures s == orig ==> t == orig
  {
    CoveredUpdate(s, snaps, orig, index, snaps[index].servers);
  }

  datatype Failure = NoInterface | NoServer | LockFailed | RecoveryFailed | ListFailed | NoService | ReadFailed | WriteFailed | SetFailed

  ghost predicate Lists(snaps: seq<Snapshot>, services: seq<string>)
  {
    |snaps| == |services| && forall i :: 0 <= i < |snaps| ==> snaps[i].service == services[i]
  }

  /** There is a service to change, and all of them exist. */
  ghost predicate Known(services: Option<seq<string>>, orig: map<string, Servers>)
  {
    services.Some? && services.value != [] && forall i :: 0 <= i < |services.value| ==> services.value[i] in orig
  }

  /** Exactly the recorded services point at `server`; the others are at their originals. */
  ghost predicate Applied(settings: map<string, Servers>, snaps: seq<Snapshot>, server: string, orig: map<string, Servers>)
  {
    && settings.Keys == orig.Keys
    && forall s :: s in settings ==> settings[s] == if Recorded(snaps, s) then Effect([server]) else orig[s]
  }
}
