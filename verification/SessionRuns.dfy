/** One session from start to close: the goroutine that sets it up and then watches over it, the one
    that closes it, and what they do to its state and to the runtimes and networks it makes. */
module SessionRuns {
  import opened Bytes
  import opened Session

  /** Where the goroutine of start stands, which goes on as that of monitorRuntime and reconnect.
      rt and nw are the runtime and the network it has in its hands. */
  datatype Worker =
    | Unstarted
    | Setup(stage: nat, broken: bool)
    | Settling(rt: nat, nw: nat)
    | Settled(rt: nat, nw: nat)
    | Watching(rt: nat)
    | Dropping(rt: nat)
    | Retrying
    | Installing(rt: nat, nw: nat)
    | Failing
    | Marking(seen: State)
    | Gone(failed: bool)

  /** Where close stands. */
  datatype Closer =
    | Open
    | Asking(seen: State)
    | Taking
    | Cleaning(rt: Option<nat>, nw: Option<nat>)
    | Checking
    | Ending(seen: State)
    | Closed

  /** rts and nws say of each runtime and network ever made whether it was closed; `refused` whether
      a transition of close was. */
  datatype Sys = Sys(
    state: State,
    error: bool,
    cancelled: bool,
    runtime: Option<nat>,
    network: Option<nat>,
    rts: seq<bool>,
    nws: seq<bool>,
    worker: Worker,
    closer: Closer,
    refused: bool)

  const START := Sys(Idle, false, false, None, None, [], [], Unstarted, Open, false)

  datatype StartAct = Begin | NextStage | SetupFails | SetupDone(readable: bool) | Keep | Settle

  datatype WatchAct =
    | Leave(ended: bool)
    | Fatal
    | Lose
    | Drop
    | RetryFails(retryable: bool)
    | RetryStops
    | Build(same: bool)
    | InstallBuilt
    | FailRead
    | FailMark

  datatype CloseAct = ReadState | AskStop | TakeFields | Clean | CheckState | End

  datatype Action = Start(start: StartAct) | Watch(watch: WatchAct) | Close(close: CloseAct) | Cancel

  /** The setup goes through its stages in this order. */
  const STAGES := [Idle, DiscoveringAuth, Authenticating, FetchingResources, SelectingNodes, EstablishingTunnel]
  const LAST: nat := 5

  predicate Closing(state: State)
  {
    state.Stopping? || state.Stopped?
  }

  function Move(s: Sys, next: State): (u: Sys)
  {
    s.(state := Moved(s.state, next))
  }

  function Mark(flags: seq<bool>, i: Option<nat>): (r: seq<bool>)
    ensures |r| == |flags|
    ensures forall j :: 0 <= j < |flags| ==> r[j] == (flags[j] || i == Some(j))
  {
    if i.Some? && i.value < |flags| then flags[i.value := true] else flags
  }

  /** Close a runtime and a network. */
  function Release(s: Sys, rt: Option<nat>, nw: Option<nat>): (u: Sys)
  {
    s.(rts := Mark(s.rts, rt), nws := Mark(s.nws, nw))
  }

  function Fail(s: Sys): (u: Sys)
  {
    s.(worker := Failing)
  }

  /** Setup is through: a runtime and its network exist. */
  function Made(s: Sys, broken: bool, readable: bool): (u: Sys)
  {
    var rt, nw := |s.rts|, |s.nws|;
    var t := s.(rts := s.rts + [false], nws := s.nws + [false]);
    if Closing(s.state) then Fail(Release(t, Some(rt), Some(nw)).(cancelled := true))
    else if broken then Fail(t.(cancelled := true))
    else if !readable then Fail(Release(t, Some(rt), Some(nw)).(cancelled := true))
    else t.(worker := Settling(rt, nw))
  }

  /** A reconnect has a candidate; its network is the stable one or its own. */
  function Built(s: Sys, same: bool): (u: Sys)
  {
    var rt := |s.rts|;
    var t := s.(rts := s.rts + [false]);
    if same && s.network.Some? then t.(worker := Installing(rt, s.network.value))
    else t.(nws := s.nws + [false], worker := Installing(rt, |s.nws|))
  }

  function Installed(s: Sys, rt: nat, nw: nat): (u: Sys)
  {
    if s.cancelled || !s.state.Reconnecting? then Release(s, Some(rt), Some(nw)).(worker := Gone(false))
    else
      var t := if s.network == Some(nw) then s else Release(s, None, s.network);
      Move(t, Ready).(error := false, runtime := Some(rt), network := Some(nw), worker := Watching(rt))
  }

  predicate StartEnabled(s: Sys, a: StartAct)
  {
    match a
    case Begin => s.worker.Unstarted?
    case NextStage => s.worker.Setup? && s.worker.stage < LAST
    case SetupFails => s.worker.Setup?
    case SetupDone(_) => s.worker.Setup? && s.worker.stage == LAST
    case Keep => s.worker.Settling?
    case Settle => s.worker.Settled?
  }

  function DoStart(s: Sys, a: StartAct): (u: Sys)
    requires StartEnabled(s, a)
  {
    match a
    case Begin => s.(worker := Setup(0, false))
    case NextStage =>
      var next := STAGES[s.worker.stage + 1];
      Move(s, next).(worker := Setup(s.worker.stage + 1, s.worker.broken || !CanTransition(s.state, next)))
    case SetupFails => Fail(s.(cancelled := true))
    case SetupDone(readable) => Made(s, s.worker.broken, readable)
    case Keep => s.(runtime := Some(s.worker.rt), network := Some(s.worker.nw), worker := Settled(s.worker.rt, s.worker.nw))
    case Settle =>
      if CanTransition(s.state, Ready) then Move(s, Ready).(worker := Watching(s.worker.rt))
      else Fail(Release(s, Some(s.worker.rt), Some(s.worker.nw)).(cancelled := true))
  }

  predicate WatchEnabled(s: Sys, a: WatchAct)
  {
    match a
    case Leave(ended) => s.worker.Watching? && (ended || s.cancelled)
    case Fatal => s.worker.Watching?
    case Lose => s.worker.Watching?
    case Drop => s.worker.Dropping?
    case RetryFails(_) => s.worker.Retrying?
    case RetryStops => s.worker.Retrying? && s.cancelled
    case Build(_) => s.worker.Retrying?
    case InstallBuilt => s.worker.Installing?
    case FailRead => s.worker.Failing?
    case FailMark => s.worker.Marking?
  }

  function DoWatch(s: Sys, a: WatchAct): (u: Sys)
    requires WatchEnabled(s, a)
  {
    match a
    case Leave(_) => s.(worker := Gone(false))
    case Fatal => Fail(Release(s, Some(s.worker.rt), s.network))
    case Lose =>
      if CanTransition(s.state, Reconnecting) then Move(s, Reconnecting).(worker := Dropping(s.worker.rt))
      else s.(worker := Gone(false))
    case Drop =>
      Release(s, Some(s.worker.rt), None).(
        runtime := if s.runtime == Some(s.worker.rt) then None else s.runtime, worker := Retrying)
    case RetryFails(retryable) =>
      if retryable then s.(error := true) else Fail(Release(s, None, s.network).(error := true))
    case RetryStops => s.(worker := Gone(false))
    case Build(same) => Built(s, same)
    case InstallBuilt => Installed(s, s.worker.rt, s.worker.nw)
    case FailRead => s.(error := true, worker := Marking(s.state))
    case FailMark =>
      (if Closing(s.worker.seen) || s.worker.seen.Failed? then s else Move(s, Failed)).(worker := Gone(true))
  }

  predicate CloseEnabled(s: Sys, a: CloseAct)
  {
    match a
    case ReadState => s.closer.Open?
    case AskStop => s.closer.Asking?
    case TakeFields => s.closer.Taking?
    case Clean => s.closer.Cleaning?
    case CheckState => s.closer.Checking?
    case End => s.closer.Ending?
  }

  function DoClose(s: Sys, a: CloseAct): (u: Sys)
    requires CloseEnabled(s, a)
  {
    match a
    case ReadState => s.(cancelled := s.cancelled || !s.worker.Unstarted?, closer := Asking(s.state))
    case AskStop =>
      if Closing(s.closer.seen) then s.(closer := Taking)
      else Move(s, Stopping).(closer := Taking, refused := s.refused || !CanTransition(s.state, Stopping))
    case TakeFields => s.(closer := Cleaning(s.runtime, s.network))
    case Clean => Release(s, s.closer.rt, s.closer.nw).(closer := Checking)
    case CheckState => s.(closer := Ending(s.state))
    case End =>
      if s.closer.seen.Stopped? then s.(closer := Closed)
      else Move(s, Stopped).(closer := Closed, refused := s.refused || !CanTransition(s.state, Stopped))
  }

  predicate Enabled(s: Sys, a: Action)
  {
    match a
    case Start(b) => StartEnabled(s, b)
    case Watch(b) => WatchEnabled(s, b)
    case Close(b) => CloseEnabled(s, b)
    case Cancel => true
  }

  function Do(s: Sys, a: Action): (u: Sys)
    requires Enabled(s, a)
  {
    match a
    case Start(b) => DoStart(s, b)
    case Watch(b) => DoWatch(s, b)
    case Close(b) => DoClose(s, b)
    case Cancel => s.(cancelled := true)
  }

  // ---------------------------------------------------------------------------------
  // What every step keeps: the state

  /** The state, as far as the worker determines it; a close may have come first. */
  ghost predicate WorkerOk(s: Sys)
  {
    match s.worker
    case Unstarted => !s.error && (s.state.Idle? || Closing(s.state))
    case Setup(stage, broken) =>
      !s.error && stage <= LAST && (Closing(s.state) || (!broken && s.state == STAGES[stage]))
    case Settling(_, _) => !s.error && (Closing(s.state) || s.state.EstablishingTunnel?)
    case Settled(_, _) => !s.error && (Closing(s.state) || s.state.EstablishingTunnel?)
    case Watching(_) => !s.error && (Closing(s.state) || s.state.Ready?)
    case Dropping(_) => Closing(s.state) || s.state.Reconnecting?
    case Retrying => Closing(s.state) || s.state.Reconnecting?
    case Installing(_, _) => Closing(s.state) || s.state.Reconnecting?
    case Failing => !s.state.Failed?
    case Marking(seen) => s.error && !s.state.Failed? && !seen.Failed? && (Closing(seen) ==> Closing(s.state))
    case Gone(failed) =>
      if failed then s.error && (Closing(s.state) || s.state.Failed?)
      else Closing(s.state) || s.state.Ready? || (s.state.Reconnecting? && s.cancelled)
  }

  /** Nobody but close stops a session. */
  ghost predicate CloserOk(s: Sys)
  {
    && !s.refused
    && match s.closer
       case Open => !Closing(s.state)
       case Asking(seen) => !Closing(s.state) && !Closing(seen)
       case Ending(seen) => s.state.Stopping? && seen.Stopping?
       case Closed => s.state.Stopped?
       case _ => s.state.Stopping?
  }

  ghost predicate StateOk(s: Sys)
  {
    WorkerOk(s) && CloserOk(s)
  }

  /** A step leaves the state or goes along the table. */
  predicate Moves(from: State, to: State)
  {
    to == from || CanTransition(from, to)
  }

  lemma CloseKeepsState(s: Sys, a: CloseAct)
    requires StateOk(s) && CloseEnabled(s, a)
    ensures StateOk(DoClose(s, a)) && Moves(s.state, DoClose(s, a).state)
  {
  }

  lemma StartKeepsState(s: Sys, a: StartAct)
    requires StateOk(s) && StartEnabled(s, a)
    ensures StateOk(DoStart(s, a)) && Moves(s.state, DoStart(s, a).state)
  {
  }

  lemma WatchKeepsState(s: Sys, a: WatchAct)
    requires StateOk(s) && WatchEnabled(s, a)
    ensures StateOk(DoWatch(s, a)) && Moves(s.state, DoWatch(s, a).state)
  {
    match a
    case Lose => WatchMoves(s, a);
    case InstallBuilt => WatchMoves(s, a);
    case FailMark => WatchMoves(s, a);
    case _ =>
  }

  /** The steps of the worker, after its start, that change the state. */
  lemma WatchMoves(s: Sys, a: WatchAct)
    requires StateOk(s) && WatchEnabled(s, a) && (a.Lose? || a.InstallBuilt? || a.FailMark?)
    ensures StateOk(DoWatch(s, a)) && Moves(s.state, DoWatch(s, a).state)
  {
  }

  lemma StateKeeps(s: Sys, a: Action)
    requires StateOk(s) && Enabled(s, a)
    ensures StateOk(Do(s, a)) && Moves(s.state, Do(s, a).state)
  {
    match a
    case Start(b) => StartKeepsState(s, b);
    case Watch(b) => WatchKeepsState(s, b);
    case Close(b) => CloseKeepsState(s, b);
    case Cancel =>
  }

  // ---------------------------------------------------------------------------------
  // What every step keeps: the runtimes and networks

  /** The runtime, and the network, that only the worker can close. */
  function HeldRt(w: Worker): (i: Option<nat>)
  {
    match w
    case Settling(rt, _) => Some(rt)
    case Settled(rt, _) => Some(rt)
    case Dropping(rt) => Some(rt)
    case Installing(rt, _) => Some(rt)
    case _ => None
  }

  function HeldNw(w: Worker): (i: Option<nat>)
  {
    match w
    case Settling(_, nw) => Some(nw)
    case Settled(_, nw) => Some(nw)
    case Installing(_, nw) => Some(nw)
    case _ => None
  }

  /** The runtimes, or the networks: which are closed, the session's field, the one only the worker
      can close, and of close whether it has yet to read the field and the one it took. */
  datatype Cell = Cell(flags: seq<bool>, field: Option<nat>, held: Option<nat>, untaken: bool, taken: Option<nat>)

  function RtCell(s: Sys): (c: Cell)
  {
    Cell(s.rts, s.runtime, HeldRt(s.worker), Untaken(s.closer), if s.closer.Cleaning? then s.closer.rt else None)
  }

  function NwCell(s: Sys): (c: Cell)
  {
    Cell(s.nws, s.network, HeldNw(s.worker), Untaken(s.closer), if s.closer.Cleaning? then s.closer.nw else None)
  }

  /** Close has not read the session's fields yet. */
  predicate Untaken(c: Closer)
  {
    c.Open? || c.Asking? || c.Taking?
  }

  predicate Within(flags: seq<bool>, i: Option<nat>)
  {
    i.Some? ==> i.value < |flags|
  }

  predicate Safe(c: Cell, i: nat)
    requires i < |c.flags|
  {
    c.flags[i] || c.held == Some(i) || (c.untaken && c.field == Some(i)) || c.taken == Some(i)
  }

  /** Nothing open is forgotten, and what close took is still in the field, or closed already. */
  ghost predicate CellOk(c: Cell)
  {
    && Within(c.flags, c.field) && Within(c.flags, c.held) && Within(c.flags, c.taken)
    && (c.taken.Some? ==> c.taken == c.field || c.flags[c.taken.value])
    && forall i :: 0 <= i < |c.flags| ==> Safe(c, i)
  }

  ghost predicate AllClosed(flags: seq<bool>)
  {
    forall i :: 0 <= i < |flags| ==> flags[i]
  }

  /** A new one, in the worker's hands. */
  lemma CellMake(c: Cell)
    requires CellOk(c) && c.held.None?
    ensures CellOk(c.(flags := c.flags + [false], held := Some(|c.flags|)))
  {
    var d := c.(flags := c.flags + [false], held := Some(|c.flags|));
    forall i | 0 <= i < |d.flags|
      ensures Safe(d, i)
    {
      assert i < |c.flags| ==> Safe(c, i);
    }
  }

  /** The worker closes what it has in its hands. */
  lemma CellFree(c: Cell)
    requires CellOk(c)
    ensures CellOk(c.(flags := Mark(c.flags, c.held), held := None))
  {
    var d := c.(flags := Mark(c.flags, c.held), held := None);
    forall i | 0 <= i < |d.flags|
      ensures Safe(d, i)
    {
      assert Safe(c, i);
    }
  }

  lemma CellClosed(c: Cell)
    requires AllClosed(c.flags) && Within(c.flags, c.field) && Within(c.flags, c.held) && Within(c.flags, c.taken)
    ensures CellOk(c)
  {
  }

  /** The worker closes what the field has; if it holds nothing else, everything is closed. */
  lemma CellEmpty(c: Cell)
    requires CellOk(c) && (c.held.None? || c.held == c.field)
    ensures AllClosed(Mark(c.flags, c.field)) && CellOk(c.(flags := Mark(c.flags, c.field), held := None))
    ensures CellOk(c.(flags := Mark(c.flags, c.field), field := None, held := None))
  {
    var flags := Mark(c.flags, c.field);
    forall i | 0 <= i < |flags|
      ensures flags[i]
    {
      assert Safe(c, i);
    }
    CellClosed(c.(flags := flags, held := None));
    CellClosed(c.(flags := flags, field := None, held := None));
  }

  /** The worker takes in hand what the field has ... */
  lemma CellHold(c: Cell)
    requires CellOk(c) && c.held.None?
    ensures CellOk(c.(held := c.field))
  {
    var d := c.(held := c.field);
    forall i | 0 <= i < |d.flags|
      ensures Safe(d, i)
    {
      assert Safe(c, i);
    }
  }

  /** ... or leaves it to close. */
  lemma CellLeave(c: Cell)
    requires CellOk(c) && c.untaken && c.held == c.field
    ensures CellOk(c.(held := None))
  {
    var d := c.(held := None);
    forall i | 0 <= i < |d.flags|
      ensures Safe(d, i)
    {
      assert Safe(c, i);
    }
  }

  /** What the worker holds goes into the field, and what was there is closed unless it is that. */
  lemma CellInstall(c: Cell)
    requires CellOk(c) && c.held.Some?
    ensures CellOk(c.(flags := if c.field == c.held then c.flags else Mark(c.flags, c.field), field := c.held))
  {
    var flags := if c.field == c.held then c.flags else Mark(c.flags, c.field);
    var d := c.(flags := flags, field := c.held);
    forall i | 0 <= i < |flags|
      ensures Safe(d, i)
    {
      assert Safe(c, i);
    }
  }

  /** Close reads the field ... */
  lemma CellTake(c: Cell)
    requires CellOk(c) && c.untaken && c.taken.None?
    ensures CellOk(c.(untaken := false, taken := c.field))
  {
    var d := c.(untaken := false, taken := c.field);
    forall i | 0 <= i < |d.flags|
      ensures Safe(d, i)
    {
      assert Safe(c, i);
    }
  }

  /** ... and closes what it took. */
  lemma CellClean(c: Cell)
    requires CellOk(c) && !c.untaken
    ensures CellOk(c.(flags := Mark(c.flags, c.taken), taken := None))
  {
    var d := c.(flags := Mark(c.flags, c.taken), taken := None);
    forall i | 0 <= i < |d.flags|
      ensures Safe(d, i)
    {
      assert Safe(c, i);
    }
  }

  /** How the session's fields go with what the worker has in its hands. */
  ghost predicate FieldsOk(s: Sys)
  {
    match s.worker
    case Unstarted => s.runtime.None? && s.network.None? && s.rts == [] && s.nws == []
    case Setup(_, _) => s.runtime.None? && s.network.None? && s.rts == [] && s.nws == []
    case Settling(_, _) => s.runtime.None? && s.network.None?
    case Settled(rt, nw) => s.runtime == Some(rt) && s.network == Some(nw)
    case Watching(rt) => s.runtime == Some(rt)
    case Dropping(rt) => s.runtime == Some(rt)
    case Retrying => s.runtime.None?
    case Installing(_, _) => s.runtime.None?
    case Gone(failed) => failed ==> AllClosed(s.rts) && AllClosed(s.nws)
    case _ => AllClosed(s.rts) && AllClosed(s.nws)
  }

  ghost predicate Kept(s: Sys)
  {
    CellOk(RtCell(s)) && CellOk(NwCell(s)) && FieldsOk(s)
  }

  ghost predicate Inv(s: Sys)
  {
    StateOk(s) && Kept(s)
  }

  lemma TakeKeeps(s: Sys)
    requires Inv(s) && s.closer.Taking?
    ensures Kept(DoClose(s, TakeFields))
  {
    CellTake(RtCell(s));
    CellTake(NwCell(s));
  }

  lemma CleanKeeps(s: Sys)
    requires Inv(s) && s.closer.Cleaning?
    ensures Kept(DoClose(s, Clean))
  {
    CellClean(RtCell(s));
    CellClean(NwCell(s));
  }

  /** Everything else is about the state. */
  lemma SameKept(s: Sys, u: Sys)
    requires Kept(s) && u.worker == s.worker && (u.closer.Cleaning? || s.closer.Cleaning? ==> u.closer == s.closer)
    requires Untaken(u.closer) == Untaken(s.closer)
    requires u.runtime == s.runtime && u.network == s.network && u.rts == s.rts && u.nws == s.nws
    ensures Kept(u)
  {
    assert RtCell(u) == RtCell(s) && NwCell(u) == NwCell(s);
  }

  lemma CloseKeeps(s: Sys, a: CloseAct)
    requires Inv(s) && CloseEnabled(s, a)
    ensures Kept(DoClose(s, a))
  {
    match a
    case TakeFields => TakeKeeps(s);
    case Clean => CleanKeeps(s);
    case _ => SameKept(s, DoClose(s, a));
  }

  lemma MadeKeeps(s: Sys, readable: bool)
    requires Inv(s) && StartEnabled(s, SetupDone(readable))
    ensures Kept(Made(s, s.worker.broken, readable))
  {
    CellMake(RtCell(s));
    CellMake(NwCell(s));
    CellClosed(RtCell(s).(flags := [true]));
    CellClosed(NwCell(s).(flags := [true]));
  }

  lemma KeepKeeps(s: Sys)
    requires Inv(s) && s.worker.Settling?
    ensures Kept(DoStart(s, Keep))
  {
    CellInstall(RtCell(s));
    CellInstall(NwCell(s));
  }

  lemma SettleKeeps(s: Sys)
    requires Inv(s) && s.worker.Settled?
    ensures Kept(DoStart(s, Settle))
  {
    if CanTransition(s.state, Ready) {
      CellLeave(RtCell(s));
      CellLeave(NwCell(s));
    } else {
      CellEmpty(RtCell(s));
      CellEmpty(NwCell(s));
    }
  }

  lemma StartKeeps(s: Sys, a: StartAct)
    requires Inv(s) && StartEnabled(s, a)
    ensures Kept(DoStart(s, a))
  {
    match a
    case SetupDone(readable) => MadeKeeps(s, readable);
    case Keep => KeepKeeps(s);
    case Settle => SettleKeeps(s);
    case _ =>
      var u := DoStart(s, a);
      assert RtCell(u) == RtCell(s) && NwCell(u) == NwCell(s);
  }

  lemma FatalKeeps(s: Sys)
    requires Inv(s) && s.worker.Watching?
    ensures Kept(DoWatch(s, Fatal))
  {
    CellEmpty(RtCell(s));
    CellEmpty(NwCell(s));
  }

  lemma LoseKeeps(s: Sys)
    requires Inv(s) && s.worker.Watching?
    ensures Kept(DoWatch(s, Lose))
  {
    CellHold(RtCell(s));
  }

  lemma DropKeeps(s: Sys)
    requires Inv(s) && s.worker.Dropping?
    ensures Kept(DoWatch(s, Drop))
  {
    CellEmpty(RtCell(s));
  }

  lemma RetryKeeps(s: Sys, retryable: bool)
    requires Inv(s) && s.worker.Retrying?
    ensures Kept(DoWatch(s, RetryFails(retryable)))
  {
    if !retryable {
      CellEmpty(RtCell(s));
      CellEmpty(NwCell(s));
    }
  }

  lemma BuiltKeeps(s: Sys, same: bool)
    requires Inv(s) && s.worker.Retrying?
    ensures Kept(Built(s, same))
  {
    CellMake(RtCell(s));
    if same && s.network.Some? {
      CellHold(NwCell(s));
    } else {
      CellMake(NwCell(s));
    }
  }

  lemma InstalledKeeps(s: Sys)
    requires Inv(s) && s.worker.Installing?
    ensures Kept(Installed(s, s.worker.rt, s.worker.nw))
  {
    if s.cancelled || !s.state.Reconnecting? {
      CellFree(RtCell(s));
      CellFree(NwCell(s));
    } else {
      var u := Installed(s, s.worker.rt, s.worker.nw);
      CellInstall(RtCell(s));
      CellInstall(NwCell(s));
      CellLeave(RtCell(u).(held := u.runtime));
      CellLeave(NwCell(u).(held := u.network));
    }
  }

  lemma WatchKeeps(s: Sys, a: WatchAct)
    requires Inv(s) && WatchEnabled(s, a)
    ensures Kept(DoWatch(s, a))
  {
    match a
    case Fatal => FatalKeeps(s);
    case Lose => LoseKeeps(s);
    case Drop => DropKeeps(s);
    case RetryFails(retryable) => RetryKeeps(s, retryable);
    case Build(same) => BuiltKeeps(s, same);
    case InstallBuilt => InstalledKeeps(s);
    case _ => RestKeeps(s, a);
  }

  lemma RestKeeps(s: Sys, a: WatchAct)
    requires Inv(s) && WatchEnabled(s, a) && (a.Leave? || a.RetryStops? || a.FailRead? || a.FailMark?)
    ensures Kept(DoWatch(s, a))
  {
    var u := DoWatch(s, a);
    assert RtCell(u) == RtCell(s) && NwCell(u) == NwCell(s);
  }

  lemma DoKeeps(s: Sys, a: Action)
    requires Inv(s) && Enabled(s, a)
    ensures Inv(Do(s, a))
  {
    StateKeeps(s, a);
    match a
    case Start(b) => StartKeeps(s, b);
    case Watch(b) => WatchKeeps(s, b);
    case Close(b) => CloseKeeps(s, b);
    case Cancel => SameKept(s, Do(s, a));
  }

  // ---------------------------------------------------------------------------------
  // Whole runs

  ghost predicate Run(states: seq<Sys>, steps: seq<Action>)
  {
    && |states| == |steps| + 1 && states[0] == START
    && forall i :: 0 <= i < |steps| ==> Enabled(states[i], steps[i]) && states[i + 1] == Do(states[i], steps[i])
  }

  lemma {:induction false} RunInv(states: seq<Sys>, steps: seq<Action>, n: nat)
    requires Run(states, steps) && n < |states|
    ensures Inv(states[n])
  {
    if n > 0 {
      RunInv(states, steps, n - 1);
      DoKeeps(states[n - 1], steps[n - 1]);
    }
  }

  /** The states a run has passed through up to its state n. */
  ghost function Trace(states: seq<Sys>, n: nat): (trace: seq<State>)
    requires n < |states|
    ensures trace != [] && trace[|trace| - 1] == states[n].state
  {
    if n == 0 then [states[0].state]
    else
      var before := Trace(states, n - 1);
      if states[n].state == states[n - 1].state then before else before + [states[n].state]
  }

  /** They form a path of the table, and no transition that close asked for was refused. */
  lemma {:induction false} RunPath(states: seq<Sys>, steps: seq<Action>, n: nat)
    requires Run(states, steps) && n < |states|
    ensures Path(Trace(states, n)) && !states[n].refused
  {
    RunInv(states, steps, n);
    if n > 0 {
      RunPath(states, steps, n - 1);
      RunInv(states, steps, n - 1);
      StateKeeps(states[n - 1], steps[n - 1]);
      PathMore(Trace(states, n - 1), states[n].state);
    }
  }

  lemma PathMore(trace: seq<State>, next: State)
    requires Path(trace) && Moves(trace[|trace| - 1], next)
    ensures next != trace[|trace| - 1] ==> Path(trace + [next])
  {
  }

  lemma ClosingIff(trace: seq<State>)
    requires Path(trace)
    ensures Closing(trace[|trace| - 1]) <==> Stopping in trace
  {
    var last := |trace| - 1;
    if Stopping in trace {
      var k :| 0 <= k < |trace| && trace[k] == Stopping;
      PathRises(trace, k, last);
    }
    if trace[last].Stopped? {
      assert CanTransition(trace[last - 1], trace[last]);
      assert trace[last - 1] == Stopping;
    }
  }

  /** Once failWith is through, the error is recorded, everything the session made is closed, and it
      is failed exactly if no close came in between; then it is stopping or stopped. And a session
      is failed only then. */
  lemma RunFailed(states: seq<Sys>, steps: seq<Action>, n: nat)
    requires Run(states, steps) && n < |states|
    ensures states[n].state.Failed? ==> states[n].worker == Gone(true)
    ensures states[n].worker == Gone(true) ==>
              && states[n].error && AllClosed(states[n].rts) && AllClosed(states[n].nws)
              && (states[n].state.Failed? <==> Stopping !in Trace(states, n))
              && (!states[n].state.Failed? ==> Closing(states[n].state))
  {
    RunInv(states, steps, n);
    FailedOk(states[n]);
    RunPath(states, steps, n);
    ClosingIff(Trace(states, n));
  }

  lemma FailedOk(s: Sys)
    requires Inv(s)
    ensures s.state.Failed? ==> s.worker == Gone(true)
    ensures s.worker == Gone(true) ==> s.error && AllClosed(s.rts) && AllClosed(s.nws) && (s.state.Failed? || Closing(s.state))
  {
  }

  /** After close the session is stopped; and when the goroutine that worked on it has ended too,
      every runtime and every network it ever made has been closed. */
  lemma RunClosed(states: seq<Sys>, steps: seq<Action>, n: nat)
    requires Run(states, steps) && n < |states| && states[n].closer.Closed?
    ensures states[n].state.Stopped?
    ensures states[n].worker.Unstarted? || states[n].worker.Gone? ==> AllClosed(states[n].rts) && AllClosed(states[n].nws)
  {
    RunInv(states, steps, n);
    ReleasedBy(RtCell(states[n]));
    ReleasedBy(NwCell(states[n]));
  }

  lemma ReleasedBy(c: Cell)
    requires CellOk(c) && !c.untaken && c.taken.None?
    ensures c.held.None? ==> AllClosed(c.flags)
  {
    forall i | 0 <= i < |c.flags| && c.held.None?
      ensures c.flags[i]
    {
      assert Safe(c, i);
    }
  }

  /** And it stays so. */
  lemma {:induction false} RunStays(states: seq<Sys>, steps: seq<Action>, m: nat, n: nat)
    requires Run(states, steps) && m <= n < |states| && states[m].closer.Closed?
    ensures states[n].closer.Closed? && states[n].state.Stopped?
    decreases n
  {
    RunInv(states, steps, n);
    if m < n {
      RunStays(states, steps, m, n - 1);
      StaysClosed(states[n - 1], steps[n - 1]);
    }
  }

  lemma StaysClosed(s: Sys, a: Action)
    requires Enabled(s, a) && s.closer.Closed?
    ensures Do(s, a).closer.Closed?
  {
    match a
    case Start(b) => assert DoStart(s, b).closer == s.closer;
    case Watch(b) => assert DoWatch(s, b).closer == s.closer;
    case _ =>
  }

  /** A session is never left reconnecting unless its context was cancelled, and a watched session
      has no error. */
  lemma RunAttended(states: seq<Sys>, steps: seq<Action>, n: nat)
    requires Run(states, steps) && n < |states|
    ensures states[n].state.Reconnecting? && states[n].worker.Gone? ==> states[n].cancelled
    ensures states[n].worker.Watching? ==> !states[n].error && (states[n].state.Ready? || Closing(states[n].state))
  {
    RunInv(states, steps, n);
  }

  /** Unless it is being closed, a session enters every stage of its setup, and gets ready after it. */
  lemma RunSettles(states: seq<Sys>, steps: seq<Action>, n: nat)
    requires Run(states, steps) && n < |steps| && !Closing(states[n].state)
    ensures steps[n] == Start(NextStage) ==> states[n + 1].state == STAGES[states[n].worker.stage + 1]
    ensures steps[n] == Start(Settle) ==> states[n + 1].state.Ready? && states[n + 1].worker == Watching(states[n].worker.rt)
  {
    RunInv(states, steps, n);
  }

  lemma RunMore(states: seq<Sys>, steps: seq<Action>, a: Action, u: Sys) returns (more: seq<Sys>, acts: seq<Action>)
    requires Run(states, steps) && Enabled(states[|steps|], a) && u == Do(states[|steps|], a)
    ensures Run(more, acts) && more == states + [u] && acts == steps + [a]
  {
    more, acts := states + [u], steps + [a];
    forall i | 0 <= i < |acts|
      ensures Enabled(more[i], acts[i]) && more[i + 1] == Do(more[i], acts[i])
    {
      if i < |steps| {
        assert more[i] == states[i] && more[i + 1] == states[i + 1] && acts[i] == steps[i];
      }
    }
  }

  /** A setup that failed at once, between the two critical sections of failWith. */
  lemma FailingRun() returns (states: seq<Sys>, steps: seq<Action>)
    ensures Run(states, steps) && |steps| == 3
    ensures states[3] == START.(worker := Marking(Idle), error := true, cancelled := true)
  {
    states, steps := [START], [];
    states, steps := RunMore(states, steps, Start(Begin), START.(worker := Setup(0, false)));
    states, steps := RunMore(states, steps, Start(SetupFails), START.(worker := Failing, cancelled := true));
    states, steps := RunMore(states, steps, Watch(FailRead), START.(worker := Marking(Idle), error := true, cancelled := true));
  }

  /** failWith reads the state and asks for failed in two critical sections; a close between them
      leaves the session stopping. */
  lemma CloseBeatsFailure() returns (states: seq<Sys>, steps: seq<Action>)
    ensures Run(states, steps) && |steps| == 6
    ensures states[3].worker == Marking(Idle) && states[6].worker == Gone(true) && states[6].state.Stopping?
  {
    states, steps := FailingRun();
    var s := states[3];
    var t := s.(closer := Asking(Idle));
    var u := s.(state := Stopping, closer := Taking);
    states, steps := RunMore(states, steps, Close(ReadState), t);
    states, steps := RunMore(states, steps, Close(AskStop), u);
    states, steps := RunMore(states, steps, Watch(FailMark), u.(worker := Gone(true)));
  }
}
