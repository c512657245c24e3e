/** The configuration controller: what is configured, what is active, and the session the
    manager has. */
module Controller {
  import opened Bytes
  import opened Config

  datatype Error = Invalid | NotInitialized | AlreadyInitialized | BadRequest | RestartRequired
                 | SessionRunning | ResumeInvalid | ResumeScope | StartFailed | RollbackFailed | ManagerFailed

  datatype ResumePolicy = Auto | NoResume | Provided(state: Option<Resume>) | Unknown

  /** The manager's session: what it was made for, the mode it was last set to, and whether its
      start succeeded. */
  datatype Session = Session(id: string, config: CoreConfig, mode: string, started: bool)

  /** The controller's fields, and the manager's: its session and how many ids it has made up. */
  datatype State = State(
    configured: Config,
    active: Config,
    revision: nat,
    activeRevision: nat,
    initialized: bool,
    sessionID: string,
    resume: Option<Resume>,
    current: Option<Session>,
    named: nat)

  /** How a start of the manager goes: refused before there is a session, maybe after making up an
      id; with a session that fails to start; or with one that runs. */
  datatype Answer = Refused(named: bool) | Broken | Running

  predicate ModeValid(mode: string)
  {
    mode in {"global", "rule", "direct"}
  }

  function WithMode(c: Config, mode: string): (d: Config)
  {
    c.(routing := c.routing.(mode := mode))
  }

  // ---------------------------------------------------------------------------------
  // The operations, given what the manager answers

  function Decimal(n: nat): (digits: string)
    ensures digits != ""
  {
    (if n < 10 then "" else Decimal(n / 10)) + [('0' as int + n % 10) as char]
  }

  /** The id of the next session: the configured one, or a made-up name. */
  function NewID(named: nat, c: CoreConfig): (id: string)
    ensures id != ""
  {
    if c.sessionID != "" then c.sessionID else "session-" + Decimal(named + 1)
  }

  /** Manager.Start: the new session becomes the current one before it is started; the result is
      its id if that succeeds. */
  function Start(s: State, c: CoreConfig, answer: Answer): (r: (State, Option<string>))
    ensures r.0 == s.(current := r.0.current, named := r.0.named) && (r.1.Some? <==> answer.Running?)
  {
    var id := NewID(s.named, c);
    var t := s.(named := if c.sessionID == "" && answer != Refused(false) then s.named + 1 else s.named);
    if answer.Refused? then (t, None)
    else (t.(current := Some(Session(id, c, c.routingMode, answer.Running?))), if answer.Running? then Some(id) else None)
  }

  function StartFor(s: State, config: Config, answer: Answer): (r: (State, Option<string>))
    ensures r.0 == s.(current := r.0.current, named := r.0.named) && (r.1.Some? <==> answer.Running?)
  {
    Start(s, WithResume(CoreConfigOf(config), s.resume), answer)
  }

  /** The manager's session goes by this id. */
  predicate Known(s: State, id: string)
  {
    s.current.Some? && s.current.value.id == id
  }

  /** Manager.SetRoutingMode, with the answer of the session if it is the one asked for. */
  function Told(s: State, id: string, mode: string, ok: bool): (r: (State, bool))
  {
    if Known(s, id) && ok then (s.(current := Some(s.current.value.(mode := mode))), true) else (s, false)
  }

  /** cacheResumeStateLocked, with the resume state of the session if it has one. */
  function Cache(s: State, id: string, resume: Option<Resume>): (t: State)
  {
    if Known(s, id) && resume.Some? then s.(resume := resume) else s
  }

  /** setActiveConfig */
  function Activate(s: State, config: Config, id: string): (t: State)
  {
    s.(active := config, activeRevision := s.activeRevision + 1, sessionID := id)
  }

  function Adopt(s: State, config: Config, id: string): (t: State)
  {
    s.(configured := config, active := config, revision := 1, activeRevision := 1, initialized := true, sessionID := id)
  }

  function Initialized(s: State, config: Config, valid: bool, answer: Answer): (r: (State, Option<Error>))
  {
    if !valid then (s, Some(Invalid))
    else if s.initialized then (s, Some(AlreadyInitialized))
    else if !config.session.autoStart then (Adopt(s, config, ""), None)
    else
      var (t, id) := StartFor(s, config, answer);
      if id.None? then (t, Some(StartFailed)) else (Adopt(t, config, id.value), None)
  }

  /** The configuration that becomes active when `config` is accepted. */
  function NextActive(s: State, config: Config): (active: Config)
  {
    if s.sessionID == "" then Candidate(WithMode(s.active, config.routing.mode), config)
    else WithMode(s.active, config.routing.mode)
  }

  /** setConfigLocked; ok answers the mode change of a running session. */
  function ConfigSet(s: State, config: Config, valid: bool, allowCore: bool, ok: bool): (r: (State, Option<Error>))
  {
    if !valid then (s, Some(Invalid))
    else if !s.initialized then (s, Some(NotInitialized))
    else if config == s.configured then (s, None)
    else if !allowCore && CoreOf(config) != CoreOf(s.configured) then (s, Some(RestartRequired))
    else Accepted(s, config, ok)
  }

  /** The part behind the checks. */
  function Accepted(s: State, config: Config, ok: bool): (r: (State, Option<Error>))
  {
    var tell := s.sessionID != "" && config.routing.mode != s.active.routing.mode;
    var (t, told) := if tell then Told(s, s.sessionID, config.routing.mode, ok) else (s, true);
    if !told then (s, Some(ManagerFailed))
    else
      var next := NextActive(s, config);
      (t.(configured := config, active := next, revision := s.revision + 1,
          activeRevision := if next == s.active then s.activeRevision else s.activeRevision + 1), None)
  }

  /** ApplyConfig: first and second answer the start of the candidate and of the rollback. */
  function ConfigApplied(s: State, restart: bool, cached: Option<Resume>, first: Answer, second: Answer): (r: (State, Option<Error>))
  {
    var candidate := Candidate(s.active, s.configured);
    if !restart then (s, Some(BadRequest))
    else if !s.initialized then (s, Some(NotInitialized))
    else if s.sessionID == "" then (Activate(s, candidate, ""), None)
    else Restarted(Cache(s, s.sessionID, cached), candidate, first, second)
  }

  /** Start the candidate, or else the active configuration again. */
  function Restarted(s: State, candidate: Config, first: Answer, second: Answer): (r: (State, Option<Error>))
  {
    var (t, id) := StartFor(s, candidate, first);
    if id.Some? then (Activate(t, candidate, id.value), None)
    else
      var (u, back) := StartFor(t, s.active, second);
      if back.Some? then (u.(sessionID := back.value), Some(StartFailed)) else (u.(sessionID := ""), Some(RollbackFailed))
  }

  /** selectResumeState */
  function Selected(policy: ResumePolicy, resume: Option<Resume>, c: CoreConfig): (r: Result<CoreConfig, Error>)
  {
    match policy
    case Auto => Ok(WithResume(c, resume))
    case NoResume => Ok(c)
    case Provided(state) =>
      if state.None? then Err(ResumeInvalid)
      else if ResumeMatches(state.value, c) then Ok(c.(resume := state))
      else Err(ResumeScope)
    case Unknown => Err(BadRequest)
  }

  function SessionStarted(s: State, id: string, policy: ResumePolicy, answer: Answer): (r: (State, Option<Error>))
  {
    var candidate := Candidate(s.active, s.configured);
    if !s.initialized then (s, Some(NotInitialized))
    else if s.sessionID != "" then (s, Some(SessionRunning))
    else if id != "" && id != candidate.session.id then (s, Some(BadRequest))
    else
      var chosen := Selected(policy, s.resume, CoreConfigOf(candidate));
      if chosen.Err? then (s, Some(chosen.error))
      else
        var (t, started) := Start(s, chosen.value, answer);
        if started.None? then (t, Some(StartFailed))
        else (Activate(if policy.Provided? then t.(resume := policy.state) else t, candidate, started.value), None)
  }

  function SessionStopped(s: State, id: string, cached: Option<Resume>, ok: bool): (r: (State, Option<Error>))
  {
    var t := Cache(s, id, cached);
    if !ok then (t, Some(ManagerFailed))
    else (if t.sessionID == id then t.(sessionID := "") else t, None)
  }

  function ModeSet(s: State, id: string, mode: string, ok: bool): (r: (State, Option<Error>))
  {
    if !ModeValid(mode) then (s, Some(Invalid))
    else if !Told(s, id, mode, ok).1 then (s, Some(ManagerFailed))
    else
      (Told(s, id, mode, ok).0.(configured := WithMode(s.configured, mode), active := WithMode(s.active, mode),
                                   revision := s.revision + 1, activeRevision := s.activeRevision + 1), None)
  }

  datatype Op =
    | OpSetConfig(config: Config, valid: bool, allowCore: bool, ok: bool)
    | OpApply(restart: bool, cached: Option<Resume>, first: Answer, second: Answer)
    | OpStart(id: string, policy: ResumePolicy, answer: Answer)
    | OpStop(id: string, cached: Option<Resume>, ok: bool)
    | OpSetMode(id: string, mode: string, ok: bool)

  function Do(s: State, op: Op): (r: (State, Option<Error>))
  {
    match op
    case OpSetConfig(config, valid, allowCore, ok) => ConfigSet(s, config, valid, allowCore, ok)
    case OpApply(restart, cached, first, second) => ConfigApplied(s, restart, cached, first, second)
    case OpStart(id, policy, answer) => SessionStarted(s, id, policy, answer)
    case OpStop(id, cached, ok) => SessionStopped(s, id, cached, ok)
    case OpSetMode(id, mode, ok) => ModeSet(s, id, mode, ok)
  }

  // ---------------------------------------------------------------------------------
  // What every operation keeps

  /** Equal but for the resume state and the routing mode. */
  predicate SameSession(a: CoreConfig, b: CoreConfig)
  {
    a.(resume := b.resume, routingMode := b.routingMode) == b
  }

  /** c is what starting configuration `active` gives the manager, with a resume state that fits. */
  ghost predicate StartedFor(c: CoreConfig, active: Config)
  {
    SameSession(c, CoreConfigOf(active)) && (c.resume.Some? ==> ResumeMatches(c.resume.value, c))
  }

  lemma StartsFor(active: Config, resume: Option<Resume>)
    ensures var c := WithResume(CoreConfigOf(active), resume);
            StartedFor(c, active) && c.routingMode == active.routing.mode
  {
  }

  /** Any other resume state that fits does as well. */
  lemma ResumeFits(c: CoreConfig, active: Config, resume: Option<Resume>)
    requires StartedFor(c, active) && (resume.Some? ==> ResumeMatches(resume.value, c))
    ensures StartedFor(c.(resume := resume), active)
  {
  }

  /** Whatever the policy, a session is only given a resume state that fits it. */
  lemma SelectedFor(policy: ResumePolicy, resume: Option<Resume>, active: Config)
    ensures var r := Selected(policy, resume, CoreConfigOf(active));
            r.Ok? ==> StartedFor(r.value, active) && r.value.routingMode == active.routing.mode
  {
    var c := CoreConfigOf(active);
    StartsFor(active, None);
    match policy
    case Auto => StartsFor(active, resume);
    case Provided(state) =>
      if state.Some? && ResumeMatches(state.value, c) {
        ResumeFits(c, active, state);
      }
    case _ =>
  }

  lemma ModeKeeps(c: CoreConfig, active: Config, mode: string)
    requires StartedFor(c, active)
    ensures StartedFor(c, WithMode(active, mode))
  {
  }

  /** The manager's session was started for `config` and is in its mode. */
  ghost predicate Runs(s: State, config: Config)
  {
    && s.current.Some? && s.current.value.started
    && StartedFor(s.current.value.config, config) && s.current.value.mode == config.routing.mode
  }

  /** A session that is held is the manager's, started for the active configuration and in its
      mode; and the mode is never pending. */
  ghost predicate Inv(s: State)
  {
    && s.initialized && s.active.routing.mode == s.configured.routing.mode
    && (s.sessionID != "" ==> Runs(s, s.active) && Known(s, s.sessionID))
  }

  lemma SetConfigKeeps(s: State, config: Config, valid: bool, allowCore: bool, ok: bool)
    requires Inv(s)
    ensures Inv(ConfigSet(s, config, valid, allowCore, ok).0)
  {
    if s.sessionID != "" {
      ModeKeeps(s.current.value.config, s.active, config.routing.mode);
    }
  }

  lemma StartRuns(s: State, config: Config, answer: Answer)
    ensures var (t, id) := StartFor(s, config, answer);
            id.Some? ==> Runs(t, config) && Known(t, id.value) && id.value != ""
  {
    StartsFor(config, s.resume);
  }

  lemma ApplyKeeps(s: State, restart: bool, cached: Option<Resume>, first: Answer, second: Answer)
    requires Inv(s)
    ensures Inv(ConfigApplied(s, restart, cached, first, second).0)
  {
    var candidate, t := Candidate(s.active, s.configured), Cache(s, s.sessionID, cached);
    StartRuns(t, candidate, first);
    StartRuns(StartFor(t, candidate, first).0, s.active, second);
  }

  lemma StartKeeps(s: State, id: string, policy: ResumePolicy, answer: Answer)
    requires Inv(s)
    ensures Inv(SessionStarted(s, id, policy, answer).0)
  {
    SelectedFor(policy, s.resume, Candidate(s.active, s.configured));
  }

  lemma SetModeKeeps(s: State, id: string, mode: string, ok: bool)
    requires Inv(s)
    ensures Inv(ModeSet(s, id, mode, ok).0)
  {
    if s.sessionID != "" {
      ModeKeeps(s.current.value.config, s.active, mode);
    }
  }

  lemma DoKeeps(s: State, op: Op)
    requires Inv(s)
    ensures Inv(Do(s, op).0)
  {
    match op
    case OpSetConfig(config, valid, allowCore, ok) => SetConfigKeeps(s, config, valid, allowCore, ok);
    case OpApply(restart, cached, first, second) => ApplyKeeps(s, restart, cached, first, second);
    case OpStart(id, policy, answer) => StartKeeps(s, id, policy, answer);
    case OpStop(_, _, _) =>
    case OpSetMode(id, mode, ok) => SetModeKeeps(s, id, mode, ok);
  }

  /** From s to t no revision was reused, and the active core part stayed. */
  ghost predicate Follows(s: State, t: State)
  {
    && s.revision <= t.revision && (s.revision == t.revision ==> s.configured == t.configured)
    && s.activeRevision <= t.activeRevision && (s.activeRevision == t.activeRevision ==> s.active == t.active)
    && CoreOf(s.active) == CoreOf(t.active)
  }

  lemma SetConfigFollows(s: State, config: Config, valid: bool, allowCore: bool, ok: bool)
    ensures Follows(s, ConfigSet(s, config, valid, allowCore, ok).0)
  {
  }

  lemma CandidateCore(active: Config, configured: Config)
    ensures CoreOf(Candidate(active, configured)) == CoreOf(active)
  {
  }

  lemma ApplyFollows(s: State, restart: bool, cached: Option<Resume>, first: Answer, second: Answer)
    ensures Follows(s, ConfigApplied(s, restart, cached, first, second).0)
  {
    var candidate, t := Candidate(s.active, s.configured), Cache(s, s.sessionID, cached);
    CandidateCore(s.active, s.configured);
    RestartFollows(t, candidate, first, second);
    assert t == s.(resume := t.resume);
  }

  lemma RestartFollows(s: State, candidate: Config, first: Answer, second: Answer)
    requires CoreOf(candidate) == CoreOf(s.active)
    ensures Follows(s, Restarted(s, candidate, first, second).0)
  {
    var t := StartFor(s, candidate, first).0;
    assert t == s.(current := t.current, named := t.named);
  }

  lemma DoFollows(s: State, op: Op)
    ensures Follows(s, Do(s, op).0)
  {
    match op
    case OpSetConfig(config, valid, allowCore, ok) => SetConfigFollows(s, config, valid, allowCore, ok);
    case OpApply(restart, cached, first, second) => ApplyFollows(s, restart, cached, first, second);
    case _ =>
  }

  /** A failed operation leaves both configurations and their revisions; only a failed apply can
      change the session that is held: it then runs the active configuration again, or is lost
      if both starts failed. */
  lemma DoFailed(s: State, op: Op)
    requires Inv(s) && Do(s, op).1.Some?
    ensures var (t, err) := Do(s, op);
            && t == s.(sessionID := t.sessionID, resume := t.resume, current := t.current, named := t.named)
            && (t.sessionID == s.sessionID || (op.OpApply? && err.value in {StartFailed, RollbackFailed}))
            && (op.OpSetConfig? || op.OpSetMode? ==> t == s)
            && (op.OpStop? ==> t == s.(resume := t.resume))
            && (err.value.RollbackFailed? <==> op.OpApply? && op.restart && s.sessionID != "" && !op.first.Running? && !op.second.Running?)
            && (err.value.RollbackFailed? ==> t.sessionID == "")
            && (op.OpApply? && err.value.StartFailed? ==> op.second.Running? && t.sessionID != "" && Runs(t, s.active))
  {
    if op.OpApply? {
      var candidate, t := Candidate(s.active, s.configured), Cache(s, s.sessionID, op.cached);
      StartRuns(StartFor(t, candidate, op.first).0, s.active, op.second);
    }
  }

  lemma FollowsTrans(s: State, t: State, u: State)
    requires Follows(s, t) && Follows(t, u)
    ensures Follows(s, u)
  {
  }

  // ---------------------------------------------------------------------------------
  // Whole runs

  /** A run: a successful Initialize from a fresh controller, then the operations in turn. */
  ghost predicate Run(first: State, config: Config, answer: Answer, ops: seq<Op>, states: seq<State>)
  {
    && !first.initialized && Initialized(first, config, true, answer).1.None?
    && |states| == |ops| + 1 && states[0] == Initialized(first, config, true, answer).0
    && forall i :: 0 <= i < |ops| ==> states[i + 1] == Do(states[i], ops[i]).0
  }

  lemma InitKeeps(s: State, config: Config, answer: Answer)
    requires Initialized(s, config, true, answer).1.None?
    ensures Inv(Initialized(s, config, true, answer).0)
    ensures CoreOf(Initialized(s, config, true, answer).0.active) == CoreOf(config)
  {
    StartsFor(config, s.resume);
  }

  lemma {:induction false} RunInv(first: State, config: Config, answer: Answer, ops: seq<Op>, states: seq<State>, i: nat)
    requires Run(first, config, answer, ops, states) && i < |states|
    ensures Inv(states[i])
  {
    if i == 0 {
      InitKeeps(first, config, answer);
    } else {
      RunInv(first, config, answer, ops, states, i - 1);
      DoKeeps(states[i - 1], ops[i - 1]);
    }
  }

  /** In every state of every run: a session that is held is the manager's current one, its start
      succeeded, it was made for the active configuration up to resume state and mode, with a
      resume state that fits, and it runs in the active mode; the mode is never pending. */
  lemma RunServes(first: State, config: Config, answer: Answer, ops: seq<Op>, states: seq<State>, i: nat)
    requires Run(first, config, answer, ops, states) && i < |states|
    ensures var s := states[i];
            && s.active.routing.mode == s.configured.routing.mode
            && (s.sessionID != "" ==>
                  && Known(s, s.sessionID) && s.current.value.started && StartedFor(s.current.value.config, s.active)
                  && s.current.value.mode == s.active.routing.mode)
  {
    RunInv(first, config, answer, ops, states, i);
  }

  /** So a mode change for the session that is held always reaches it, and never another. */
  lemma RunTold(first: State, config: Config, answer: Answer, ops: seq<Op>, states: seq<State>, i: nat, id: string, mode: string, ok: bool)
    requires Run(first, config, answer, ops, states) && i < |states| && states[i].sessionID != "" && ModeValid(mode)
    ensures var (t, err) := ModeSet(states[i], id, mode, ok);
            && (err.None? <==> id == states[i].sessionID && ok)
            && (err.None? ==> Known(t, id) && t.current.value.mode == mode)
  {
    RunInv(first, config, answer, ops, states, i);
  }

  /** Between any two states of a run: a revision stands for one configured and an active revision
      for one active configuration, both only grow, and the active core part is the one the run
      began with. */
  lemma {:induction false} RunFollows(first: State, config: Config, answer: Answer, ops: seq<Op>, states: seq<State>, i: nat, j: nat)
    requires Run(first, config, answer, ops, states) && i <= j < |states|
    ensures Follows(states[i], states[j])
    decreases j - i
  {
    if i < j {
      DoFollows(states[i], ops[i]);
      RunFollows(first, config, answer, ops, states, i + 1, j);
      FollowsTrans(states[i], states[i + 1], states[j]);
    }
  }

  /** The active configuration is the configured one, but for the core part. */
  predicate CaughtUp(active: Config, configured: Config)
  {
    SessionOf(active) == SessionOf(configured) && active.routing.mode == configured.routing.mode
  }

  /** That is: whatever is still pending can only become effective by restarting the core. */
  lemma CaughtUpIff(active: Config, configured: Config)
    ensures CaughtUp(active, configured) <==> forall p :: p in Paths(active, configured) ==> RequirementForPath(p) == CoreRestart
  {
    Classified(active, configured);
    var paths := Paths(active, configured);
    if forall p :: p in paths ==> RequirementForPath(p) == CoreRestart {
      assert forall i :: 0 <= i < |paths| ==> paths[i] in paths;
    }
  }

  lemma CatchesUp(s: State, op: Op)
    requires (op.OpApply? || op.OpStart?) && Do(s, op).1.None?
    ensures CaughtUp(Do(s, op).0.active, Do(s, op).0.configured)
  {
  }

  /** After a successful apply or session start only core_restart changes are pending. */
  lemma RunCatchesUp(first: State, config: Config, answer: Answer, ops: seq<Op>, states: seq<State>, i: nat, p: string)
    requires Run(first, config, answer, ops, states) && i < |ops|
    requires (ops[i].OpApply? || ops[i].OpStart?) && Do(states[i], ops[i]).1.None?
    requires p in Paths(states[i + 1].active, states[i + 1].configured)
    ensures RequirementForPath(p) == CoreRestart
  {
    CatchesUp(states[i], ops[i]);
    CaughtUpIff(states[i + 1].active, states[i + 1].configured);
  }

  /** The check setConfigLocked makes on the change list is a check on the core parts. */
  method NeedsCoreRestart(configured: Config, config: Config) returns (blocked: bool)
    ensures blocked <==> CoreOf(configured) != CoreOf(config)
  {
    var changes := Changes(configured, config);
    CoreChanges(configured, config, changes);
    blocked := false;
    for i := 0 to |changes|
      invariant blocked <==> exists j :: 0 <= j < i && changes[j].need == CoreRestart
    {
      if changes[i].need == CoreRestart {
        blocked := true;
      }
    }
  }

  lemma CoreChanges(a: Config, b: Config, changes: seq<Change>)
    requires multiset(changes) == multiset(Described(Paths(a, b)))
    ensures (exists j :: 0 <= j < |changes| && changes[j].need == CoreRestart) <==> CoreOf(a) != CoreOf(b)
  {
    Classified(a, b);
    NeedsMatch(Paths(a, b), changes);
  }

  lemma NeedsMatch(paths: seq<string>, changes: seq<Change>)
    requires multiset(changes) == multiset(Described(paths))
    ensures (exists j :: 0 <= j < |changes| && changes[j].need == CoreRestart) <==> Has(paths, CoreRestart)
  {
    var d := Described(paths);
    assert forall c :: c in changes <==> c in d by {
      assert forall c :: c in changes <==> c in multiset(changes);
      assert forall c :: c in d <==> c in multiset(d);
    }
    if Has(paths, CoreRestart) {
      var i :| 0 <= i < |paths| && RequirementForPath(paths[i]) == CoreRestart;
      assert d[i] in changes;
    }
    if j :| 0 <= j < |changes| && changes[j].need == CoreRestart {
      assert changes[j] in d;
    }
  }

  // ---------------------------------------------------------------------------------
  // The controller object

  /** What ConfigSnapshot returns, without the pending list, which is Changes(active, configured). */
  datatype Snapshot = Snapshot(revision: nat, configured: Config, active: Config, activeRevision: nat)

  class Controller {
    var configured: Config
    var active: Config
    var revision: nat
    var activeRevision: nat
    var initialized: bool
    var activeSessionID: string
    var resumeState: Option<Resume>
    /** The embedded manager's fields. */
    var current: Option<Session>
    var named: nat

    ghost function S(): (s: State)
      reads this
    {
      State(configured, active, revision, activeRevision, initialized, activeSessionID, resumeState, current, named)
    }

    constructor (empty: Config, resume: Option<Resume>)
      ensures S() == State(empty, empty, 0, 0, false, "", resume, None, 0)
    {
      configured, active, revision, activeRevision, initialized := empty, empty, 0, 0, false;
      activeSessionID, resumeState, current, named := "", resume, None, 0;
    }

    /** Manager.Start */
    method ManagerStart(c: CoreConfig, answer: Answer) returns (started: Option<string>)
      modifies this`current, this`named
      ensures (S(), started) == Start(old(S()), c, answer)
    {
      var id := NewID(named, c);
      if c.sessionID == "" && answer != Refused(false) {
        named := named + 1;
      }
      if answer.Refused? { return None; }
      current := Some(Session(id, c, c.routingMode, answer.Running?));
      started := if answer.Running? then Some(id) else None;
    }

    /** Manager.SetRoutingMode */
    method ManagerSetMode(id: string, mode: string, ok: bool) returns (done: bool)
      modifies this`current
      ensures (S(), done) == Told(old(S()), id, mode, ok)
    {
      if current.None? || current.value.id != id { return false; }
      if ok {
        current := Some(current.value.(mode := mode));
      }
      done := ok;
    }

    /** cacheResumeStateLocked, with what the session would answer. */
    method CacheResumeState(id: string, resume: Option<Resume>)
      modifies this`resumeState
      ensures S() == Cache(old(S()), id, resume)
    {
      if current.Some? && current.value.id == id && resume.Some? {
        resumeState := resume;
      }
    }

    method Initialize(config: Config, valid: bool, answer: Answer) returns (err: Option<Error>)
      modifies this
      ensures (S(), err) == Initialized(old(S()), config, valid, answer)
    {
      if !valid { return Some(Invalid); }
      if initialized { return Some(AlreadyInitialized); }
      var id := "";
      if config.session.autoStart {
        var started := ManagerStart(WithResume(CoreConfigOf(config), resumeState), answer);
        if started.None? { return Some(StartFailed); }
        id := started.value;
      }
      configured, active, revision, activeRevision, initialized, activeSessionID := config, config, 1, 1, true, id;
      return None;
    }

    method ConfigSnapshot() returns (s: Snapshot)
      ensures s == Snapshot(revision, configured, active, activeRevision)
    {
      s := Snapshot(revision, configured, active, activeRevision);
    }

    method SetConfig(config: Config, valid: bool, allowCore: bool, ok: bool) returns (err: Option<Error>)
      modifies this
      ensures (S(), err) == ConfigSet(old(S()), config, valid, allowCore, ok)
    {
      if !valid { return Some(Invalid); }
      if !initialized { return Some(NotInitialized); }
      if config == configured { return None; }
      if !allowCore {
        var blocked := NeedsCoreRestart(configured, config);
        if blocked { return Some(RestartRequired); }
      }
      err := Accept(config, ok);
    }

    /** The part of setConfigLocked behind its checks. */
    method Accept(config: Config, ok: bool) returns (err: Option<Error>)
      modifies this
      ensures (S(), err) == Accepted(old(S()), config, ok)
    {
      var next, changed := active, false;
      if config.routing.mode != active.routing.mode {
        if activeSessionID != "" {
          var told := ManagerSetMode(activeSessionID, config.routing.mode, ok);
          if !told { return Some(ManagerFailed); }
        }
        next, changed := WithMode(active, config.routing.mode), true;
      }
      if activeSessionID == "" {
        var candidate := Candidate(next, config);
        changed := changed || candidate != next;
        next := candidate;
      }
      configured, active, revision := config, next, revision + 1;
      if changed {
        activeRevision := activeRevision + 1;
      }
      return None;
    }

    /** setActiveConfig */
    method SetActive(config: Config, id: string)
      modifies this`active, this`activeRevision, this`activeSessionID
      ensures S() == Activate(old(S()), config, id)
    {
      active, activeRevision, activeSessionID := config, activeRevision + 1, id;
    }

    method ApplyConfig(restart: bool, cached: Option<Resume>, first: Answer, second: Answer)
      returns (err: Option<Error>)
      modifies this
      ensures (S(), err) == ConfigApplied(old(S()), restart, cached, first, second)
    {
      if !restart { return Some(BadRequest); }
      if !initialized { return Some(NotInitialized); }
      var candidate := Candidate(active, configured);
      if activeSessionID == "" {
        SetActive(candidate, "");
        return None;
      }
      CacheResumeState(activeSessionID, cached);
      err := Restart(candidate, first, second);
    }

    /** The part of ApplyConfig behind its checks. */
    method Restart(candidate: Config, first: Answer, second: Answer) returns (err: Option<Error>)
      modifies this
      ensures (S(), err) == Restarted(old(S()), candidate, first, second)
    {
      var started := ManagerStart(WithResume(CoreConfigOf(candidate), resumeState), first);
      if started.None? {
        var back := ManagerStart(WithResume(CoreConfigOf(active), resumeState), second);
        if back.None? {
          activeSessionID := "";
          return Some(RollbackFailed);
        }
        activeSessionID := back.value;
        return Some(StartFailed);
      }
      SetActive(candidate, started.value);
      return None;
    }

    method SelectResume(policy: ResumePolicy, c: CoreConfig) returns (r: Result<CoreConfig, Error>)
      ensures r == Selected(policy, resumeState, c)
    {
      match policy
      case Auto => r := Ok(WithResume(c, resumeState));
      case NoResume => r := Ok(c);
      case Provided(state) =>
        if state.None? { return Err(ResumeInvalid); }
        if !ResumeMatches(state.value, c) { return Err(ResumeScope); }
        r := Ok(c.(resume := state));
      case Unknown => r := Err(BadRequest);
    }

    method StartSession(id: string, policy: ResumePolicy, answer: Answer) returns (err: Option<Error>)
      modifies this
      ensures (S(), err) == SessionStarted(old(S()), id, policy, answer)
    {
      if !initialized { return Some(NotInitialized); }
      if activeSessionID != "" { return Some(SessionRunning); }
      var candidate := Candidate(active, configured);
      if id != "" && id != candidate.session.id { return Some(BadRequest); }
      var chosen := SelectResume(policy, CoreConfigOf(candidate));
      if chosen.Err? { return Some(chosen.error); }
      var started := ManagerStart(chosen.value, answer);
      if started.None? { return Some(StartFailed); }
      if policy.Provided? {
        resumeState := policy.state;
      }
      SetActive(candidate, started.value);
      return None;
    }

    method Stop(id: string, cached: Option<Resume>, ok: bool) returns (err: Option<Error>)
      modifies this`resumeState, this`activeSessionID
      ensures (S(), err) == SessionStopped(old(S()), id, cached, ok)
    {
      CacheResumeState(id, cached);
      if !ok { return Some(ManagerFailed); }
      if activeSessionID == id {
        activeSessionID := "";
      }
      return None;
    }

    method SetRoutingMode(id: string, next: string, ok: bool) returns (err: Option<Error>)
      modifies this
      ensures (S(), err) == ModeSet(old(S()), id, next, ok)
    {
      if !ModeValid(next) { return Some(Invalid); }
      var told := ManagerSetMode(id, next, ok);
      if !told { return Some(ManagerFailed); }
      configured, active := WithMode(configured, next), WithMode(active, next);
      revision, activeRevision := revision + 1, activeRevision + 1;
      return None;
    }
  }
}
