/** The session lifecycle: its transition table and the critical sections that move along it, the
    event buffer that drops the oldest, and the reconnect delay. */
module Session {
  import opened Bytes

  // ---------------------------------------------------------------------------------
  // The transition table

  datatype State = Idle | DiscoveringAuth | Authenticating | FetchingResources | SelectingNodes
                 | EstablishingTunnel | Ready | Reconnecting | Failed | Stopping | Stopped

  function Targets(from: State): (to: set<State>)
  {
    match from
    case Idle => {DiscoveringAuth, Failed, Stopping}
    case DiscoveringAuth => {Authenticating, Failed, Stopping}
    case Authenticating => {FetchingResources, Failed, Stopping}
    case FetchingResources => {SelectingNodes, Failed, Stopping}
    case SelectingNodes => {EstablishingTunnel, Failed, Stopping}
    case EstablishingTunnel => {Ready, Failed, Stopping}
    case Ready => {Reconnecting, Failed, Stopping}
    case Reconnecting => {Ready, Failed, Stopping}
    case Failed => {Stopping}
    case Stopping => {Stopped}
    case Stopped => {}
  }

  predicate CanTransition(from: State, to: State)
  {
    to in Targets(from)
  }

  /** The state a session is in after transition asked for `next`. */
  function Moved(from: State, next: State): (to: State)
  {
    if CanTransition(from, next) then next else from
  }

  /** How far along the lifecycle a state is; only the two running states share a rank. */
  function Rank(s: State): (r: nat)
  {
    match s
    case Idle => 0
    case DiscoveringAuth => 1
    case Authenticating => 2
    case FetchingResources => 3
    case SelectingNodes => 4
    case EstablishingTunnel => 5
    case Ready => 6
    case Reconnecting => 6
    case Failed => 7
    case Stopping => 8
    case Stopped => 9
  }

  /** A sequence of states joined by transitions of the table. */
  ghost predicate Path(trace: seq<State>)
  {
    trace != [] && trace[0] == Idle && forall i :: 0 < i < |trace| ==> CanTransition(trace[i - 1], trace[i])
  }

  lemma {:induction false} PathRises(trace: seq<State>, i: nat, j: nat)
    requires Path(trace) && i <= j < |trace|
    ensures Rank(trace[i]) <= Rank(trace[j])
    decreases j - i
  {
    if i < j {
      PathRises(trace, i, j - 1);
      assert CanTransition(trace[j - 1], trace[j]);
    }
  }

  /** A state comes back only in the cycle of ready and reconnecting. */
  lemma RepeatsOnlyRunning(trace: seq<State>, i: nat, j: nat, k: nat)
    requires Path(trace) && i <= k <= j < |trace| && i < j && trace[i] == trace[j]
    ensures trace[k].Ready? || trace[k].Reconnecting?
  {
    PathRises(trace, i, k);
    PathRises(trace, k, j);
    PathRises(trace, i, i + 1);
    PathRises(trace, i + 1, j);
    assert CanTransition(trace[i], trace[i + 1]);
  }

  /** Every state can be closed: it is stopping or stopped, or may go to stopping. */
  lemma StoppingAllowed(s: State)
    ensures s.Stopped? || s.Stopping? || CanTransition(s, Stopping)
  {
  }

  // ---------------------------------------------------------------------------------
  // The session

  class Session {
    var state: State
    var failed: bool
    ghost var trace: seq<State>

    ghost predicate Valid()
      reads this
    {
      Path(trace) && trace[|trace| - 1] == state
    }

    constructor ()
      ensures Valid() && state == Idle && !failed && trace == [Idle]
    {
      state, failed, trace := Idle, false, [Idle];
    }

    /** transition: one critical section. */
    method Transition(next: State) returns (ok: bool)
      requires Valid()
      modifies this`state, this`trace
      ensures Valid() && ok == CanTransition(old(state), next) && state == Moved(old(state), next)
      ensures trace == if ok then old(trace) + [next] else old(trace)
    {
      ok := CanTransition(state, next);
      if ok {
        state, trace := next, trace + [next];
      }
    }

    /** The critical section of installReconnectedRuntime: only while still reconnecting and not
        cancelled; a success forgets the last error. */
    method Install(cancelled: bool) returns (ok: bool)
      requires Valid()
      modifies this
      ensures Valid() && (ok <==> !cancelled && old(state).Reconnecting?)
      ensures state == (if ok then Ready else old(state)) && failed == (old(failed) && !ok)
      ensures trace == if ok then old(trace) + [Ready] else old(trace)
    {
      if cancelled || !state.Reconnecting? { return false; }
      ok := Transition(Ready);
      failed := false;
    }

    /** The first critical section of failWith: the error is recorded, the state only read. */
    method RecordFailure() returns (seen: State)
      requires Valid()
      modifies this`failed
      ensures Valid() && failed && seen == state
    {
      failed, seen := true, state;
    }
  }

  // ---------------------------------------------------------------------------------
  // Events

  const EVENT_BUFFER: nat := 32

  /** b is what the readers have not yet taken of the end of `emitted`. */
  ghost predicate Suffix<T>(b: seq<T>, emitted: seq<T>)
  {
    |b| <= |emitted| && emitted[|emitted| - |b|..] == b
  }

  lemma SuffixDrop<T>(b: seq<T>, emitted: seq<T>)
    requires Suffix(b, emitted) && b != []
    ensures Suffix(b[1..], emitted)
  {
  }

  lemma SuffixAdd<T>(b: seq<T>, emitted: seq<T>, e: T)
    requires Suffix(b, emitted)
    ensures Suffix(b + [e], emitted + [e])
  {
  }

  class Events<T> {
    var buffer: seq<T>
    ghost var emitted: seq<T>

    ghost predicate Valid()
      reads this
    {
      |buffer| <= EVENT_BUFFER && Suffix(buffer, emitted)
    }

    constructor ()
      ensures Valid() && emitted == []
    {
      buffer, emitted := [], [];
    }

    /** Readers take any number of events at any time. */
    method MayReceive()
      requires Valid()
      modifies this`buffer
      ensures Valid() && |buffer| <= |old(buffer)| && Suffix(buffer, old(buffer))
    {
      var n: nat := *;
      while n > 0 && buffer != []
        invariant Valid() && |buffer| <= |old(buffer)| && Suffix(buffer, old(buffer))
      {
        SuffixDrop(buffer, emitted);
        SuffixDrop(buffer, old(buffer));
        buffer := buffer[1..];
        n := n - 1;
      }
    }

    /** A send into the channel; it would block on a full buffer. */
    method Send(e: T)
      requires Valid() && |buffer| < EVENT_BUFFER
      modifies this
      ensures Valid() && buffer == old(buffer) + [e] && emitted == old(emitted) + [e]
    {
      SuffixAdd(buffer, emitted, e);
      buffer, emitted := buffer + [e], emitted + [e];
    }

    /** emit: try, else drop the oldest, then send; senders exclude each other, readers do not.
        The last send finds room, so it never blocks, and the buffer stays the newest events. */
    method Emit(e: T)
      requires Valid()
      modifies this
      ensures Valid() && emitted == old(emitted) + [e]
      ensures buffer != [] && buffer[|buffer| - 1] == e
    {
      MayReceive();
      if |buffer| < EVENT_BUFFER {
        Send(e);
        return;
      }
      MayReceive();
      if buffer != [] {
        SuffixDrop(buffer, emitted);
        buffer := buffer[1..];
      }
      MayReceive();
      Send(e);
    }
  }

  // ---------------------------------------------------------------------------------
  // The reconnect delay

  const MAX_DELAY: nat := 30

  function Min(a: nat, b: nat): (m: nat)
  {
    if a < b then a else b
  }

  /** reconnectDelay, in seconds: none at first, then doubling from one up to thirty. */
  method ReconnectDelay(attempt: int) returns (delay: nat)
    ensures delay == if attempt <= 1 then 0 else Min(MAX_DELAY, Pow2(attempt - 2))
  {
    if attempt <= 1 { return 0; }
    delay := 1;
    var current := 2;
    while current < attempt && delay < MAX_DELAY
      invariant 2 <= current <= attempt
      invariant delay == Min(MAX_DELAY, Pow2(current - 2))
    {
      delay := 2 * delay;
      if delay > MAX_DELAY {
        delay := MAX_DELAY;
      }
      current := current + 1;
    }
    Pow2Monotone(current - 2, attempt - 2);
  }
}
