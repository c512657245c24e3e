/** The event fan-out: pending authentication challenges, bounded subscriber channels, and what
    each subscriber gets to see. */
module EventService {
  import opened Bytes

  const EVENT_BUFFER: nat := 128

  datatype State = Failed | Stopping | Stopped | OtherState(name: string)

  datatype Kind = AuthRequired | AuthBrowserRequired | AuthCompleted | SessionError | ShutdownCompleted
                | StateChanged(state: State) | OtherKind(name: string)

  /** auth is the id of the challenge the event carries. */
  datatype Event = Event(session: string, kind: Kind, auth: Option<string>)

  // ---------------------------------------------------------------------------------
  // Which challenges are pending

  predicate Names(e: Event, id: string)
  {
    e.auth == Some(id) && id != ""
  }

  predicate Asks(e: Event, id: string)
  {
    (e.kind.AuthRequired? || e.kind.AuthBrowserRequired?) && Names(e, id)
  }

  predicate Completes(e: Event, id: string)
  {
    e.kind.AuthCompleted? && Names(e, id)
  }

  /** The event ends all challenges of its session. */
  predicate Clears(e: Event)
  {
    || (e.kind.AuthCompleted? && (e.auth.None? || e.auth.value == ""))
    || e.kind.SessionError? || e.kind.ShutdownCompleted?
    || (e.kind.StateChanged? && !e.kind.state.OtherState?)
  }

  /** What updatePendingAuth makes of the table. */
  function Updated(pending: map<string, Event>, e: Event): (r: map<string, Event>)
  {
    if Clears(e) then map id | id in pending && pending[id].session != e.session :: pending[id]
    else if e.auth.None? || e.auth.value == "" then pending
    else if e.kind.AuthRequired? || e.kind.AuthBrowserRequired? then pending[e.auth.value := e]
    else if e.kind.AuthCompleted? then pending - {e.auth.value}
    else pending
  }

  function PendingAfter(hist: seq<Event>): (pending: map<string, Event>)
  {
    if hist == [] then map[] else Updated(PendingAfter(hist[..|hist| - 1]), hist[|hist| - 1])
  }

  /** Event i is the latest to ask for id, and nothing later completed it or cleared its session. */
  ghost predicate Open(hist: seq<Event>, id: string, i: nat)
  {
    && i < |hist| && Asks(hist[i], id)
    && forall j :: i < j < |hist| ==>
         !Asks(hist[j], id) && !Completes(hist[j], id) && !(Clears(hist[j]) && hist[j].session == hist[i].session)
  }

  lemma OpenPrefix(hist: seq<Event>, id: string, i: nat)
    requires hist != [] && i < |hist| - 1
    ensures Open(hist, id, i) <==>
              var e := hist[|hist| - 1];
              && Open(hist[..|hist| - 1], id, i) && !Asks(e, id) && !Completes(e, id)
              && !(Clears(e) && e.session == hist[i].session)
  {
    var front := hist[..|hist| - 1];
    assert forall j :: 0 <= j < |front| ==> front[j] == hist[j];
  }

  /** A challenge is pending exactly when it is open, and the table holds the event that asked. */
  lemma {:induction false} PendingIff(hist: seq<Event>, id: string)
    ensures id in PendingAfter(hist) <==> exists i: nat :: Open(hist, id, i)
    ensures forall i: nat :: Open(hist, id, i) ==> id in PendingAfter(hist) && PendingAfter(hist)[id] == hist[i]
    decreases |hist|
  {
    if hist != [] {
      var n := |hist| - 1;
      var front, e := hist[..n], hist[n];
      PendingIff(front, id);
      forall i | 0 <= i < n
        ensures Open(hist, id, i) <==>
                  Open(front, id, i) && !Asks(e, id) && !Completes(e, id) && !(Clears(e) && e.session == hist[i].session)
      {
        OpenPrefix(hist, id, i);
      }
      assert Asks(e, id) <==> Open(hist, id, n);
      forall i: nat | Open(hist, id, i)
        ensures id in PendingAfter(hist) && PendingAfter(hist)[id] == hist[i]
      {
        if i < n {
          assert Open(front, id, i) && front[i] == hist[i];
        }
      }
      if id in PendingAfter(hist) && !Asks(e, id) {
        var i: nat :| Open(front, id, i);
        assert Open(hist, id, i);
      }
    }
  }

  /** updatePendingAuth, with clearPendingAuthForSession's loop. */
  method UpdatePendingAuth(pending: map<string, Event>, e: Event) returns (r: map<string, Event>)
    ensures r == Updated(pending, e)
  {
    if e.kind.AuthRequired? || e.kind.AuthBrowserRequired? {
      r := if e.auth.Some? && e.auth.value != "" then pending[e.auth.value := e] else pending;
    } else if e.kind.AuthCompleted? && e.auth.Some? && e.auth.value != "" {
      r := pending - {e.auth.value};
    } else if e.kind.AuthCompleted? || e.kind.SessionError? || e.kind.ShutdownCompleted? {
      r := ClearSession(pending, e.session);
    } else if e.kind.StateChanged? && (e.kind.state.Failed? || e.kind.state.Stopping? || e.kind.state.Stopped?) {
      r := ClearSession(pending, e.session);
    } else {
      r := pending;
    }
  }

  method ClearSession(pending: map<string, Event>, session: string) returns (r: map<string, Event>)
    ensures r == map id | id in pending && pending[id].session != session :: pending[id]
  {
    r := pending;
    var todo := pending.Keys;
    while todo != {}
      invariant todo <= pending.Keys
      invariant forall id :: id in r <==> id in pending && (id in todo || pending[id].session != session)
      invariant forall id :: id in r ==> r[id] == pending[id]
      decreases |todo|
    {
      var id :| id in todo;
      todo := todo - {id};
      if pending[id].session == session {
        r := r - {id};
      }
    }
  }

  // ---------------------------------------------------------------------------------
  // Subscribers

  /** A channel: what its reader took, what is buffered, and how often it was closed. */
  datatype Channel = Channel(taken: seq<Event>, buffer: seq<Event>, closes: nat)

  /** Where a subscription began: what it was given first, and the broadcasts before it;
      upto counts the broadcasts until it was dropped, or all of them. */
  datatype Origin = Origin(initial: seq<Event>, from: nat, upto: nat)

  /** The events of the table, in some order. */
  ghost predicate Lists(xs: seq<Event>, pending: map<string, Event>)
  {
    && |xs| == |pending|
    && (forall i :: 0 <= i < |xs| ==> xs[i].auth.Some? && xs[i].auth.value in pending && pending[xs[i].auth.value] == xs[i])
    && (forall id :: id in pending ==> pending[id] in xs)
  }

  /** The events of the table that are not still to come. */
  ghost predicate ListsBut(xs: seq<Event>, pending: map<string, Event>, todo: set<string>)
  {
    && |xs| + |todo| == |pending|
    && (forall i :: 0 <= i < |xs| ==> xs[i].auth.Some? && xs[i].auth.value in pending && pending[xs[i].auth.value] == xs[i])
    && (forall id :: id in pending && id !in todo ==> pending[id] in xs)
  }

  lemma ListsMore(xs: seq<Event>, pending: map<string, Event>, todo: set<string>, d: string)
    requires ListsBut(xs, pending, todo) && d in todo && d in pending && pending[d].auth == Some(d)
    ensures ListsBut(xs + [pending[d]], pending, todo - {d})
  {
  }

  /** The subscription began with what was pending then. */
  ghost predicate Began(hist: seq<Event>, o: Origin)
  {
    o.from <= |hist| && Lists(o.initial, PendingAfter(hist[..o.from]))
  }

  /** After what it began with, every broadcast without a gap, up to its end. */
  ghost predicate Follows(hist: seq<Event>, c: Channel, o: Origin)
  {
    && o.from <= o.upto <= |hist| && c.taken + c.buffer == o.initial + hist[o.from..o.upto]
    && |c.buffer| <= EVENT_BUFFER
  }

  /** A subscriber saw, or will see, what was pending when it came and then every broadcast
      without a gap, up to its end. */
  ghost predicate SeesAll(hist: seq<Event>, c: Channel, o: Origin)
  {
    Began(hist, o) && Follows(hist, c, o)
  }

  ghost predicate ChannelOk(hist: seq<Event>, c: Channel, o: Origin, live: bool)
  {
    Follows(hist, c, o) && if live then c.closes == 0 && o.upto == |hist| else c.closes == 1
  }

  lemma OfferTaken(hist: seq<Event>, e: Event, c: Channel, o: Origin)
    requires ChannelOk(hist, c, o, true) && |c.buffer| < EVENT_BUFFER
    ensures ChannelOk(hist + [e], c.(buffer := c.buffer + [e]), o.(upto := |hist| + 1), true)
  {
    var h := hist + [e];
    assert h[o.from..|hist| + 1] == hist[o.from..|hist|] + [e];
    assert c.taken + (c.buffer + [e]) == (c.taken + c.buffer) + [e];
    assert o.initial + (hist[o.from..|hist|] + [e]) == (o.initial + hist[o.from..|hist|]) + [e];
  }

  lemma OfferDropped(hist: seq<Event>, e: Event, c: Channel, o: Origin)
    requires Follows(hist, c, o)
    ensures Follows(hist + [e], c, o)
  {
    assert (hist + [e])[o.from..o.upto] == hist[o.from..o.upto];
  }

  lemma BeganStays(hist: seq<Event>, e: Event, o: Origin)
    requires Began(hist, o)
    ensures forall upto :: Began(hist + [e], o.(upto := upto))
  {
    assert (hist + [e])[..o.from] == hist[..o.from];
  }

  lemma TakeKeeps(hist: seq<Event>, c: Channel, o: Origin, live: bool)
    requires ChannelOk(hist, c, o, live) && c.buffer != []
    ensures ChannelOk(hist, c.(taken := c.taken + [c.buffer[0]], buffer := c.buffer[1..]), o, live)
  {
    assert (c.taken + [c.buffer[0]]) + c.buffer[1..] == c.taken + c.buffer;
  }

  lemma SubscribeStarts(hist: seq<Event>, initial: seq<Event>)
    requires |initial| <= EVENT_BUFFER
    ensures ChannelOk(hist, Channel([], initial, 0), Origin(initial, |hist|, |hist|), true)
  {
    assert hist[|hist|..|hist|] == [];
    assert [] + initial == initial + [];
  }

  lemma SubscribeBegins(hist: seq<Event>, initial: seq<Event>)
    requires Lists(initial, PendingAfter(hist))
    ensures Began(hist, Origin(initial, |hist|, |hist|))
  {
    assert hist[..|hist|] == hist;
  }

  lemma {:induction false} PendingNamed(hist: seq<Event>, id: string)
    requires id in PendingAfter(hist)
    ensures PendingAfter(hist)[id].auth == Some(id)
    decreases |hist|
  {
    var n := |hist| - 1;
    if id in PendingAfter(hist[..n]) {
      PendingNamed(hist[..n], id);
    }
  }

  /** What broadcasting e does to one live channel. */
  function Offered(c: Channel, e: Event): (d: Channel)
  {
    if |c.buffer| < EVENT_BUFFER then c.(buffer := c.buffer + [e]) else c.(closes := c.closes + 1)
  }

  /** Every channel ever made, with its origin; live are those still subscribed. */
  ghost predicate AllOk(hist: seq<Event>, chans: seq<Channel>, origins: seq<Origin>, live: set<nat>)
  {
    && |origins| == |chans| && (forall c :: c in live ==> c < |chans|)
    && forall c :: 0 <= c < |chans| ==> ChannelOk(hist, chans[c], origins[c], c in live)
  }

  /** The live subscriptions now reach one broadcast further. */
  ghost function Extended(origins: seq<Origin>, live: set<nat>, upto: nat): (r: seq<Origin>)
    ensures |r| == |origins|
    ensures forall c :: 0 <= c < |r| ==> r[c] == if c in live then origins[c].(upto := upto) else origins[c]
  {
    seq(|origins|, c requires 0 <= c < |origins| => if c in live then origins[c].(upto := upto) else origins[c])
  }

  lemma PendingStep(hist: seq<Event>, e: Event)
    ensures PendingAfter(hist + [e]) == Updated(PendingAfter(hist), e)
  {
    assert (hist + [e])[..|hist + [e]| - 1] == hist;
  }

  lemma AddKeeps(hist: seq<Event>, chans: seq<Channel>, origins: seq<Origin>, live: set<nat>, ch: Channel, o: Origin)
    requires AllOk(hist, chans, origins, live) && ChannelOk(hist, ch, o, true)
    ensures AllOk(hist, chans + [ch], origins + [o], live + {|chans|})
  {
    var chans', origins', live' := chans + [ch], origins + [o], live + {|chans|};
    forall c | 0 <= c < |chans'|
      ensures ChannelOk(hist, chans'[c], origins'[c], c in live')
    {
      if c < |chans| {
        assert chans'[c] == chans[c] && origins'[c] == origins[c] && (c in live' <==> c in live);
      } else {
        assert chans'[c] == ch && origins'[c] == o && c in live';
      }
    }
  }

  lemma BroadcastKeeps(hist: seq<Event>, e: Event, chans: seq<Channel>, origins: seq<Origin>, live: set<nat>,
                       chans': seq<Channel>, live': set<nat>)
    requires AllOk(hist, chans, origins, live) && |chans'| == |chans|
    requires forall c :: c in live' <==> c in live && |chans[c].buffer| < EVENT_BUFFER
    requires forall c :: 0 <= c < |chans| ==> chans'[c] == if c in live then Offered(chans[c], e) else chans[c]
    ensures AllOk(hist + [e], chans', Extended(origins, live', |hist| + 1), live')
  {
    var origins' := Extended(origins, live', |hist| + 1);
    forall c | 0 <= c < |chans|
      ensures ChannelOk(hist + [e], chans'[c], origins'[c], c in live')
    {
      assert ChannelOk(hist, chans[c], origins[c], c in live);
      if c in live' {
        OfferTaken(hist, e, chans[c], origins[c]);
      } else {
        OfferDropped(hist, e, chans[c], origins[c]);
      }
    }
  }

  // ---------------------------------------------------------------------------------
  // What each operation does

  /** The service, with the broadcasts so far and where each subscription began. Once stuck, its
      lock is never released again. */
  datatype Hub = Hub(
    pending: map<string, Event>,
    live: set<nat>,
    chans: seq<Channel>,
    hist: seq<Event>,
    origins: seq<Origin>,
    stuck: bool)

  ghost predicate Begins(hist: seq<Event>, origins: seq<Origin>)
  {
    forall c :: 0 <= c < |origins| ==> Began(hist, origins[c])
  }

  ghost predicate HubOk(h: Hub)
  {
    h.pending == PendingAfter(h.hist) && AllOk(h.hist, h.chans, h.origins, h.live) && Begins(h.hist, h.origins)
  }

  lemma BeginsOn(hist: seq<Event>, e: Event, origins: seq<Origin>, live: set<nat>)
    requires Begins(hist, origins)
    ensures Begins(hist + [e], Extended(origins, live, |hist| + 1))
  {
    var more := Extended(origins, live, |hist| + 1);
    forall c | 0 <= c < |more|
      ensures Began(hist + [e], more[c])
    {
      BeganStays(hist, e, origins[c]);
      assert more[c] == origins[c].(upto := more[c].upto);
    }
  }

  /** The channels with each live one changed by a broadcast. */
  ghost function Fanned(chans: seq<Channel>, live: set<nat>, e: Event): (r: seq<Channel>)
    ensures |r| == |chans| && forall c :: 0 <= c < |chans| ==> r[c] == if c in live then Offered(chans[c], e) else chans[c]
  {
    seq(|chans|, c requires 0 <= c < |chans| => if c in live then Offered(chans[c], e) else chans[c])
  }

  ghost function Surviving(chans: seq<Channel>, live: set<nat>): (r: set<nat>)
    ensures forall c :: c in r <==> c in live && c < |chans| && |chans[c].buffer| < EVENT_BUFFER
  {
    set c | c in live && c < |chans| && |chans[c].buffer| < EVENT_BUFFER
  }

  ghost function Broadcasted(h: Hub, e: Event): (u: Hub)
  {
    var live := Surviving(h.chans, h.live);
    h.(pending := Updated(h.pending, e), live := live, chans := Fanned(h.chans, h.live, e), hist := h.hist + [e],
       origins := Extended(h.origins, live, |h.hist| + 1))
  }

  function Shut(c: Channel): (d: Channel)
  {
    c.(closes := c.closes + 1)
  }

  function Removed(h: Hub, id: nat): (u: Hub)
  {
    if id in h.live && id < |h.chans| then h.(live := h.live - {id}, chans := h.chans[id := Shut(h.chans[id])]) else h
  }

  ghost function Emptied(h: Hub): (u: Hub)
    ensures u.live == {} && |u.chans| == |h.chans|
    ensures forall c :: 0 <= c < |h.chans| ==> u.chans[c] == if c in h.live then Shut(h.chans[c]) else h.chans[c]
  {
    h.(live := {}, chans := seq(|h.chans|, c requires 0 <= c < |h.chans| => if c in h.live then Shut(h.chans[c]) else h.chans[c]))
  }

  function Taken(c: Channel): (d: Channel)
  {
    if c.buffer == [] then c else c.(taken := c.taken + [c.buffer[0]], buffer := c.buffer[1..])
  }

  function Received(h: Hub, id: nat): (u: Hub)
  {
    if id < |h.chans| then h.(chans := h.chans[id := Taken(h.chans[id])]) else h
  }

  /** A new channel that starts with the pending challenges in some order; with more of them than
      the buffer holds, Subscribe blocks while it has the lock. */
  ghost predicate Subscribed(h: Hub, u: Hub, initial: seq<Event>)
  {
    if |h.pending| > EVENT_BUFFER then u == h.(stuck := true)
    else
      && Lists(initial, h.pending)
      && u == h.(live := h.live + {|h.chans|}, chans := h.chans + [Channel([], initial, 0)],
                 origins := h.origins + [Origin(initial, |h.hist|, |h.hist|)])
  }

  lemma BroadcastOk(h: Hub, e: Event)
    requires HubOk(h)
    ensures HubOk(Broadcasted(h, e))
  {
    PendingStep(h.hist, e);
    BroadcastAllOk(h, e);
    BeginsOn(h.hist, e, h.origins, Surviving(h.chans, h.live));
  }

  lemma BroadcastAllOk(h: Hub, e: Event)
    requires AllOk(h.hist, h.chans, h.origins, h.live)
    ensures var u := Broadcasted(h, e); AllOk(u.hist, u.chans, u.origins, u.live)
  {
    BroadcastKeeps(h.hist, e, h.chans, h.origins, h.live, Fanned(h.chans, h.live, e), Surviving(h.chans, h.live));
  }

  lemma SubscribeOk(h: Hub, u: Hub, initial: seq<Event>)
    requires HubOk(h) && Subscribed(h, u, initial)
    ensures HubOk(u)
  {
    if |h.pending| <= EVENT_BUFFER {
      SubscribeStarts(h.hist, initial);
      SubscribeBegins(h.hist, initial);
      AddKeeps(h.hist, h.chans, h.origins, h.live, Channel([], initial, 0), Origin(initial, |h.hist|, |h.hist|));
    }
  }

  /** Closing a live channel ends its subscription where it is. */
  lemma ShutOk(hist: seq<Event>, c: Channel, o: Origin)
    requires ChannelOk(hist, c, o, true)
    ensures ChannelOk(hist, Shut(c), o, false)
  {
  }

  lemma RemoveOk(h: Hub, id: nat)
    requires HubOk(h)
    ensures HubOk(Removed(h, id))
  {
    if id in h.live {
      ShutOk(h.hist, h.chans[id], h.origins[id]);
    }
  }

  lemma EmptyOk(h: Hub)
    requires HubOk(h)
    ensures HubOk(Emptied(h))
  {
    var u := Emptied(h);
    forall c | 0 <= c < |u.chans|
      ensures ChannelOk(u.hist, u.chans[c], u.origins[c], c in u.live)
    {
      assert ChannelOk(h.hist, h.chans[c], h.origins[c], c in h.live);
      if c in h.live {
        ShutOk(h.hist, h.chans[c], h.origins[c]);
      }
    }
  }

  lemma ReceiveOk(h: Hub, id: nat)
    requires HubOk(h)
    ensures HubOk(Received(h, id))
  {
    if id < |h.chans| && h.chans[id].buffer != [] {
      TakeKeeps(h.hist, h.chans[id], h.origins[id], id in h.live);
    }
  }

  // ---------------------------------------------------------------------------------
  // The service object

  class Service {
    var pending: map<string, Event>
    var live: set<nat>
    var chans: seq<Channel>
    var stuck: bool
    ghost var hist: seq<Event>
    ghost var origins: seq<Origin>

    ghost function H(): (h: Hub)
      reads this
    {
      Hub(pending, live, chans, hist, origins, stuck)
    }

    constructor ()
      ensures H() == Hub(map[], {}, [], [], [], false)
    {
      pending, live, chans, hist, origins, stuck := map[], {}, [], [], [], false;
    }

    /** Subscribe: the id of the new channel, or None if the call never returns. The pending events
        are sent in some order into a channel nobody reads yet, so the first send that finds it
        full waits for ever, with the lock held. */
    method Subscribe() returns (id: Option<nat>, ghost initial: seq<Event>)
      requires HubOk(H())
      modifies this
      ensures Subscribed(old(H()), H(), initial)
      ensures id == if |old(pending)| > EVENT_BUFFER then None else Some(|old(chans)|)
    {
      forall d | d in pending
        ensures pending[d].auth == Some(d)
      {
        PendingNamed(hist, d);
      }
      var sent: seq<Event>, todo := [], pending.Keys;
      while todo != {}
        invariant H() == old(H()) && todo <= pending.Keys
        invariant |sent| <= EVENT_BUFFER && ListsBut(sent, pending, todo)
        decreases |todo|
      {
        if |sent| == EVENT_BUFFER {
          stuck := true;
          return None, [];
        }
        var d :| d in todo;
        ListsMore(sent, pending, todo, d);
        sent, todo := sent + [pending[d]], todo - {d};
      }
      id, initial := Some(|chans|), sent;
      live, chans := live + {|chans|}, chans + [Channel([], sent, 0)];
      origins := origins + [Origin(initial, |hist|, |hist|)];
    }

    /** The loop of broadcast: full channels are closed and dropped. */
    static method Fan(live: set<nat>, chans: seq<Channel>, e: Event) returns (live': set<nat>, chans': seq<Channel>)
      requires forall c :: c in live ==> c < |chans|
      ensures live' == Surviving(chans, live) && chans' == Fanned(chans, live, e)
    {
      live', chans' := live, chans;
      var todo := live;
      while todo != {}
        invariant todo <= live && |chans'| == |chans|
        invariant forall c :: c in live' <==> c in live && (c in todo || |chans[c].buffer| < EVENT_BUFFER)
        invariant forall c :: 0 <= c < |chans| ==> chans'[c] == if c in live && c !in todo then Offered(chans[c], e) else chans[c]
        decreases |todo|
      {
        var c :| c in todo;
        todo := todo - {c};
        var ch := chans'[c];
        if |ch.buffer| < EVENT_BUFFER {
          chans' := chans'[c := ch.(buffer := ch.buffer + [e])];
        } else {
          chans' := chans'[c := ch.(closes := ch.closes + 1)];
          live' := live' - {c};
        }
      }
    }

    method Broadcast(e: Event)
      requires forall c :: c in live ==> c < |chans|
      modifies this
      ensures H() == Broadcasted(old(H()), e)
    {
      ghost var after := Broadcasted(H(), e);
      var pending' := UpdatePendingAuth(pending, e);
      var live', chans' := Fan(live, chans, e);
      pending, live, chans := pending', live', chans';
      hist, origins := after.hist, after.origins;
    }

    /** removeSubscriber: a channel already closed by an overflow is left alone. */
    method RemoveSubscriber(id: nat)
      requires forall c :: c in live ==> c < |chans|
      modifies this`live, this`chans
      ensures H() == Removed(old(H()), id)
    {
      if id in live {
        var c := chans[id];
        chans := chans[id := c.(closes := c.closes + 1)];
        live := live - {id};
      }
    }

    /** closeSubscribers */
    method CloseSubscribers()
      requires forall c :: c in live ==> c < |chans|
      modifies this`live, this`chans
      ensures H() == Emptied(old(H()))
    {
      ghost var was := live;
      while live != {}
        invariant live <= was && |chans| == |old(chans)|
        invariant forall c :: 0 <= c < |chans| ==>
                    chans[c] == if c in was && c !in live then Shut(old(chans)[c]) else old(chans)[c]
        decreases |live|
      {
        var id :| id in live;
        var c := chans[id];
        chans := chans[id := c.(closes := c.closes + 1)];
        live := live - {id};
      }
      assert chans == Emptied(old(H())).chans;
    }

    /** The reader takes the next event; a closed channel still gives what it buffered. */
    method Receive(id: nat) returns (e: Option<Event>)
      requires id < |chans|
      modifies this`chans
      ensures H() == Received(old(H()), id)
      ensures e == if old(chans)[id].buffer == [] then None else Some(old(chans)[id].buffer[0])
    {
      var c := chans[id];
      if c.buffer == [] {
        assert chans[id := c] == chans;
        return None;
      }
      chans := chans[id := c.(taken := c.taken + [c.buffer[0]], buffer := c.buffer[1..])];
      return Some(c.buffer[0]);
    }
  }

  // ---------------------------------------------------------------------------------
  // Whole runs

  datatype Op = Subscribes | Broadcasts(e: Event) | Removes(id: nat) | Receives(id: nat) | Closes

  /** The events broadcast by a script; a stuck service broadcasts no more. */
  function History(script: seq<Op>): (hist: seq<Event>)
    decreases |script|, 0
  {
    if script == [] then []
    else
      var front, last := script[..|script| - 1], script[|script| - 1];
      History(front) + if last.Broadcasts? && !Stuck(front) then [last.e] else []
  }

  /** Some subscription of the script met more pending challenges than fit its buffer. */
  predicate Stuck(script: seq<Op>)
    decreases |script|, 1
  {
    script != [] &&
    var front := script[..|script| - 1];
    Stuck(front) || (script[|script| - 1].Subscribes? && |PendingAfter(History(front))| > EVENT_BUFFER)
  }

  /** For each subscription of a script that returned, how many broadcasts came before it. */
  function Arrivals(script: seq<Op>): (from: seq<nat>)
  {
    if script == [] then []
    else
      var front := script[..|script| - 1];
      Arrivals(front) + if script[|script| - 1].Subscribes? && !Stuck(script) then [|History(front)|] else []
  }

  /** The subscriptions began where the script says. */
  ghost predicate Arrived(origins: seq<Origin>, from: seq<nat>)
  {
    |origins| == |from| && forall c :: 0 <= c < |from| ==> origins[c].from == from[c]
  }

  /** The service after some script: whether it is stuck, what it broadcast and where its
      subscriptions began. */
  ghost predicate After(h: Hub, stuck: bool, hist: seq<Event>, from: seq<nat>)
  {
    HubOk(h) && h.stuck == stuck && h.hist == hist && Arrived(h.origins, from)
  }

  /** What one operation may do; those that need the lock of a stuck service do nothing. */
  ghost predicate Step(h: Hub, op: Op, u: Hub)
  {
    if h.stuck && !op.Receives? then u == h
    else match op
      case Subscribes => exists initial :: Subscribed(h, u, initial)
      case Broadcasts(e) => u == Broadcasted(h, e)
      case Removes(id) => u == Removed(h, id)
      case Receives(id) => u == Received(h, id)
      case Closes => u == Emptied(h)
  }

  lemma StepOk(h: Hub, op: Op, u: Hub)
    requires HubOk(h) && Step(h, op, u)
    ensures HubOk(u)
  {
    if !h.stuck || op.Receives? {
      match op
      case Subscribes =>
        var initial :| Subscribed(h, u, initial);
        SubscribeOk(h, u, initial);
      case Broadcasts(e) => BroadcastOk(h, e);
      case Removes(id) => RemoveOk(h, id);
      case Receives(id) => ReceiveOk(h, id);
      case Closes => EmptyOk(h);
    }
  }

  lemma StepAfter(h: Hub, op: Op, u: Hub, from: seq<nat>)
    requires HubOk(h) && Arrived(h.origins, from) && Step(h, op, u)
    ensures After(u, h.stuck || (op.Subscribes? && |h.pending| > EVENT_BUFFER),
                  h.hist + (if op.Broadcasts? && !h.stuck then [op.e] else []),
                  from + if op.Subscribes? && !h.stuck && |h.pending| <= EVENT_BUFFER then [|h.hist|] else [])
  {
    StepOk(h, op, u);
    StepArrives(h, op, u, from);
    if !op.Broadcasts? || h.stuck {
      assert h.hist + [] == h.hist;
    }
  }

  lemma StepArrives(h: Hub, op: Op, u: Hub, from: seq<nat>)
    requires Arrived(h.origins, from) && Step(h, op, u)
    ensures u.stuck == (h.stuck || (op.Subscribes? && |h.pending| > EVENT_BUFFER))
    ensures u.hist == if op.Broadcasts? && !h.stuck then h.hist + [op.e] else h.hist
    ensures Arrived(u.origins, from + if op.Subscribes? && !h.stuck && |h.pending| <= EVENT_BUFFER then [|h.hist|] else [])
  {
  }

  /** The service under a script of operations. */
  ghost predicate Run(script: seq<Op>, hubs: seq<Hub>)
  {
    && |hubs| == |script| + 1 && hubs[0] == Hub(map[], {}, [], [], [], false)
    && forall i :: 0 <= i < |script| ==> Step(hubs[i], script[i], hubs[i + 1])
  }

  /** How one more operation continues a script. */
  lemma ScriptStep(script: seq<Op>, n: nat)
    requires n < |script|
    ensures var front, op := script[..n], script[n];
            && Stuck(script[..n + 1]) == (Stuck(front) || (op.Subscribes? && |PendingAfter(History(front))| > EVENT_BUFFER))
            && History(script[..n + 1]) == History(front) + (if op.Broadcasts? && !Stuck(front) then [op.e] else [])
            && Arrivals(script[..n + 1]) == Arrivals(front) + (if op.Subscribes? && !Stuck(script[..n + 1]) then [|History(front)|] else [])
  {
    var more := script[..n + 1];
    assert more[..|more| - 1] == script[..n] && more[|more| - 1] == script[n];
  }

  lemma {:induction false} RunAfter(script: seq<Op>, hubs: seq<Hub>, n: nat)
    requires Run(script, hubs) && n < |hubs|
    ensures After(hubs[n], Stuck(script[..n]), History(script[..n]), Arrivals(script[..n]))
  {
    if n == 0 {
      assert script[..0] == [];
    } else {
      RunAfter(script, hubs, n - 1);
      NextAfter(script, hubs, n - 1);
    }
  }

  lemma NextAfter(script: seq<Op>, hubs: seq<Hub>, n: nat)
    requires Run(script, hubs) && n < |script|
    requires After(hubs[n], Stuck(script[..n]), History(script[..n]), Arrivals(script[..n]))
    ensures After(hubs[n + 1], Stuck(script[..n + 1]), History(script[..n + 1]), Arrivals(script[..n + 1]))
  {
    ScriptStep(script, n);
    StepAfter(hubs[n], script[n], hubs[n + 1], Arrivals(script[..n]));
  }

  /** At any point of any script: there is a channel for each subscription that returned; its
      reader saw or will see what was pending when it came and then each broadcast in turn, all of
      them as long as it is subscribed; and it was closed, once, exactly if it no longer is. */
  lemma RunSees(script: seq<Op>, hubs: seq<Hub>, n: nat, c: nat)
    requires Run(script, hubs) && n < |hubs| && c < |hubs[n].chans|
    ensures var h, hist, from := hubs[n], History(script[..n]), Arrivals(script[..n]);
            && |h.chans| == |h.origins| == |from| && h.origins[c].from == from[c]
            && SeesAll(hist, h.chans[c], h.origins[c])
            && (if c in h.live then h.chans[c].closes == 0 && h.origins[c].upto == |hist| else h.chans[c].closes == 1)
  {
    RunAfter(script, hubs, n);
    var h := hubs[n];
    assert ChannelOk(h.hist, h.chans[c], h.origins[c], c in h.live) && Began(h.hist, h.origins[c]);
  }

  lemma StepEnds(h: Hub, op: Op, u: Hub, c: nat)
    requires HubOk(h) && Step(h, op, u) && c in h.live
    ensures c < |h.chans|
    ensures c !in u.live <==>
              && !h.stuck
              && (op == Removes(c) || op.Closes? || (op.Broadcasts? && |h.chans[c].buffer| == EVENT_BUFFER))
  {
    assert ChannelOk(h.hist, h.chans[c], h.origins[c], true);
  }

  /** A subscription ends exactly when it is removed, when all are closed, or when a broadcast
      finds its buffer full. */
  lemma RunEnds(script: seq<Op>, hubs: seq<Hub>, n: nat, c: nat)
    requires Run(script, hubs) && n < |script| && c in hubs[n].live
    ensures c < |hubs[n].chans|
    ensures c !in hubs[n + 1].live <==>
              && !Stuck(script[..n])
              && (script[n] == Removes(c) || script[n].Closes? || (script[n].Broadcasts? && |hubs[n].chans[c].buffer| == EVENT_BUFFER))
  {
    RunAfter(script, hubs, n);
    StepEnds(hubs[n], script[n], hubs[n + 1], c);
  }

  /** One operation on the service. */
  method Perform(s: Service, op: Op)
    requires HubOk(s.H())
    modifies s
    ensures Step(old(s.H()), op, s.H())
  {
    if op.Receives? {
      if op.id < |s.chans| {
        var _ := s.Receive(op.id);
      }
    } else if !s.stuck {
      match op
      case Subscribes =>
        var _, _ := s.Subscribe();
      case Broadcasts(e) => s.Broadcast(e);
      case Removes(id) => s.RemoveSubscriber(id);
      case Closes => s.CloseSubscribers();
      case Receives(_) =>
    }
  }

  // ---------------------------------------------------------------------------------
  // The block

  /** Once stuck, a service stays so: whatever else is asked of it, nothing is broadcast and no
      subscription returns. */
  lemma {:induction false} StuckStays(script: seq<Op>, more: seq<Op>)
    requires Stuck(script)
    ensures Stuck(script + more) && History(script + more) == History(script) && Arrivals(script + more) == Arrivals(script)
    decreases |more|
  {
    if more == [] {
      assert script + more == script;
    } else {
      var all := script + more;
      StuckStays(script, more[..|more| - 1]);
      assert all[..|all| - 1] == script + more[..|more| - 1];
    }
  }

  /** Challenge n, with a name of n + 1 letters. */
  function Challenge(n: nat): (e: Event)
    ensures Asks(e, Letters(n + 1))
  {
    Event("session", AuthRequired, Some(Letters(n + 1)))
  }

  function Letters(n: nat): (id: string)
    ensures |id| == n
  {
    seq(n, _ => 'a')
  }

  /** n challenges are pending, with short names, and nobody is stuck. */
  ghost predicate Pends(script: seq<Op>, n: nat)
  {
    && !Stuck(script) && |PendingAfter(History(script))| == n
    && forall id :: id in PendingAfter(History(script)) ==> |id| <= n
  }

  /** As many challenges as one likes can be pending. */
  lemma {:induction false} AskingPends(n: nat) returns (script: seq<Op>)
    ensures |script| == n && Pends(script, n)
  {
    if n == 0 {
      script := [];
    } else {
      var front := AskingPends(n - 1);
      script := AskMore(front, n);
    }
  }

  lemma AskMore(front: seq<Op>, n: nat) returns (script: seq<Op>)
    requires n > 0 && Pends(front, n - 1)
    ensures script == front + [Broadcasts(Challenge(n - 1))] && Pends(script, n)
  {
    script := front + [Broadcasts(Challenge(n - 1))];
    AskAdds(front, Challenge(n - 1), Letters(n));
    assert Letters(n) !in PendingAfter(History(front));
  }

  /** A broadcast that asks puts its challenge into the table. */
  lemma AskAdds(script: seq<Op>, e: Event, id: string)
    requires !Stuck(script) && Asks(e, id)
    ensures !Stuck(script + [Broadcasts(e)])
    ensures PendingAfter(History(script + [Broadcasts(e)])) == PendingAfter(History(script))[id := e]
  {
    BroadcastNext(script, e);
    PendingStep(History(script), e);
    AskUpdates(PendingAfter(History(script)), e, id);
  }

  lemma BroadcastNext(script: seq<Op>, e: Event)
    requires !Stuck(script)
    ensures !Stuck(script + [Broadcasts(e)]) && History(script + [Broadcasts(e)]) == History(script) + [e]
  {
    var more := script + [Broadcasts(e)];
    assert more[..|script|] == script && more[..|script| + 1] == more;
    ScriptStep(more, |script|);
  }

  lemma AskUpdates(pending: map<string, Event>, e: Event, id: string)
    requires Asks(e, id)
    ensures Updated(pending, e) == pending[id := e]
  {
  }

  /** And a service does get stuck: after n challenges a subscription blocks exactly if they are
      more than its buffer holds. */
  lemma SubscribeBlocks(n: nat) returns (script: seq<Op>)
    ensures |script| == n + 1 && !Stuck(script[..n]) && |PendingAfter(History(script[..n]))| == n && script[n] == Subscribes
    ensures Stuck(script) <==> n > EVENT_BUFFER
  {
    var asking := AskingPends(n);
    script := asking + [Subscribes];
    assert script[..n] == asking;
  }

  /** Performing a script on a new service is a run of it. */
  method Drive(script: seq<Op>) returns (chans: seq<Channel>, ghost hubs: seq<Hub>)
    ensures Run(script, hubs) && chans == hubs[|script|].chans
  {
    var s := new Service();
    hubs := [s.H()];
    for n := 0 to |script|
      invariant fresh(s) && |hubs| == n + 1 && hubs[n] == s.H() && HubOk(s.H()) && hubs[0] == Hub(map[], {}, [], [], [], false)
      invariant forall i :: 0 <= i < n ==> Step(hubs[i], script[i], hubs[i + 1])
    {
      Perform(s, script[n]);
      StepOk(hubs[n], script[n], s.H());
      hubs := hubs + [s.H()];
    }
    chans := s.chans;
  }
}
