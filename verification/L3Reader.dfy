/** The L3 tunnel's reading side as it runs: methods over a buffered reader, each proved
    against the wire format of L3Wire. */
module L3Reader {
  import opened Bytes
  import opened L3Wire

  /** One length-prefixed packet, length bytes included. */
  method ReadPacket(rd: Reader) returns (r: Result<seq<Byte>, ReadError>)
    requires rd.Valid()
    modifies rd`pos
    ensures rd.Valid()
    ensures match Sized(rd.data, old(rd.pos))
            case Got(_, end) => r == Ok(rd.data[old(rd.pos)..end]) && rd.pos == end
            case Fail(e) => r == Err(e)
  {
    ghost var at := rd.pos;
    var lenBytes := rd.ReadFull(2);
    if lenBytes.Err? { return Err(lenBytes.error); }
    var pkt := rd.ReadFull(BE16(lenBytes.value[0], lenBytes.value[1]));
    if pkt.Err? { return Err(pkt.error); }
    r := Ok(lenBytes.value + pkt.value);
    assert lenBytes.value + pkt.value == rd.data[at..rd.pos];
  }

  /** The packet loop of readDataRespPayload, `payload0` being the bytes read since `at`. */
  method ReadPackets(rd: Reader, count: Byte, payload0: seq<Byte>, ghost at: nat)
    returns (r: Result<seq<Byte>, ReadError>)
    requires rd.Valid() && at <= rd.pos && payload0 == rd.data[at..rd.pos]
    modifies rd`pos
    ensures rd.Valid()
    ensures match SplitPackets(rd.data, old(rd.pos), count, [])
            case Got(_, end) => at <= end <= |rd.data| && r == Ok(rd.data[at..end]) && rd.pos == end
            case Fail(e) => r == Err(e)
  {
    var payload := payload0;
    ghost var acc: seq<seq<Byte>> := [];
    var i: nat := 0;
    while i < count
      invariant 0 <= i <= count
      invariant rd.Valid() && at <= rd.pos && payload == rd.data[at..rd.pos]
      invariant SplitPackets(rd.data, old(rd.pos), count, []) == SplitPackets(rd.data, rd.pos, count - i, acc)
    {
      ghost var idx := rd.pos;
      var pkt := ReadPacket(rd);
      if pkt.Err? { return Err(pkt.error); }
      acc := acc + [rd.data[idx + 2..rd.pos]];
      assert payload + pkt.value == rd.data[at..rd.pos];
      payload := payload + pkt.value;
      i := i + 1;
    }
    return Ok(payload);
  }

  /** readDataRespPayload */
  method ReadDataRespPayload(rd: Reader) returns (r: Result<(seq<Byte>, Mode), ReadError>)
    requires rd.Valid()
    modifies rd`pos
    ensures rd.Valid()
    ensures match NextData(rd.data, old(rd.pos))
            case Got(v, end) => r == Ok(v) && rd.pos == end
            case Fail(e) => r == Err(e)
  {
    var peek := rd.Peek2();
    if peek.Err? { return Err(peek.error); }
    var payloadLen := BE16(peek.value[0], peek.value[1]);
    if 0 < payloadLen <= MAX_DATA_PAYLOAD {
      var skipped := rd.ReadFull(2);
      var body := rd.ReadFull(payloadLen);
      return if body.Ok? then Ok((body.value, LenMode)) else Err(body.error);
    }
    r := ReadTokenPayload(rd);
  }

  method ReadTokenPayload(rd: Reader) returns (r: Result<(seq<Byte>, Mode), ReadError>)
    requires rd.Valid() && rd.pos + 2 <= |rd.data|
    modifies rd`pos
    ensures rd.Valid()
    ensures match NextToken(rd.data, old(rd.pos))
            case Got(v, end) => r == Ok(v) && rd.pos == end
            case Fail(e) => r == Err(e)
  {
    ghost var at := rd.pos;
    var tokenLen := rd.ReadFull(1);
    var token := rd.ReadFull(tokenLen.value[0]);
    if token.Err? { return Err(token.error); }
    var payload := tokenLen.value + token.value;
    assert payload == rd.data[at..rd.pos];
    var reserved := rd.ReadFull(2);
    if reserved.Err? { return Err(reserved.error); }
    payload := payload + reserved.value;
    assert payload == rd.data[at..rd.pos];
    var count := rd.ReadFull(1);
    if count.Err? { return Err(count.error); }
    payload := payload + count.value;
    assert payload == rd.data[at..rd.pos];
    var packets := ReadPackets(rd, count.value[0], payload, at);
    r := if packets.Ok? then Ok((packets.value, TokenMode)) else Err(packets.error);
  }

  /** The part of readFrame behind a version byte and a command. */
  method ReadVersioned(rd: Reader, cmd: Byte) returns (r: Result<Frame, ReadError>)
    requires rd.Valid()
    modifies rd`pos
    ensures rd.Valid()
    ensures match NextVersioned(rd.data, old(rd.pos), cmd)
            case Got(f, end) => r == Ok(f) && rd.pos == end
            case Fail(e) => r == Err(e)
  {
    if HasStatus(cmd) {
      var statusLen := rd.ReadFull(3);
      if statusLen.Err? { return Err(statusLen.error); }
      var body := rd.ReadFull(BE16(statusLen.value[1], statusLen.value[2]));
      r := if body.Ok? then Ok(Frame(cmd, statusLen.value[0], body.value, NoMode)) else Err(body.error);
    } else if cmd == CMD_DATA_RESP {
      var body := ReadDataRespPayload(rd);
      r := if body.Ok? then Ok(Frame(cmd, 0, body.value.0, body.value.1)) else Err(body.error);
    } else {
      var body := rd.ReadSized();
      r := if body.Ok? then Ok(Frame(cmd, 0, body.value, NoMode)) else Err(body.error);
    }
  }

  /** readFrame: loops over protocol frames, then returns one frame or the first error. */
  method ReadFrame(rd: Reader) returns (r: Result<Frame, ReadError>)
    requires rd.Valid()
    modifies rd`pos
    ensures rd.Valid()
    ensures match NextFrame(rd.data, old(rd.pos))
            case Next(f, end) => r == Ok(f) && rd.pos == end
            case Stop(e, _) => r == Err(e)
  {
    while true
      invariant rd.Valid()
      invariant NextFrame(rd.data, old(rd.pos)) == NextFrame(rd.data, rd.pos)
      decreases |rd.data| - rd.pos
    {
      var header := rd.ReadFull(2);
      if header.Err? { return Err(header.error); }
      if header.value[0] == L3_VERSION {
        r := ReadVersioned(rd, header.value[1]);
        return;
      }
      if header.value[0] != 0x53 || header.value[1] != 0 {
        return Err(BadHeader(header.value[0], header.value[1]));
      }
      var body := rd.ReadSized();
      if body.Err? { return Err(body.error); }
    }
  }

  /** parseDataPayload */
  method ParseDataPayload(payload: seq<Byte>) returns (r: Result<seq<seq<Byte>>, ParseError>)
    ensures r == ParsePayload(payload)
  {
    if |payload| < 4 { return Err(TooShort); }
    var idx: nat := 4 + (payload[0] as int);
    if |payload| < idx { return Err(TokenOverflow); }
    var count := payload[idx - 1];
    ghost var start := idx;
    var packets: seq<seq<Byte>> := [];
    var i: nat := 0;
    while i < count
      invariant 0 <= i <= count
      invariant start <= idx <= |payload|
      invariant SplitPackets(payload, start, count, []) == SplitPackets(payload, idx, count - i, packets)
    {
      if idx + 2 > |payload| { return Err(PacketOverflow); }
      var end := idx + 2 + BE16(payload[idx], payload[idx + 1]);
      if end > |payload| { return Err(PacketOverflow); }
      packets := packets + [payload[idx + 2..end]];
      idx := end;
      i := i + 1;
    }
    return Ok(packets);
  }

  /** buildDataPayload */
  method BuildDataPayload(token: seq<Byte>, packets: seq<seq<Byte>>) returns (payload: seq<Byte>)
    ensures payload == BuildPayload(token, packets)
  {
    payload := [L3_VERSION, CMD_DATA_REQ] + TokenHead(token, [0, 0], |packets|);
    for i := 0 to |packets|
      invariant payload + EncodePackets(packets[i..]) == BuildPayload(token, packets)
    {
      var lenBytes := PutUint16(|packets[i]|);
      EncodeOneMore(payload, packets, i);
      payload := payload + (lenBytes + packets[i]);
    }
    assert payload == payload + EncodePackets(packets[|packets|..]);
  }

  lemma EncodeOneMore(before: seq<Byte>, packets: seq<seq<Byte>>, i: nat)
    requires i < |packets|
    ensures before + EncodePackets(packets[i..])
            == before + EncodePacket(packets[i]) + EncodePackets(packets[i + 1..])
  {
    assert packets[i..][1..] == packets[i + 1..];
  }

  /** The switch of readLoop. */
  method Deliver(fr: Frame) returns (r: seq<Delivery>)
    ensures r == Delivered(fr)
  {
    if fr.cmd == CMD_DATA_RESP {
      if fr.mode == LenMode { return [Packet(fr.payload)]; }
      var parsed := ParseDataPayload(fr.payload);
      if parsed.Err? { return []; }
      r := [];
      for i := 0 to |parsed.value|
        invariant r == Packets(parsed.value[..i])
      {
        r := r + [Packet(parsed.value[i])];
      }
      assert parsed.value[..|parsed.value|] == parsed.value;
    } else if fr.cmd == CMD_AUTH_RESP {
      r := [AuthReply(fr.status, fr.payload)];
    } else if fr.cmd == CMD_SECOND_VIP_RESP {
      r := [VipReply(fr.status, fr.payload)];
    } else if fr.cmd == CMD_HEARTBEAT_RESP {
      r := [Heartbeat];
    } else {
      r := [];
    }
  }

  /** The elements of a in order among those of b. */
  ghost predicate Sub<T(!new)>(a: seq<T>, b: seq<T>)
  {
    if b == [] then a == []
    else
      var n, m := |a| - 1, |b| - 1;
      Sub(a, b[..m]) || (a != [] && a[n] == b[m] && Sub(a[..n], b[..m]))
  }

  /** What was handed over of `seen` when the tunnel is closed after closeAt of it: everything up to
      there, and of the rest some, in order. */
  ghost predicate Handed(done: seq<Delivery>, seen: seq<Delivery>, closeAt: Option<nat>)
  {
    if closeAt.None? || |seen| <= closeAt.value then done == seen
    else
      var k := closeAt.value;
      k <= |done| && done[..k] == seen[..k] && Sub(done[k..], seen[k..])
  }

  predicate Closed(seen: nat, closeAt: Option<nat>)
  {
    closeAt.Some? && closeAt.value <= seen
  }

  lemma SubEmpty<T(!new)>(b: seq<T>)
    ensures Sub([], b)
  {
  }

  lemma SubMore<T(!new)>(a: seq<T>, b: seq<T>, x: T)
    requires Sub(a, b)
    ensures Sub(a, b + [x]) && Sub(a + [x], b + [x])
  {
    assert (b + [x])[..|b|] == b && (a + [x])[..|a|] == a;
  }

  lemma HandOn(done: seq<Delivery>, seen: seq<Delivery>, closeAt: Option<nat>, x: Delivery)
    requires Handed(done, seen, closeAt)
    ensures Handed(done + [x], seen + [x], closeAt)
  {
    if Closed(|seen|, closeAt) {
      var k := closeAt.value;
      SplitAt(done, seen, x, k);
      SubEmpty<Delivery>([]);
      SubMore(done[k..], seen[k..], x);
    }
  }

  lemma SplitAt(done: seq<Delivery>, seen: seq<Delivery>, x: Delivery, k: nat)
    requires k <= |done| && k <= |seen|
    ensures (done + [x])[..k] == done[..k] && (done + [x])[k..] == done[k..] + [x]
    ensures (seen + [x])[..k] == seen[..k] && (seen + [x])[k..] == seen[k..] + [x]
  {
  }

  lemma HandDrop(done: seq<Delivery>, seen: seq<Delivery>, closeAt: Option<nat>, x: Delivery)
    requires Handed(done, seen, closeAt) && Closed(|seen|, closeAt)
    ensures Handed(done, seen + [x], closeAt)
  {
    var k := closeAt.value;
    SplitAt(done, seen, x, k);
    SubEmpty<Delivery>([]);
    SubMore(done[k..], seen[k..], x);
  }

  lemma {:induction false} HandQuit(done: seq<Delivery>, seen: seq<Delivery>, closeAt: Option<nat>, rest: seq<Delivery>)
    requires Handed(done, seen, closeAt) && Closed(|seen|, closeAt)
    ensures Handed(done, seen + rest, closeAt)
    decreases |rest|
  {
    if rest == [] {
      assert seen + rest == seen;
    } else {
      HandDrop(done, seen, closeAt, rest[0]);
      HandQuit(done, seen + [rest[0]], closeAt, rest[1..]);
      assert seen + [rest[0]] + rest[1..] == seen + rest;
    }
  }

  /** Hand over what one frame carries. Once the tunnel is closed, a packet may go to the channel or be
      dropped, whichever the select takes; among the packets of a token frame a drop ends the loop. */
  method HandOver(r: seq<Delivery>, stops: bool, done: seq<Delivery>, ghost seen: seq<Delivery>, count: nat, closeAt: Option<nat>)
    returns (more: seq<Delivery>, quit: bool)
    requires Handed(done, seen, closeAt) && count == |seen|
    ensures quit ==> Closed(count + |r|, closeAt)
    ensures Handed(more, seen + r, closeAt)
  {
    more, quit := done, false;
    assert seen + r[..0] == seen;
    for i := 0 to |r|
      invariant Handed(more, seen + r[..i], closeAt)
    {
      ghost var now := seen + r[..i];
      assert seen + r[..i + 1] == now + [r[i]];
      var taken: bool := *;
      if r[i].Packet? && Closed(count + i, closeAt) && !taken {
        if stops {
          HandQuit(more, now, closeAt, r[i..]);
          assert now + r[i..] == seen + r;
          return more, true;
        }
        HandDrop(more, now, closeAt, r[i]);
      } else {
        HandOn(more, now, closeAt, r[i]);
        more := more + [r[i]];
      }
    }
    assert r[..|r|] == r;
  }

  /** readLoop, collecting what it does with the frames, until its first error or, once the tunnel was
      closed after closeAt deliveries, until it notices. */
  method ReadLoop(rd: Reader, closeAt: Option<nat>) returns (done: seq<Delivery>, error: Option<ReadError>)
    requires rd.Valid() && rd.pos == 0
    modifies rd`pos
    ensures Handed(done, DeliveredAll(ReadAll(rd.data).frames), closeAt)
    ensures match error
            case Some(e) => e == ReadAll(rd.data).error
            case None => Closed(|DeliveredAll(ReadAll(rd.data).frames)|, closeAt)
  {
    ghost var parse, seen: seq<Delivery> := Parses(rd.data), [];
    done := [];
    var count := 0;
    while true
      invariant rd.Valid() && count == |seen| && Handed(done, seen, closeAt)
      invariant DeliveredAll(Drain(parse, 0).frames) == seen + DeliveredAll(Drain(parse, rd.pos).frames)
      invariant Drain(parse, 0).error == Drain(parse, rd.pos).error
      decreases |rd.data| - rd.pos
    {
      var fr := ReadFrame(rd);
      if fr.Err? {
        assert seen + [] == seen;
        return done, Some(fr.error);
      }
      DeliverOne(fr.value, Drain(parse, rd.pos).frames, seen);
      var r := Deliver(fr.value);
      var quit;
      done, quit := HandOver(r, fr.value.mode != LenMode, done, seen, count, closeAt);
      seen, count := seen + r, count + |r|;
      if quit {
        HandQuit(done, seen, closeAt, DeliveredAll(Drain(parse, rd.pos).frames));
        return done, None;
      }
    }
  }

  lemma DeliverOne(f: Frame, fs: seq<Frame>, before: seq<Delivery>)
    ensures before + DeliveredAll([f] + fs) == before + Delivered(f) + DeliveredAll(fs)
  {
    assert ([f] + fs)[1..] == fs;
  }

  /** On any stream of well-formed frames the loop delivers exactly what the server sent, in order,
      up to the close of the tunnel, and ends at end of stream or after that. */
  method ReceiveStream(ghost ws: seq<Wire>, rd: Reader, closeAt: Option<nat>) returns (done: seq<Delivery>, error: Option<ReadError>)
    requires AllWellFormed(ws) && rd.pos == 0 && rd.data == EncodeAll(ws)
    modifies rd`pos
    ensures Handed(done, CarriedAll(ws), closeAt)
    ensures if error.Some? then error.value == Eof else Closed(|CarriedAll(ws)|, closeAt)
  {
    StreamReads(ws);
    StreamDelivered(ws);
    done, error := ReadLoop(rd, closeAt);
  }
}
