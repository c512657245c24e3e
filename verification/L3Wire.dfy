/** The L3 tunnel wire format: what each frame looks like on the stream, what the reader
    makes of a stream, and why the two agree. Streams are byte sequences, read from a position. */
module L3Wire {
  import opened Bytes

  const L3_VERSION: Byte := 0x05
  const CMD_AUTH_RESP: Byte := 0x93
  const CMD_DATA_REQ: Byte := 0x14
  const CMD_DATA_RESP: Byte := 0x94
  const CMD_HEARTBEAT_RESP: Byte := 0x95
  const CMD_SECOND_VIP_RESP: Byte := 0x96
  const MAX_DATA_PAYLOAD := 4096

  datatype Mode = NoMode | LenMode | TokenMode

  datatype Frame = Frame(cmd: Byte, status: Byte, payload: seq<Byte>, mode: Mode)

  // ---------------------------------------------------------------------------------
  // Packet lists

  /** n length-prefixed packets starting at idx, appended to acc. */
  function SplitPackets(t: seq<Byte>, idx: nat, n: nat, acc: seq<seq<Byte>>): (r: Decoded<seq<seq<Byte>>, ReadError>)
    requires idx <= |t|
    decreases n
  {
    if n == 0 then Got(acc, idx)
    else if idx + 2 > |t| then Fail(ShortRead(|t| - idx))
    else
      var end := idx + 2 + BE16(t[idx], t[idx + 1]);
      if end > |t| then Fail(ShortRead(|t| - idx - 2))
      else SplitPackets(t, end, n - 1, acc + [t[idx + 2..end]])
  }

  ghost function EncodePackets(packets: seq<seq<Byte>>): (s: seq<Byte>)
  {
    if packets == [] then [] else EncodePacket(packets[0]) + EncodePackets(packets[1..])
  }

  predicate PacketsFit(packets: seq<seq<Byte>>)
  {
    forall i :: 0 <= i < |packets| ==> |packets[i]| <= 0xFFFF
  }

  lemma {:induction false} SplitShape(t: seq<Byte>, idx: nat, n: nat, acc: seq<seq<Byte>>)
    requires idx <= |t| && SplitPackets(t, idx, n, acc).Got?
    ensures var r := SplitPackets(t, idx, n, acc);
            && |r.value| == |acc| + n && r.value[..|acc|] == acc && idx <= r.end <= |t|
    decreases n
  {
    if n > 0 {
      var end := idx + 2 + BE16(t[idx], t[idx + 1]);
      var next := acc + [t[idx + 2..end]];
      SplitShape(t, end, n - 1, next);
      assert acc == next[..|acc|];
    }
  }

  lemma SubSlice(t: seq<Byte>, base: nat, end: nat, lo: nat, hi: nat)
    requires base + lo <= base + hi <= end <= |t|
    ensures t[base..end][lo..hi] == t[base + lo..base + hi]
  {
    var a, b := t[base..end][lo..hi], t[base + lo..base + hi];
    assert forall i :: 0 <= i < |a| ==> a[i] == t[base + lo + i] == b[i];
  }

  /** Splitting depends only on the bytes up to the end it reports. */
  lemma {:induction false} SplitCut(t: seq<Byte>, base: nat, end: nat, idx: nat, n: nat, acc: seq<seq<Byte>>)
    requires base <= idx <= end <= |t|
    requires SplitPackets(t, idx, n, acc).Got? && base <= SplitPackets(t, idx, n, acc).end <= end
    ensures SplitPackets(t[base..end], idx - base, n, acc)
            == Got(SplitPackets(t, idx, n, acc).value, SplitPackets(t, idx, n, acc).end - base)
    decreases n
  {
    if n > 0 {
      var stop := idx + 2 + BE16(t[idx], t[idx + 1]);
      var next := acc + [t[idx + 2..stop]];
      SplitShape(t, stop, n - 1, next);
      var u, at, cut := t[base..end], idx - base, stop - base;
      SubSlice(t, base, end, at + 2, cut);
      assert u[at] == t[idx] && u[at + 1] == t[idx + 1] && cut == at + 2 + BE16(u[at], u[at + 1]);
      SplitCut(t, base, end, stop, n - 1, next);
    }
  }

  lemma FitTail(ps: seq<seq<Byte>>)
    requires ps != []
    ensures PacketsFit(ps) <==> |ps[0]| <= 0xFFFF && PacketsFit(ps[1..])
  {
    assert ps == [ps[0]] + ps[1..];
  }

  lemma AccShift(acc: seq<seq<Byte>>, ps: seq<seq<Byte>>)
    requires ps != []
    ensures acc + [ps[0]] + ps[1..] == acc + ps
  {
  }

  /** What begins with the encoding of a list begins with its first packet. */
  lemma EncodedHead(t: seq<Byte>, idx: nat, ps: seq<seq<Byte>>)
    requires HasAt(t, idx, EncodePackets(ps)) && ps != []
    ensures idx + 2 + |ps[0]| <= |t| && BE16(t[idx], t[idx + 1]) == Low16(|ps[0]|) && t[idx + 2..idx + 2 + |ps[0]|] == ps[0]
    ensures HasAt(t, idx + 2 + |ps[0]|, EncodePackets(ps[1..])) && |EncodePackets(ps)| == 2 + |ps[0]| + |EncodePackets(ps[1..])|
  {
    var p, rest := ps[0], EncodePackets(ps[1..]);
    PacketFirst(t, idx, EncodePackets(ps), p, rest);
    assert |EncodePackets(ps)| == |EncodePacket(p)| + |rest|;
  }

  lemma PacketFirst(t: seq<Byte>, idx: nat, x: seq<Byte>, p: seq<Byte>, rest: seq<Byte>)
    requires HasAt(t, idx, x) && x == EncodePacket(p) + rest
    ensures idx + 2 + |p| <= |t| && BE16(t[idx], t[idx + 1]) == Low16(|p|) && t[idx + 2..idx + 2 + |p|] == p
    ensures HasAt(t, idx + 2 + |p|, rest)
  {
    HasConcat(t, idx, EncodePacket(p), rest);
    PacketAt(t, idx, p);
  }

  lemma SplitOne(t: seq<Byte>, idx: nat, n: nat, acc: seq<seq<Byte>>, p: seq<Byte>)
    requires idx + 2 + |p| <= |t| && BE16(t[idx], t[idx + 1]) == |p| && t[idx + 2..idx + 2 + |p|] == p
    ensures SplitPackets(t, idx, n + 1, acc) == SplitPackets(t, idx + 2 + |p|, n, acc + [p])
  {
  }

  /** The packets stand at idx, each behind its length, and end at `end`. */
  ghost predicate ListAt(t: seq<Byte>, idx: nat, ps: seq<seq<Byte>>, end: nat)
    decreases |ps|
  {
    if ps == [] then idx == end <= |t|
    else
      var next := idx + 2 + |ps[0]|;
      next <= |t| && BE16(t[idx], t[idx + 1]) == |ps[0]| && t[idx + 2..next] == ps[0] && ListAt(t, next, ps[1..], end)
  }

  lemma {:induction false} EncodedList(t: seq<Byte>, idx: nat, ps: seq<seq<Byte>>)
    requires HasAt(t, idx, EncodePackets(ps)) && PacketsFit(ps)
    ensures ListAt(t, idx, ps, idx + |EncodePackets(ps)|)
    decreases |ps|
  {
    if ps != [] {
      EncodedHead(t, idx, ps);
      FitTail(ps);
      EncodedList(t, idx + 2 + |ps[0]|, ps[1..]);
    }
  }

  lemma {:induction false} SplitList(t: seq<Byte>, idx: nat, ps: seq<seq<Byte>>, acc: seq<seq<Byte>>, end: nat)
    requires ListAt(t, idx, ps, end)
    ensures idx <= |t| && SplitPackets(t, idx, |ps|, acc) == Got(acc + ps, end)
    decreases |ps|
  {
    if ps == [] {
      assert acc + ps == acc;
    } else {
      SplitOne(t, idx, |ps| - 1, acc, ps[0]);
      SplitList(t, idx + 2 + |ps[0]|, ps[1..], acc + [ps[0]], end);
      AccShift(acc, ps);
    }
  }

  /** Splitting an encoded list in place gives back exactly that list when every packet
      fits its 16-bit length ... */
  lemma SplitEncoded(t: seq<Byte>, idx: nat, ps: seq<seq<Byte>>, acc: seq<seq<Byte>>)
    requires HasAt(t, idx, EncodePackets(ps)) && PacketsFit(ps)
    ensures SplitPackets(t, idx, |ps|, acc) == Got(acc + ps, idx + |EncodePackets(ps)|)
  {
    var end := idx + |EncodePackets(ps)|;
    EncodedList(t, idx, ps);
    SplitList(t, idx, ps, acc, end);
  }

  /** ... and never does otherwise, for what is split off always fits. */
  lemma SplitOversized(t: seq<Byte>, idx: nat, ps: seq<seq<Byte>>, acc: seq<seq<Byte>>)
    requires idx <= |t| && !PacketsFit(ps)
    ensures var r := SplitPackets(t, idx, |ps|, acc); r.Got? ==> r.value != acc + ps
  {
    if SplitPackets(t, idx, |ps|, acc).Got? {
      SplitFits(t, idx, |ps|, acc);
      assert (acc + ps)[|acc|..] == ps;
    }
  }

  lemma {:induction false} SplitFits(t: seq<Byte>, idx: nat, n: nat, acc: seq<seq<Byte>>)
    requires idx <= |t| && SplitPackets(t, idx, n, acc).Got?
    ensures |acc| <= |SplitPackets(t, idx, n, acc).value| && PacketsFit(SplitPackets(t, idx, n, acc).value[|acc|..])
    decreases n
  {
    if n > 0 {
      var end := idx + 2 + BE16(t[idx], t[idx + 1]);
      var next := acc + [t[idx + 2..end]];
      var v := SplitPackets(t, end, n - 1, next).value;
      SplitFits(t, end, n - 1, next);
      SplitShape(t, end, n - 1, next);
      assert v[|acc|] == v[..|next|][|acc|] == t[idx + 2..end];
      assert v[|acc|..] == [v[|acc|]] + v[|next|..];
    }
  }

  // ---------------------------------------------------------------------------------
  // Data payloads

  datatype ParseError = TooShort | TokenOverflow | PacketOverflow

  /** parseDataPayload: token, two reserved bytes, a count, that many packets. */
  function ParsePayload(payload: seq<Byte>): (r: Result<seq<seq<Byte>>, ParseError>)
  {
    if |payload| < 4 then Err(TooShort)
    else
      var head: nat := 4 + (payload[0] as int);
      if |payload| < head then Err(TokenOverflow)
      else
        match SplitPackets(payload, head, payload[head - 1], [])
        case Got(packets, _) => Ok(packets)
        case Fail(_) => Err(PacketOverflow)
  }

  function TokenHead(token: seq<Byte>, reserved: seq<Byte>, count: nat): (s: seq<Byte>)
    ensures |s| == |token| + |reserved| + 2
  {
    [Low8(|token|)] + token + reserved + [Low8(count)]
  }

  ghost function TokenBody(token: seq<Byte>, reserved: seq<Byte>, packets: seq<seq<Byte>>): (s: seq<Byte>)
  {
    TokenHead(token, reserved, |packets|) + EncodePackets(packets)
  }

  /** buildDataPayload, with byte(len) and uint16(len) truncating as Go conversions do. */
  ghost function BuildPayload(token: seq<Byte>, packets: seq<seq<Byte>>): (s: seq<Byte>)
  {
    [L3_VERSION, CMD_DATA_REQ] + TokenBody(token, [0, 0], packets)
  }

  lemma TokenHeadAt(t: seq<Byte>, at: nat, token: seq<Byte>, reserved: seq<Byte>, count: nat)
    requires |token| <= 0xFF && |reserved| == 2 && HasAt(t, at, TokenHead(token, reserved, count))
    ensures var head := at + 4 + |token|;
            && head <= |t| && t[at] == |token| && t[head - 1] == Low8(count)
            && t[at + 1] == (if |token| > 0 then token[0] else reserved[0])
  {
    var x := TokenHead(token, reserved, count);
    HasElem(t, at, x, 0);
    HasElem(t, at, x, 1);
    HasElem(t, at, x, 3 + |token|);
  }

  /** Under WritePacket's token check, parsing what was built gives back the packets exactly
      when their count fits a byte and each of them fits a 16-bit length. */
  lemma BuildParseRoundTrip(token: seq<Byte>, packets: seq<seq<Byte>>)
    requires |token| <= 0xFF
    ensures ParsePayload(BuildPayload(token, packets)[2..]) == Ok(packets)
            <==> |packets| <= 0xFF && PacketsFit(packets)
  {
    assert BuildPayload(token, packets)[2..] == TokenBody(token, [0, 0], packets);
    BodyParses(token, [0, 0], packets);
  }

  lemma BodyParses(token: seq<Byte>, reserved: seq<Byte>, packets: seq<seq<Byte>>)
    requires |token| <= 0xFF && |reserved| == 2
    ensures ParsePayload(TokenBody(token, reserved, packets)) == Ok(packets)
            <==> |packets| <= 0xFF && PacketsFit(packets)
  {
    var body, head := TokenBody(token, reserved, packets), 4 + |token|;
    HasAll(body);
    HasConcat(body, 0, TokenHead(token, reserved, |packets|), EncodePackets(packets));
    TokenHeadAt(body, 0, token, reserved, |packets|);
    assert [] + packets == packets;
    if |packets| > 0xFF {
      if SplitPackets(body, head, Low8(|packets|), []).Got? {
        SplitShape(body, head, Low8(|packets|), []);
      }
    } else if PacketsFit(packets) {
      SplitEncoded(body, head, packets, []);
    } else {
      SplitOversized(body, head, packets, []);
    }
  }

  // ---------------------------------------------------------------------------------
  // Reading

  /** readDataRespPayload: a two-byte peek in 1..4096 announces a length frame, anything
      else a token frame. The token payload is the bytes it consumed. */
  function NextData(s: seq<Byte>, at: nat): (r: Decoded<(seq<Byte>, Mode), ReadError>)
    requires at <= |s|
    ensures r.Got? ==> at < r.end <= |s|
  {
    if |s| < at + 2 then Fail(Eof)
    else
      var plen := BE16(s[at], s[at + 1]);
      if 0 < plen <= MAX_DATA_PAYLOAD then
        if |s| < at + 2 + plen then Fail(ShortRead(|s| - at - 2))
        else Got((s[at + 2..at + 2 + plen], LenMode), at + 2 + plen)
      else NextToken(s, at)
  }

  function NextToken(s: seq<Byte>, at: nat): (r: Decoded<(seq<Byte>, Mode), ReadError>)
    requires at + 2 <= |s|
    ensures r.Got? ==> at < r.end <= |s|
  {
    var head: nat := at + 4 + s[at];
    if |s| < head - 3 then Fail(ShortRead(|s| - at - 1))
    else if |s| < head - 1 then Fail(ShortRead(|s| - (head - 3)))
    else if |s| < head then Fail(Eof)
    else
      match SplitPackets(s, head, s[head - 1], [])
      case Fail(e) => Fail(e)
      case Got(_, end) =>
        SplitShape(s, head, s[head - 1], []);
        Got((s[at..end], TokenMode), end)
  }

  predicate HasStatus(cmd: Byte)
  {
    cmd == CMD_AUTH_RESP || cmd == CMD_SECOND_VIP_RESP
  }

  /** The part of readFrame behind a version byte and a command. */
  function NextVersioned(s: seq<Byte>, at: nat, cmd: Byte): (r: Decoded<Frame, ReadError>)
    requires at <= |s|
    ensures r.Got? ==> at < r.end <= |s|
  {
    if HasStatus(cmd) then
      if |s| < at + 3 then Fail(ShortRead(|s| - at))
      else
        match Sized(s, at + 1)
        case Fail(e) => Fail(e)
        case Got(payload, end) => Got(Frame(cmd, s[at], payload, NoMode), end)
    else if cmd == CMD_DATA_RESP then
      match NextData(s, at)
      case Fail(e) => Fail(e)
      case Got(data, end) => Got(Frame(cmd, 0, data.0, data.1), end)
    else
      match Sized(s, at)
      case Fail(e) => Fail(e)
      case Got(payload, end) => Got(Frame(cmd, 0, payload, NoMode), end)
  }

  /** Outcome of readFrame: a frame and the position behind it, or an error and the position
      of the frame that met it. */
  datatype Next = Next(frame: Frame, end: nat) | Stop(error: ReadError, at: nat)

  function Located(d: Decoded<Frame, ReadError>, at: nat): (r: Next)
  {
    if d.Got? then Next(d.value, d.end) else Stop(d.error, at)
  }

  /** readFrame: the first frame of the stream that is not a 0x53 0x00 protocol frame. */
  function NextFrame(s: seq<Byte>, at: nat): (r: Next)
    requires at <= |s|
    ensures r.Next? ==> at < r.end <= |s|
    decreases |s| - at
  {
    if |s| < at + 2 then Stop(ShortRead(|s| - at), at)
    else if s[at] == L3_VERSION then Located(NextVersioned(s, at + 2, s[at + 1]), at)
    else if s[at] == 0x53 && s[at + 1] == 0 then
      match Sized(s, at + 2)
      case Fail(e) => Stop(e, at)
      case Got(_, end) => NextFrame(s, end)
    else Stop(BadHeader(s[at], s[at + 1]), at)
  }

  /** A payload the parser accepts with exactly the declared number of packets, ending at its
      last byte. */
  ghost predicate ParsesAlone(payload: seq<Byte>)
  {
    && |payload| >= 1 && |payload| >= 4 + (payload[0] as int)
    && ParsePayload(payload).Ok? && |ParsePayload(payload).value| == payload[3 + (payload[0] as int)]
    && SplitPackets(payload, 4 + (payload[0] as int), payload[3 + (payload[0] as int)], [])
       == Got(ParsePayload(payload).value, |payload|)
  }

  /** Where the token-mode reader stops. */
  lemma TokenEnd(s: seq<Byte>, at: nat, end: nat)
    requires at <= |s| && NextData(s, at).Got? && NextData(s, at).value.1 == TokenMode && end == NextData(s, at).end
    ensures at + 4 + s[at] <= end <= |s| && NextData(s, at) == Got((s[at..end], TokenMode), end)
    ensures var head: nat := at + 4 + s[at];
            var got := SplitPackets(s, head, s[head - 1], []);
            got.Got? && got.end == end && |got.value| == s[head - 1]
  {
    var head: nat := at + 4 + s[at];
    assert NextData(s, at) == NextToken(s, at);
    SplitShape(s, head, s[head - 1], []);
  }

  /** A well-formed packet list, cut out with its head, parses on its own. */
  lemma CutParses(s: seq<Byte>, at: nat, head: nat, end: nat)
    requires at < |s| && head == at + 4 + s[at] && head <= end <= |s|
    requires SplitPackets(s, head, s[head - 1], []).Got? && SplitPackets(s, head, s[head - 1], []).end == end
    requires |SplitPackets(s, head, s[head - 1], []).value| == s[head - 1]
    ensures ParsesAlone(s[at..end])
  {
    SplitCut(s, at, end, head, s[head - 1], []);
    var payload := s[at..end];
    assert payload[0] == s[at] && payload[head - 1 - at] == s[head - 1];
  }

  /** Whatever the token-mode reader returns is the bytes it consumed, and the payload parser
      accepts it with exactly the declared number of packets, ending at its last byte. */
  lemma TokenPayloadParses(s: seq<Byte>, at: nat)
    requires at <= |s| && NextData(s, at).Got? && NextData(s, at).value.1 == TokenMode
    ensures NextData(s, at).value.0 == s[at..NextData(s, at).end] && ParsesAlone(NextData(s, at).value.0)
  {
    var end := NextData(s, at).end;
    TokenEnd(s, at, end);
    CutParses(s, at, at + 4 + s[at], end);
  }

  // ---------------------------------------------------------------------------------
  // Frames as the server writes them

  datatype Wire =
    | Reply(cmd: Byte, status: Byte, payload: seq<Byte>)
    | LenData(payload: seq<Byte>)
    | TokenData(token: seq<Byte>, reserved: seq<Byte>, packets: seq<seq<Byte>>)
    | Other(cmd: Byte, payload: seq<Byte>)
    | Protocol(payload: seq<Byte>)

  /** Two header bytes ... */
  function Header(w: Wire): (s: seq<Byte>)
    ensures |s| == 2
  {
    match w
    case Protocol(_) => [0x53, 0]
    case Reply(cmd, _, _) => [L3_VERSION, cmd]
    case Other(cmd, _) => [L3_VERSION, cmd]
    case _ => [L3_VERSION, CMD_DATA_RESP]
  }

  /** ... and what follows them. */
  ghost function Body(w: Wire): (s: seq<Byte>)
  {
    match w
    case Reply(_, status, payload) => [status] + EncodePacket(payload)
    case TokenData(token, reserved, packets) => TokenBody(token, reserved, packets)
    case LenData(payload) => EncodePacket(payload)
    case Other(_, payload) => EncodePacket(payload)
    case Protocol(payload) => EncodePacket(payload)
  }

  ghost function Encode(w: Wire): (s: seq<Byte>)
  {
    Header(w) + Body(w)
  }

  /** Every length fits the field that carries it. */
  predicate Fits(w: Wire)
  {
    match w
    case Reply(cmd, _, payload) => HasStatus(cmd) && |payload| <= 0xFFFF
    case LenData(payload) => 0 < |payload| <= MAX_DATA_PAYLOAD
    case TokenData(token, reserved, packets) =>
      |token| <= 0xFF && |reserved| == 2 && |packets| <= 0xFF && PacketsFit(packets)
    case Other(cmd, payload) => !HasStatus(cmd) && cmd != CMD_DATA_RESP && |payload| <= 0xFFFF
    case Protocol(payload) => |payload| <= 0xFFFF
  }

  /** A token frame whose first two bytes cannot be taken for a length: a token of at least
      17 bytes, one of 16 not starting with 0, or no token and a zero first reserved byte. */
  predicate Unambiguous(w: Wire)
    requires Fits(w)
  {
    w.TokenData? ==>
      || |w.token| >= 17
      || (|w.token| == 16 && w.token[0] != 0)
      || (|w.token| == 0 && w.reserved[0] == 0)
  }

  predicate WellFormed(w: Wire)
  {
    Fits(w) && Unambiguous(w)
  }

  ghost function FrameOf(w: Wire): (f: Frame)
    requires !w.Protocol?
  {
    match w
    case Reply(cmd, status, payload) => Frame(cmd, status, payload, NoMode)
    case LenData(payload) => Frame(CMD_DATA_RESP, 0, payload, LenMode)
    case TokenData(token, reserved, packets) => Frame(CMD_DATA_RESP, 0, TokenBody(token, reserved, packets), TokenMode)
    case Other(cmd, payload) => Frame(cmd, 0, payload, NoMode)
  }

  lemma TokenReads(s: seq<Byte>, at: nat, w: Wire)
    requires w.TokenData? && Fits(w) && HasAt(s, at, Body(w))
    ensures var got := NextData(s, at);
            if Unambiguous(w) then got == Got((Body(w), TokenMode), at + |Body(w)|)
            else got.Fail? || got.value.1 == LenMode
  {
    var head, end := at + 4 + |w.token|, at + |Body(w)|;
    HasConcat(s, at, TokenHead(w.token, w.reserved, |w.packets|), EncodePackets(w.packets));
    TokenHeadAt(s, at, w.token, w.reserved, |w.packets|);
    assert head == at + |TokenHead(w.token, w.reserved, |w.packets|)| && end == head + |EncodePackets(w.packets)|;
    SplitEncoded(s, head, w.packets, []);
    assert s[head - 1] == |w.packets| && s[at..end] == Body(w);
    TokenSpec(s, at, head, end);
  }

  lemma TokenSpec(s: seq<Byte>, at: nat, head: nat, end: nat)
    requires at + 2 <= |s| && at <= end <= |s| && head == at + 4 + s[at] && head <= |s|
    requires SplitPackets(s, head, s[head - 1], []).Got? && SplitPackets(s, head, s[head - 1], []).end == end
    ensures if 0 < BE16(s[at], s[at + 1]) <= MAX_DATA_PAYLOAD
            then NextData(s, at).Fail? || NextData(s, at).value.1 == LenMode
            else NextData(s, at) == Got((s[at..end], TokenMode), end)
  {
  }

  lemma HeaderAt(s: seq<Byte>, at: nat, w: Wire)
    requires HasAt(s, at, Encode(w))
    ensures at + 2 <= |s| && s[at] == Header(w)[0] && s[at + 1] == Header(w)[1] && HasAt(s, at + 2, Body(w))
  {
    HasConcat(s, at, Header(w), Body(w));
    HasElem(s, at, Header(w), 0);
    HasElem(s, at, Header(w), 1);
  }

  /** One well-formed frame is read back whole, whatever follows it; an ambiguous one never is. */
  lemma FrameReads(s: seq<Byte>, at: nat, w: Wire)
    requires Fits(w) && !w.Protocol? && HasAt(s, at, Encode(w))
    ensures NextFrame(s, at) == Next(FrameOf(w), at + |Encode(w)|) <==> Unambiguous(w)
  {
    HeaderAt(s, at, w);
    var body, end := at + 2, at + |Encode(w)|;
    assert end == body + |Body(w)|;
    match w
    case Reply(_, status, payload) =>
      HasConcat(s, body, [status], EncodePacket(payload));
      HasElem(s, body, [status], 0);
      PacketAt(s, body + 1, payload);
    case TokenData(_, _, _) => TokenReads(s, body, w);
    case LenData(payload) => PacketAt(s, body, payload);
    case Other(_, payload) => PacketAt(s, body, payload);
  }

  lemma ProtocolSkipped(s: seq<Byte>, at: nat, w: Wire)
    requires Fits(w) && w.Protocol? && HasAt(s, at, Encode(w))
    ensures NextFrame(s, at) == NextFrame(s, at + |Encode(w)|)
  {
    HeaderAt(s, at, w);
    PacketAt(s, at + 2, w.payload);
  }

  // ---------------------------------------------------------------------------------
  // Whole streams

  /** What calling readFrame until it fails yields: the frames, and the error with its place. */
  datatype Stream = Stream(frames: seq<Frame>, end: nat, error: ReadError)

  ghost predicate Forward(parse: seq<Next>)
  {
    forall p :: 0 <= p < |parse| && parse[p].Next? ==> p < parse[p].end < |parse|
  }

  /** readFrame at every position of a stream. */
  ghost function Parses(s: seq<Byte>): (parse: seq<Next>)
    ensures |parse| == |s| + 1 && Forward(parse)
    ensures forall p :: 0 <= p <= |s| ==> parse[p] == NextFrame(s, p)
  {
    seq(|s| + 1, p requires 0 <= p <= |s| => NextFrame(s, p))
  }

  ghost function Drain(parse: seq<Next>, at: nat): (r: Stream)
    requires Forward(parse) && at < |parse|
    decreases |parse| - at
  {
    match parse[at]
    case Stop(e, where) => Stream([], where, e)
    case Next(f, end) =>
      var tail := Drain(parse, end);
      Stream([f] + tail.frames, tail.end, tail.error)
  }

  ghost function ReadAll(s: seq<Byte>): (r: Stream)
  {
    Drain(Parses(s), 0)
  }

  ghost function EncodeEach(ws: seq<Wire>): (parts: seq<seq<Byte>>)
    ensures |parts| == |ws|
  {
    seq(|ws|, i requires 0 <= i < |ws| => Encode(ws[i]))
  }

  ghost function EncodeAll(ws: seq<Wire>): (s: seq<Byte>)
  {
    Flatten(EncodeEach(ws))
  }

  ghost function FramesOf(ws: seq<Wire>): (fs: seq<Frame>)
  {
    if ws == [] then []
    else if ws[0].Protocol? then FramesOf(ws[1..])
    else [FrameOf(ws[0])] + FramesOf(ws[1..])
  }

  predicate AllWellFormed(ws: seq<Wire>)
  {
    forall i :: 0 <= i < |ws| ==> WellFormed(ws[i])
  }

  /** The parse of a stream knows frame j of ws at its mark. */
  ghost predicate FrameAt(parse: seq<Next>, marks: seq<nat>, ws: seq<Wire>, j: nat)
    requires j < |ws| && |marks| == |ws| + 1
  {
    && marks[j] < marks[j + 1] < |parse|
    && if ws[j].Protocol? then parse[marks[j]] == parse[marks[j + 1]]
       else parse[marks[j]] == Next(FrameOf(ws[j]), marks[j + 1])
  }

  /** A stream parsed at the marks where its frames start drains to those frames. */
  lemma {:induction false} DrainMarks(parse: seq<Next>, marks: seq<nat>, ws: seq<Wire>, i: nat, end: nat)
    requires Forward(parse) && |marks| == |ws| + 1 && i <= |ws|
    requires forall j :: 0 <= j < |ws| ==> FrameAt(parse, marks, ws, j)
    requires marks[|ws|] < |parse| && parse[marks[|ws|]] == Stop(Eof, end)
    ensures marks[i] < |parse| && Drain(parse, marks[i]) == Stream(FramesOf(ws[i..]), end, Eof)
    decreases |ws| - i
  {
    if i < |ws| {
      assert FrameAt(parse, marks, ws, i);
      DrainMarks(parse, marks, ws, i + 1, end);
      assert ws[i..][1..] == ws[i + 1..];
    }
  }

  /** Reading the concatenation of well-formed frames returns exactly those frames in order,
      drops only the protocol frames, and stops at end of stream with every byte consumed. */
  lemma StreamReads(ws: seq<Wire>)
    requires AllWellFormed(ws)
    ensures ReadAll(EncodeAll(ws)) == Stream(FramesOf(ws), |EncodeAll(ws)|, Eof)
  {
    var parts, s := EncodeEach(ws), EncodeAll(ws);
    var marks := seq(|ws| + 1, i requires 0 <= i <= |ws| => Mark(parts, i));
    MarkEnd(parts);
    FramesAtMarks(s, parts, marks, ws);
    assert NextFrame(s, |s|) == Stop(Eof, |s|);
    DrainMarks(Parses(s), marks, ws, 0, |s|);
    assert ws[0..] == ws;
  }

  lemma FramesAtMarks(s: seq<Byte>, parts: seq<seq<Byte>>, marks: seq<nat>, ws: seq<Wire>)
    requires AllWellFormed(ws) && parts == EncodeEach(ws) && s == Flatten(parts)
    requires |marks| == |ws| + 1 && forall i :: 0 <= i < |marks| ==> marks[i] == Mark(parts, i)
    ensures forall j :: 0 <= j < |ws| ==> FrameAt(Parses(s), marks, ws, j)
  {
    HasAll(s);
    forall j | 0 <= j < |ws|
      ensures FrameAt(Parses(s), marks, ws, j)
    {
      FrameAtPart(s, parts, marks, ws, j);
    }
  }

  lemma FrameAtPart(s: seq<Byte>, parts: seq<seq<Byte>>, marks: seq<nat>, ws: seq<Wire>, j: nat)
    requires j < |ws| && WellFormed(ws[j]) && parts == EncodeEach(ws) && HasAt(s, 0, Flatten(parts))
    requires |marks| == |ws| + 1 && marks[j] == Mark(parts, j) && marks[j + 1] == Mark(parts, j + 1)
    ensures FrameAt(Parses(s), marks, ws, j)
  {
    PartMarked(s, 0, parts, j);
    FrameAtMark(s, marks, ws, j);
  }

  lemma FrameAtMark(s: seq<Byte>, marks: seq<nat>, ws: seq<Wire>, j: nat)
    requires j < |ws| && |marks| == |ws| + 1 && WellFormed(ws[j])
    requires HasAt(s, marks[j], Encode(ws[j])) && marks[j + 1] == marks[j] + |Encode(ws[j])|
    ensures FrameAt(Parses(s), marks, ws, j)
  {
    ParseAt(s, marks[j], ws[j]);
  }

  lemma ParseAt(s: seq<Byte>, at: nat, w: Wire)
    requires WellFormed(w) && HasAt(s, at, Encode(w))
    ensures var parse, end := Parses(s), at + |Encode(w)|;
            && at < end < |parse|
            && if w.Protocol? then parse[at] == parse[end] else parse[at] == Next(FrameOf(w), end)
  {
    if w.Protocol? {
      ProtocolSkipped(s, at, w);
    } else {
      FrameReads(s, at, w);
    }
  }

  // ---------------------------------------------------------------------------------
  // The converse: whatever is read to a clean end was such a concatenation

  lemma {:induction false} PacketsSound(t: seq<Byte>, idx: nat, n: nat, acc: seq<seq<Byte>>) returns (ps: seq<seq<Byte>>)
    requires idx <= |t| && SplitPackets(t, idx, n, acc).Got?
    ensures |ps| == n && PacketsFit(ps) && HasAt(t, idx, EncodePackets(ps))
    ensures SplitPackets(t, idx, n, acc).end == idx + |EncodePackets(ps)|
    decreases n
  {
    ps := [];
    if n > 0 {
      var p, end := PacketSound(t, idx, n, acc);
      var rest := PacketsSound(t, end, n - 1, acc + [p]);
      PacketsCons(p, rest);
      ps := [p] + rest;
      HasJoinAs(t, idx, end, EncodePacket(p), EncodePackets(rest), EncodePackets(ps));
    }
  }

  lemma PacketSound(t: seq<Byte>, idx: nat, n: nat, acc: seq<seq<Byte>>) returns (p: seq<Byte>, end: nat)
    requires idx <= |t| && n > 0 && SplitPackets(t, idx, n, acc).Got?
    ensures |p| <= 0xFFFF && HasAt(t, idx, EncodePacket(p)) && end == idx + |EncodePacket(p)| && end <= |t|
    ensures SplitPackets(t, idx, n, acc) == SplitPackets(t, end, n - 1, acc + [p])
  {
    SizedSound(t, idx);
    p, end := Sized(t, idx).value, Sized(t, idx).end;
    SplitOne(t, idx, n - 1, acc, p);
  }

  lemma PacketsCons(p: seq<Byte>, rest: seq<seq<Byte>>)
    ensures EncodePackets([p] + rest) == EncodePacket(p) + EncodePackets(rest)
    ensures PacketsFit([p] + rest) <==> |p| <= 0xFFFF && PacketsFit(rest)
  {
    assert ([p] + rest)[1..] == rest;
    FitTail([p] + rest);
  }

  /** The bytes of a token head, taken apart. */
  lemma HeadSound(s: seq<Byte>, at: nat, first: nat, last: nat, token: seq<Byte>, reserved: seq<Byte>)
    requires first == at + 1 + |token| && last == first + 2 < |s| && |reserved| == 2
    requires s[at] == |token| && HasAt(s, at + 1, token) && HasAt(s, first, reserved)
    ensures HasAt(s, at, TokenHead(token, reserved, s[last]))
  {
    assert HasAt(s, at, [s[at]]) && HasAt(s, last, [s[last]]);
    HasJoin(s, at, [s[at]], token);
    HasJoin(s, at, [s[at]] + token, reserved);
    HasJoin(s, at, [s[at]] + token + reserved, [s[last]]);
  }

  lemma TokenSound(s: seq<Byte>, at: nat) returns (w: Wire)
    requires at <= |s| && NextData(s, at).Got? && NextData(s, at).value.1 == TokenMode
    ensures w.TokenData? && WellFormed(w) && HasAt(s, at, Body(w))
    ensures NextData(s, at) == Got((Body(w), TokenMode), at + |Body(w)|)
  {
    var token, reserved, packets := TokenParts(s, at);
    w := TokenData(token, reserved, packets);
    TokenEnd(s, at, at + |Body(w)|);
  }

  lemma TokenParts(s: seq<Byte>, at: nat) returns (token: seq<Byte>, reserved: seq<Byte>, packets: seq<seq<Byte>>)
    requires at <= |s| && NextData(s, at).Got? && NextData(s, at).value.1 == TokenMode
    ensures WellFormed(TokenData(token, reserved, packets)) && HasAt(s, at, TokenBody(token, reserved, packets))
    ensures NextData(s, at).end == at + |TokenBody(token, reserved, packets)|
  {
    TokenEnd(s, at, NextData(s, at).end);
    var first, last := at + 1 + (s[at] as int), at + 3 + (s[at] as int);
    token, reserved := s[at + 1..first], s[first..last];
    packets := TokenPackets(s, at, last + 1);
    TokenJoin(s, at, first, last, token, reserved, packets);
    TokenFirst(s, at, first, token, reserved);
  }

  lemma TokenPackets(s: seq<Byte>, at: nat, head: nat) returns (packets: seq<seq<Byte>>)
    requires at <= |s| && NextData(s, at).Got? && NextData(s, at).value.1 == TokenMode && head == at + 4 + s[at] <= |s|
    ensures |packets| == s[head - 1] && PacketsFit(packets) && HasAt(s, head, EncodePackets(packets))
    ensures NextData(s, at).end == head + |EncodePackets(packets)|
  {
    TokenEnd(s, at, NextData(s, at).end);
    packets := PacketsSound(s, head, s[head - 1], []);
  }

  lemma TokenJoin(s: seq<Byte>, at: nat, first: nat, last: nat, token: seq<Byte>, reserved: seq<Byte>, packets: seq<seq<Byte>>)
    requires first == at + 1 + |token| && last == first + 2 < |s| && |reserved| == 2
    requires s[at] == |token| && HasAt(s, at + 1, token) && HasAt(s, first, reserved) && s[last] == |packets|
    requires HasAt(s, last + 1, EncodePackets(packets))
    ensures HasAt(s, at, TokenBody(token, reserved, packets))
    ensures at + |TokenBody(token, reserved, packets)| == last + 1 + |EncodePackets(packets)|
  {
    HeadSound(s, at, first, last, token, reserved);
    HasJoin(s, at, TokenHead(token, reserved, |packets|), EncodePackets(packets));
  }

  /** A token body is only read as one if its first two bytes do not pass for a length. */
  lemma TokenFirst(s: seq<Byte>, at: nat, first: nat, token: seq<Byte>, reserved: seq<Byte>)
    requires at + 2 <= |s| && NextData(s, at).Got? && NextData(s, at).value.1 == TokenMode && first == at + 1 + |token|
    requires |token| == s[at] && |reserved| == 2 && HasAt(s, at + 1, token) && HasAt(s, first, reserved)
    ensures |token| >= 17 || (|token| == 16 && token[0] != 0) || (|token| == 0 && reserved[0] == 0)
  {
    if |token| > 0 {
      HasElem(s, at + 1, token, 0);
    } else {
      HasElem(s, first, reserved, 0);
    }
  }

  /** A frame that is read is a well-formed one standing there. */
  lemma FrameSound(s: seq<Byte>, at: nat) returns (w: Wire)
    requires at + 2 <= |s| && s[at] == L3_VERSION && NextVersioned(s, at + 2, s[at + 1]).Got?
    ensures WellFormed(w) && !w.Protocol? && HasAt(s, at, Encode(w))
    ensures NextVersioned(s, at + 2, s[at + 1]) == Got(FrameOf(w), at + |Encode(w)|)
  {
    w := BodySound(s, at + 2, s[at + 1]);
    EncodeJoin(s, at, w);
  }

  lemma EncodeJoin(s: seq<Byte>, at: nat, w: Wire)
    requires at + 2 <= |s| && Header(w) == [s[at], s[at + 1]] && HasAt(s, at + 2, Body(w))
    ensures HasAt(s, at, Encode(w)) && |Encode(w)| == 2 + |Body(w)|
  {
    assert HasAt(s, at, Header(w));
    HasJoin(s, at, Header(w), Body(w));
  }

  lemma BodySound(s: seq<Byte>, at: nat, cmd: Byte) returns (w: Wire)
    requires at <= |s| && NextVersioned(s, at, cmd).Got?
    ensures WellFormed(w) && !w.Protocol? && HasAt(s, at, Body(w)) && Header(w) == [L3_VERSION, cmd]
    ensures NextVersioned(s, at, cmd) == Got(FrameOf(w), at + |Body(w)|)
  {
    if HasStatus(cmd) {
      SizedSound(s, at + 1);
      w := Reply(cmd, s[at], Sized(s, at + 1).value);
      assert HasAt(s, at, [s[at]]);
      HasJoin(s, at, [s[at]], EncodePacket(w.payload));
    } else if cmd == CMD_DATA_RESP {
      w := DataSound(s, at);
    } else {
      SizedSound(s, at);
      w := Other(cmd, Sized(s, at).value);
    }
  }

  lemma DataSound(s: seq<Byte>, at: nat) returns (w: Wire)
    requires at <= |s| && NextData(s, at).Got?
    ensures (w.LenData? || w.TokenData?) && WellFormed(w) && HasAt(s, at, Body(w))
    ensures NextData(s, at) == Got((FrameOf(w).payload, FrameOf(w).mode), at + |Body(w)|)
  {
    if NextData(s, at).value.1 == TokenMode {
      w := TokenSound(s, at);
    } else {
      SizedSound(s, at);
      w := LenData(Sized(s, at).value);
    }
  }

  lemma EncodeCons(w: Wire, ws: seq<Wire>)
    ensures EncodeAll([w] + ws) == Encode(w) + EncodeAll(ws)
  {
    EachCons(w, ws);
    FlattenCons(Encode(w), EncodeEach(ws));
  }

  lemma EachCons(w: Wire, ws: seq<Wire>)
    ensures EncodeEach([w] + ws) == [Encode(w)] + EncodeEach(ws)
  {
    var all := [w] + ws;
    var each, rest := EncodeEach(all), EncodeEach(ws);
    forall i | 0 <= i < |all|
      ensures each[i] == ([Encode(w)] + rest)[i]
    {
      assert all[i] == if i == 0 then w else ws[i - 1];
    }
  }

  lemma FramesCons(w: Wire, ws: seq<Wire>)
    ensures FramesOf([w] + ws) == (if w.Protocol? then [] else [FrameOf(w)]) + FramesOf(ws)
  {
    assert ([w] + ws)[1..] == ws;
  }

  /** What one turn of the loop over frames finds before the end of the stream. */
  lemma WireSound(s: seq<Byte>, at: nat) returns (w: Wire)
    requires at < |s| && (NextFrame(s, at).Next? || NextFrame(s, at) == Stop(Eof, |s|))
    ensures WellFormed(w) && HasAt(s, at, Encode(w))
    ensures var end := at + |Encode(w)|;
            at < end && if w.Protocol? then NextFrame(s, at) == NextFrame(s, end) else NextFrame(s, at) == Next(FrameOf(w), end)
  {
    StepShape(s, at);
    if s[at] == L3_VERSION {
      w := FrameSound(s, at);
    } else {
      SizedSound(s, at + 2);
      w := Protocol(Sized(s, at + 2).value);
      EncodeJoin(s, at, w);
    }
  }

  lemma StepShape(s: seq<Byte>, at: nat)
    requires at < |s| && (NextFrame(s, at).Next? || NextFrame(s, at) == Stop(Eof, |s|))
    ensures at + 2 <= |s|
    ensures if s[at] == L3_VERSION
            then NextVersioned(s, at + 2, s[at + 1]).Got? && NextFrame(s, at) == Located(NextVersioned(s, at + 2, s[at + 1]), at)
            else s[at] == 0x53 && s[at + 1] == 0 && Sized(s, at + 2).Got? && NextFrame(s, at) == NextFrame(s, Sized(s, at + 2).end)
  {
  }

  /** Wire w stands at `at`, and the parse knows it there. */
  ghost predicate WireAt(parse: seq<Next>, s: seq<Byte>, at: nat, w: Wire)
    requires at < |parse|
  {
    var end := at + |Encode(w)|;
    && WellFormed(w) && HasAt(s, at, Encode(w)) && at < end < |parse|
    && if w.Protocol? then parse[at] == parse[end] else parse[at] == Next(FrameOf(w), end)
  }

  /** A parse in which everything but an error comes from some frame that stands there. */
  ghost predicate Sound(parse: seq<Next>, s: seq<Byte>)
  {
    && Forward(parse) && |parse| == |s| + 1 && parse[|s|] == Stop(Eof, |s|)
    && forall at :: 0 <= at < |s| && (parse[at].Next? || parse[at] == Stop(Eof, |s|)) ==> exists w :: WireAt(parse, s, at, w)
  }

  lemma ParsesSound(s: seq<Byte>)
    ensures Sound(Parses(s), s)
  {
    var parse := Parses(s);
    forall at | 0 <= at < |s| && (parse[at].Next? || parse[at] == Stop(Eof, |s|))
      ensures exists w :: WireAt(parse, s, at, w)
    {
      var w := WireSound(s, at);
      assert WireAt(parse, s, at, w);
    }
  }

  /** Those frames, from a position on to the end of the stream. */
  lemma {:induction false} TailSound(parse: seq<Next>, s: seq<Byte>, at: nat) returns (ws: seq<Wire>)
    requires Sound(parse, s) && at <= |s| && Drain(parse, at).error == Eof && Drain(parse, at).end == |s|
    ensures AllWellFormed(ws) && HasAt(s, at, EncodeAll(ws)) && at + |EncodeAll(ws)| == |s|
    ensures FramesOf(ws) == Drain(parse, at).frames
    decreases |s| - at
  {
    ws := [];
    if at < |s| {
      var w, end := CleanStep(parse, s, at);
      var rest := TailSound(parse, s, end);
      WireJoin(s, at, end, w, rest);
      ws := [w] + rest;
    }
  }

  lemma CleanStep(parse: seq<Next>, s: seq<Byte>, at: nat) returns (w: Wire, end: nat)
    requires Sound(parse, s) && at < |s| && Drain(parse, at).error == Eof && Drain(parse, at).end == |s|
    ensures WellFormed(w) && HasAt(s, at, Encode(w)) && at < end <= |s| && end == at + |Encode(w)|
    ensures Drain(parse, at).frames == (if w.Protocol? then [] else [FrameOf(w)]) + Drain(parse, end).frames
    ensures Drain(parse, end).error == Eof && Drain(parse, end).end == |s|
  {
    assert parse[at].Next? || parse[at] == Stop(Eof, |s|);
    w :| WireAt(parse, s, at, w);
    end := at + |Encode(w)|;
    DrainWire(parse, s, at, w, end);
  }

  lemma WireJoin(s: seq<Byte>, at: nat, end: nat, w: Wire, ws: seq<Wire>)
    requires WellFormed(w) && HasAt(s, at, Encode(w)) && AllWellFormed(ws) && end == at + |Encode(w)|
    requires HasAt(s, end, EncodeAll(ws)) && end + |EncodeAll(ws)| == |s|
    ensures AllWellFormed([w] + ws) && HasAt(s, at, EncodeAll([w] + ws)) && at + |EncodeAll([w] + ws)| == |s|
    ensures FramesOf([w] + ws) == (if w.Protocol? then [] else [FrameOf(w)]) + FramesOf(ws)
  {
    EncodeCons(w, ws);
    FramesCons(w, ws);
    HasJoinAs(s, at, end, Encode(w), EncodeAll(ws), EncodeAll([w] + ws));
  }

  lemma DrainWire(parse: seq<Next>, s: seq<Byte>, at: nat, w: Wire, end: nat)
    requires Forward(parse) && at < |parse| && WireAt(parse, s, at, w) && end == at + |Encode(w)|
    ensures Drain(parse, at).frames == (if w.Protocol? then [] else [FrameOf(w)]) + Drain(parse, end).frames
    ensures Drain(parse, at).error == Drain(parse, end).error && Drain(parse, at).end == Drain(parse, end).end
  {
    assert parse[at] == parse[end] || parse[at] == Next(FrameOf(w), end);
  }

  /** A stream is read to a clean end exactly if it is a concatenation of well-formed frames, and
      then the frames read are its frames. */
  lemma CleanIff(s: seq<Byte>)
    ensures ReadAll(s).error == Eof && ReadAll(s).end == |s| <==> exists ws :: AllWellFormed(ws) && EncodeAll(ws) == s
    ensures forall ws :: AllWellFormed(ws) && EncodeAll(ws) == s ==> FramesOf(ws) == ReadAll(s).frames
  {
    if ReadAll(s).error == Eof && ReadAll(s).end == |s| {
      ParsesSound(s);
      var ws := TailSound(Parses(s), s, 0);
      assert EncodeAll(ws) == s[0..0 + |s|] == s;
    }
    forall ws | AllWellFormed(ws) && EncodeAll(ws) == s
      ensures ReadAll(s) == Stream(FramesOf(ws), |s|, Eof)
    {
      StreamReads(ws);
    }
  }

  /** Two well-formed streams with the same bytes carry the same frames. */
  lemma StreamUnambiguous(a: seq<Wire>, b: seq<Wire>)
    requires AllWellFormed(a) && AllWellFormed(b) && EncodeAll(a) == EncodeAll(b)
    ensures FramesOf(a) == FramesOf(b)
  {
    StreamReads(a);
    StreamReads(b);
  }

  // ---------------------------------------------------------------------------------
  // From frames to what is done with them (readLoop)

  datatype Delivery =
    | Packet(bytes: seq<Byte>)
    | AuthReply(status: Byte, payload: seq<Byte>)
    | VipReply(status: Byte, payload: seq<Byte>)
    | Heartbeat

  function Packets(packets: seq<seq<Byte>>): (r: seq<Delivery>)
  {
    seq(|packets|, i requires 0 <= i < |packets| => Packet(packets[i]))
  }

  /** What the loop does with one received frame: packets for the network stack, replies for their
      handlers, a heartbeat; a data payload that does not parse and other commands are dropped. */
  function Delivered(f: Frame): (r: seq<Delivery>)
  {
    if f.cmd == CMD_DATA_RESP then
      if f.mode == LenMode then [Packet(f.payload)]
      else
        var parsed := ParsePayload(f.payload);
        if parsed.Ok? then Packets(parsed.value) else []
    else if f.cmd == CMD_AUTH_RESP then [AuthReply(f.status, f.payload)]
    else if f.cmd == CMD_SECOND_VIP_RESP then [VipReply(f.status, f.payload)]
    else if f.cmd == CMD_HEARTBEAT_RESP then [Heartbeat]
    else []
  }

  function DeliveredAll(fs: seq<Frame>): (r: seq<Delivery>)
  {
    if fs == [] then [] else Delivered(fs[0]) + DeliveredAll(fs[1..])
  }

  /** What the server meant. */
  function Carried(w: Wire): (r: seq<Delivery>)
  {
    match w
    case LenData(payload) => [Packet(payload)]
    case TokenData(_, _, packets) => Packets(packets)
    case Reply(cmd, status, payload) => if cmd == CMD_AUTH_RESP then [AuthReply(status, payload)] else [VipReply(status, payload)]
    case Other(cmd, _) => if cmd == CMD_HEARTBEAT_RESP then [Heartbeat] else []
    case Protocol(_) => []
  }

  function CarriedAll(ws: seq<Wire>): (r: seq<Delivery>)
  {
    if ws == [] then [] else Carried(ws[0]) + CarriedAll(ws[1..])
  }

  lemma FrameDelivers(w: Wire)
    requires WellFormed(w) && !w.Protocol?
    ensures Delivered(FrameOf(w)) == Carried(w)
  {
    if w.TokenData? {
      BodyParses(w.token, w.reserved, w.packets);
    }
  }

  lemma {:induction false} CarriedIsDelivered(ws: seq<Wire>)
    requires AllWellFormed(ws)
    ensures DeliveredAll(FramesOf(ws)) == CarriedAll(ws)
  {
    if ws != [] {
      CarriedIsDelivered(ws[1..]);
      if !ws[0].Protocol? {
        FrameDelivers(ws[0]);
        assert FramesOf(ws)[1..] == FramesOf(ws[1..]);
      }
    }
  }

  /** End to end: everything a well-formed stream carries is delivered once, in order. */
  lemma StreamDelivered(ws: seq<Wire>)
    requires AllWellFormed(ws)
    ensures DeliveredAll(ReadAll(EncodeAll(ws)).frames) == CarriedAll(ws)
  {
    StreamReads(ws);
    CarriedIsDelivered(ws);
  }
}
