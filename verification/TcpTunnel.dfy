/** The TCP tunnel: the connect exchange that precedes the byte stream, and the de-framing
    reader behind it. */
module TcpTunnel {
  import opened Bytes

  datatype TunnelError =
    | ReadFailed(cause: ReadError)
    | UnexpectedResponse(b0: Byte, b1: Byte)
    | InvalidSid
    | SetupFailed
    | UnexpectedStatus(b0: Byte, b1: Byte)
    | UnexpectedAddressType(b: Byte)
    | Refused(status: Byte)
    | ClosedByServer
    | TooLarge
    | WriteFailed

  type Parsed<+T> = Decoded<T, TunnelError>

  /** A plain read as part of the tunnel protocol. */
  function Lift<T>(d: Decoded<T, ReadError>): (r: Parsed<T>)
  {
    match d
    case Got(v, end) => Got(v, end)
    case Fail(e) => Fail(ReadFailed(e))
  }

  const INVALID_SID: seq<Byte> := [0x69, 0x6E, 0x76, 0x61, 0x6C, 0x69, 0x64, 0x20, 0x53, 0x49, 0x44]
  const OK_TEXT: seq<Byte> := [0x4F, 0x4B]

  /** strings.Contains */
  predicate Contains(text: seq<Byte>, word: seq<Byte>)
  {
    |word| <= |text| && (text[..|word|] == word || (text != [] && Contains(text[1..], word)))
  }

  /** validateTCPProtocolResponse */
  function Verdict(response: seq<Byte>): (r: Option<TunnelError>)
  {
    if Contains(response, OK_TEXT) then None
    else if Contains(response, INVALID_SID) then Some(InvalidSid)
    else Some(SetupFailed)
  }

  /** readTCPProtocolResponse */
  function Response(s: seq<Byte>, at: nat): (r: Parsed<seq<Byte>>)
    requires at <= |s|
    ensures r.Got? ==> at < r.end <= |s|
  {
    Lift(Sized(s, at))
  }

  // ---------------------------------------------------------------------------------
  // The connect exchange

  /** Where the address of a connect reply ends, `at` being just behind the address type. */
  function AddressEnd(s: seq<Byte>, at: nat, atyp: Byte): (r: Parsed<()>)
    requires at <= |s|
  {
    if atyp == 0x01 then Got((), at + 4)
    else if atyp == 0x04 then Got((), at + 16)
    else if atyp == 0x03 then
      if |s| < at + 1 then Fail(ReadFailed(Eof)) else Got((), at + 1 + s[at])
    else Fail(UnexpectedAddressType(atyp))
  }

  /** readTCPConnectStatus: the status byte, and how far it read. A refusal is returned with
      the rest of the reply unread. */
  function ConnectStatus(s: seq<Byte>, at: nat): (r: Parsed<Byte>)
    requires at <= |s|
  {
    if |s| < at + 4 then Fail(ReadFailed(ShortRead(|s| - at)))
    else if s[at] != 0x05 then Fail(UnexpectedStatus(s[at], s[at + 1]))
    else if s[at + 1] != 0 then Got(s[at + 1], at + 4)
    else
      match AddressEnd(s, at + 4, s[at + 3])
      case Fail(e) => Fail(e)
      case Got(_, port) =>
        if |s| < port + 2 then
          var from := if s[at + 3] == 0x03 then at + 5 else at + 4;
          Fail(ReadFailed(ShortRead(if from <= |s| then |s| - from else 0)))
        else Got(0, port + 2)
  }

  /** waitForTCPConnect: greetings, one protocol response that says OK, a connect reply. */
  function Connect(s: seq<Byte>, at: nat): (r: Parsed<()>)
    requires at <= |s|
    decreases |s| - at
  {
    if |s| < at + 2 then Fail(ReadFailed(ShortRead(|s| - at)))
    else if s[at] == 0x05 && s[at + 1] == 0x81 then Connect(s, at + 2)
    else if s[at] != 0x53 || s[at + 1] != 0 then Fail(UnexpectedResponse(s[at], s[at + 1]))
    else
      match Response(s, at + 2)
      case Fail(e) => Fail(e)
      case Got(response, next) =>
        if Verdict(response).Some? then Fail(Verdict(response).value)
        else
          match ConnectStatus(s, next)
          case Fail(e) => Fail(e)
          case Got(status, end) => if status == 0 then Got((), end) else Fail(Refused(status))
  }

  /** A destination address as section 6 of RFC 1928 lays it out. */
  datatype Address = V4(bytes: seq<Byte>) | Domain(name: seq<Byte>) | V6(bytes: seq<Byte>)

  datatype Exchange = Exchange(greetings: nat, response: seq<Byte>, reserved: Byte, address: Address, port: seq<Byte>)

  predicate ExchangeFits(x: Exchange)
  {
    |x.response| <= 0xFFFF && Verdict(x.response).None? && |x.port| == 2 && AddressFits(x.address)
  }

  predicate AddressFits(a: Address)
  {
    match a
    case V4(b) => |b| == 4
    case Domain(n) => |n| <= 0xFF
    case V6(b) => |b| == 16
  }

  function EncodeAddress(a: Address): (s: seq<Byte>)
  {
    match a
    case V4(b) => [0x01] + b
    case Domain(n) => [0x03, Low8(|n|)] + n
    case V6(b) => [0x04] + b
  }

  function EncodeReply(x: Exchange): (s: seq<Byte>)
  {
    [0x05, 0, x.reserved] + (EncodeAddress(x.address) + x.port)
  }

  ghost function EncodeExchange(x: Exchange): (s: seq<Byte>)
    decreases x.greetings
  {
    if x.greetings > 0 then [0x05, 0x81] + EncodeExchange(x.(greetings := x.greetings - 1))
    else [0x53, 0] + (EncodePacket(x.response) + EncodeReply(x))
  }

  lemma ReplyReads(s: seq<Byte>, at: nat, x: Exchange)
    requires ExchangeFits(x) && HasAt(s, at, EncodeReply(x))
    ensures ConnectStatus(s, at) == Got(0, at + |EncodeReply(x)|)
  {
    var r := EncodeReply(x);
    HasElem(s, at, r, 0);
    HasElem(s, at, r, 1);
    HasElem(s, at, r, 3);
    if x.address.Domain? {
      HasElem(s, at, r, 4);
    }
  }

  lemma ResponseReads(s: seq<Byte>, at: nat, x: Exchange)
    requires ExchangeFits(x) && x.greetings == 0 && HasAt(s, at, EncodeExchange(x))
    ensures Connect(s, at) == Got((), at + |EncodeExchange(x)|)
  {
    var packet, reply := EncodePacket(x.response), EncodeReply(x);
    HasConcat(s, at, [0x53, 0], packet + reply);
    HasElem(s, at, [0x53, 0], 0);
    HasElem(s, at, [0x53, 0], 1);
    var body := at + 2;
    HasConcat(s, body, packet, reply);
    PacketAt(s, body, x.response);
    var next := body + |packet|;
    assert next == body + 2 + |x.response|;
    assert Response(s, body) == Got(x.response, next);
    ReplyReads(s, next, x);
    assert at + |EncodeExchange(x)| == next + |reply|;
    ConnectResponse(s, at, x.response, next, next + |reply|);
  }

  lemma ConnectResponse(s: seq<Byte>, at: nat, response: seq<Byte>, next: nat, end: nat)
    requires at + 2 <= |s| && s[at] == 0x53 && s[at + 1] == 0 && next <= |s|
    requires Response(s, at + 2) == Got(response, next) && Verdict(response).None?
    requires ConnectStatus(s, next) == Got(0, end)
    ensures Connect(s, at) == Got((), end)
  {
  }

  /** A complete successful exchange leaves the reader exactly behind the reply, whichever of
      the three address types it carries. */
  lemma {:induction false} ExchangeAligned(s: seq<Byte>, at: nat, x: Exchange)
    requires ExchangeFits(x) && HasAt(s, at, EncodeExchange(x))
    ensures Connect(s, at) == Got((), at + |EncodeExchange(x)|)
    decreases x.greetings
  {
    if x.greetings > 0 {
      var y := x.(greetings := x.greetings - 1);
      HasConcat(s, at, [0x05, 0x81], EncodeExchange(y));
      HasElem(s, at, [0x05, 0x81], 0);
      HasElem(s, at, [0x05, 0x81], 1);
      var next := at + 2;
      ExchangeAligned(s, next, y);
      assert at + |EncodeExchange(x)| == next + |EncodeExchange(y)|;
    } else {
      ResponseReads(s, at, x);
    }
  }

  /** Conversely the reader succeeds only on such an exchange. */
  lemma {:induction false} ConnectSound(s: seq<Byte>, at: nat) returns (x: Exchange)
    requires at <= |s| && Connect(s, at).Got?
    ensures ExchangeFits(x) && HasAt(s, at, EncodeExchange(x)) && Connect(s, at).end == at + |EncodeExchange(x)|
    decreases |s| - at
  {
    if s[at] == 0x05 {
      var y := ConnectSound(s, at + 2);
      x := y.(greetings := y.greetings + 1);
      assert x.(greetings := x.greetings - 1) == y;
      HasJoin(s, at, [0x05, 0x81], EncodeExchange(y));
    } else {
      x := ResponseSound(s, at);
    }
  }

  lemma ConnectParts(s: seq<Byte>, at: nat)
    requires at + 2 <= |s| && s[at] == 0x53 && s[at + 1] == 0 && Connect(s, at).Got?
    ensures var response := Response(s, at + 2);
            && response.Got? && response.end <= |s| && Verdict(response.value).None?
            && ConnectStatus(s, response.end) == Got(0, Connect(s, at).end)
  {
  }

  lemma ResponseSound(s: seq<Byte>, at: nat) returns (x: Exchange)
    requires at + 2 <= |s| && s[at] == 0x53 && s[at + 1] == 0 && Connect(s, at).Got?
    ensures ExchangeFits(x) && HasAt(s, at, EncodeExchange(x)) && Connect(s, at).end == at + |EncodeExchange(x)|
  {
    ConnectParts(s, at);
    var response := Response(s, at + 2);
    x := ReplySound(s, response.end);
    x := x.(response := response.value, greetings := 0);
    SizedSound(s, at + 2);
    ExchangeJoin(s, at, x);
  }

  lemma ExchangeJoin(s: seq<Byte>, at: nat, x: Exchange)
    requires at + 2 <= |s| && s[at] == 0x53 && s[at + 1] == 0 && x.greetings == 0
    requires HasAt(s, at + 2, EncodePacket(x.response)) && HasAt(s, at + 2 + |EncodePacket(x.response)|, EncodeReply(x))
    ensures HasAt(s, at, EncodeExchange(x)) && |EncodeExchange(x)| == 2 + |EncodePacket(x.response)| + |EncodeReply(x)|
  {
    var packet, reply := EncodePacket(x.response), EncodeReply(x);
    HasJoin(s, at + 2, packet, reply);
    HasJoin(s, at, [0x53, 0], packet + reply);
  }

  lemma ReplySound(s: seq<Byte>, at: nat) returns (x: Exchange)
    requires at <= |s| && ConnectStatus(s, at).Got? && ConnectStatus(s, at).value == 0
    ensures |x.port| == 2 && AddressFits(x.address)
    ensures HasAt(s, at, EncodeReply(x)) && ConnectStatus(s, at).end == at + |EncodeReply(x)|
  {
    var end := ConnectStatus(s, at).end;
    var head, port := at + 3, end - 2;
    assert AddressEnd(s, head + 1, s[head]) == Got((), port) by {
      assert head + 1 == at + 4;
    }
    var address := AddressSound(s, head, port);
    x := Exchange(0, [], s[at + 2], address, s[port..end]);
    assert head + |EncodeAddress(address)| == port && s[port..port + 2] == x.port;
    ReplyJoin(s, at, head, port, x);
  }

  lemma ReplyJoin(s: seq<Byte>, at: nat, head: nat, port: nat, x: Exchange)
    requires head == at + 3 <= |s| && s[at] == 0x05 && s[at + 1] == 0 && s[at + 2] == x.reserved
    requires HasAt(s, head, EncodeAddress(x.address)) && port == head + |EncodeAddress(x.address)|
    requires HasAt(s, port, x.port)
    ensures HasAt(s, at, EncodeReply(x)) && port + |x.port| == at + |EncodeReply(x)|
  {
    var start := [0x05, 0, x.reserved];
    assert s[at..at + |start|] == start;
    HasJoin(s, head, EncodeAddress(x.address), x.port);
    HasJoin(s, at, start, EncodeAddress(x.address) + x.port);
  }

  lemma AddressSound(s: seq<Byte>, at: nat, end: nat) returns (a: Address)
    requires at + 1 <= |s| && AddressEnd(s, at + 1, s[at]) == Got((), end) && end <= |s|
    ensures AddressFits(a) && HasAt(s, at, EncodeAddress(a)) && end == at + |EncodeAddress(a)|
  {
    if s[at] == 0x03 {
      a := Domain(s[at + 2..end]);
      assert s[at..at + 2] == [0x03, Low8(|a.name|)];
      HasJoin(s, at, [0x03, Low8(|a.name|)], a.name);
    } else {
      var b := s[at + 1..end];
      a := if s[at] == 0x01 then V4(b) else V6(b);
      assert s[at..at + 1] == [s[at]];
      HasJoin(s, at, [s[at]], b);
    }
  }

  // ---------------------------------------------------------------------------------
  // The byte stream

  /** Where the control frame with header b0 b1, whose body starts at `at`, ends; headers the
      client does not know have no body. */
  function ControlEnd(s: seq<Byte>, at: nat, b0: Byte, b1: Byte): (r: Parsed<()>)
    requires at <= |s|
    ensures r.Got? ==> at <= r.end <= |s|
  {
    if b0 == 0x01 && b1 == 0x01 then
      if |s| < at + 2 then Fail(ReadFailed(ShortRead(|s| - at)))
      else if s[at] == 0x30 && s[at + 1] == 0x30 then Fail(ClosedByServer)
      else Got((), at + 2)
    else if b0 == 0x53 && b1 == 0 then
      match Response(s, at)
      case Fail(e) => Fail(e)
      case Got(response, end) => if Verdict(response).Some? then Fail(Verdict(response).value) else Got((), end)
    else Got((), at)
  }

  /** The next application payload, or why there is none: control frames in between are
      checked or skipped. */
  function NextChunk(s: seq<Byte>, at: nat): (r: Parsed<seq<Byte>>)
    requires at <= |s|
    ensures r.Got? ==> at < r.end <= |s|
    decreases |s| - at
  {
    if |s| < at + 2 then Fail(ReadFailed(ShortRead(|s| - at)))
    else if s[at] == 0x01 && s[at + 1] == 0 then Response(s, at + 2)
    else
      match ControlEnd(s, at + 2, s[at], s[at + 1])
      case Fail(e) => Fail(e)
      case Got(_, end) => NextChunk(s, end)
  }

  /** One turn of the read loop, on the reader's answers at all positions. */
  lemma ChunkStep(s: seq<Byte>, next: seq<Parsed<seq<Byte>>>, at: nat)
    requires next == Chunks(s) && at <= |s|
    ensures next[at] ==
              if |s| < at + 2 then Fail(ReadFailed(ShortRead(|s| - at)))
              else if s[at] == 0x01 && s[at + 1] == 0 then Response(s, at + 2)
              else
                match ControlEnd(s, at + 2, s[at], s[at + 1])
                case Fail(e) => Fail(e)
                case Got(_, end) => next[end]
  {
  }

  /** What the server may put on the stream: data, OK notices, 0x01 0x01 messages that do not
      close, and two-byte headers the client does not know. */
  datatype Item =
    | Data(payload: seq<Byte>)
    | Notice(text: seq<Byte>)
    | Message(b0: Byte, b1: Byte)
    | Unknown(b0: Byte, b1: Byte)

  predicate ItemFits(i: Item)
  {
    match i
    case Data(p) => |p| <= 0xFFFF
    case Notice(t) => |t| <= 0xFFFF && Verdict(t).None?
    case Message(b0, b1) => b0 != 0x30 || b1 != 0x30
    case Unknown(b0, b1) => !(b0 == 0x01 && b1 <= 0x01) && !(b0 == 0x53 && b1 == 0)
  }

  function ItemHeader(i: Item): (s: seq<Byte>)
    ensures |s| == 2
  {
    match i
    case Data(_) => [0x01, 0]
    case Notice(_) => [0x53, 0]
    case Message(_, _) => [0x01, 0x01]
    case Unknown(b0, b1) => [b0, b1]
  }

  ghost function ItemBody(i: Item): (s: seq<Byte>)
  {
    match i
    case Data(p) => EncodePacket(p)
    case Notice(t) => EncodePacket(t)
    case Message(b0, b1) => [b0, b1]
    case Unknown(_, _) => []
  }

  ghost function EncodeItem(i: Item): (s: seq<Byte>)
  {
    ItemHeader(i) + ItemBody(i)
  }

  /** At an item, the reader either finds its payload or goes on to the next item. */
  lemma ItemReads(s: seq<Byte>, at: nat, i: Item)
    requires ItemFits(i) && HasAt(s, at, EncodeItem(i))
    ensures var end := at + |EncodeItem(i)|;
            NextChunk(s, at) == if i.Data? then Got(i.payload, end) else NextChunk(s, end)
  {
    var h, b := ItemHeader(i), ItemBody(i);
    HasConcat(s, at, h, b);
    HasElem(s, at, h, 0);
    HasElem(s, at, h, 1);
    var body, end := at + 2, at + |EncodeItem(i)|;
    assert end == body + |b|;
    match i
    case Data(p) =>
      PacketAt(s, body, p);
      assert Response(s, body) == Got(p, end);
    case Notice(t) =>
      PacketAt(s, body, t);
      assert Response(s, body) == Got(t, end);
    case Message(_, _) =>
      HasElem(s, body, b, 0);
      HasElem(s, body, b, 1);
    case Unknown(_, _) =>
  }

  ghost function Parts(items: seq<Item>): (parts: seq<seq<Byte>>)
    ensures |parts| == |items|
  {
    seq(|items|, i requires 0 <= i < |items| => EncodeItem(items[i]))
  }

  ghost function EncodeItems(items: seq<Item>): (s: seq<Byte>)
  {
    Flatten(Parts(items))
  }

  /** The application bytes of the first k items. */
  ghost function Sent(items: seq<Item>, k: nat): (bytes: seq<Byte>)
    requires k <= |items|
  {
    if k == 0 then [] else Sent(items, k - 1) + (if items[k - 1].Data? then items[k - 1].payload else [])
  }

  predicate AllFit(items: seq<Item>)
  {
    forall i :: 0 <= i < |items| ==> ItemFits(items[i])
  }

  /** The stream shows the items from `base` on, and ends with them. */
  ghost predicate Carries(s: seq<Byte>, base: nat, items: seq<Item>)
  {
    AllFit(items) && HasAt(s, base, EncodeItems(items)) && base + |EncodeItems(items)| == |s|
  }

  /** The reader's answer at every position of a stream. */
  ghost function Chunks(s: seq<Byte>): (next: seq<Parsed<seq<Byte>>>)
    ensures |next| == |s| + 1
    ensures forall p :: 0 <= p <= |s| ==> next[p] == NextChunk(s, p)
  {
    seq(|s| + 1, p requires 0 <= p <= |s| => NextChunk(s, p))
  }

  /** At the mark of item j the reader finds its payload, or what it finds at the next mark. */
  ghost predicate ItemAt(next: seq<Parsed<seq<Byte>>>, marks: seq<nat>, items: seq<Item>, j: nat)
    requires j < |items| && |marks| == |items| + 1
  {
    ChunkIs(next, marks[j], items[j], marks[j + 1])
  }

  ghost predicate ChunkIs(next: seq<Parsed<seq<Byte>>>, at: nat, item: Item, end: nat)
  {
    at < |next| && end < |next| && next[at] == if item.Data? then Got(item.payload, end) else next[end]
  }

  ghost predicate Marked(next: seq<Parsed<seq<Byte>>>, marks: seq<nat>, items: seq<Item>)
  {
    && |marks| == |items| + 1 && marks[|items|] < |next| && next[marks[|items|]] == Fail(ReadFailed(Eof))
    && forall j :: 0 <= j < |items| ==> ItemAt(next, marks, items, j)
  }

  lemma ItemAtMark(s: seq<Byte>, marks: seq<nat>, items: seq<Item>, j: nat)
    requires j < |items| && |marks| == |items| + 1 && ItemFits(items[j])
    requires HasAt(s, marks[j], EncodeItem(items[j])) && marks[j + 1] == marks[j] + |EncodeItem(items[j])|
    ensures ItemAt(Chunks(s), marks, items, j)
  {
    ChunkAt(s, marks[j], items[j], marks[j + 1]);
  }

  lemma ChunkAt(s: seq<Byte>, at: nat, item: Item, end: nat)
    requires ItemFits(item) && HasAt(s, at, EncodeItem(item)) && end == at + |EncodeItem(item)|
    ensures ChunkIs(Chunks(s), at, item, end)
  {
    ItemReads(s, at, item);
  }

  ghost predicate PartMarks(items: seq<Item>, base: nat, marks: seq<nat>)
  {
    |marks| == |items| + 1 && forall i :: 0 <= i <= |items| ==> marks[i] == base + Mark(Parts(items), i)
  }

  lemma PartAtMark(s: seq<Byte>, base: nat, items: seq<Item>, marks: seq<nat>, j: nat)
    requires Carries(s, base, items) && PartMarks(items, base, marks) && j < |items|
    ensures ItemAt(Chunks(s), marks, items, j)
  {
    PartMarked(s, base, Parts(items), j);
    ItemAtMark(s, marks, items, j);
  }

  lemma EndOfStream(s: seq<Byte>)
    ensures NextChunk(s, |s|) == Fail(ReadFailed(Eof))
  {
  }

  lemma StreamMarks(s: seq<Byte>, base: nat, items: seq<Item>) returns (marks: seq<nat>)
    requires Carries(s, base, items)
    ensures Marked(Chunks(s), marks, items) && PartMarks(items, base, marks)
  {
    marks := seq(|items| + 1, i requires 0 <= i <= |items| => base + Mark(Parts(items), i));
    MarkEnd(Parts(items));
    EndOfStream(s);
    MarkedAll(s, base, items, marks);
  }

  lemma MarkedAll(s: seq<Byte>, base: nat, items: seq<Item>, marks: seq<nat>)
    requires Carries(s, base, items) && PartMarks(items, base, marks)
    requires marks[|items|] == |s| && NextChunk(s, |s|) == Fail(ReadFailed(Eof))
    ensures Marked(Chunks(s), marks, items)
  {
    forall j | 0 <= j < |items|
      ensures ItemAt(Chunks(s), marks, items, j)
    {
      PartAtMark(s, base, items, marks, j);
    }
  }

  /** From item k on, the next chunk is the payload of the first data item j - 1 and nothing
      was sent in between; without one, all bytes have been sent. */
  lemma {:induction false} NextItem(next: seq<Parsed<seq<Byte>>>, marks: seq<nat>, items: seq<Item>, k: nat)
    returns (j: nat)
    requires Marked(next, marks, items) && k <= |items|
    ensures k <= j <= |items| && marks[k] < |next|
    ensures match next[marks[k]]
            case Got(payload, end) => k < j && items[j - 1] == Data(payload) && Sent(items, j) == Sent(items, k) + payload && end == marks[j]
            case Fail(e) => e == ReadFailed(Eof) && Sent(items, k) == Sent(items, |items|)
    decreases |items| - k
  {
    j := k;
    if k < |items| {
      assert ItemAt(next, marks, items, k);
      if items[k].Data? {
        j := k + 1;
      } else {
        j := NextItem(next, marks, items, k + 1);
        assert Sent(items, k + 1) == Sent(items, k) + [] == Sent(items, k);
      }
    }
  }

  // ---------------------------------------------------------------------------------
  // The connection object

  method ReadResponse(rd: Reader) returns (r: Result<seq<Byte>, TunnelError>)
    requires rd.Valid()
    modifies rd`pos
    ensures rd.Valid()
    ensures match Response(rd.data, old(rd.pos))
            case Got(v, end) => r == Ok(v) && rd.pos == end
            case Fail(e) => r == Err(e)
  {
    var data := rd.ReadSized();
    r := if data.Ok? then Ok(data.value) else Err(ReadFailed(data.error));
  }

  /** readTCPConnectStatus */
  method ReadConnectStatus(rd: Reader) returns (r: Result<Byte, TunnelError>)
    requires rd.Valid()
    modifies rd`pos
    ensures rd.Valid()
    ensures match ConnectStatus(rd.data, old(rd.pos))
            case Got(status, end) => r == Ok(status) && rd.pos == end
            case Fail(e) => r == Err(e)
  {
    var header := rd.ReadFull(4);
    if header.Err? { return Err(ReadFailed(header.error)); }
    if header.value[0] != 0x05 { return Err(UnexpectedStatus(header.value[0], header.value[1])); }
    if header.value[1] != 0 { return Ok(header.value[1]); }
    var addressLength: nat := 0;
    if header.value[3] == 0x01 {
      addressLength := 4;
    } else if header.value[3] == 0x03 {
      var length := rd.ReadFull(1);
      if length.Err? { return Err(ReadFailed(length.error)); }
      addressLength := length.value[0];
    } else if header.value[3] == 0x04 {
      addressLength := 16;
    } else {
      return Err(UnexpectedAddressType(header.value[3]));
    }
    var rest := rd.ReadFull(addressLength + 2);
    if rest.Err? { return Err(ReadFailed(rest.error)); }
    return Ok(header.value[1]);
  }

  /** waitForTCPConnect */
  method WaitForConnect(rd: Reader) returns (r: Result<(), TunnelError>)
    requires rd.Valid()
    modifies rd`pos
    ensures rd.Valid()
    ensures match Connect(rd.data, old(rd.pos))
            case Got(_, end) => r == Ok(()) && rd.pos == end
            case Fail(e) => r == Err(e)
  {
    while true
      invariant rd.Valid()
      invariant Connect(rd.data, old(rd.pos)) == Connect(rd.data, rd.pos)
      decreases |rd.data| - rd.pos
    {
      var header := rd.ReadFull(2);
      if header.Err? { return Err(ReadFailed(header.error)); }
      if header.value[0] == 0x05 && header.value[1] == 0x81 {
        continue;
      }
      if header.value[0] != 0x53 || header.value[1] != 0 {
        return Err(UnexpectedResponse(header.value[0], header.value[1]));
      }
      var response := ReadResponse(rd);
      if response.Err? { return Err(response.error); }
      var verdict := Verdict(response.value);
      if verdict.Some? { return Err(verdict.value); }
      var status := ReadConnectStatus(rd);
      if status.Err? { return Err(status.error); }
      return if status.value == 0 then Ok(()) else Err(Refused(status.value));
    }
  }

  class TunnelConn {
    const reader: Reader
    var readBuf: seq<Byte>

    constructor (rd: Reader)
      ensures reader == rd && readBuf == []
    {
      reader := rd;
      readBuf := [];
    }

    /** The next payload of the stream, past any control frames. */
    method ReadChunk() returns (r: Result<seq<Byte>, TunnelError>)
      requires reader.Valid()
      modifies reader`pos
      ensures reader.Valid()
      ensures match NextChunk(reader.data, old(reader.pos))
              case Got(data, end) => r == Ok(data) && reader.pos == end
              case Fail(e) => r == Err(e)
    {
      ghost var next := Chunks(reader.data);
      while true
        invariant reader.Valid() && next[old(reader.pos)] == next[reader.pos]
        decreases |reader.data| - reader.pos
      {
        ChunkStep(reader.data, next, reader.pos);
        var header := reader.ReadFull(2);
        if header.Err? { return Err(ReadFailed(header.error)); }
        if header.value[0] == 0x01 && header.value[1] == 0 {
          r := ReadResponse(reader);
          return;
        }
        var skipped := SkipControl(header.value[0], header.value[1]);
        if skipped.Some? { return Err(skipped.value); }
      }
    }

    /** The other branches of the loop: what follows a header that announces no data. */
    method SkipControl(b0: Byte, b1: Byte) returns (error: Option<TunnelError>)
      requires reader.Valid() && !(b0 == 0x01 && b1 == 0)
      modifies reader`pos
      ensures reader.Valid()
      ensures match ControlEnd(reader.data, old(reader.pos), b0, b1)
              case Got(_, end) => error.None? && reader.pos == end
              case Fail(e) => error == Some(e)
    {
      if b0 == 0x01 && b1 == 0x01 {
        var message := reader.ReadFull(2);
        if message.Err? { return Some(ReadFailed(message.error)); }
        return if message.value[0] == 0x30 && message.value[1] == 0x30 then Some(ClosedByServer) else None;
      } else if b0 == 0x53 && b1 == 0 {
        var response := ReadResponse(reader);
        if response.Err? { return Some(response.error); }
        return Verdict(response.value);
      }
      return None;
    }

    /** Read into a buffer of n bytes: what is left over first, else the next payload, whose
        surplus is kept for later. */
    method Read(n: nat) returns (r: Result<seq<Byte>, TunnelError>)
      requires reader.Valid()
      modifies this`readBuf, reader`pos
      ensures reader.Valid()
      ensures r.Ok? ==> |r.value| <= n && (|r.value| < n ==> readBuf == [])
      ensures old(readBuf) != [] ==>
                r.Ok? && r.value + readBuf == old(readBuf) && reader.pos == old(reader.pos)
      ensures old(readBuf) == [] ==>
                match NextChunk(reader.data, old(reader.pos))
                case Got(data, end) => r.Ok? && r.value + readBuf == data && reader.pos == end
                case Fail(e) => r == Err(e) && readBuf == []
    {
      if |readBuf| > 0 {
        var k := if n < |readBuf| then n else |readBuf|;
        r := Ok(readBuf[..k]);
        readBuf := readBuf[k..];
        return;
      }
      var data := ReadChunk();
      if data.Err? { return Err(data.error); }
      var k := if n < |data.value| then n else |data.value|;
      r := Ok(data.value[..k]);
      readBuf := data.value[k..];
    }

    /** Write: one data frame, refused when its length does not fit; accepted says whether the
        connection underneath took the frame. */
    method Write(b: seq<Byte>, accepted: bool) returns (frame: seq<Byte>, r: Result<nat, TunnelError>)
      ensures |b| > 0xFFFF ==> frame == [] && r == Err(TooLarge)
      ensures |b| <= 0xFFFF ==> frame == EncodeItem(Data(b)) && r == if accepted then Ok(|b|) else Err(WriteFailed)
    {
      if |b| > 0xFFFF { return [], Err(TooLarge); }
      var lengthBytes := PutUint16(|b|);
      frame := [0x01, 0] + (lengthBytes + b);
      r := if accepted then Ok(|b|) else Err(WriteFailed);
    }

    /** One read over a stream of items, k of which have been consumed. */
    method ReadItem(ghost items: seq<Item>, ghost marks: seq<nat>, ghost k: nat, ghost out: seq<Byte>, n: nat)
      returns (r: Result<seq<Byte>, TunnelError>, ghost j: nat)
      requires reader.Valid() && Marked(Chunks(reader.data), marks, items) && k <= |items| && reader.pos == marks[k]
      requires out + readBuf == Sent(items, k)
      modifies this`readBuf, reader`pos
      ensures reader.Valid() && k <= j <= |items|
      ensures match r
              case Ok(c) =>
                && |c| <= n && (|c| < n ==> readBuf == []) && reader.pos == marks[j] && out + c + readBuf == Sent(items, j)
                && (c == [] && n > 0 ==> k < j && items[j - 1] == Data([]))
              case Err(e) => e == ReadFailed(Eof) && j == k && out + readBuf == Sent(items, k) && out == Sent(items, |items|)
    {
      ghost var next, buffered := Chunks(reader.data), readBuf;
      j := NextItem(next, marks, items, k);
      assert next[marks[k]] == NextChunk(reader.data, reader.pos);
      assert buffered == [] ==> out + buffered == out;
      r := Read(n);
      if r.Err? || buffered != [] {
        j := k;
      }
      if r.Ok? {
        Assoc(out, r.value, readBuf);
      }
    }

    /** Any number of reads with any buffer sizes over a stream of items: each fills its buffer
        unless it ends with a frame, what was returned plus what is buffered is exactly what the
        items consumed so far carried, and the first error is the end of a stream whose every
        byte has been returned. */
    method ReadMany(ghost items: seq<Item>, sizes: seq<nat>)
      returns (chunks: seq<seq<Byte>>, failed: Option<TunnelError>, ghost ends: seq<nat>)
      requires Carries(reader.data, reader.pos, items) && readBuf == []
      modifies this`readBuf, reader`pos
      ensures reader.Valid() && Returned(items, sizes, chunks, ends)
      ensures Flatten(chunks) + readBuf == Sent(items, LastEnd(ends))
      ensures failed.None? ==> |chunks| == |sizes| && reader.pos == old(reader.pos) + Mark(Parts(items), LastEnd(ends))
      ensures failed.Some? ==> |chunks| < |sizes| && failed.value == ReadFailed(Eof) && Flatten(chunks) == Sent(items, |items|)
    {
      chunks, failed, ends := [], None, [];
      ghost var marks := StreamMarks(reader.data, reader.pos, items);
      for i := 0 to |sizes|
        invariant reader.Valid() && |chunks| == i && Returned(items, sizes, chunks, ends)
        invariant reader.pos == marks[LastEnd(ends)] && Flatten(chunks) + readBuf == Sent(items, LastEnd(ends))
      {
        var got, j := ReadItem(items, marks, LastEnd(ends), Flatten(chunks), sizes[i]);
        if got.Err? { return chunks, Some(got.error), ends; }
        FlattenSnoc(chunks, got.value);
        assert readBuf == [] ==> Flatten(chunks) + got.value + readBuf == Flatten(chunks) + got.value;
        ReturnedMore(items, sizes, chunks, ends, got.value, j);
        chunks, ends := chunks + [got.value], ends + [j];
      }
    }
  }

  /** How many items had been consumed before read i, or by the last read. */
  ghost function EndBefore(ends: seq<nat>, i: nat): (k: nat)
    requires i <= |ends|
  {
    if i == 0 then 0 else ends[i - 1]
  }

  ghost function LastEnd(ends: seq<nat>): (k: nat)
  {
    EndBefore(ends, |ends|)
  }

  /** A read into `size` bytes, which consumed items from..to and after which `total` was returned in
      all: at most what fits; less only if that is all the items consumed carry; nothing into a
      nonempty buffer only if the last item it consumed is an empty frame. */
  ghost predicate ReadOk(items: seq<Item>, size: nat, chunk: seq<Byte>, from: nat, to: nat, total: seq<Byte>)
  {
    && |chunk| <= size && from <= to <= |items|
    && (|chunk| < size ==> total == Sent(items, to))
    && (chunk == [] && size > 0 ==> from < to && items[to - 1] == Data([]))
  }

  ghost predicate ReturnedAt(items: seq<Item>, sizes: seq<nat>, chunks: seq<seq<Byte>>, ends: seq<nat>, i: nat)
    requires i < |chunks| == |ends| <= |sizes|
  {
    ReadOk(items, sizes[i], chunks[i], EndBefore(ends, i), ends[i], Flatten(chunks[..i + 1]))
  }

  ghost predicate Returned(items: seq<Item>, sizes: seq<nat>, chunks: seq<seq<Byte>>, ends: seq<nat>)
  {
    && |ends| == |chunks| <= |sizes| && LastEnd(ends) <= |items|
    && forall i :: 0 <= i < |chunks| ==> ReturnedAt(items, sizes, chunks, ends, i)
  }

  lemma ReturnedStays(items: seq<Item>, sizes: seq<nat>, chunks: seq<seq<Byte>>, ends: seq<nat>, c: seq<Byte>, j: nat, i: nat)
    requires i < |chunks| == |ends| < |sizes| && ReturnedAt(items, sizes, chunks, ends, i)
    ensures ReturnedAt(items, sizes, chunks + [c], ends + [j], i)
  {
    assert (chunks + [c])[..i + 1] == chunks[..i + 1];
  }

  lemma ReturnedMore(items: seq<Item>, sizes: seq<nat>, chunks: seq<seq<Byte>>, ends: seq<nat>, c: seq<Byte>, j: nat)
    requires Returned(items, sizes, chunks, ends) && |chunks| < |sizes|
    requires ReadOk(items, sizes[|chunks|], c, LastEnd(ends), j, Flatten(chunks) + c)
    ensures Returned(items, sizes, chunks + [c], ends + [j])
  {
    var more, stops := chunks + [c], ends + [j];
    ReturnedLast(items, sizes, chunks, ends, c, j);
    forall i | 0 <= i < |more|
      ensures ReturnedAt(items, sizes, more, stops, i)
    {
      if i < |chunks| {
        ReturnedStays(items, sizes, chunks, ends, c, j, i);
      }
    }
  }

  lemma ReturnedLast(items: seq<Item>, sizes: seq<nat>, chunks: seq<seq<Byte>>, ends: seq<nat>, c: seq<Byte>, j: nat)
    requires |ends| == |chunks| < |sizes|
    requires ReadOk(items, sizes[|chunks|], c, LastEnd(ends), j, Flatten(chunks) + c)
    ensures ReturnedAt(items, sizes, chunks + [c], ends + [j], |chunks|)
  {
    FlattenSnoc(chunks, c);
    assert (chunks + [c])[..|chunks| + 1] == chunks + [c];
    assert EndBefore(ends + [j], |chunks|) == LastEnd(ends);
  }
}
