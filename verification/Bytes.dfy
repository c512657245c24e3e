/** Bytes, big-endian 16-bit lengths, the buffered reader both tunnel protocols read from, and
    a few notions several modules share. */
module Bytes {

  type Byte = x: int | 0 <= x < 256

  datatype Option<+T> = None | Some(value: T)

  datatype Result<+T, +E> = Ok(value: T) | Err(error: E)

  /** Why a read stopped; `Eof` and `UnexpectedEof` are told apart as io.ReadFull does. */
  datatype ReadError = Eof | UnexpectedEof | BadHeader(b0: Byte, b1: Byte)

  /** Outcome of reading at a position: the value and the position behind it, or the error. */
  datatype Decoded<+T, +E> = Got(value: T, end: nat) | Fail(error: E)

  function BE16(hi: Byte, lo: Byte): (n: nat)
    ensures n < 0x1_0000
  {
    hi * 256 + lo
  }

  /** byte(n): the low eight bits of a length. */
  function Low8(n: nat): (r: Byte)
    ensures n < 0x100 ==> r == n
    ensures r <= n
  {
    if n < 0x100 then n else n % 0x100
  }

  /** uint16(n): the low sixteen bits of a length. */
  function Low16(n: nat): (r: nat)
    ensures r < 0x1_0000 && r <= n
    ensures n < 0x1_0000 <==> r == n
  {
    if n < 0x1_0000 then n else n % 0x1_0000
  }

  lemma BE16Injective(a: seq<Byte>, b: seq<Byte>)
    requires |a| == |b| == 2 && BE16(a[0], a[1]) == BE16(b[0], b[1])
    ensures a == b
  {
  }

  /** The two bytes that carry a length, whose value is its low sixteen bits. */
  ghost function Put16(n: nat): (s: seq<Byte>)
    ensures |s| == 2 && BE16(s[0], s[1]) == Low16(n)
  {
    var t: seq<Byte> := [Low16(n) / 256, Low16(n) % 256];
    assert |t| == 2 && BE16(t[0], t[1]) == Low16(n);
    var s: seq<Byte> :| |s| == 2 && BE16(s[0], s[1]) == Low16(n);
    s
  }

  /** binary.BigEndian.PutUint16(uint16(n)): lengths above 65535 are truncated. */
  method PutUint16(n: nat) returns (s: seq<Byte>)
    ensures s == Put16(n)
  {
    s := [Low16(n) / 256, Low16(n) % 256];
    BE16Injective(s, Put16(n));
  }

  /** The stream s shows x at position `at`. */
  ghost predicate HasAt(s: seq<Byte>, at: nat, x: seq<Byte>)
  {
    at + |x| <= |s| && s[at..at + |x|] == x
  }

  lemma HasElem(s: seq<Byte>, at: nat, x: seq<Byte>, i: nat)
    requires HasAt(s, at, x) && i < |x|
    ensures s[at + i] == x[i]
  {
    assert s[at..at + |x|][i] == s[at + i];
  }

  lemma HasConcat(s: seq<Byte>, at: nat, a: seq<Byte>, b: seq<Byte>)
    requires HasAt(s, at, a + b)
    ensures HasAt(s, at, a) && HasAt(s, at + |a|, b)
  {
    var x := s[at..at + |a + b|];
    assert s[at..at + |a|] == x[..|a|] == a;
    assert s[at + |a|..at + |a| + |b|] == x[|a|..] == b;
  }

  lemma HasJoin(s: seq<Byte>, at: nat, a: seq<Byte>, b: seq<Byte>)
    requires HasAt(s, at, a) && HasAt(s, at + |a|, b)
    ensures HasAt(s, at, a + b)
  {
    assert s[at..at + |a + b|] == s[at..at + |a|] + s[at + |a|..at + |a| + |b|];
  }

  lemma HasJoinAs(s: seq<Byte>, at: nat, end: nat, a: seq<Byte>, b: seq<Byte>, x: seq<Byte>)
    requires HasAt(s, at, a) && HasAt(s, end, b) && end == at + |a| && x == a + b
    ensures HasAt(s, at, x) && at + |x| == end + |b|
  {
    HasJoin(s, at, a, b);
  }

  lemma HasAll(x: seq<Byte>)
    ensures HasAt(x, 0, x)
  {
    assert x[0..0 + |x|] == x;
  }

  /** A payload behind its 16-bit length. */
  ghost function EncodePacket(p: seq<Byte>): (s: seq<Byte>)
    ensures |s| == 2 + |p|
  {
    Put16(|p|) + p
  }

  /** A length-prefixed payload, in place. */
  lemma PacketAt(s: seq<Byte>, at: nat, p: seq<Byte>)
    requires HasAt(s, at, EncodePacket(p))
    ensures at + 2 + |p| <= |s| && BE16(s[at], s[at + 1]) == Low16(|p|) && s[at + 2..at + 2 + |p|] == p
  {
    HasConcat(s, at, Put16(|p|), p);
    HasElem(s, at, Put16(|p|), 0);
    HasElem(s, at, Put16(|p|), 1);
  }

  function Pow2(n: nat): (p: nat)
    ensures p > 0
  {
    if n == 0 then 1 else 2 * Pow2(n - 1)
  }

  lemma {:induction false} Pow2Monotone(a: nat, b: nat)
    requires a <= b
    ensures Pow2(a) <= Pow2(b)
    decreases b
  {
    if a < b {
      Pow2Monotone(a, b - 1);
    }
  }

  lemma MulMonotone(a: nat, b: nat, c: nat)
    requires a <= b
    ensures a * c <= b * c
  {
  }

  ghost predicate Distinct(xs: seq<nat>)
  {
    forall i, j :: 0 <= i < j < |xs| ==> xs[i] != xs[j]
  }

  lemma Assoc<T>(a: seq<T>, b: seq<T>, c: seq<T>)
    ensures (a + b) + c == a + (b + c)
  {
  }

  function Flatten<T>(parts: seq<seq<T>>): (r: seq<T>)
  {
    if parts == [] then [] else parts[0] + Flatten(parts[1..])
  }

  /** Where part i starts in the concatenation of all parts. */
  function Mark<T>(parts: seq<seq<T>>, i: nat): (m: nat)
    requires i <= |parts|
  {
    if i == 0 then 0 else |parts[0]| + Mark(parts[1..], i - 1)
  }

  lemma {:induction false} MarkEnd<T>(parts: seq<seq<T>>)
    ensures Mark(parts, |parts|) == |Flatten(parts)|
  {
    if parts != [] {
      MarkEnd(parts[1..]);
    }
  }

  lemma {:induction false} MarkNext<T>(parts: seq<seq<T>>, i: nat)
    requires i < |parts|
    ensures Mark(parts, i + 1) == Mark(parts, i) + |parts[i]|
    decreases i
  {
    if i > 0 {
      MarkNext(parts[1..], i - 1);
    }
  }

  lemma {:induction false} PartAt(s: seq<Byte>, at: nat, parts: seq<seq<Byte>>, i: nat)
    requires i < |parts| && HasAt(s, at, Flatten(parts))
    ensures HasAt(s, at + Mark(parts, i), parts[i])
    decreases i
  {
    HasConcat(s, at, parts[0], Flatten(parts[1..]));
    if i > 0 {
      var next := at + |parts[0]|;
      PartAt(s, next, parts[1..], i - 1);
      assert at + Mark(parts, i) == next + Mark(parts[1..], i - 1);
    }
  }

  /** Part j of a concatenation stands at its mark and ends at the next. */
  lemma PartMarked(s: seq<Byte>, at: nat, parts: seq<seq<Byte>>, j: nat)
    requires j < |parts| && HasAt(s, at, Flatten(parts))
    ensures HasAt(s, at + Mark(parts, j), parts[j]) && Mark(parts, j + 1) == Mark(parts, j) + |parts[j]|
  {
    PartAt(s, at, parts, j);
    MarkNext(parts, j);
  }

  lemma FlattenCons<T>(x: seq<T>, parts: seq<seq<T>>)
    ensures Flatten([x] + parts) == x + Flatten(parts)
  {
    assert ([x] + parts)[1..] == parts;
  }

  lemma {:induction false} FlattenSnoc<T>(parts: seq<seq<T>>, x: seq<T>)
    ensures Flatten(parts + [x]) == Flatten(parts) + x
    decreases |parts|
  {
    if parts == [] {
      assert parts + [x] == [x] && [x][1..] == [] && Flatten([x]) == x + [];
    } else {
      assert (parts + [x])[1..] == parts[1..] + [x];
      FlattenSnoc(parts[1..], x);
      assert parts[0] + (Flatten(parts[1..]) + x) == parts[0] + Flatten(parts[1..]) + x;
    }
  }

  /** The error io.ReadFull reports when fewer than the wanted bytes are left. */
  function ShortRead(left: nat): (e: ReadError)
  {
    if left == 0 then Eof else UnexpectedEof
  }

  /** A payload behind a 16-bit length at position `at`. */
  function Sized(s: seq<Byte>, at: nat): (r: Decoded<seq<Byte>, ReadError>)
    requires at <= |s|
    ensures r.Got? ==> at < r.end <= |s|
  {
    if |s| < at + 2 then Fail(ShortRead(|s| - at))
    else
      var end := at + 2 + BE16(s[at], s[at + 1]);
      if |s| < end then Fail(ShortRead(|s| - at - 2)) else Got(s[at + 2..end], end)
  }

  /** What is read that way stands there encoded. */
  lemma SizedSound(s: seq<Byte>, at: nat)
    requires at <= |s| && Sized(s, at).Got?
    ensures var p := Sized(s, at).value;
            |p| <= 0xFFFF && HasAt(s, at, EncodePacket(p)) && Sized(s, at).end == at + |EncodePacket(p)|
  {
    var p := Sized(s, at).value;
    BE16Injective(s[at..at + 2], Put16(|p|));
    HasJoin(s, at, Put16(|p|), p);
  }

  /** A bufio.Reader over a stream whose bytes are fixed; only the position moves. */
  class Reader {
    const data: seq<Byte>
    var pos: nat

    ghost predicate Valid()
      reads this
    {
      pos <= |data|
    }

    constructor (bytes: seq<Byte>)
      ensures Valid() && data == bytes && pos == 0
    {
      data := bytes;
      pos := 0;
    }

    /** io.ReadFull: all n bytes, or an error after swallowing what was left. */
    method ReadFull(n: nat) returns (r: Result<seq<Byte>, ReadError>)
      requires Valid()
      modifies this`pos
      ensures Valid()
      ensures if old(pos) + n <= |data|
              then r == Ok(data[old(pos)..old(pos) + n]) && pos == old(pos) + n
              else r == Err(ShortRead(|data| - old(pos))) && pos == |data|
    {
      if n <= |data| - pos {
        r := Ok(data[pos..pos + n]);
        pos := pos + n;
      } else {
        r := Err(ShortRead(|data| - pos));
        pos := |data|;
      }
    }

    /** A 16-bit length and the payload it announces. */
    method ReadSized() returns (r: Result<seq<Byte>, ReadError>)
      requires Valid()
      modifies this`pos
      ensures Valid()
      ensures match Sized(data, old(pos))
              case Got(v, end) => r == Ok(v) && pos == end
              case Fail(e) => r == Err(e)
    {
      var length := ReadFull(2);
      if length.Err? { return Err(length.error); }
      r := ReadFull(BE16(length.value[0], length.value[1]));
    }

    /** Peek(2): two bytes without moving, or EOF. */
    method Peek2() returns (r: Result<seq<Byte>, ReadError>)
      requires Valid()
      ensures r == if pos + 2 <= |data| then Ok(data[pos..pos + 2]) else Err(Eof)
    {
      r := if pos + 2 <= |data| then Ok(data[pos..pos + 2]) else Err(Eof);
    }
  }
}
