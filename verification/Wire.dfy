/**
 * The wire format: fixed-size buffers filled and read through a cursor.  Numbers are stored in
 * little-endian order; a double travels as its 64-bit pattern.
 */
module Wire {
  type byte = x: int | 0 <= x < 256

  const REQ_MSG_LEN: nat := 80
  const RSP_MSG_LEN: nat := 40

  // ----- numbers

  function Pow256(n: nat): (r: nat)
    ensures r >= 1
  {
    if n == 0 then 1 else 256 * Pow256(n - 1)
  }

  /** The `n` low bytes of `v`, least significant first. */
  function Bytes(v: nat, n: nat): (r: seq<byte>)
    ensures |r| == n
  {
    if n == 0 then [] else [v % 256] + Bytes(v / 256, n - 1)
  }

  function Number(bs: seq<byte>): nat {
    if bs == [] then 0 else bs[0] + 256 * Number(bs[1..])
  }

  lemma {:induction false} NumberOfBytes(v: nat, n: nat)
    requires v < Pow256(n)
    ensures Number(Bytes(v, n)) == v
  {
    if n > 0 {
      assert v / 256 < Pow256(n - 1);
      NumberOfBytes(v / 256, n - 1);
      assert Bytes(v, n)[1..] == Bytes(v / 256, n - 1);
    }
  }

  /** Later bytes weigh more: little-endian order. */
  lemma {:induction false} LittleEndian(x: seq<byte>, y: seq<byte>)
    ensures Number(x + y) == Number(x) + Pow256(|x|) * Number(y)
  {
    if x == [] {
      assert x + y == y;
    } else {
      var rest, p, q := x[1..], Pow256(|x| - 1), Number(y);
      assert (x + y)[0] == x[0] && (x + y)[1..] == rest + y;
      LittleEndian(rest, y);
      assert Number(x) == x[0] + 256 * Number(rest) && Number(x + y) == x[0] + 256 * Number(rest + y);
      assert Pow256(|x|) == 256 * p;
      hide Number, Pow256;
      Reassociate(256, p, q);
    }
  }

  lemma {:induction false} Reassociate(a: nat, b: nat, c: nat)
    ensures a * (b * c) == (a * b) * c
  {
  }

  const TWO31: int := 0x8000_0000
  const TWO32: int := 0x1_0000_0000
  const TWO64: int := 0x1_0000_0000_0000_0000

  predicate Int32(i: int) {
    -TWO31 <= i < TWO31
  }

  predicate Word64(v: int) {
    0 <= v < TWO64
  }

  function FromInt32(i: int): seq<byte> {
    Bytes(i % TWO32, 4)
  }

  function ToInt32(bs: seq<byte>): int {
    var v := Number(bs);
    if v >= TWO31 then v - TWO32 else v
  }

  lemma {:induction false} Powers()
    ensures Pow256(4) == TWO32 && Pow256(8) == TWO64
  {
    assert Pow256(2) == 65536;
    assert Pow256(4) == TWO32;
    assert Pow256(6) == 0x1_0000_0000_0000;
  }

  lemma {:induction false} Int32RoundTrip(i: int)
    requires Int32(i)
    ensures ToInt32(FromInt32(i)) == i
  {
    Powers();
    NumberOfBytes(i % TWO32, 4);
  }

  lemma {:induction false} Word64RoundTrip(v: nat)
    requires Word64(v)
    ensures Number(Bytes(v, 8)) == v
  {
    Powers();
    NumberOfBytes(v, 8);
  }

  // ----- messages

  /** What a request carries besides name and id; doubles are given by their bit patterns. */
  datatype Ask =
    | AskQuota(overuse: nat, burst: nat)
    | AskMemLimit
    | AskMemUpdate(size: nat, allocate: int)

  datatype Answer =
    | AnswerQuota(quota: nat)
    | AnswerMemLimit(used: nat, total: nat)
    | AnswerMemUpdate(verdict: int)

  predicate ValidAsk(a: Ask) {
    match a
    case AskQuota(o, b) => Word64(o) && Word64(b)
    case AskMemLimit => true
    case AskMemUpdate(n, f) => Word64(n) && Int32(f)
  }

  predicate ValidAnswer(a: Answer) {
    match a
    case AnswerQuota(q) => Word64(q)
    case AnswerMemLimit(u, t) => Word64(u) && Word64(t)
    case AnswerMemUpdate(v) => Int32(v)
  }

  /** The request types are numbered in this order. */
  function Code(a: Ask): nat {
    match a
    case AskQuota(_, _) => 0
    case AskMemLimit => 1
    case AskMemUpdate(_, _) => 2
  }

  function AskBytes(a: Ask): seq<byte> {
    match a
    case AskQuota(o, b) => Bytes(o, 8) + Bytes(b, 8)
    case AskMemLimit => []
    case AskMemUpdate(n, f) => Bytes(n, 8) + FromInt32(f)
  }

  function RequestBytes(name: seq<byte>, id: int, a: Ask): seq<byte> {
    Bytes(|name|, 8) + (name + ([0] + (FromInt32(id) + (Bytes(Code(a), 4) + AskBytes(a)))))
  }

  function AnswerBytes(a: Answer): seq<byte> {
    match a
    case AnswerQuota(q) => Bytes(q, 8)
    case AnswerMemLimit(u, t) => Bytes(u, 8) + Bytes(t, 8)
    case AnswerMemUpdate(v) => FromInt32(v)
  }

  function ResponseBytes(id: int, a: Answer): seq<byte> {
    FromInt32(id) + AnswerBytes(a)
  }

  /**
   * No write passes the end of the request buffer if and only if the name is short enough.  The
   * resource file admits names of up to 62 characters; from 48 on, quota requests no longer fit.
   */
  lemma {:induction false} RequestFits(name: seq<byte>, id: int, a: Ask)
    ensures |RequestBytes(name, id, a)| == |name| + (match a case AskQuota(_, _) => 33
                                                             case AskMemLimit => 17
                                                             case AskMemUpdate(_, _) => 29)
    ensures |RequestBytes(name, id, a)| <= REQ_MSG_LEN <==>
            |name| <= (match a case AskQuota(_, _) => 47 case AskMemLimit => 63 case AskMemUpdate(_, _) => 51)
  {
  }

  lemma {:induction false} ResponseFits(id: int, a: Answer)
    ensures |ResponseBytes(id, a)| <= 20 < RSP_MSG_LEN
  {
  }

  // ----- parsing

  /** The characters up to the first terminator, as a C string is read. */
  function CString(bs: seq<byte>): seq<byte> {
    if bs == [] || bs[0] == 0 then [] else [bs[0]] + CString(bs[1..])
  }

  datatype Parsed = Parsed(name: seq<byte>, nameLen: nat, id: int, code: nat, attached: seq<byte>)

  predicate Readable(bs: seq<byte>) {
    |bs| >= 8 && 17 + Number(bs[..8]) <= |bs|
  }

  function ParseRequest(bs: seq<byte>): Parsed
    requires Readable(bs)
  {
    var len := Number(bs[..8]);
    var r := bs[8..][len + 1..];
    Parsed(CString(bs[8..]), len, ToInt32(r[..4]), Number(r[4..][..4]), r[4..][4..])
  }

  /** Reads back what a request of the given type carries. */
  function ParseAsk(code: nat, bs: seq<byte>): Ask
    requires |bs| >= 16
  {
    if code == 0 then AskQuota(Number(bs[..8]), Number(bs[8..][..8]))
    else if code == 1 then AskMemLimit
    else AskMemUpdate(Number(bs[..8]), ToInt32(bs[8..][..4]))
  }

  lemma {:induction false} TakeDrop(x: seq<byte>, y: seq<byte>)
    ensures (x + y)[..|x|] == x && (x + y)[|x|..] == y
  {
  }

  lemma {:induction false} CStringOf(name: seq<byte>, rest: seq<byte>)
    ensures CString(name + ([0] + rest)) == name <==> 0 !in name
  {
    var bs := name + ([0] + rest);
    if name == [] {
      assert bs == [0] + rest;
    } else if name[0] != 0 {
      assert bs[1..] == name[1..] + ([0] + rest);
      CStringOf(name[1..], rest);
      assert name == [name[0]] + name[1..];
    }
  }

  lemma {:induction false} AskRoundTrip(a: Ask, rest: seq<byte>)
    requires ValidAsk(a) && |AskBytes(a) + rest| >= 16
    ensures ParseAsk(Code(a), AskBytes(a) + rest) == a
  {
    hide Bytes, Number, FromInt32, ToInt32;
    match a
    case AskQuota(o, b) =>
      assert AskBytes(a) + rest == Bytes(o, 8) + (Bytes(b, 8) + rest);
      TakeDrop(Bytes(o, 8), Bytes(b, 8) + rest);
      TakeDrop(Bytes(b, 8), rest);
      Word64RoundTrip(o);
      Word64RoundTrip(b);
    case AskMemLimit =>
    case AskMemUpdate(n, f) =>
      Int32Size(f);
      assert AskBytes(a) + rest == Bytes(n, 8) + (FromInt32(f) + rest);
      TakeDrop(Bytes(n, 8), FromInt32(f) + rest);
      TakeDrop(FromInt32(f), rest);
      Word64RoundTrip(n);
      Int32RoundTrip(f);
  }

  /**
   * Round trip: parsing a prepared request, whatever follows it in the buffer, gives back the id,
   * the type, the payload and the name length; and the name itself if and only if it is free of
   * terminators.
   */
  lemma {:induction false} RequestRoundTrip(name: seq<byte>, id: int, a: Ask, rest: seq<byte>)
    requires Word64(|name|) && Int32(id) && ValidAsk(a)
    ensures var bs := RequestBytes(name, id, a) + rest;
            Readable(bs)
            && (var m := ParseRequest(bs);
                m.nameLen == |name| && m.id == id && m.code == Code(a)
                && m.attached == AskBytes(a) + rest
                && (m.name == name <==> 0 !in name)
                && (|m.attached| >= 16 ==> ParseAsk(m.code, m.attached) == a))
  {
    hide Bytes, Number, CString, FromInt32, ToInt32, AskBytes, ParseAsk;
    var bs := RequestBytes(name, id, a) + rest;
    var tail3 := Bytes(Code(a), 4) + (AskBytes(a) + rest);
    var tail2 := FromInt32(id) + tail3;
    var tail1 := name + ([0] + tail2);
    assert bs == Bytes(|name|, 8) + tail1;
    TakeDrop(Bytes(|name|, 8), tail1);
    Word64RoundTrip(|name|);
    assert tail1 == (name + [0]) + tail2;
    TakeDrop(name + [0], tail2);
    Int32Size(id);
    TakeDrop(FromInt32(id), tail3);
    Int32RoundTrip(id);
    TakeDrop(Bytes(Code(a), 4), AskBytes(a) + rest);
    CodeRoundTrip(a);
    CStringOf(name, tail2);
    if |AskBytes(a) + rest| >= 16 {
      AskRoundTrip(a, rest);
    }
  }

  /** Where everything is in a request. */
  lemma {:induction false} RequestLayout(name: seq<byte>, id: int, a: Ask)
    requires Word64(|name|) && Int32(id) && ValidAsk(a)
    ensures var bs, n := RequestBytes(name, id, a), |name|;
            && |bs| >= n + 17 && Number(bs[..8]) == n && bs[8..8 + n] == name && bs[8 + n] == 0
            && ToInt32(bs[9 + n..13 + n]) == id && Number(bs[13 + n..17 + n]) == Code(a)
            && bs[17 + n..] == AskBytes(a)
  {
    Word64RoundTrip(|name|);
    Int32Size(id);
    Int32RoundTrip(id);
    CodeRoundTrip(a);
    hide Bytes, FromInt32, Number, ToInt32, AskBytes;
    FieldPlaces(Bytes(|name|, 8), name, FromInt32(id), Bytes(Code(a), 4), AskBytes(a));
  }

  lemma {:induction false} FieldPlaces(len: seq<byte>, name: seq<byte>, id: seq<byte>, code: seq<byte>, info: seq<byte>)
    requires |len| == 8 && |id| == 4 && |code| == 4
    ensures var bs, n := len + (name + ([0] + (id + (code + info)))), |name|;
            && |bs| == 17 + n + |info| && bs[..8] == len && bs[8..8 + n] == name && bs[8 + n] == 0
            && bs[9 + n..13 + n] == id && bs[13 + n..17 + n] == code && bs[17 + n..] == info
  {
    var rest := code + info;
    var tail := [0] + (id + rest);
    var bs, n := len + (name + tail), |name|;
    assert bs[8 + n..] == tail;
    assert bs[9 + n..] == id + rest by {
      assert bs[9 + n..] == bs[8 + n..][1..];
    }
    assert bs[13 + n..] == rest by {
      assert bs[13 + n..] == bs[9 + n..][4..];
    }
    assert bs[17 + n..] == info by {
      assert bs[17 + n..] == bs[13 + n..][4..];
    }
    assert bs[9 + n..13 + n] == bs[9 + n..][..4] && bs[13 + n..17 + n] == bs[13 + n..][..4];
  }

  /** The numbers of the types, and where everything is in what they carry. */
  lemma {:induction false} AskLayout(a: Ask)
    requires ValidAsk(a)
    ensures var info := AskBytes(a);
            match a
            case AskQuota(overuse, burst) =>
              Code(a) == 0 && |info| == 16 && Number(info[..8]) == overuse && Number(info[8..16]) == burst
            case AskMemLimit => Code(a) == 1 && info == []
            case AskMemUpdate(size, allocate) =>
              Code(a) == 2 && |info| == 12 && Number(info[..8]) == size && ToInt32(info[8..12]) == allocate
  {
    hide Bytes, FromInt32, Number, ToInt32;
    match a
    case AskQuota(overuse, burst) =>
      Word64RoundTrip(overuse);
      Word64RoundTrip(burst);
      assert AskBytes(a)[..8] == Bytes(overuse, 8) && AskBytes(a)[8..16] == Bytes(burst, 8);
    case AskMemLimit =>
    case AskMemUpdate(size, allocate) =>
      Word64RoundTrip(size);
      Int32Size(allocate);
      Int32RoundTrip(allocate);
      assert AskBytes(a)[..8] == Bytes(size, 8) && AskBytes(a)[8..12] == FromInt32(allocate);
  }

  lemma {:induction false} Int32Size(i: int)
    ensures |FromInt32(i)| == 4
  {
  }

  lemma {:induction false} CodeRoundTrip(a: Ask)
    ensures Number(Bytes(Code(a), 4)) == Code(a)
  {
    Powers();
    NumberOfBytes(Code(a), 4);
  }

  /** Responses: the id and the payload come back. */
  lemma {:induction false} ResponseRoundTrip(id: int, a: Answer, rest: seq<byte>)
    requires Int32(id) && ValidAnswer(a)
    ensures var bs := ResponseBytes(id, a) + rest;
            ToInt32(bs[..4]) == id && bs[4..] == AnswerBytes(a) + rest
            && match a
               case AnswerQuota(q) => Number(bs[4..][..8]) == q
               case AnswerMemLimit(u, t) => Number(bs[4..][..8]) == u && Number(bs[4..][8..][..8]) == t
               case AnswerMemUpdate(v) => ToInt32(bs[4..][..4]) == v
  {
    hide Bytes, Number, FromInt32, ToInt32;
    var bs := ResponseBytes(id, a) + rest;
    Int32Size(id);
    assert bs == FromInt32(id) + (AnswerBytes(a) + rest);
    TakeDrop(FromInt32(id), AnswerBytes(a) + rest);
    Int32RoundTrip(id);
    match a
    case AnswerQuota(q) =>
      TakeDrop(Bytes(q, 8), rest);
      Word64RoundTrip(q);
    case AnswerMemLimit(u, t) =>
      assert AnswerBytes(a) + rest == Bytes(u, 8) + (Bytes(t, 8) + rest);
      TakeDrop(Bytes(u, 8), Bytes(t, 8) + rest);
      TakeDrop(Bytes(t, 8), rest);
      Word64RoundTrip(u);
      Word64RoundTrip(t);
    case AnswerMemUpdate(v) =>
      Int32Size(v);
      TakeDrop(FromInt32(v), rest);
      Int32RoundTrip(v);
  }

  // ----- the code

  /** `append_msg_data`: copies the bytes of a value to the cursor and advances it. */
  method Append(buf: array<byte>, pos: nat, data: seq<byte>) returns (pos': nat)
    requires pos + |data| <= buf.Length
    modifies buf
    ensures pos' == pos + |data|
    ensures buf[..] == old(buf[..pos]) + data + old(buf[pos + |data|..])
  {
    for i := 0 to |data|
      invariant forall j :: 0 <= j < pos ==> buf[j] == old(buf[j])
      invariant forall j :: 0 <= j < i ==> buf[pos + j] == data[j]
      invariant forall j :: pos + i <= j < buf.Length ==> buf[j] == old(buf[j])
    {
      buf[pos + i] := data[i];
    }
    pos' := pos + |data|;
  }

  /** `get_msg_data`: reads the bytes of a value at the cursor and advances it. */
  method Get(buf: array<byte>, pos: nat, n: nat) returns (data: seq<byte>, pos': nat)
    requires pos + n <= buf.Length
    ensures data == buf[pos..pos + n] && pos' == pos + n
  {
    data := [];
    for i := 0 to n
      invariant data == buf[pos..pos + i]
    {
      data := data + [buf[pos + i]];
    }
    pos' := pos + n;
  }

  /** The sending side: the client's name and the counter that numbers its requests. */
  class Sender {
    const name: seq<byte>
    var nextId: int

    constructor (name: seq<byte>)
      ensures this.name == name && nextId == 0
    {
      this.name := name;
      nextId := 0;
    }

    /** Fills the buffer with a request; nothing after the request is touched. */
    method Prepare(buf: array<byte>, a: Ask) returns (id: int)
      requires |RequestBytes(name, nextId, a)| <= buf.Length
      modifies this, buf
      ensures id == old(nextId) && nextId == id + 1
      ensures buf[..] == RequestBytes(name, id, a) + old(buf[..])[|RequestBytes(name, id, a)|..]
    {
      ghost var total := |RequestBytes(name, nextId, a)|;
      RequestFits(name, nextId, a);
      assert total == |name| + 17 + |AskBytes(a)|;
      RequestPieces(name, nextId, a);
      hide RequestBytes, AskBytes;
      var pos := AppendHeader(buf, name, nextId, Code(a));
      ghost var written := HeaderBytes(name, nextId, Code(a));
      pos := AppendAsk(buf, pos, a, written, old(buf[..]));
      id := nextId;
      nextId := nextId + 1;
    }
  }

  /** The part of a request that all types share. */
  function HeaderBytes(name: seq<byte>, id: int, code: nat): (r: seq<byte>)
    ensures |r| == |name| + 17
  {
    Bytes(|name|, 8) + name + [0] + FromInt32(id) + Bytes(code, 4)
  }

  lemma {:induction false} RequestPieces(name: seq<byte>, id: int, a: Ask)
    ensures HeaderBytes(name, id, Code(a)) + AskBytes(a) == RequestBytes(name, id, a)
  {
    hide Bytes, FromInt32, AskBytes;
  }

  method AppendHeader(buf: array<byte>, name: seq<byte>, id: int, code: nat) returns (pos: nat)
    requires |name| + 17 <= buf.Length
    modifies buf
    ensures pos == |name| + 17
    ensures buf[..] == HeaderBytes(name, id, code) + old(buf[..])[pos..]
  {
    hide Bytes, FromInt32;
    ghost var orig, w := buf[..], [];
    Int32Size(id);
    pos := AppendNext(buf, 0, Bytes(|name|, 8), w, orig);
    w := Bytes(|name|, 8);
    pos := AppendNext(buf, pos, name, w, orig);
    w := w + name;
    pos := AppendNext(buf, pos, [0], w, orig);
    w := w + [0];
    pos := AppendNext(buf, pos, FromInt32(id), w, orig);
    w := w + FromInt32(id);
    pos := AppendNext(buf, pos, Bytes(code, 4), w, orig);
  }

  /** Appending at the end of what was written so far. */
  method AppendNext(buf: array<byte>, pos: nat, data: seq<byte>, ghost written: seq<byte>, ghost orig: seq<byte>)
    returns (pos': nat)
    requires |orig| == buf.Length && pos == |written| && pos + |data| <= buf.Length
    requires buf[..] == written + orig[pos..]
    modifies buf
    ensures pos' == |written + data|
    ensures buf[..] == written + data + orig[pos'..]
  {
    ghost var before := buf[..];
    assert buf[..pos] == before[..pos] && buf[pos + |data|..] == before[pos + |data|..];
    pos' := Append(buf, pos, data);
  }

  /** The extra information of a request, by type. */
  method AppendAsk(buf: array<byte>, pos: nat, a: Ask, ghost written: seq<byte>, ghost orig: seq<byte>)
    returns (pos': nat)
    requires |orig| == buf.Length && pos == |written| && pos + |AskBytes(a)| <= buf.Length
    requires buf[..] == written + orig[pos..]
    modifies buf
    ensures pos' == |written + AskBytes(a)|
    ensures buf[..] == written + AskBytes(a) + orig[pos'..]
  {
    hide Bytes, FromInt32;
    pos' := pos;
    match a {
      case AskQuota(o, b) =>
        pos' := AppendNext(buf, pos', Bytes(o, 8), written, orig);
        pos' := AppendNext(buf, pos', Bytes(b, 8), written + Bytes(o, 8), orig);
        assert written + Bytes(o, 8) + Bytes(b, 8) == written + AskBytes(a);
      case AskMemLimit =>
        assert written + AskBytes(a) == written;
      case AskMemUpdate(n, f) =>
        Int32Size(f);
        pos' := AppendNext(buf, pos', Bytes(n, 8), written, orig);
        pos' := AppendNext(buf, pos', FromInt32(f), written + Bytes(n, 8), orig);
        assert written + Bytes(n, 8) + FromInt32(f) == written + AskBytes(a);
    }
  }

  /** `parse_request`; the name is read from its place in the buffer as a C string. */
  method Parse(buf: array<byte>) returns (m: Parsed)
    requires Readable(buf[..])
    ensures m == ParseRequest(buf[..])
  {
    hide Number, CString, ToInt32;
    var lenBytes, pos := Get(buf, 0, 8);
    assert lenBytes == buf[..8];
    var len := Number(lenBytes);
    var name := CString(buf[8..]);
    pos := pos + len + 1;
    var idBytes, codeBytes;
    idBytes, pos := Get(buf, pos, 4);
    codeBytes, pos := Get(buf, pos, 4);
    ghost var r := buf[..][8..][len + 1..];
    assert idBytes == r[..4] && codeBytes == r[4..][..4] && buf[pos..] == r[4..][4..];
    assert buf[..][8..] == buf[8..];
    m := Parsed(name, len, ToInt32(idBytes), Number(codeBytes), buf[pos..]);
  }

  /** `prepare_response`; returns the length of the message. */
  method PrepareResponse(buf: array<byte>, id: int, a: Answer) returns (len: nat)
    requires buf.Length == RSP_MSG_LEN
    modifies buf
    ensures len == |ResponseBytes(id, a)|
    ensures buf[..] == ResponseBytes(id, a) + old(buf[..])[len..]
  {
    ghost var orig := buf[..];
    Int32Size(id);
    ResponseFits(id, a);
    hide Bytes, FromInt32, AnswerBytes;
    var head := FromInt32(id);
    assert ResponseBytes(id, a) == head + AnswerBytes(a);
    hide ResponseBytes;
    len := AppendNext(buf, 0, head, [], orig);
    assert [] + head == head;
    len := AppendAnswer(buf, len, a, head, orig);
  }

  /** The extra information of a response, by type. */
  method AppendAnswer(buf: array<byte>, pos: nat, a: Answer, ghost written: seq<byte>, ghost orig: seq<byte>)
    returns (pos': nat)
    requires |orig| == buf.Length && pos == |written| && pos + |AnswerBytes(a)| <= buf.Length
    requires buf[..] == written + orig[pos..]
    modifies buf
    ensures pos' == |written + AnswerBytes(a)|
    ensures buf[..] == written + AnswerBytes(a) + orig[pos'..]
  {
    hide Bytes, FromInt32;
    match a {
      case AnswerQuota(q) =>
        pos' := AppendNext(buf, pos, Bytes(q, 8), written, orig);
      case AnswerMemLimit(u, t) =>
        pos' := AppendNext(buf, pos, Bytes(u, 8), written, orig);
        pos' := AppendNext(buf, pos', Bytes(t, 8), written + Bytes(u, 8), orig);
        assert written + Bytes(u, 8) + Bytes(t, 8) == written + AnswerBytes(a);
      case AnswerMemUpdate(v) =>
        pos' := AppendNext(buf, pos, FromInt32(v), written, orig);
    }
  }

  /** `parse_response`: the id, and the place where the payload starts. */
  method ParseResponse(buf: array<byte>) returns (id: int, attached: nat)
    requires buf.Length == RSP_MSG_LEN
    ensures id == ToInt32(buf[..][..4]) && attached == 4
  {
    hide Number, ToInt32;
    var data;
    data, attached := Get(buf, 0, 4);
    assert data == buf[..][..4];
    id := ToInt32(data);
  }
}
