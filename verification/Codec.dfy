// The control-message codec: fields packed one after the other into a reused
// buffer, and found again by walking over it.
module Codec {
  import opened Messages

  // ----- integers in memory --------------------------------------------------------

  function Pow256(n: nat): (p: nat)
    ensures p >= 1
  {
    if n == 0 then 1 else 256 * Pow256(n - 1)
  }

  // The n bytes of x as the machine stores them, least significant first.
  function Stored(n: nat, x: nat): (bytes: seq<byte>)
    ensures |bytes| == n
  {
    if n == 0 then [] else [x % 256] + Stored(n - 1, x / 256)
  }

  lemma Multiple(d: nat, k: nat)
    requires k >= 1
    ensures d * k >= d
  {
    assert d * k == d * (k - 1) + d;
  }

  lemma QuotientIs(m: nat, d: nat, q: nat, r: nat)
    requires m == d * q + r && r < d
    ensures m / d == q
  {
    var q', r' := m / d, m % d;
    assert m == d * q' + r' && r' < d;
    if q' < q {
      assert d * q - d * q' == d * (q - q');
      Multiple(d, q - q');
    } else if q < q' {
      assert d * q' - d * q == d * (q' - q);
      Multiple(d, q' - q);
    }
  }

  lemma DivTwice(v: nat, a: nat, p: nat)
    requires a >= 1 && p >= 1
    ensures v / a / p == v / (a * p)
  {
    Multiple(a, p);
    DivParts(v, a, p, a * p, v / (a * p), v % (a * p));
  }

  lemma DivParts(v: nat, a: nat, p: nat, n: nat, q: nat, r: nat)
    requires a >= 1 && p >= 1 && n == a * p && v == n * q + r && r < n
    ensures v / a / p == q
  {
    Within(r, a, p);
    var s, t := r / a, r % a;
    assert r == a * s + t;
    Regroup(v, a, p, q, r, s, t);
    QuotientIs(v, a, p * q + s, t);
    QuotientIs(v / a, p, q, s);
  }

  lemma Regroup(v: nat, a: nat, p: nat, q: nat, r: nat, s: nat, t: nat)
    requires v == a * p * q + r && r == a * s + t
    ensures v == a * (p * q + s) + t
  {
    assert a * (p * q + s) == a * (p * q) + a * s;
    assert a * (p * q) == a * p * q;
  }

  lemma Within(r: nat, a: nat, p: nat)
    requires a >= 1 && r < a * p
    ensures r / a < p
  {
    if r / a >= p {
      Scaled(a, r / a, p);
    }
  }

  lemma Scaled(d: nat, k: nat, j: nat)
    requires k >= j
    ensures d * k >= d * j
  {
    assert d * k - d * j == d * (k - j);
  }

  // The bytes in memory by arithmetic.
  lemma {:induction false} StoredAt(n: nat, x: nat, i: nat)
    requires i < n
    ensures Stored(n, x)[i] == x / Pow256(i) % 256
  {
    if i > 0 {
      StoredAt(n - 1, x / 256, i - 1);
      DivTwice(x, 256, Pow256(i - 1));
    }
  }

  function Loaded(bytes: seq<byte>): (x: nat)
    ensures x < Pow256(|bytes|)
  {
    if bytes == [] then 0 else bytes[0] + 256 * Loaded(bytes[1..])
  }

  lemma {:induction false} LoadStored(n: nat, x: nat)
    requires x < Pow256(n)
    ensures Loaded(Stored(n, x)) == x
  {
    if n > 0 {
      LoadStored(n - 1, x / 256);
      assert Stored(n, x)[1..] == Stored(n - 1, x / 256);
    }
  }

  lemma {:induction false} StoreLoaded(bytes: seq<byte>)
    ensures Stored(|bytes|, Loaded(bytes)) == bytes
  {
    if bytes != [] {
      StoreLoaded(bytes[1..]);
      assert Loaded(bytes) / 256 == Loaded(bytes[1..]) && Loaded(bytes) % 256 == bytes[0];
    }
  }

  function Reversed(bytes: seq<byte>): (r: seq<byte>)
    ensures |r| == |bytes|
    ensures forall i | 0 <= i < |r| :: r[i] == bytes[|bytes| - 1 - i]
  {
    if bytes == [] then [] else Reversed(bytes[1..]) + [bytes[0]]
  }

  // bswap_64 and htonl / ntohl on a little-endian machine.
  function Swapped(n: nat, x: nat): (y: nat)
    ensures y < Pow256(n)
  {
    Loaded(Reversed(Stored(n, x)))
  }

  // Swapping the byte order twice gives the original back.
  lemma SwapTwice(n: nat, x: nat)
    requires x < Pow256(n)
    ensures Swapped(n, Swapped(n, x)) == x
  {
    var r := Reversed(Stored(n, x));
    StoreLoaded(r);
    assert Reversed(r) == Stored(n, x);
    LoadStored(n, x);
  }

  // A swapped number lies in memory most significant byte first.
  lemma SwappedAt(n: nat, x: nat, i: nat)
    requires i < n
    ensures Stored(n, Swapped(n, x))[i] == x / Pow256(n - 1 - i) % 256
  {
    hide Stored, Loaded, Reversed;
    StoreLoaded(Reversed(Stored(n, x)));
    StoredAt(n, x, n - 1 - i);
  }

  lemma WordSizes()
    ensures Pow256(8) == TWO_TO_64 && Pow256(4) == TWO_TO_32
  {
    assert Pow256(2) == 0x1_0000;
    assert Pow256(4) == 0x1_0000_0000;
    assert Pow256(6) == 0x1_0000_0000_0000;
  }

  // ----- what each operation carries -------------------------------------------------

  datatype Operation =
    | SHUT_DOWN_SERVER
    | CLIENT_KV_SET_EAGER
    | CLIENT_KV_SET_RENDEZVOUS
    | SERVER_KV_SET_RENDEZVOUS
    | CLIENT_KV_GET
    | SERVER_KV_GET_EAGER
    | SERVER_KV_GET_RENDEZVOUS
    | SERVER_KV_GET_KEY_NOT_FOUND
    | SERVER_IN_PROGRESS
    | CLIENT_KV_GET_RENDEZVOUS_FIN
    | CLIENT_KV_SET_RENDEZVOUS_FIN
    | SERVER_KV_SET_SUCCESSFUL
    | SERVER_KV_GET_SUCCESSFUL

  const SIZE_T: nat := 8
  const UINT64: nat := 8
  const UINT32: nat := 4
  const STRING: nat := 0

  // The sizes of the fields as the decoder knows them; a string is STRING.
  function Layout(op: Operation): seq<nat> {
    match op
    case CLIENT_KV_SET_EAGER => [STRING, SIZE_T, STRING]
    case CLIENT_KV_SET_RENDEZVOUS => [STRING, SIZE_T]
    case SERVER_KV_SET_RENDEZVOUS => [UINT64, UINT32]
    case CLIENT_KV_GET => [STRING]
    case SERVER_KV_GET_EAGER => [STRING]
    case SERVER_KV_GET_RENDEZVOUS => [SIZE_T, UINT64, UINT32]
    case CLIENT_KV_GET_RENDEZVOUS_FIN => [STRING]
    case CLIENT_KV_SET_RENDEZVOUS_FIN => [STRING]
    case _ => []
  }

  // The number of bytes the encoder copies for one field, from the memory its
  // pointer designates.
  function CopySize(size: nat, memory: seq<byte>): nat {
    if size == STRING then |CStr(memory)| + 1 else size
  }

  // The memory behind a pointer is long enough for the copy.
  predicate Readable(layout: seq<nat>, parts: seq<seq<byte>>) {
    && |parts| >= |layout|
    && forall i | 0 <= i < |layout| ::
         CopySize(layout[i], parts[i]) <= |parts[i]|
  }

  // The payload: the fields one after the other.
  function Packed(layout: seq<nat>, parts: seq<seq<byte>>): seq<byte>
    requires Readable(layout, parts)
  {
    if layout == [] then []
    else
      var n := |layout| - 1;
      Packed(layout[..n], parts) + parts[n][..CopySize(layout[n], parts[n])]
  }

  // Where the decoder says each field starts.
  function Offsets(layout: seq<nat>, bytes: seq<byte>, at: nat): (offsets: seq<nat>)
    ensures |offsets| == |layout|
  {
    if layout == [] then []
    else [at] + Offsets(layout[1..], bytes, at + CopySize(layout[0], Tail(bytes, at)))
  }

  // The memory from an offset on.
  function Tail(bytes: seq<byte>, at: nat): seq<byte> {
    if at <= |bytes| then bytes[at..] else []
  }

  // ----- the program ---------------------------------------------------------------------

  class ControlMessage {
    var operation: Operation
    const buf: array<byte>

    constructor ()
      ensures fresh(buf) && buf.Length == BUFFER_SIZE
    {
      operation := SHUT_DOWN_SERVER;
      buf := new byte[BUFFER_SIZE];
    }
  }

  // Encoding into a buffer with arbitrary old contents. The payload must fit:
  // the source copies without a check.
  method SetControlMessage(my: ControlMessage, operation: Operation, parts: seq<seq<byte>>)
    requires Readable(Layout(operation), parts) && |Packed(Layout(operation), parts)| <= my.buf.Length
    modifies my, my.buf
    ensures my.operation == operation
    ensures var payload := Packed(Layout(operation), parts);
            my.buf[..] == payload + old(my.buf[..])[|payload|..]
  {
    my.operation := operation;
    PackFields(my.buf, Layout(operation), parts);
  }

  // The copying loop, with its advancing pointer.
  method PackFields(buf: array<byte>, layout: seq<nat>, parts: seq<seq<byte>>)
    requires Readable(layout, parts) && |Packed(layout, parts)| <= buf.Length
    modifies buf
    ensures buf[..] == Packed(layout, parts) + old(buf[..])[|Packed(layout, parts)|..]
  {
    hide Packed, CopySize;
    var current: nat := 0;
    ghost var done, before := [], buf[..];
    PackedNone(layout, parts);
    for i := 0 to |layout|
      invariant done == Packed(layout[..i], parts) && current == |done| <= buf.Length
      invariant buf[..] == done + before[current..]
    {
      PackedStep(layout, parts, i);
      var size := CopySize(layout[i], parts[i]);
      ghost var piece := parts[i][..size];
      Splice(buf[..], done, before, piece);
      CopyInto(buf, current, parts[i], size);
      done := done + piece;
      current := current + size;
    }
    assert layout[..|layout|] == layout;
  }

  lemma PackedNone(layout: seq<nat>, parts: seq<seq<byte>>)
    ensures Readable(layout[..0], parts) && Packed(layout[..0], parts) == []
  {
  }

  // Overwriting the front of what follows a prefix.
  lemma Splice(all: seq<byte>, front: seq<byte>, before: seq<byte>, piece: seq<byte>)
    requires |front| + |piece| <= |before| && all == front + before[|front|..]
    ensures all[..|front|] + piece + all[|front| + |piece|..] == front + piece + before[|front + piece|..]
  {
  }

  lemma PackedStep(layout: seq<nat>, parts: seq<seq<byte>>, i: nat)
    requires Readable(layout, parts) && i < |layout|
    ensures Packed(layout[..i + 1], parts) == Packed(layout[..i], parts) + parts[i][..CopySize(layout[i], parts[i])]
    ensures |Packed(layout[..i + 1], parts)| <= |Packed(layout, parts)|
  {
    assert layout[..i + 1][..i] == layout[..i];
    PackedPrefix(layout, parts, i + 1);
  }

  lemma {:induction false} PackedPrefix(layout: seq<nat>, parts: seq<seq<byte>>, i: nat)
    requires Readable(layout, parts) && i <= |layout|
    ensures |Packed(layout[..i], parts)| <= |Packed(layout, parts)|
    decreases |layout|
  {
    if i < |layout| {
      PackedPrefix(layout[..|layout| - 1], parts, i);
      assert layout[..|layout| - 1][..i] == layout[..i];
    } else {
      assert layout[..i] == layout;
    }
  }

  // memcpy
  method CopyInto(buf: array<byte>, at: nat, memory: seq<byte>, size: nat)
    requires at + size <= buf.Length && size <= |memory|
    modifies buf
    ensures buf[..] == old(buf[..at]) + memory[..size] + old(buf[at + size..])
  {
    for j := 0 to size
      invariant buf[..] == old(buf[..at]) + memory[..j] + old(buf[at + j..])
    {
      buf[at + j] := memory[j];
    }
  }

  // Decoding fills an array of pointers into the buffer. Messages with a single
  // field take a shortcut.
  method DecodeControlMessage(operation: Operation, buf: array<byte>) returns (pointers: seq<nat>)
    ensures pointers == Offsets(Layout(operation), buf[..], 0)
  {
    var layout := Layout(operation);
    hide Layout, CopySize, Tail, Offsets;
    if |layout| == 1 {
      OneOffset(layout, buf[..]);
      return [0];
    }
    pointers := [];
    var current: nat := 0;
    ghost var all := Offsets(layout, buf[..], 0);
    assert layout[0..] == layout;
    for i := 0 to |layout|
      invariant all == pointers + Offsets(layout[i..], buf[..], current)
    {
      NextOffset(all, pointers, layout, i, buf[..], current);
      pointers := pointers + [current];
      current := current + CopySize(layout[i], Tail(buf[..], current));
    }
    assert Offsets(layout[|layout|..], buf[..], current) == [];
  }

  lemma NextOffset(all: seq<nat>, before: seq<nat>, layout: seq<nat>, i: nat, bytes: seq<byte>, at: nat)
    requires i < |layout| && all == before + Offsets(layout[i..], bytes, at)
    ensures all == before + [at] + Offsets(layout[i + 1..], bytes, at + CopySize(layout[i], Tail(bytes, at)))
  {
    hide CopySize, Tail;
    var rest := Offsets(layout[i + 1..], bytes, at + CopySize(layout[i], Tail(bytes, at)));
    assert Offsets(layout[i..], bytes, at) == [at] + rest by {
      assert layout[i..][1..] == layout[i + 1..];
    }
    hide Offsets;
    Reassociate(before, [at], rest);
  }

  lemma Reassociate(a: seq<nat>, b: seq<nat>, c: seq<nat>)
    ensures a + (b + c) == a + b + c
  {
  }

  // ----- messages --------------------------------------------------------------------------

  function OperationOf(m: Msg): Operation {
    match m
    case ShutDown => SHUT_DOWN_SERVER
    case SetEager(_, _, _) => CLIENT_KV_SET_EAGER
    case SetRendezvous(_, _) => CLIENT_KV_SET_RENDEZVOUS
    case SetGrant(_, _) => SERVER_KV_SET_RENDEZVOUS
    case GetKey(_) => CLIENT_KV_GET
    case GetEager(_) => SERVER_KV_GET_EAGER
    case GetGrant(_, _, _) => SERVER_KV_GET_RENDEZVOUS
    case KeyNotFound => SERVER_KV_GET_KEY_NOT_FOUND
    case InProgress => SERVER_IN_PROGRESS
    case GetFin(_) => CLIENT_KV_GET_RENDEZVOUS_FIN
    case SetFin(_) => CLIENT_KV_SET_RENDEZVOUS_FIN
    case SetSuccessful => SERVER_KV_SET_SUCCESSFUL
    case GetSuccessful => SERVER_KV_GET_SUCCESSFUL
  }

  // The numbers of the operations.
  function Code(op: Operation): int {
    match op
    case SHUT_DOWN_SERVER => -1
    case CLIENT_KV_SET_EAGER => 0
    case CLIENT_KV_SET_RENDEZVOUS => 1
    case SERVER_KV_SET_RENDEZVOUS => 2
    case CLIENT_KV_GET => 3
    case SERVER_KV_GET_EAGER => 4
    case SERVER_KV_GET_RENDEZVOUS => 5
    case SERVER_KV_GET_KEY_NOT_FOUND => 6
    case SERVER_IN_PROGRESS => 7
    case CLIENT_KV_GET_RENDEZVOUS_FIN => 8
    case CLIENT_KV_SET_RENDEZVOUS_FIN => 9
    case SERVER_KV_SET_SUCCESSFUL => 10
    case SERVER_KV_GET_SUCCESSFUL => 11
  }

  // The number tells the kind of the message.
  lemma CodeTellsKind(m: Msg)
    ensures Code(OperationOf(m)) == -1 <==> m.ShutDown?
    ensures Code(OperationOf(m)) == 0 <==> m.SetEager?
    ensures Code(OperationOf(m)) == 1 <==> m.SetRendezvous?
    ensures Code(OperationOf(m)) == 2 <==> m.SetGrant?
    ensures Code(OperationOf(m)) == 3 <==> m.GetKey?
    ensures Code(OperationOf(m)) == 4 <==> m.GetEager?
    ensures Code(OperationOf(m)) == 5 <==> m.GetGrant?
    ensures Code(OperationOf(m)) == 6 <==> m.KeyNotFound?
    ensures Code(OperationOf(m)) == 7 <==> m.InProgress?
    ensures Code(OperationOf(m)) == 8 <==> m.GetFin?
    ensures Code(OperationOf(m)) == 9 <==> m.SetFin?
    ensures Code(OperationOf(m)) == 10 <==> m.SetSuccessful?
    ensures Code(OperationOf(m)) == 11 <==> m.GetSuccessful?
  {
  }

  // The memory the sender's pointers designate. Addresses and remote keys are
  // put in network byte order first.
  function PartsOf(m: Msg): seq<seq<byte>> {
    match m
    case SetEager(k, size, v) => [k + [0], Stored(8, size), v + [0]]
    case SetRendezvous(k, size) => [k + [0], Stored(8, size)]
    case SetGrant(va, rkey) => [Stored(8, Swapped(8, va)), Stored(4, Swapped(4, rkey))]
    case GetKey(k) => [k + [0]]
    case GetEager(v) => [v + [0]]
    case GetGrant(size, va, rkey) => [Stored(8, size), Stored(8, Swapped(8, va)), Stored(4, Swapped(4, rkey))]
    case GetFin(k) => [k + [0]]
    case SetFin(k) => [k + [0]]
    case _ => []
  }

  function StringAt(bytes: seq<byte>, at: nat): CString {
    CStr(Tail(bytes, at))
  }

  function WordAt(bytes: seq<byte>, at: nat, n: nat): nat {
    if at + n <= |bytes| then Loaded(bytes[at..at + n]) else 0
  }

  // What the receiver makes of an operation and a buffer, reading each field
  // through the decoder's pointers.
  function MessageIn(op: Operation, bytes: seq<byte>): Msg {
    var p := Offsets(Layout(op), bytes, 0);
    match op
    case SHUT_DOWN_SERVER => ShutDown
    case CLIENT_KV_SET_EAGER => SetEager(StringAt(bytes, p[0]), WordAt(bytes, p[1], 8), StringAt(bytes, p[2]))
    case CLIENT_KV_SET_RENDEZVOUS => SetRendezvous(StringAt(bytes, p[0]), WordAt(bytes, p[1], 8))
    case SERVER_KV_SET_RENDEZVOUS =>
      SetGrant(Swapped(8, WordAt(bytes, p[0], 8)), Swapped(4, WordAt(bytes, p[1], 4)))
    case CLIENT_KV_GET => GetKey(StringAt(bytes, p[0]))
    case SERVER_KV_GET_EAGER => GetEager(StringAt(bytes, p[0]))
    case SERVER_KV_GET_RENDEZVOUS =>
      GetGrant(WordAt(bytes, p[0], 8), Swapped(8, WordAt(bytes, p[1], 8)), Swapped(4, WordAt(bytes, p[2], 4)))
    case SERVER_KV_GET_KEY_NOT_FOUND => KeyNotFound
    case SERVER_IN_PROGRESS => InProgress
    case CLIENT_KV_GET_RENDEZVOUS_FIN => GetFin(StringAt(bytes, p[0]))
    case CLIENT_KV_SET_RENDEZVOUS_FIN => SetFin(StringAt(bytes, p[0]))
    case SERVER_KV_SET_SUCCESSFUL => SetSuccessful
    case SERVER_KV_GET_SUCCESSFUL => GetSuccessful
  }

  function PayloadOf(m: Msg): seq<byte>
    requires Readable(Layout(OperationOf(m)), PartsOf(m))
  {
    Packed(Layout(OperationOf(m)), PartsOf(m))
  }

  // ----- the payload --------------------------------------------------------------------------

  lemma StringPart(s: CString)
    ensures CStr(s + [0]) == s && CopySize(STRING, s + [0]) == |s| + 1
    ensures (s + [0])[..|s| + 1] == s + [0]
  {
    CStrOfValue(s);
  }

  function Part(layout: seq<nat>, parts: seq<seq<byte>>, i: nat): seq<byte>
    requires Readable(layout, parts) && i < |layout|
  {
    parts[i][..CopySize(layout[i], parts[i])]
  }

  lemma OnePart(layout: seq<nat>, parts: seq<seq<byte>>)
    requires |layout| == 1 && Readable(layout, parts)
    ensures Packed(layout, parts) == Part(layout, parts, 0)
  {
    assert Packed(layout[..0], parts) == [];
  }

  lemma TwoParts(layout: seq<nat>, parts: seq<seq<byte>>)
    requires |layout| == 2 && Readable(layout, parts)
    ensures Packed(layout, parts) == Part(layout, parts, 0) + Part(layout, parts, 1)
  {
    OnePart(layout[..1], parts);
  }

  lemma ThreeParts(layout: seq<nat>, parts: seq<seq<byte>>)
    requires |layout| == 3 && Readable(layout, parts)
    ensures Packed(layout, parts) == Part(layout, parts, 0) + Part(layout, parts, 1) + Part(layout, parts, 2)
  {
    TwoParts(layout[..2], parts);
  }

  lemma StringPayload(layout: seq<nat>, s: CString)
    requires layout == [STRING]
    ensures Readable(layout, [s + [0]]) && Packed(layout, [s + [0]]) == s + [0]
  {
    StringPart(s);
    OnePart(layout, [s + [0]]);
  }

  lemma StringWordPayload(layout: seq<nat>, s: CString, word: seq<byte>)
    requires layout == [STRING, SIZE_T] && |word| == 8
    ensures Readable(layout, [s + [0], word]) && Packed(layout, [s + [0], word]) == s + [0] + word
  {
    StringPart(s);
    TwoParts(layout, [s + [0], word]);
    assert word[..8] == word;
  }

  lemma StringWordStringPayload(layout: seq<nat>, s: CString, word: seq<byte>, t: CString)
    requires layout == [STRING, SIZE_T, STRING] && |word| == 8
    ensures Readable(layout, [s + [0], word, t + [0]])
    ensures Packed(layout, [s + [0], word, t + [0]]) == s + [0] + word + (t + [0])
  {
    StringPart(s);
    StringPart(t);
    ThreeParts(layout, [s + [0], word, t + [0]]);
    assert word[..8] == word;
  }

  lemma WordsPayload(layout: seq<nat>, parts: seq<seq<byte>>)
    requires 2 <= |layout| == |parts| <= 3
    requires forall i | 0 <= i < |layout| :: 0 < layout[i] == |parts[i]|
    ensures Readable(layout, parts)
    ensures Packed(layout, parts) == if |parts| == 2 then parts[0] + parts[1] else parts[0] + parts[1] + parts[2]
  {
    assert forall i | 0 <= i < |layout| :: parts[i][..layout[i]] == parts[i];
    if |layout| == 2 {
      TwoParts(layout, parts);
    } else {
      ThreeParts(layout, parts);
    }
  }

  // The payload is the fields in order, and as long as PayloadSize says.
  lemma PayloadLength(m: Msg)
    ensures Readable(Layout(OperationOf(m)), PartsOf(m))
    ensures |PayloadOf(m)| == PayloadSize(m)
    ensures PayloadOf(m) ==
            (var p := PartsOf(m);
             if |p| == 3 then p[0] + p[1] + p[2] else if |p| == 2 then p[0] + p[1] else if |p| == 1 then p[0] else [])
  {
    hide Readable, Packed, CopySize;
    var layout := Layout(OperationOf(m));
    match m
    case SetEager(k, size, v) => StringWordStringPayload(layout, k, Stored(8, size), v);
    case SetRendezvous(k, size) => StringWordPayload(layout, k, Stored(8, size));
    case SetGrant(_, _) => WordsPayload(layout, PartsOf(m));
    case GetKey(k) => StringPayload(layout, k);
    case GetEager(v) => StringPayload(layout, v);
    case GetGrant(_, _, _) => WordsPayload(layout, PartsOf(m));
    case GetFin(k) => StringPayload(layout, k);
    case SetFin(k) => StringPayload(layout, k);
    case _ => EmptyPayload();
  }

  // ----- the payload byte by byte --------------------------------------------------------

  // A grant carries its address and remote key most significant byte first; the
  // size in front of those of a read is as the machine stores it.
  lemma GrantBytes(size: nat, va: nat, rkey: nat)
    ensures Readable(Layout(OperationOf(SetGrant(va, rkey))), PartsOf(SetGrant(va, rkey)))
    ensures Readable(Layout(OperationOf(GetGrant(size, va, rkey))), PartsOf(GetGrant(size, va, rkey)))
    ensures var write, read := PayloadOf(SetGrant(va, rkey)), PayloadOf(GetGrant(size, va, rkey));
            && |write| == 12 && |read| == 20
            && (forall i | 0 <= i < 8 :: read[i] == size / Pow256(i) % 256)
            && (forall i | 0 <= i < 8 :: write[i] == read[8..][i] == va / Pow256(7 - i) % 256)
            && (forall i | 0 <= i < 4 :: write[8..][i] == read[16..][i] == rkey / Pow256(3 - i) % 256)
  {
    PayloadLength(SetGrant(va, rkey));
    PayloadLength(GetGrant(size, va, rkey));
    hide Stored, Swapped, Pow256, Packed, Readable, Layout;
    var z, a, b := Stored(8, size), Stored(8, Swapped(8, va)), Stored(4, Swapped(4, rkey));
    var write, read := PayloadOf(SetGrant(va, rkey)), PayloadOf(GetGrant(size, va, rkey));
    assert write == a + b && read == z + a + b;
    assert read[8..] == a + b && read[16..] == write[8..] == b;
    forall i | 0 <= i < 8
      ensures z[i] == size / Pow256(i) % 256 && a[i] == va / Pow256(7 - i) % 256
    {
      StoredAt(8, size, i);
      SwappedAt(8, va, i);
    }
    forall i | 0 <= i < 4
      ensures b[i] == rkey / Pow256(3 - i) % 256
    {
      SwappedAt(4, rkey, i);
    }
  }

  // Where the decoder finds the fields of a received message of each kind.
  lemma FieldsFound(m: Msg, rest: seq<byte>)
    ensures Readable(Layout(OperationOf(m)), PartsOf(m))
    ensures var at := Offsets(Layout(OperationOf(m)), PayloadOf(m) + rest, 0);
            && (m.SetEager? ==> at == [0, |m.key| + 1, |m.key| + 9])
            && (m.SetRendezvous? ==> at == [0, |m.key| + 1])
            && (m.SetGrant? ==> at == [0, 8])
            && (m.GetGrant? ==> at == [0, 8, 16])
            && (m.GetKey? || m.GetFin? || m.SetFin? || m.GetEager? ==> at == [0])
  {
    PayloadLength(m);
    hide Packed, Readable, Offsets;
    var layout, bytes := Layout(OperationOf(m)), PayloadOf(m) + rest;
    if m.SetEager? || m.SetRendezvous? {
      var behind := bytes[|m.key| + 1..];
      assert bytes == [] + (m.key + [0]) + behind;
      StringFound(bytes, [], m.key, behind);
    }
    if |layout| == 3 {
      ThreeOffsets(layout, bytes);
    } else if |layout| == 2 {
      TwoOffsets(layout, bytes);
    } else if |layout| == 1 {
      OneOffset(layout, bytes);
    }
  }

  // The request for a set: the key and its terminator, the size least significant
  // byte first, and if it is eager the value and its terminator.
  lemma SetBytes(key: CString, size: nat, value: CString)
    ensures Readable(Layout(OperationOf(SetEager(key, size, value))), PartsOf(SetEager(key, size, value)))
    ensures Readable(Layout(OperationOf(SetRendezvous(key, size))), PartsOf(SetRendezvous(key, size)))
    ensures var eager, long := PayloadOf(SetEager(key, size, value)), PayloadOf(SetRendezvous(key, size));
            && |long| == |key| + 9 && |eager| == |key| + |value| + 10
            && eager[..|key|] == long[..|key|] == key && eager[|key|] == long[|key|] == 0
            && (forall i | 0 <= i < 8 :: eager[|key| + 1 + i] == long[|key| + 1 + i] == size / Pow256(i) % 256)
            && eager[|key| + 9..|key| + 9 + |value|] == value && eager[|key| + 9 + |value|] == 0
  {
    PayloadLength(SetEager(key, size, value));
    PayloadLength(SetRendezvous(key, size));
    hide Stored, Pow256, Packed, Readable, Layout;
    var z := Stored(8, size);
    var eager, long := PayloadOf(SetEager(key, size, value)), PayloadOf(SetRendezvous(key, size));
    assert eager == key + [0] + z + (value + [0]) && long == key + [0] + z;
    forall i | 0 <= i < 8
      ensures eager[|key| + 1 + i] == long[|key| + 1 + i] == size / Pow256(i) % 256
    {
      StoredAt(8, size, i);
    }
  }

  // All other messages are a terminated string or nothing.
  lemma OtherBytes(m: Msg)
    requires !m.SetEager? && !m.SetRendezvous? && !m.SetGrant? && !m.GetGrant?
    ensures Readable(Layout(OperationOf(m)), PartsOf(m))
    ensures m.GetKey? || m.GetFin? || m.SetFin? ==> PayloadOf(m) == m.key + [0]
    ensures m.GetEager? ==> PayloadOf(m) == m.value + [0]
    ensures !(m.GetKey? || m.GetFin? || m.SetFin? || m.GetEager?) ==> PayloadOf(m) == []
  {
    PayloadLength(m);
    hide Packed, Readable, Layout;
  }

  lemma EmptyPayload()
    ensures Readable([], []) && Packed([], []) == []
  {
  }

  // ----- round trip ---------------------------------------------------------------------------

  // A string and a word found where they were put.
  lemma StringFound(bytes: seq<byte>, before: seq<byte>, s: CString, rest: seq<byte>)
    requires bytes == before + (s + [0]) + rest
    ensures StringAt(bytes, |before|) == s
    ensures CopySize(STRING, Tail(bytes, |before|)) == |s| + 1
  {
    assert bytes[|before|..] == s + [0] + rest;
    CStrTerminated(s, rest);
  }

  lemma WordFound(bytes: seq<byte>, before: seq<byte>, n: nat, x: nat, rest: seq<byte>)
    requires bytes == before + Stored(n, x) + rest && x < Pow256(n)
    ensures WordAt(bytes, |before|, n) == x
  {
    assert bytes[|before|..|before| + n] == Stored(n, x);
    LoadStored(n, x);
  }

  // Where the decoder's pointers go, by number of fields.
  lemma OneOffset(layout: seq<nat>, bytes: seq<byte>)
    requires |layout| == 1
    ensures Offsets(layout, bytes, 0) == [0]
  {
    assert Offsets(layout[1..], bytes, CopySize(layout[0], Tail(bytes, 0))) == [];
  }

  lemma TwoOffsets(layout: seq<nat>, bytes: seq<byte>)
    requires |layout| == 2
    ensures Offsets(layout, bytes, 0) == [0, CopySize(layout[0], Tail(bytes, 0))]
  {
    var at := CopySize(layout[0], Tail(bytes, 0));
    assert Offsets(layout[1..], bytes, at)
        == [at] + Offsets(layout[1..][1..], bytes, at + CopySize(layout[1], Tail(bytes, at)));
  }

  lemma ThreeOffsets(layout: seq<nat>, bytes: seq<byte>)
    requires |layout| == 3
    ensures var at := CopySize(layout[0], Tail(bytes, 0));
            Offsets(layout, bytes, 0) == [0, at, at + CopySize(layout[1], Tail(bytes, at))]
  {
    var at := CopySize(layout[0], Tail(bytes, 0));
    var at2 := at + CopySize(layout[1], Tail(bytes, at));
    assert layout[1..][0] == layout[1];
    assert Offsets(layout[1..], bytes, at) == [at] + Offsets(layout[1..][1..], bytes, at2);
    assert Offsets(layout[1..][1..], bytes, at2)
        == [at2] + Offsets(layout[1..][1..][1..], bytes, at2 + CopySize(layout[1..][1..][0], Tail(bytes, at2)));
  }

  lemma StringTrip(op: Operation, s: CString, rest: seq<byte>)
    requires Layout(op) == [STRING]
    ensures StringAt((s + [0]) + rest, Offsets(Layout(op), (s + [0]) + rest, 0)[0]) == s
  {
    var bytes := (s + [0]) + rest;
    OneOffset(Layout(op), bytes);
    StringFound(bytes, [], s, rest);
  }

  lemma SetEagerTrip(k: CString, size: nat, v: CString, rest: seq<byte>)
    requires size < TWO_TO_64
    ensures MessageIn(CLIENT_KV_SET_EAGER, (k + [0]) + Stored(8, size) + (v + [0]) + rest) == SetEager(k, size, v)
  {
    var bytes := (k + [0]) + Stored(8, size) + (v + [0]) + rest;
    WordSizes();
    ThreeOffsets(Layout(CLIENT_KV_SET_EAGER), bytes);
    assert bytes == [] + (k + [0]) + (Stored(8, size) + (v + [0]) + rest);
    StringFound(bytes, [], k, Stored(8, size) + (v + [0]) + rest);
    assert bytes == (k + [0]) + Stored(8, size) + ((v + [0]) + rest);
    WordFound(bytes, k + [0], 8, size, (v + [0]) + rest);
    StringFound(bytes, (k + [0]) + Stored(8, size), v, rest);
  }

  lemma SetRendezvousTrip(k: CString, size: nat, rest: seq<byte>)
    requires size < TWO_TO_64
    ensures MessageIn(CLIENT_KV_SET_RENDEZVOUS, (k + [0]) + Stored(8, size) + rest) == SetRendezvous(k, size)
  {
    var bytes := (k + [0]) + Stored(8, size) + rest;
    WordSizes();
    TwoOffsets(Layout(CLIENT_KV_SET_RENDEZVOUS), bytes);
    assert bytes == [] + (k + [0]) + (Stored(8, size) + rest);
    StringFound(bytes, [], k, Stored(8, size) + rest);
    WordFound(bytes, k + [0], 8, size, rest);
  }

  lemma SetGrantTrip(va: nat, rkey: nat, rest: seq<byte>)
    requires va < TWO_TO_64 && rkey < TWO_TO_32
    ensures MessageIn(SERVER_KV_SET_RENDEZVOUS, Stored(8, Swapped(8, va)) + Stored(4, Swapped(4, rkey)) + rest)
         == SetGrant(va, rkey)
  {
    var a, b := Stored(8, Swapped(8, va)), Stored(4, Swapped(4, rkey));
    var bytes := a + b + rest;
    WordSizes();
    hide Stored, Loaded, Swapped, CStr, Pow256;
    TwoOffsets(Layout(SERVER_KV_SET_RENDEZVOUS), bytes);
    assert bytes == [] + a + (b + rest);
    WordFound(bytes, [], 8, Swapped(8, va), b + rest);
    WordFound(bytes, a, 4, Swapped(4, rkey), rest);
    SwapTwice(8, va);
    SwapTwice(4, rkey);
  }

  lemma GetGrantTrip(size: nat, va: nat, rkey: nat, rest: seq<byte>)
    requires size < TWO_TO_64 && va < TWO_TO_64 && rkey < TWO_TO_32
    ensures MessageIn(SERVER_KV_GET_RENDEZVOUS,
                      Stored(8, size) + Stored(8, Swapped(8, va)) + Stored(4, Swapped(4, rkey)) + rest)
         == GetGrant(size, va, rkey)
  {
    hide Stored, Loaded, Swapped, Pow256, WordAt, CStr;
    var z, a, b := Stored(8, size), Stored(8, Swapped(8, va)), Stored(4, Swapped(4, rkey));
    var bytes := z + a + b + rest;
    WordSizes();
    ThreeOffsets(Layout(SERVER_KV_GET_RENDEZVOUS), bytes);
    ThreeSlices(bytes, z, a, b, rest);
    WordIs(bytes, 0, 8, size);
    WordIs(bytes, 8, 8, Swapped(8, va));
    WordIs(bytes, 16, 4, Swapped(4, rkey));
    SwapTwice(8, va);
    SwapTwice(4, rkey);
  }

  lemma ThreeSlices(bytes: seq<byte>, x: seq<byte>, y: seq<byte>, z: seq<byte>, rest: seq<byte>)
    requires bytes == x + y + z + rest
    ensures |bytes| >= |x| + |y| + |z|
    ensures bytes[0..|x|] == x && bytes[|x|..|x| + |y|] == y && bytes[|x| + |y|..|x| + |y| + |z|] == z
  {
  }

  lemma WordIs(bytes: seq<byte>, at: nat, n: nat, x: nat)
    requires at + n <= |bytes| && bytes[at..at + n] == Stored(n, x) && x < Pow256(n)
    ensures WordAt(bytes, at, n) == x
  {
    LoadStored(n, x);
  }

  // Whatever the buffer held before, every message that fits comes out as it
  // went in; the stale bytes behind it do not matter.
  lemma RoundTrip(m: Msg, stale: seq<byte>)
    requires Fits(m) && |stale| == BUFFER_SIZE
    ensures Readable(Layout(OperationOf(m)), PartsOf(m)) && |PayloadOf(m)| <= BUFFER_SIZE
    ensures MessageIn(OperationOf(m), PayloadOf(m) + stale[|PayloadOf(m)|..]) == m
  {
    PayloadLength(m);
    var rest := stale[|PayloadOf(m)|..];
    match m {
      case SetEager(k, size, v) => SetEagerTrip(k, size, v, rest);
      case SetRendezvous(k, size) => SetRendezvousTrip(k, size, rest);
      case SetGrant(va, rkey) => SetGrantTrip(va, rkey, rest);
      case GetKey(k) => StringTrip(CLIENT_KV_GET, k, rest);
      case GetEager(v) => StringTrip(SERVER_KV_GET_EAGER, v, rest);
      case GetGrant(size, va, rkey) => GetGrantTrip(size, va, rkey, rest);
      case GetFin(k) => StringTrip(CLIENT_KV_GET_RENDEZVOUS_FIN, k, rest);
      case SetFin(k) => StringTrip(CLIENT_KV_SET_RENDEZVOUS_FIN, k, rest);
      case _ =>
    }
  }

  // ----- the eager guard ------------------------------------------------------------------------

  // The guard of kv_set does not count the size field. It lets through exactly
  // eight lengths whose message overruns the buffer; below them it is sound.
  lemma EagerGuardGap(key: CString, value: CString)
    ensures EagerGuard(key, value) && PayloadSize(SetRequest(key, value)) > BUFFER_SIZE
            <==> 4087 <= |key| + |value| <= 4094
    ensures EagerGuard(key, value) ==>
              (Fits(SetRequest(key, value)) <==> |key| + |value| + 1 + SIZE_T + 1 <= BUFFER_SIZE)
  {
  }

  // The gap is not empty: a pair the guard accepts and the buffer cannot hold.
  lemma EagerGuardGapWitness()
    ensures exists k: CString, v: CString :: EagerGuard(k, v) && PayloadSize(SetRequest(k, v)) > BUFFER_SIZE
  {
    var v: CString := seq(4087, _ => 1);
    assert EagerGuard([], v) && PayloadSize(SetRequest([], v)) > BUFFER_SIZE;
  }
}
