// Keys, values and the control messages exchanged by the key-value clients
// and the server.
module Messages {

  type byte = b: int | 0 <= b < 256

  // The characters of a C string, without the terminator.
  type CString = s: seq<byte> | 0 !in s witness []

  datatype Option<+T> = None | Some(value: T)

  // The payload capacity of one control message.
  const BUFFER_SIZE: nat := 4096

  const TWO_TO_32: nat := 0x1_0000_0000
  const TWO_TO_64: nat := 0x1_0000_0000_0000_0000

  // How much of a block a one-sided transfer moves: the program keeps the length
  // as a size_t, the adapter takes it as 32 bits.
  function TransferLength(size: nat): (length: nat)
    ensures length <= size && (length == size <==> size < TWO_TO_32)
  {
    size % TWO_TO_32
  }

  // A whole number of times 2^32 bytes is lost.
  lemma TransferWraps(size: nat)
    ensures TransferLength(size) < TWO_TO_32 && TransferLength(size + TWO_TO_32) == TransferLength(size)
  {
  }

  // One control message: its operation tag and the fields carried with it.
  // A size is what the peer needs to allocate, so it counts the terminator.
  datatype Msg =
    | ShutDown
    | SetEager(key: CString, size: nat, value: CString)
    | SetRendezvous(key: CString, size: nat)
    | SetGrant(va: nat, rkey: nat)
    | GetKey(key: CString)
    | GetEager(value: CString)
    | GetGrant(size: nat, va: nat, rkey: nat)
    | KeyNotFound
    | InProgress
    | GetFin(key: CString)
    | SetFin(key: CString)
    | SetSuccessful
    | GetSuccessful

  // The C string that starts at the front of a memory block.
  function CStr(memory: seq<byte>): (s: CString)
    ensures |s| <= |memory|
  {
    if memory == [] || memory[0] == 0 then [] else [memory[0]] + CStr(memory[1..])
  }

  // Reading a terminated string back stops exactly at its terminator, whatever
  // bytes follow it.
  lemma {:induction false} CStrTerminated(s: CString, rest: seq<byte>)
    ensures CStr(s + [0] + rest) == s
  {
    var memory := s + [0] + rest;
    if s == [] {
      assert memory[0] == 0;
    } else {
      assert memory[0] == s[0] && s[0] in s;
      assert forall b | b in s[1..] :: b in s;
      CStrTerminated(s[1..], rest);
      assert memory[1..] == s[1..] + [0] + rest;
    }
  }

  lemma CStrOfValue(s: CString)
    ensures CStr(s + [0]) == s
  {
    CStrTerminated(s, []);
    assert s + [0] + [] == s + [0];
  }

  // The bytes a message occupies in the payload buffer.
  function PayloadSize(m: Msg): nat {
    match m
    case SetEager(k, _, v) => |k| + 1 + 8 + |v| + 1
    case SetRendezvous(k, _) => |k| + 1 + 8
    case SetGrant(_, _) => 8 + 4
    case GetKey(k) => |k| + 1
    case GetEager(v) => |v| + 1
    case GetGrant(_, _, _) => 8 + 8 + 4
    case GetFin(k) => |k| + 1
    case SetFin(k) => |k| + 1
    case _ => 0
  }

  // The message can be sent faithfully: it fits the buffer, and every integer
  // field fits its C type.
  predicate Fits(m: Msg) {
    && PayloadSize(m) <= BUFFER_SIZE
    && match m {
      case SetEager(_, size, _) => size < TWO_TO_64
      case SetRendezvous(_, size) => size < TWO_TO_64
      case SetGrant(va, rkey) => va < TWO_TO_64 && rkey < TWO_TO_32
      case GetGrant(size, va, rkey) => size < TWO_TO_64 && va < TWO_TO_64 && rkey < TWO_TO_32
      case _ => true
    }
  }

  // The test by which a client decides that a set goes inside one message.
  predicate EagerGuard(key: CString, value: CString) {
    |key| + |value| + 2 <= BUFFER_SIZE
  }

  // The first message of a set: what the guard selects.
  function SetRequest(key: CString, value: CString): Msg {
    if EagerGuard(key, value) then SetEager(key, |value| + 1, value) else SetRendezvous(key, |value| + 1)
  }
}
