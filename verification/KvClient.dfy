// The client program: kv_set, kv_get and shut_down_server as sequential code
// over a connection, against the phases of the protocol.
module KvClient {
  import opened Messages
  import opened History
  import opened Protocol

  // What a client asks of its connection.
  datatype Action =
    | Send(msg: Msg)
    | WriteRemote(va: nat, rkey: nat, bytes: seq<byte>)
    | ReadRemote(va: nat, rkey: nat, size: nat)

  // What of a block a one-sided write transfers.
  function Moved(block: seq<byte>): seq<byte> {
    block[..TransferLength(|block|)]
  }

  // The codes kv_get returns: 0 with a value, 1 otherwise.
  function GetCode(answer: Option<Answer>): int {
    if answer.Some? && answer.value.Found? then 0 else 1
  }

  datatype Outcome = Outcome(answer: Option<Answer>, actions: seq<Action>, replies: nat)

  // What a client in phase p does on the replies it gets, and how its call
  // ends. `block` is what a one-sided read would bring.
  function Play(p: Phase, replies: seq<Msg>, block: seq<byte>): Outcome
    requires Waiting(p)
    decreases |replies|
  {
    if replies == [] then Outcome(None, [], 0)
    else
      var (p', answer) := Received(p, replies[0], block);
      match p'
      case SetWriting(id, k, v, va, rkey, _) =>
        var rest := Play(SetFinWait(id, k, v), replies[1..], block);
        Outcome(rest.answer, [WriteRemote(va, rkey, Moved(v + [0])), Send(SetFin(k))] + rest.actions, 1 + rest.replies)
      case GetReading(id, k, va, rkey, local, _) =>
        var rest := Play(GetFinWait(id, k, local), replies[1..], block);
        Outcome(rest.answer, [ReadRemote(va, rkey, TransferLength(|local|)), Send(GetFin(k))] + rest.actions,
                1 + rest.replies)
      case _ => Outcome(answer, [], 1)
  }

  // A whole call: its request, then whatever the replies lead to.
  function Call(op: Op, replies: seq<Msg>, block: seq<byte>): Outcome {
    var (p, m) := Started(op, 0);
    var rest := Play(p, replies, block);
    rest.(actions := [Send(m)] + rest.actions)
  }

  // The codes kv_set returns: 0 done, 2 busy, 1 anything else.
  function SetCode(answer: Option<Answer>): int {
    if answer == Some(Stored) then 0 else if answer == Some(Busy) then 2 else 1
  }

  // One connection, with the fields through which one-sided transfers are posted.
  class Connection {
    var actions: seq<Action>
    var received: nat
    var local: seq<byte>
    var mrRdmaSize: nat
    var remoteBufVa: nat
    var remoteBufRkey: nat

    constructor ()
      ensures actions == [] && received == 0
    {
      actions, received, local := [], 0, [];
      mrRdmaSize, remoteBufVa, remoteBufRkey := 0, 0, 0;
    }

    // pp_post_send, waited for
    method PostSend(m: Msg)
      modifies this`actions
      ensures actions == old(actions) + [Send(m)]
    {
      actions := actions + [Send(m)];
    }

    // pp_post_rdma with IBV_WR_RDMA_WRITE, waited for
    method PostWrite()
      requires mrRdmaSize <= |local|
      modifies this`actions
      ensures actions == old(actions) + [WriteRemote(remoteBufVa, remoteBufRkey, Moved(local[..mrRdmaSize]))]
    {
      var length := TransferLength(mrRdmaSize);
      actions := actions + [WriteRemote(remoteBufVa, remoteBufRkey, local[..length])];
      assert local[..mrRdmaSize][..length] == local[..length];
    }

    // pp_post_rdma with IBV_WR_RDMA_READ, waited for. `block` is what the local
    // block then holds; the adapter fills as much of it as is transferred.
    method PostRead(block: seq<byte>)
      requires |block| == mrRdmaSize
      modifies this`actions, this`local
      ensures actions == old(actions) + [ReadRemote(remoteBufVa, remoteBufRkey, TransferLength(mrRdmaSize))]
      ensures local == block
    {
      actions := actions + [ReadRemote(remoteBufVa, remoteBufRkey, TransferLength(mrRdmaSize))];
      local := block;
    }

    // The blocking receive of the next reply.
    method NextReply(replies: seq<Msg>) returns (m: Msg)
      requires received < |replies|
      modifies this`received
      ensures m == replies[old(received)] && received == old(received) + 1
    {
      m := replies[received];
      received := received + 1;
    }

    // kv_set. The reply to a rendezvous request is decoded without looking at its
    // operation; `stale` is what the decoder finds in one that is no grant.
    method KvSet(key: CString, value: CString, replies: seq<Msg>, stale: (nat, nat)) returns (code: int)
      requires received == 0 && |replies| >= 2
      modifies this
      ensures EagerGuard(key, value) || replies[0].InProgress? || replies[0].SetGrant? ==>
                && actions == old(actions) + Call(Set(key, value), replies, []).actions
                && code == SetCode(Call(Set(key, value), replies, []).answer)
                && received == Call(Set(key, value), replies, []).replies
      ensures !(EagerGuard(key, value) || replies[0].InProgress? || replies[0].SetGrant?) ==>
                && actions == old(actions) + [Send(SetRendezvous(key, |value| + 1)),
                                              WriteRemote(stale.0, stale.1, Moved(value + [0])), Send(SetFin(key))]
                && code == (if replies[1].SetSuccessful? then 0 else 1) && received == 2
      ensures replies[0].InProgress? ==> code == 2 && received == 1
      ensures EagerGuard(key, value) && !replies[0].InProgress? ==>
                received == 1 && code == (if replies[0].SetSuccessful? then 0 else 1)
      ensures !EagerGuard(key, value) && !replies[0].InProgress? ==>
                received == 2 && code == (if replies[1].SetSuccessful? then 0 else 1)
      ensures received == 2 ==> remoteBufVa == 0 && remoteBufRkey == 0 && mrRdmaSize == 0
    {
      hide Moved, TransferLength, Call;
      if |key| + |value| + 2 <= BUFFER_SIZE {
        PostSend(SetEager(key, |value| + 1, value));
        var m := NextReply(replies);
        ShortConversation(key, value, replies);
        return if m.InProgress? then 2 else if m.SetSuccessful? then 0 else 1;
      }
      PostSend(SetRendezvous(key, |value| + 1));
      var m := NextReply(replies);
      if m.InProgress? {
        ShortConversation(key, value, replies);
        return 2;
      }
      local, mrRdmaSize := value + [0], |value| + 1;
      remoteBufVa := if m.SetGrant? then m.va else stale.0;
      remoteBufRkey := if m.SetGrant? then m.rkey else stale.1;
      PostWrite();
      assert local[..mrRdmaSize] == value + [0];
      PostSend(SetFin(key));
      mrRdmaSize, remoteBufVa, remoteBufRkey := 0, 0, 0;
      var m1 := NextReply(replies);
      if m.SetGrant? {
        SetConversation(key, value, replies);
      }
      return if m1.SetSuccessful? then 0 else 1;
    }

    // kv_get; `block` is what the one-sided read brings, if there is one.
    method KvGet(key: CString, replies: seq<Msg>, block: seq<byte>) returns (code: int, value: Option<CString>)
      requires received == 0 && |replies| >= 2
      requires replies[0].GetGrant? ==> |block| == replies[0].size
      modifies this
      ensures actions == old(actions) + Call(Get(key), replies, block).actions
      ensures var answer := Call(Get(key), replies, block).answer;
              && code == GetCode(answer)
              && (code == 0 ==> value == Some(answer.value.value))
      ensures received == Call(Get(key), replies, block).replies
      ensures replies[0].GetEager? ==> code == 0 && value == Some(replies[0].value) && received == 1
      ensures replies[0].GetGrant? ==>
                && received == 2 && code == (if replies[1].GetSuccessful? then 0 else 1)
                && value == Some(CStr(block)) && local == block && mrRdmaSize == 0
      ensures !replies[0].GetEager? && !replies[0].GetGrant? ==> code == 1 && value == None && received == 1
    {
      PostSend(GetKey(key));
      var m := NextReply(replies);
      if m.GetEager? {
        return 0, Some(m.value);
      } else if m.GetGrant? {
        mrRdmaSize, remoteBufVa, remoteBufRkey := m.size, m.va, m.rkey;
        PostRead(block);
        PostSend(GetFin(key));
        mrRdmaSize := 0;
        var m1 := NextReply(replies);
        GetConversation(key, replies, block);
        if m1.GetSuccessful? {
          return 0, Some(CStr(local));
        }
        return 1, Some(CStr(local));
      } else {
        return 1, None;
      }
    }

    // shut_down_server: no reply is awaited.
    method ShutDownServer()
      modifies this`actions
      ensures actions == old(actions) + [Send(ShutDown)]
    {
      PostSend(ShutDown);
    }
  }

  // A set that is eager or turned away ends with its first reply.
  lemma ShortConversation(key: CString, value: CString, replies: seq<Msg>)
    requires |replies| >= 2 && (EagerGuard(key, value) || replies[0].InProgress?)
    ensures var c := Call(Set(key, value), replies, []);
            && c.actions == [Send(SetRequest(key, value))] && c.replies == 1
            && c.answer == (if replies[0].InProgress? then Some(Busy)
                            else if replies[0].SetSuccessful? then Some(Stored) else None)
  {
    var rest := Play(Started(Set(key, value), 0).0, replies, []);
    assert rest.actions == [];
  }

  lemma SetConversation(key: CString, value: CString, replies: seq<Msg>)
    requires |replies| >= 2 && !EagerGuard(key, value) && replies[0].SetGrant?
    ensures var c := Call(Set(key, value), replies, []);
            && c.actions == [Send(SetRendezvous(key, |value| + 1)),
                             WriteRemote(replies[0].va, replies[0].rkey, Moved(value + [0])), Send(SetFin(key))]
            && c.replies == 2 && c.answer == (if replies[1].SetSuccessful? then Some(Stored) else None)
  {
    assert replies[1..][0] == replies[1];
    var rest := Play(SetFinWait(0, key, value), replies[1..], []);
    assert rest.actions == [];
  }

  // A get that is not granted a read ends with its first reply.
  lemma ShortGetConversation(key: CString, replies: seq<Msg>, block: seq<byte>)
    requires replies != [] && !replies[0].GetGrant?
    ensures var c := Call(Get(key), replies, block);
            && c.actions == [Send(GetKey(key))] && c.replies == 1
            && c.answer == Some(if replies[0].GetEager? then Found(replies[0].value)
                                else if replies[0].InProgress? then Busy else Missing)
  {
    var rest := Play(GetWait(0, key), replies, block);
    assert rest.actions == [];
  }

  lemma GetConversation(key: CString, replies: seq<Msg>, block: seq<byte>)
    requires |replies| >= 2 && replies[0].GetGrant? && |block| == replies[0].size
    ensures var c := Call(Get(key), replies, block);
            && c.actions == [Send(GetKey(key)),
                             ReadRemote(replies[0].va, replies[0].rkey, TransferLength(|block|)), Send(GetFin(key))]
            && c.replies == 2 && c.answer == (if replies[1].GetSuccessful? then Some(Found(CStr(block))) else None)
  {
    assert replies[1..][0] == replies[1];
    var rest := Play(GetFinWait(0, key, block), replies[1..], block);
    assert rest.actions == [];
  }

  // Replies behind the one that ends a call do not matter to it.
  lemma {:induction false} PlayEnds(p: Phase, replies: seq<Msg>, more: seq<Msg>, block: seq<byte>)
    requires Waiting(p) && Play(p, replies, block).answer.Some?
    ensures Play(p, replies + more, block) == Play(p, replies, block)
    decreases |replies|
  {
    assert (replies + more)[0] == replies[0] && (replies + more)[1..] == replies[1..] + more;
    var p' := Received(p, replies[0], block).0;
    if p'.SetWriting? {
      PlayEnds(SetFinWait(p'.id, p'.key, p'.value), replies[1..], more, block);
    } else if p'.GetReading? {
      PlayEnds(GetFinWait(p'.id, p'.key, p'.local), replies[1..], more, block);
    }
  }

  lemma CallEnds(op: Op, replies: seq<Msg>, more: seq<Msg>, block: seq<byte>)
    requires Call(op, replies, block).answer.Some?
    ensures Call(op, replies + more, block) == Call(op, replies, block)
  {
    PlayEnds(Started(op, 0).0, replies, more, block);
  }
}
