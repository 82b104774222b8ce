// The server program: handlers that work on the database, the heap and the
// registrations in place, and the loop that serves the clients in turn.
module KvServer {
  import opened Messages
  import opened ServerStore
  import opened KeyValueArray

  datatype Sent = Sent(client: nat, msg: Msg)

  // A message taken from a client, with what the allocator would hand out
  // while it is being handled.
  datatype Arrival = Arrival(msg: Msg, supply: Fresh)

  // What happens at the server: it looks at the next client, with or without
  // finding a message, or a client's one-sided write changes a block.
  datatype Happening = Visit(arrival: Option<Arrival>) | Written(addr: nat, block: seq<byte>)

  // ----- the loop, on values --------------------------------------------------------

  datatype Served = Served(store: Store, posted: seq<Sent>, shutdowns: nat, at: nat, stopped: bool)

  function Recorded(st: Store, pending: Option<Pending>): Store {
    match pending
    case None => st
    case Some(p) => st.(db := st.db[p.key := p.entry])
  }

  function NextClient(at: nat, n: nat): nat {
    if at + 1 == n then 0 else at + 1
  }

  // The allocator's answers are new, and the handler does not fault.
  predicate Manageable(st: Store, i: nat, arrival: Option<Arrival>) {
    arrival.Some? && !arrival.value.msg.ShutDown? ==>
      FreshFor(st, arrival.value.msg, arrival.value.supply)
      && !Respond(st, i, arrival.value.msg, arrival.value.supply).Crash?
  }

  // One visit of the loop to one client.
  function Visited(v: Served, n: nat, arrival: Option<Arrival>): Served {
    if v.stopped then v
    else
      var v' := v.(at := NextClient(v.at, n));
      match arrival
      case None => v'
      case Some(a) =>
        if a.msg.ShutDown? then v'.(shutdowns := v.shutdowns + 1, stopped := v.shutdowns + 1 == n)
        else
          match Respond(v.store, v.at, a.msg, a.supply)
          case React(st, reply, pending) =>
            v'.(store := Recorded(st, pending), posted := v.posted + [Sent(v.at, reply)])
          case _ => v'
  }

  function Happened(v: Served, n: nat, h: Happening): Served {
    match h
    case Visit(arrival) => Visited(v, n, arrival)
    case Written(addr, block) =>
      if v.stopped then v else v.(store := v.store.(heap := v.store.heap[addr := block]))
  }

  function ServedAll(v: Served, n: nat, hs: seq<Happening>): Served {
    if hs == [] then v else Happened(ServedAll(v, n, hs[..|hs| - 1]), n, hs[|hs| - 1])
  }

  // Every visit before the server returns is manageable where it is made.
  predicate AllManageable(v: Served, n: nat, hs: seq<Happening>) {
    hs == [] ||
    (var before := hs[..|hs| - 1];
     && AllManageable(v, n, before)
     && (hs[|hs| - 1].Visit? && !ServedAll(v, n, before).stopped ==>
           Manageable(ServedAll(v, n, before).store, ServedAll(v, n, before).at, hs[|hs| - 1].arrival)))
  }

  lemma {:induction false} ManageableSoFar(v: Served, n: nat, hs: seq<Happening>, t: nat)
    requires t <= |hs| && AllManageable(v, n, hs)
    ensures AllManageable(v, n, hs[..t])
    decreases |hs|
  {
    if t == |hs| {
      assert hs[..t] == hs;
    } else {
      ManageableSoFar(v, n, hs[..|hs| - 1], t);
      assert hs[..|hs| - 1][..t] == hs[..t];
    }
  }

  // Once the server has returned, later happenings change nothing.
  lemma {:induction false} StoppedForGood(v: Served, n: nat, hs: seq<Happening>, t: nat)
    requires t <= |hs| && ServedAll(v, n, hs[..t]).stopped
    ensures ServedAll(v, n, hs) == ServedAll(v, n, hs[..t])
    decreases |hs|
  {
    if t == |hs| {
      assert hs[..t] == hs;
    } else {
      var front := hs[..|hs| - 1];
      assert front[..t] == hs[..t];
      StoppedForGood(v, n, front, t);
    }
  }

  // The server returns with exactly n shutdown messages taken, not before.
  lemma {:induction false} StopsAtTheLastShutdown(v: Served, n: nat, hs: seq<Happening>)
    requires v.shutdowns < n && !v.stopped
    ensures var v' := ServedAll(v, n, hs);
            v'.shutdowns <= n && (v'.stopped <==> v'.shutdowns == n)
  {
    if hs != [] {
      StopsAtTheLastShutdown(v, n, hs[..|hs| - 1]);
    }
  }

  // ----- the program ------------------------------------------------------------------

  class Server {
    const database: KeyValueAddressArray
    const numRemoteHost: nat
    var regions: map<nat, Region>
    var heap: map<nat, seq<byte>>
    var posted: seq<Sent>
    var numShutDown: nat

    ghost predicate Valid()
      reads this, database, database.head
    {
      database.Valid()
    }

    ghost function StoreNow(): Store
      reads this, database, database.head
      requires Valid()
    {
      Store(Table(database.Slots()), regions, heap)
    }

    constructor (n: nat)
      ensures Valid() && fresh(database) && fresh(database.head)
      ensures StoreNow() == Store(map[], map[], map[]) && posted == [] && numShutDown == 0 && numRemoteHost == n
      ensures database.usedLength == 0 && database.totalLength == 20
    {
      database := new KeyValueAddressArray(20);
      numRemoteHost := n;
      regions, heap, posted, numShutDown := map[], map[], [], 0;
    }

    // set_control_message and pp_post_send
    method PostReply(i: nat, reply: Msg)
      modifies this`posted
      ensures posted == old(posted) + [Sent(i, reply)]
    {
      posted := posted + [Sent(i, reply)];
    }

    method HandleEagerSet(i: nat, m: Msg, f: Fresh)
      requires Valid() && m.SetEager? && FreshFor(StoreNow(), m, f) && !OnSetEager(StoreNow(), m, f).Crash?
      modifies this`posted, this`heap, database, database.head
      ensures Valid() && (database.head == old(database.head) || fresh(database.head))
      ensures var r := OnSetEager(old(StoreNow()), m, f);
              r == React(StoreNow(), r.reply, None) && posted == old(posted) + [Sent(i, r.reply)]
    {
      var pair := database.GetPair(m.key);
      if pair.Some? {
        if database.head[pair.value].entry.mr.Some? {
          PostReply(i, InProgress);
          return;
        }
      }
      StoreValue(m, f);
      PostReply(i, SetSuccessful);
    }

    // strcpy of the value into a new block, and its entry.
    method StoreValue(m: Msg, f: Fresh)
      requires Valid() && m.SetEager? && |m.value| + 1 <= |f.junk|
      modifies this`heap, database, database.head
      ensures Valid() && (database.head == old(database.head) || fresh(database.head))
      ensures StoreNow() == old(StoreNow()).(db := old(StoreNow()).db[m.key := Entry(f.addr, m.size, None)],
                                            heap := old(heap)[f.addr := m.value + [0] + f.junk[|m.value| + 1..]])
    {
      heap := heap[f.addr := m.value + [0] + f.junk[|m.value| + 1..]];
      database.InsertEntry(Slot(m.key, Entry(f.addr, m.size, None)));
    }

    // The part of handle_RENDEZVOUS_KV_SET_KEY up to and including the post.
    method BeginRendezvousSet(i: nat, m: Msg, f: Fresh) returns (pending: Option<Pending>)
      requires Valid() && m.SetRendezvous? && FreshFor(StoreNow(), m, f)
      modifies this`posted, this`heap, this`regions
      ensures Valid()
      ensures var r := OnSetRendezvous(old(StoreNow()), i, m, f);
              r == React(StoreNow(), r.reply, pending) && posted == old(posted) + [Sent(i, r.reply)]
    {
      var pair := database.GetPair(m.key);
      if pair.Some? {
        if database.head[pair.value].entry.mr.Some? {
          PostReply(i, InProgress);
          return None;
        }
      }
      heap := heap[f.addr := f.junk];
      regions := regions[f.rkey := Region(i, f.addr, m.size, RemoteWrite)];
      PostReply(i, SetGrant(f.addr, f.rkey));
      return Some(Pending(m.key, Entry(f.addr, m.size, Some(f.rkey))));
    }

    method HandleRendezvousSet(i: nat, m: Msg, f: Fresh)
      requires Valid() && m.SetRendezvous? && FreshFor(StoreNow(), m, f)
      modifies this`posted, this`heap, this`regions, database, database.head
      ensures Valid() && (database.head == old(database.head) || fresh(database.head))
      ensures var r := OnSetRendezvous(old(StoreNow()), i, m, f);
              StoreNow() == Recorded(r.store, r.pending) && posted == old(posted) + [Sent(i, r.reply)]
    {
      var pending := BeginRendezvousSet(i, m, f);
      if pending.Some? {
        database.InsertEntry(Slot(pending.value.key, pending.value.entry));
      }
    }

    // handle_CLIENT_KV_GET up to and including the post; `slot` is the reference
    // through which a rendezvous is recorded afterwards.
    method BeginGet(i: nat, m: Msg, f: Fresh) returns (slot: Option<nat>, pending: Option<Pending>)
      requires Valid() && m.GetKey? && FreshFor(StoreNow(), m, f) && !OnGet(StoreNow(), i, m, f).Crash?
      modifies this`posted, this`regions
      ensures Valid()
      ensures var r := OnGet(old(StoreNow()), i, m, f);
              r == React(StoreNow(), r.reply, pending) && posted == old(posted) + [Sent(i, r.reply)]
      ensures pending.Some? ==>
                && slot.Some? && slot.value < database.usedLength && pending.value.key == m.key
                && database.head[slot.value].key == m.key && pending.value.entry.mr.Some?
                && pending.value.entry == database.head[slot.value].entry.(mr := pending.value.entry.mr)
    {
      slot := database.GetPair(m.key);
      pending := None;
      if slot.None? {
        PostReply(i, KeyNotFound);
        return;
      }
      var entry := database.head[slot.value].entry;
      if entry.mr.Some? {
        PostReply(i, InProgress);
      } else if entry.size < BUFFER_SIZE {
        PostReply(i, GetEager(CStr(heap[entry.addr])));
      } else {
        regions := regions[f.rkey := Region(i, entry.addr, entry.size, RemoteRead)];
        PostReply(i, GetGrant(entry.size, entry.addr, f.rkey));
        pending := Some(Pending(m.key, entry.(mr := Some(f.rkey))));
      }
    }

    method HandleGet(i: nat, m: Msg, f: Fresh)
      requires Valid() && m.GetKey? && FreshFor(StoreNow(), m, f) && !OnGet(StoreNow(), i, m, f).Crash?
      modifies this`posted, this`regions, database.head
      ensures Valid()
      ensures var r := OnGet(old(StoreNow()), i, m, f);
              r.React? && StoreNow() == Recorded(r.store, r.pending) && posted == old(posted) + [Sent(i, r.reply)]
    {
      var slot, pending := BeginGet(i, m, f);
      if pending.Some? {
        database.SetRegistration(slot.value, pending.value.entry.mr);
      }
    }

    // deregister_rdma_mr followed by the acknowledgement; trusts that the key exists.
    method HandleFin(i: nat, key: CString, reply: Msg)
      requires Valid() && !OnFin(StoreNow(), key, reply).Crash?
      modifies this`posted, this`regions, database.head
      ensures Valid()
      ensures OnFin(old(StoreNow()), key, reply) == React(StoreNow(), reply, None)
      ensures posted == old(posted) + [Sent(i, reply)]
    {
      var pair := database.GetPair(key);
      var mr := database.head[pair.value].entry.mr;
      if mr.Some? && mr.value in regions {
        regions := regions - {mr.value};
        database.SetRegistration(pair.value, None);
      }
      PostReply(i, reply);
    }

    // What the loop has done so far.
    ghost function ServedNow(at: nat, stopped: bool): Served
      reads this, database, database.head
      requires Valid()
    {
      Served(StoreNow(), posted, numShutDown, at, stopped)
    }

    // The dispatch on one polled message.
    method Dispatch(i: nat, a: Arrival) returns (stop: bool)
      requires Valid() && Manageable(StoreNow(), i, Some(a))
      modifies this, database, database.head
      ensures Valid() && (database.head == old(database.head) || fresh(database.head))
      ensures ServedNow(NextClient(i, numRemoteHost), stop) ==
              Visited(old(ServedNow(i, false)), numRemoteHost, Some(a))
    {
      stop := false;
      match a.msg {
        case ShutDown =>
          numShutDown := numShutDown + 1;
          stop := numShutDown == numRemoteHost;
        case SetEager(_, _, _) => HandleEagerSet(i, a.msg, a.supply);
        case SetRendezvous(_, _) => HandleRendezvousSet(i, a.msg, a.supply);
        case GetFin(k) => HandleFin(i, k, GetSuccessful);
        case GetKey(_) => HandleGet(i, a.msg, a.supply);
        case SetFin(k) => HandleFin(i, k, SetSuccessful);
        case _ =>
      }
    }

    // A client's adapter writes into the server's memory.
    method ReceiveWrite(addr: nat, block: seq<byte>)
      requires Valid()
      modifies this`heap
      ensures Valid() && heap == old(heap)[addr := block]
    {
      heap := heap[addr := block];
    }

    // The main loop over what successive polls of the clients, in turn, bring,
    // with the clients' one-sided writes in between. It returns early exactly
    // when the last shutdown message is taken.
    method Run(happenings: seq<Happening>) returns (stopped: bool, at: nat)
      requires Valid() && numRemoteHost > 0 && numShutDown < numRemoteHost
      requires AllManageable(ServedNow(0, false), numRemoteHost, happenings)
      modifies this, database, database.head
      ensures Valid()
      ensures ServedNow(at, stopped) == ServedAll(old(ServedNow(0, false)), numRemoteHost, happenings)
      ensures numShutDown <= numRemoteHost && (stopped <==> numShutDown == numRemoteHost)
    {
      ghost var v0 := ServedNow(0, false);
      at, stopped := 0, false;
      StopsAtTheLastShutdown(v0, numRemoteHost, happenings);
      for t := 0 to |happenings|
        invariant Valid() && (database.head == old(database.head) || fresh(database.head))
        invariant !stopped && ServedNow(at, stopped) == ServedAll(v0, numRemoteHost, happenings[..t])
      {
        ManageableSoFar(v0, numRemoteHost, happenings, t + 1);
        assert happenings[..t + 1][..t] == happenings[..t];
        match happenings[t] {
          case Written(addr, block) => ReceiveWrite(addr, block);
          case Visit(arrival) =>
            var i := at;
            at := NextClient(at, numRemoteHost);
            if arrival.Some? {
              stopped := Dispatch(i, arrival.value);
              if stopped {
                StoppedForGood(v0, numRemoteHost, happenings, t + 1);
                return;
              }
            }
        }
      }
      assert happenings[..|happenings|] == happenings;
    }
  }
}
