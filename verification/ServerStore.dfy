// The server's memory and what each handler does to it: the database entries,
// the heap blocks holding the values, and the memory regions registered for
// one-sided access by a client.
module ServerStore {
  import opened Messages

  datatype Access = RemoteWrite | RemoteRead

  // A registration: it belongs to the protection domain of one client's
  // connection and covers one block.
  datatype Region = Region(pd: nat, addr: nat, size: nat, access: Access)

  // A database entry. `mr` is the registration in progress on it, if any, and
  // doubles as the lock of the key.
  datatype Entry = Entry(addr: nat, size: nat, mr: Option<nat>)

  datatype Pending = Pending(key: CString, entry: Entry)

  datatype Store = Store(db: map<CString, Entry>, regions: map<nat, Region>, heap: map<nat, seq<byte>>)

  // What malloc and memory registration hand back: an address, a remote key,
  // and a block with arbitrary contents.
  datatype Fresh = Fresh(addr: nat, rkey: nat, junk: seq<byte>)

  // The outcome of handling one message. `pending` is a database update that
  // the handler performs only after it has posted its reply.
  datatype Reaction =
    | Crash
    | Ignore
    | React(store: Store, reply: Msg, pending: Option<Pending>)

  predicate Locked(st: Store, k: CString) {
    k in st.db && st.db[k].mr.Some?
  }

  // Blocks of m bytes at a and n bytes at b do not overlap.
  predicate Apart(a: nat, m: nat, b: nat, n: nat) {
    a + m <= b || b + n <= a
  }

  predicate FreshFor(st: Store, m: Msg, f: Fresh) {
    && f.addr !in st.heap && f.addr < TWO_TO_64 && f.addr + |f.junk| <= TWO_TO_64
    && (forall a | a in st.heap :: Apart(a, |st.heap[a]|, f.addr, |f.junk|))
    && f.rkey !in st.regions && f.rkey < TWO_TO_32
    && (m.SetEager? || m.SetRendezvous? ==> |f.junk| == m.size)
  }

  function OnSetEager(st: Store, m: Msg, f: Fresh): Reaction
    requires m.SetEager?
  {
    if Locked(st, m.key) then React(st, InProgress, None)
    else if |m.value| + 1 > |f.junk| then Crash  // strcpy past the end of the block
    else
      var block := m.value + [0] + f.junk[|m.value| + 1..];
      React(st.(db := st.db[m.key := Entry(f.addr, m.size, None)], heap := st.heap[f.addr := block]),
            SetSuccessful, None)
  }

  function OnSetRendezvous(st: Store, i: nat, m: Msg, f: Fresh): Reaction
    requires m.SetRendezvous?
  {
    if Locked(st, m.key) then React(st, InProgress, None)
    else
      React(st.(regions := st.regions[f.rkey := Region(i, f.addr, m.size, RemoteWrite)],
                heap := st.heap[f.addr := f.junk]),
            SetGrant(f.addr, f.rkey),
            Some(Pending(m.key, Entry(f.addr, m.size, Some(f.rkey)))))
  }

  function OnGet(st: Store, i: nat, m: Msg, f: Fresh): Reaction
    requires m.GetKey?
  {
    if m.key !in st.db then React(st, KeyNotFound, None)
    else if Locked(st, m.key) then React(st, InProgress, None)
    else
      var entry := st.db[m.key];
      if entry.addr !in st.heap then Crash  // dangling value pointer
      else if entry.size < BUFFER_SIZE then React(st, GetEager(CStr(st.heap[entry.addr])), None)
      else
        React(st.(regions := st.regions[f.rkey := Region(i, entry.addr, entry.size, RemoteRead)]),
              GetGrant(entry.size, entry.addr, f.rkey),
              Some(Pending(m.key, entry.(mr := Some(f.rkey)))))
  }

  // deregister_rdma_mr: the entry is dereferenced without a null test.
  function Unlock(st: Store, k: CString): Option<Store> {
    if k !in st.db then None
    else
      match st.db[k].mr
      case None => Some(st)
      case Some(r) =>
        if r !in st.regions then Some(st)
        else Some(st.(db := st.db[k := st.db[k].(mr := None)], regions := st.regions - {r}))
  }

  function OnFin(st: Store, k: CString, reply: Msg): Reaction {
    match Unlock(st, k)
    case None => Crash
    case Some(st') => React(st', reply, None)
  }

  // The dispatch of the server's main loop on a message from client i.
  function Respond(st: Store, i: nat, m: Msg, f: Fresh): Reaction {
    match m
    case SetEager(_, _, _) => OnSetEager(st, m, f)
    case SetRendezvous(_, _) => OnSetRendezvous(st, i, m, f)
    case GetKey(_) => OnGet(st, i, m, f)
    case SetFin(k) => OnFin(st, k, SetSuccessful)
    case GetFin(k) => OnFin(st, k, GetSuccessful)
    case _ => Ignore
  }
}
