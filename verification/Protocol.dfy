// N clients and one server as a labelled transition system. Each connection is
// a pair of links; a link delivers into a single receive buffer that the next
// message overwrites. One-sided transfers move one byte per step, in any order.
module Protocol {
  import opened Messages
  import opened History
  import opened ServerStore
  import opened Credits

  // One direction of a connection: messages in flight, the receive buffer,
  // completions not yet polled, the receives that the adapter has and no message
  // has used up, and the number of them that the receiver believes in.
  datatype Link = Link(flight: seq<Msg>, buf: Msg, ready: nat, free: int, routs: int)

  function Post(l: Link, m: Msg): Link {
    l.(flight := l.flight + [m])
  }

  // The adapter places the next message, which consumes a posted receive.
  predicate CanLand(l: Link) {
    l.flight != [] && l.free > 0
  }

  function Land(l: Link): Link
    requires l.flight != []
  {
    l.(flight := l.flight[1..], buf := l.flight[0], ready := l.ready + 1, free := l.free - 1)
  }

  // Polling one receive completion, with the refill of the receive queue.
  function Polled(l: Link, rxDepth: nat): Link
    requires l.ready > 0
  {
    l.(ready := l.ready - 1, routs := AfterPoll(l.routs, rxDepth, REFILL_THRESHOLD),
       free := l.free + Refill(l.routs - 1, rxDepth, REFILL_THRESHOLD))
  }

  // Where a client is inside kv_set, kv_get or shut_down_server. `todo` holds
  // the byte offsets that a one-sided transfer has not moved yet.
  datatype Phase =
    | Idle
    | SetEagerWait(id: nat, key: CString, value: CString)
    | SetGrantWait(id: nat, key: CString, value: CString)
    | SetWriting(id: nat, key: CString, value: CString, va: nat, rkey: nat, todo: set<nat>)
    | SetFinWait(id: nat, key: CString, value: CString)
    | GetWait(id: nat, key: CString)
    | GetReading(id: nat, key: CString, va: nat, rkey: nat, local: seq<byte>, todo: set<nat>)
    | GetFinWait(id: nat, key: CString, local: seq<byte>)
    | Closed
    | Broken

  predicate Active(p: Phase) {
    !p.Idle? && !p.Closed? && !p.Broken?
  }

  predicate Waiting(p: Phase) {
    p.SetEagerWait? || p.SetGrantWait? || p.SetFinWait? || p.GetWait? || p.GetFinWait?
  }

  function OpOf(p: Phase): Op
    requires Active(p)
  {
    if p.GetWait? || p.GetReading? || p.GetFinWait? then Get(p.key) else Set(p.key, p.value)
  }

  datatype Client = Client(script: seq<Op>, phase: Phase, up: Link, down: Link)

  datatype Pc =
    | Polling
    | Handling(client: nat)
    | Granting(client: nat, pending: Pending)
    | Stopped
    | Crashed

  // `ext` and `lin` record the history and the order in which calls took effect.
  datatype State = State(
    rxDepth: nat, clients: seq<Client>, at: nat, pc: Pc, store: Store, shutdowns: nat,
    ext: seq<Event>, lin: seq<Commit>)

  // The first message of a call must fit the control message for the call to
  // be sent at all; so must the FIN that a rendezvous sends later. The value
  // must be short enough to be transferred whole.
  predicate OpFits(op: Op) {
    match op
    case Set(k, v) => Fits(SetRequest(k, v)) && TransferLength(|v| + 1) == |v| + 1
    case Get(k) => Fits(GetKey(k))
  }

  // The byte offsets of a block of n bytes.
  function Range(n: nat): (r: set<nat>)
    ensures forall x: nat :: x in r <==> x < n
    ensures |r| == n
  {
    if n == 0 then {} else Range(n - 1) + {n - 1}
  }

  // ----- client actions ------------------------------------------------------

  function Started(op: Op, id: nat): (Phase, Msg) {
    match op
    case Get(k) => (GetWait(id, k), GetKey(k))
    case Set(k, v) =>
      if EagerGuard(k, v) then (SetEagerWait(id, k, v), SetRequest(k, v))
      else (SetGrantWait(id, k, v), SetRequest(k, v))
  }

  // What a client does with a reply: its next phase, and the answer it returns
  // if the call ends here. `junk` is the block malloc hands out for a get.
  function Received(p: Phase, m: Msg, junk: seq<byte>): (Phase, Option<Answer>)
    requires Waiting(p)
  {
    match p
    case SetEagerWait(_, _, _) =>
      if m.InProgress? then (Idle, Some(Busy))
      else if m.SetSuccessful? then (Idle, Some(Stored))
      else (Broken, None)
    case SetGrantWait(id, k, v) =>
      if m.InProgress? then (Idle, Some(Busy))
      else if m.SetGrant? then (SetWriting(id, k, v, m.va, m.rkey, Range(|v| + 1)), None)
      else (Broken, None)
    case SetFinWait(_, _, _) =>
      if m.SetSuccessful? then (Idle, Some(Stored)) else (Broken, None)
    case GetWait(id, k) =>
      if m.GetEager? then (Idle, Some(Found(m.value)))
      else if m.GetGrant? then (GetReading(id, k, m.va, m.rkey, junk, Range(|junk|)), None)
      else if m.InProgress? then (Idle, Some(Busy))
      else (Idle, Some(Missing))
    case GetFinWait(_, _, local) =>
      if m.GetSuccessful? then (Idle, Some(Found(CStr(local)))) else (Broken, None)
  }

  // A one-sided access of `size` bytes at `va` by client i is within a live
  // registration of i that permits it and covers exactly that block.
  predicate ValidAccess(st: Store, i: nat, va: nat, rkey: nat, size: nat, access: Access) {
    && rkey in st.regions && st.regions[rkey] == Region(i, va, size, access)
    && va in st.heap && |st.heap[va]| == size
  }

  // ----- the transition system -----------------------------------------------

  datatype Step =
    | Begin(i: nat)
    | Quit(i: nat)
    | LandUp(i: nat)
    | LandDown(i: nat)
    | Receive(i: nat, junk: seq<byte>)
    | WriteByte(i: nat, x: nat)
    | SendSetFin(i: nat)
    | ReadByte(i: nat, x: nat)
    | SendGetFin(i: nat)
    | Poll
    | Handle(f: Fresh)
    | Finish

  predicate Enabled(s: State, step: Step) {
    match step
    case Begin(i) => i < |s.clients| && s.clients[i].phase.Idle? && s.clients[i].script != []
    case Quit(i) => i < |s.clients| && s.clients[i].phase.Idle? && s.clients[i].script == []
    case LandUp(i) => i < |s.clients| && CanLand(s.clients[i].up)
    case LandDown(i) => i < |s.clients| && CanLand(s.clients[i].down)
    case Receive(i, junk) =>
      && i < |s.clients| && Waiting(s.clients[i].phase) && s.clients[i].down.ready > 0
      && (s.clients[i].down.buf.GetGrant? ==> |junk| == s.clients[i].down.buf.size)
    case WriteByte(i, x) =>
      i < |s.clients| && s.clients[i].phase.SetWriting? && x in s.clients[i].phase.todo
    case SendSetFin(i) =>
      i < |s.clients| && s.clients[i].phase.SetWriting? && s.clients[i].phase.todo == {}
    case ReadByte(i, x) =>
      i < |s.clients| && s.clients[i].phase.GetReading? && x in s.clients[i].phase.todo
    case SendGetFin(i) =>
      i < |s.clients| && s.clients[i].phase.GetReading? && s.clients[i].phase.todo == {}
    case Poll => s.pc.Polling? && s.at < |s.clients|
    case Handle(f) =>
      && s.pc.Handling? && s.pc.client < |s.clients|
      && FreshFor(s.store, s.clients[s.pc.client].up.buf, f)
    case Finish => s.pc.Granting?
  }

  function WithClient(s: State, i: nat, c: Client): State
    requires i < |s.clients|
  {
    s.(clients := s.clients[i := c])
  }

  function ApplyBegin(s: State, i: nat): State
    requires Enabled(s, Begin(i))
  {
    var c := s.clients[i];
    var op := c.script[0];
    var (phase, m) := Started(op, |s.ext|);
    var s' := s.(ext := s.ext + [Invoke(i, op)]);
    if OpFits(op) then
      WithClient(s', i, c.(script := c.script[1..], phase := phase, up := Post(c.up, m)))
    else  // the encoder writes past the send buffer, or the transfer will be cut short
      WithClient(s', i, c.(script := c.script[1..], phase := Broken))
  }

  function ApplyReceive(s: State, i: nat, junk: seq<byte>): State
    requires Enabled(s, Receive(i, junk))
  {
    var c := s.clients[i];
    var (phase, answer) := Received(c.phase, c.down.buf, junk);
    var s' := if answer.Some? then s.(ext := s.ext + [Return(i, c.phase.id, answer.value)]) else s;
    WithClient(s', i, c.(phase := phase, down := Polled(c.down, s.rxDepth)))
  }

  function ApplyWriteByte(s: State, i: nat, x: nat): State
    requires Enabled(s, WriteByte(i, x))
  {
    var c := s.clients[i];
    var p := c.phase;
    var size := |p.value| + 1;
    if x < size && ValidAccess(s.store, i, p.va, p.rkey, size, RemoteWrite) then
      var block := s.store.heap[p.va][x := (p.value + [0])[x]];
      WithClient(s, i, c.(phase := SetWriting(p.id, p.key, p.value, p.va, p.rkey, p.todo - {x})))
      .(store := s.store.(heap := s.store.heap[p.va := block]))
    else
      WithClient(s, i, c.(phase := Broken))
  }

  function ApplyReadByte(s: State, i: nat, x: nat): State
    requires Enabled(s, ReadByte(i, x))
  {
    var c := s.clients[i];
    var p := c.phase;
    if x < |p.local| && ValidAccess(s.store, i, p.va, p.rkey, |p.local|, RemoteRead) then
      var local := p.local[x := s.store.heap[p.va][x]];
      WithClient(s, i, c.(phase := GetReading(p.id, p.key, p.va, p.rkey, local, p.todo - {x})))
    else
      WithClient(s, i, c.(phase := Broken))
  }

  // The calls that take effect when the server posts a reply to a client that
  // is in the given phase.
  function Commits(p: Phase, reply: Msg, heap: map<nat, seq<byte>>): seq<Commit> {
    if !Active(p) then []
    else
      match reply
      case InProgress => [Commit(p.id, OpOf(p), Busy)]
      case SetSuccessful => [Commit(p.id, OpOf(p), Stored)]
      case KeyNotFound => [Commit(p.id, OpOf(p), Missing)]
      case GetEager(v) => [Commit(p.id, OpOf(p), Found(v))]
      case GetGrant(_, va, _) =>
        if va in heap then [Commit(p.id, OpOf(p), Found(CStr(heap[va])))] else []
      case _ => []
  }

  function ApplyPoll(s: State): State
    requires Enabled(s, Poll)
  {
    var c := s.clients[s.at];
    var s' := s.(at := if s.at + 1 == |s.clients| then 0 else s.at + 1);
    if c.up.ready > 0 then
      WithClient(s', s.at, c.(up := Polled(c.up, s.rxDepth))).(pc := Handling(s.at))
    else s'
  }

  function ApplyHandle(s: State, f: Fresh): State
    requires Enabled(s, Handle(f))
  {
    var i := s.pc.client;
    var c := s.clients[i];
    var m := c.up.buf;
    if m.ShutDown? then
      s.(shutdowns := s.shutdowns + 1, pc := if s.shutdowns + 1 == |s.clients| then Stopped else Polling)
    else
      match Respond(s.store, i, m, f)
      case Crash => s.(pc := Crashed)
      case Ignore => s.(pc := Polling)
      case React(st, reply, pending) =>
        WithClient(s, i, c.(down := Post(c.down, reply)))
        .(store := st,
          pc := if pending.Some? then Granting(i, pending.value) else Polling,
          lin := s.lin + Commits(c.phase, reply, st.heap))
  }

  function Apply(s: State, step: Step): State
    requires Enabled(s, step)
  {
    match step
    case Begin(i) => ApplyBegin(s, i)
    case Quit(i) =>
      var c := s.clients[i];
      WithClient(s, i, c.(phase := Closed, up := Post(c.up, ShutDown)))
    case LandUp(i) => var c := s.clients[i]; WithClient(s, i, c.(up := Land(c.up)))
    case LandDown(i) => var c := s.clients[i]; WithClient(s, i, c.(down := Land(c.down)))
    case Receive(i, junk) => ApplyReceive(s, i, junk)
    case WriteByte(i, x) => ApplyWriteByte(s, i, x)
    case SendSetFin(i) =>
      var c := s.clients[i];
      WithClient(s, i, c.(phase := SetFinWait(c.phase.id, c.phase.key, c.phase.value),
                          up := Post(c.up, SetFin(c.phase.key))))
    case ReadByte(i, x) => ApplyReadByte(s, i, x)
    case SendGetFin(i) =>
      var c := s.clients[i];
      WithClient(s, i, c.(phase := GetFinWait(c.phase.id, c.phase.key, c.phase.local),
                          up := Post(c.up, GetFin(c.phase.key))))
    case Poll => ApplyPoll(s)
    case Handle(f) => ApplyHandle(s, f)
    case Finish =>
      s.(pc := Polling, store := s.store.(db := s.store.db[s.pc.pending.key := s.pc.pending.entry]))
  }

  // Nothing sent and the receive queue full.
  predicate Unused(l: Link, rxDepth: nat) {
    l.flight == [] && l.ready == 0 && l.free == l.routs == rxDepth
  }

  // Connected queue pairs, full receive queues, an empty database.
  predicate Connected(s: State) {
    && s.rxDepth >= 1
    && |s.clients| > 0
    && (forall i | 0 <= i < |s.clients| ::
          && s.clients[i].phase.Idle?
          && Unused(s.clients[i].up, s.rxDepth) && Unused(s.clients[i].down, s.rxDepth))
    && s.at == 0 && s.pc == Polling && s.shutdowns == 0
    && s.store == Store(map[], map[], map[])
    && s.ext == [] && s.lin == []
  }

  // Every call of every client fits its control message.
  predicate AllFit(s: State) {
    forall i | 0 <= i < |s.clients| :: forall op | op in s.clients[i].script :: OpFits(op)
  }

  predicate Init(s: State) {
    Connected(s) && AllFit(s)
  }

  // A run is a sequence of steps each enabled where it is taken.
  predicate ValidRun(s: State, steps: seq<Step>)
    decreases |steps|, 0
  {
    steps == [] ||
    (var before := steps[..|steps| - 1];
     ValidRun(s, before) && Enabled(Execute(s, before), steps[|steps| - 1]))
  }

  function Execute(s: State, steps: seq<Step>): State
    requires ValidRun(s, steps)
    decreases |steps|, 1
  {
    if steps == [] then s
    else Apply(Execute(s, steps[..|steps| - 1]), steps[|steps| - 1])
  }

  ghost predicate Reachable(s: State) {
    exists s0, steps :: Init(s0) && ValidRun(s0, steps) && Execute(s0, steps) == s
  }
}
