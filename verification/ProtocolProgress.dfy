// Termination and fairness of the key-value protocol: how much work is left,
// that some of it can always be done, and how long a client can be kept waiting.
module ProtocolProgress {
  import opened Messages
  import opened History
  import opened ServerStore
  import opened Protocol
  import opened ProtocolInvariant
  import opened Allocation
  import opened ProtocolRuns

  // ----- the work left -------------------------------------------------------------

  // No value of a script is longer than this, so no block ever is.
  predicate OpBounded(op: Op, bound: nat) {
    op.Set? ==> |op.value| + 1 <= bound
  }

  predicate ClientBounded(c: Client, bound: nat) {
    && (forall op | op in c.script :: OpBounded(op, bound))
    && (Active(c.phase) ==> OpBounded(OpOf(c.phase), bound))
  }

  predicate Bounded(s: State, bound: nat) {
    && (forall i | 0 <= i < |s.clients| :: ClientBounded(s.clients[i], bound))
    && (forall k | k in VisibleDb(s) :: VisibleDb(s)[k].size <= bound)
    && BlocksBounded(s.store.heap, bound)
  }

  predicate BlocksBounded(heap: map<nat, seq<byte>>, bound: nat) {
    forall a | a in heap :: |heap[a]| <= bound
  }

  function ScriptWork(script: seq<Op>, bound: nat): nat {
    if script == [] then 0 else 14 + bound + ScriptWork(script[1..], bound)
  }

  // What remains of the current call, not counting the message under way.
  function PhaseWork(p: Phase, bound: nat): nat {
    match p
    case SetGrantWait(_, _, v) => 15 + |v|
    case SetWriting(_, _, _, _, _, todo) => 14 + |todo|
    case GetWait(_, _) => 14 + bound
    case GetReading(_, _, _, _, _, todo) => 14 + |todo|
    case Closed => 0
    case Broken => 0
    case _ => 7
  }

  function LinkWork(c: Client, handling: bool): nat {
    6 * |c.up.flight| + 5 * c.up.ready + (if handling then 4 else 0) + 2 * |c.down.flight| + c.down.ready
  }

  function ClientWork(c: Client, handling: bool, bound: nat): nat {
    ScriptWork(c.script, bound) + PhaseWork(c.phase, bound) + LinkWork(c, handling)
  }

  function Sum(works: seq<nat>): nat {
    if works == [] then 0 else Sum(works[..|works| - 1]) + works[|works| - 1]
  }

  lemma {:induction false} SumUpdate(works: seq<nat>, i: nat, w: nat)
    requires i < |works|
    ensures Sum(works[i := w]) + works[i] == Sum(works) + w
  {
    var n := |works| - 1;
    if i == n {
      assert works[i := w][..n] == works[..n];
    } else {
      SumUpdate(works[..n], i, w);
      assert works[i := w][..n] == works[..n][i := w];
    }
  }

  function Works(s: State, bound: nat): (works: seq<nat>)
    ensures |works| == |s.clients|
    ensures forall i | 0 <= i < |works| :: works[i] == ClientWork(s.clients[i], HandlingNow(s, i), bound)
  {
    seq(|s.clients|, i requires 0 <= i < |s.clients| => ClientWork(s.clients[i], HandlingNow(s, i), bound))
  }

  // A bound on the number of steps that can still be taken, other than polls
  // that find nothing.
  function WorkLeft(s: State, bound: nat): nat {
    Sum(Works(s, bound)) + (if s.pc.Granting? then 1 else 0)
  }

  // The server looks at a client that has no message for it.
  predicate EmptyPoll(s: State, step: Step)
    requires Enabled(s, step)
  {
    step.Poll? && s.clients[s.at].up.ready == 0
  }

  lemma WorkOf(s: State, i: nat, s': State, bound: nat)
    requires ActsOn(s, i, s')
    ensures Sum(Works(s', bound)) + ClientWork(s.clients[i], HandlingNow(s, i), bound) ==
            Sum(Works(s, bound)) + ClientWork(s'.clients[i], HandlingNow(s', i), bound)
  {
    assert Works(s', bound) == Works(s, bound)[i := Works(s', bound)[i]];
    SumUpdate(Works(s, bound), i, Works(s', bound)[i]);
  }

  // A step of client i in which the client's work falls by more than the
  // server's grows.
  lemma WorkFalls(s: State, i: nat, s': State, bound: nat)
    requires ActsOn(s, i, s')
    requires ClientWork(s'.clients[i], HandlingNow(s', i), bound) + (if s'.pc.Granting? then 1 else 0) <
             ClientWork(s.clients[i], HandlingNow(s, i), bound) + (if s.pc.Granting? then 1 else 0)
    ensures WorkLeft(s', bound) < WorkLeft(s, bound)
  {
    hide ClientWork;
    WorkOf(s, i, s', bound);
  }

  lemma ReceivedWork(p: Phase, m: Msg, junk: seq<byte>, bound: nat)
    requires Waiting(p) && (p.GetWait? && m.GetGrant? ==> |junk| <= bound)
    ensures PhaseWork(Received(p, m, junk).0, bound) <= PhaseWork(p, bound)
  {
  }

  // A granted block is as long as the entry it belongs to.
  lemma GrantedSize(s: State, i: nat)
    requires StateInv(s) && i < |s.clients| && s.clients[i].phase.GetWait? && s.clients[i].down.ready > 0
    ensures s.clients[i].down.buf.GetGrant? ==>
              && s.clients[i].phase.key in VisibleDb(s)
              && s.clients[i].down.buf.size == VisibleDb(s)[s.clients[i].phase.key].size
  {
    ReplyKnown(s, i);
    assert ClientOk(Views(s)[i], i, WorldOf(s));
    hide ClientOk;
  }

  lemma ReceiveWork(s: State, i: nat, junk: seq<byte>, bound: nat)
    requires StateInv(s) && Bounded(s, bound) && Enabled(s, Receive(i, junk))
    ensures WorkLeft(Apply(s, Receive(i, junk)), bound) < WorkLeft(s, bound)
  {
    if s.clients[i].phase.GetWait? {
      GrantedSize(s, i);
    }
    hide StateInv, Bounded, PhaseWork, Received, WorkLeft;
    ReceivedWork(s.clients[i].phase, s.clients[i].down.buf, junk, bound);
    WorkFalls(s, i, Apply(s, Receive(i, junk)), bound);
  }

  // The other client steps.
  lemma BeginWork(s: State, i: nat, bound: nat)
    requires Bounded(s, bound) && Enabled(s, Begin(i))
    ensures WorkLeft(Apply(s, Begin(i)), bound) < WorkLeft(s, bound)
  {
    assert OpBounded(s.clients[i].script[0], bound);
    hide Bounded, WorkLeft;
    WorkFalls(s, i, Apply(s, Begin(i)), bound);
  }

  lemma WriteWork(s: State, i: nat, x: nat, bound: nat)
    requires Enabled(s, WriteByte(i, x))
    ensures WorkLeft(Apply(s, WriteByte(i, x)), bound) < WorkLeft(s, bound)
  {
    hide WorkLeft, ValidAccess;
    WorkFalls(s, i, Apply(s, WriteByte(i, x)), bound);
  }

  lemma ReadWork(s: State, i: nat, x: nat, bound: nat)
    requires Enabled(s, ReadByte(i, x))
    ensures WorkLeft(Apply(s, ReadByte(i, x)), bound) < WorkLeft(s, bound)
  {
    hide WorkLeft, ValidAccess;
    WorkFalls(s, i, Apply(s, ReadByte(i, x)), bound);
  }

  lemma PostWork(s: State, step: Step, bound: nat)
    requires Enabled(s, step)
    requires step.Quit? || step.LandUp? || step.LandDown? || step.SendSetFin? || step.SendGetFin?
    ensures WorkLeft(Apply(s, step), bound) < WorkLeft(s, bound)
  {
    hide WorkLeft;
    WorkFalls(s, step.i, Apply(s, step), bound);
  }

  lemma HandleWork(s: State, f: Fresh, bound: nat)
    requires StateInv(s) && Enabled(s, Handle(f))
    ensures WorkLeft(Apply(s, Handle(f)), bound) < WorkLeft(s, bound)
  {
    hide StateInv, WorkLeft, Respond;
    HandleReacts(s, f);
    WorkFalls(s, s.pc.client, Apply(s, Handle(f)), bound);
  }

  lemma PollWork(s: State, bound: nat)
    requires Enabled(s, Poll)
    ensures EmptyPoll(s, Poll) ==> WorkLeft(Apply(s, Poll), bound) == WorkLeft(s, bound)
    ensures !EmptyPoll(s, Poll) ==> WorkLeft(Apply(s, Poll), bound) < WorkLeft(s, bound)
  {
    if EmptyPoll(s, Poll) {
      WorkOf(s, s.at, Apply(s, Poll), bound);
    } else {
      hide WorkLeft;
      WorkFalls(s, s.at, Apply(s, Poll), bound);
    }
  }

  lemma FinishWork(s: State, bound: nat)
    requires StateInv(s) && Enabled(s, Finish)
    ensures WorkLeft(Apply(s, Finish), bound) < WorkLeft(s, bound)
  {
    hide Inv, ShutDownsOk;
    WorkOf(s, 0, Apply(s, Finish), bound);
  }

  // A handler always either counts a shutdown or posts a reply.
  lemma HandleReacts(s: State, f: Fresh)
    requires StateInv(s) && Enabled(s, Handle(f))
    ensures s.clients[s.pc.client].up.buf.ShutDown? ||
            Respond(s.store, s.pc.client, s.clients[s.pc.client].up.buf, f).React?
  {
    hide Respond, StateInv, FreshFor;
    assert s.pc.Handling?;
    RequestKnown(s);
    KeepsHandle(s, f);
    NotCrashed(Apply(s, Handle(f)));
    hide RequestOk;
    var m := s.clients[s.pc.client].up.buf;
    if m.SetEager? || m.SetRendezvous? || m.GetKey? || m.SetFin? || m.GetFin? {
      NotIgnored(s.store, s.pc.client, m, f);
    }
  }

  lemma NotCrashed(s: State)
    requires StateInv(s)
    ensures !s.pc.Crashed?
  {
  }

  lemma NotIgnored(st: Store, i: nat, m: Msg, f: Fresh)
    requires m.SetEager? || m.SetRendezvous? || m.GetKey? || m.SetFin? || m.GetFin?
    ensures !Respond(st, i, m, f).Ignore?
  {
  }

  // ----- stored sizes stay bounded -----------------------------------------------------

  // The sizes a handler can store are those it was sent or already had.
  lemma RespondSizes(st: Store, i: nat, m: Msg, f: Fresh, bound: nat)
    requires Respond(st, i, m, f).React? && forall k | k in st.db :: st.db[k].size <= bound
    requires m.SetEager? || m.SetRendezvous? ==> m.size <= bound && |f.junk| == m.size
    requires BlocksBounded(st.heap, bound)
    ensures var r := Respond(st, i, m, f);
            && (forall k | k in r.store.db :: r.store.db[k].size <= bound)
            && BlocksBounded(r.store.heap, bound)
            && (r.pending.Some? ==> r.pending.value.entry.size <= bound)
  {
  }

  lemma KeepsBounded(s: State, step: Step, bound: nat)
    requires StateInv(s) && Bounded(s, bound) && Enabled(s, step)
    ensures Bounded(Apply(s, step), bound)
  {
    if step.Handle? {
      HandleKeepsBounded(s, step.f, bound);
    } else {
      hide StateInv;
      ClientKeepsBounded(s, step, bound);
    }
  }

  lemma HandleKeepsBounded(s: State, f: Fresh, bound: nat)
    requires StateInv(s) && Bounded(s, bound) && Enabled(s, Handle(f))
    ensures Bounded(Apply(s, Handle(f)), bound)
  {
    assert s.pc.Handling?;
    hide StateInv, Apply, Enabled, ClientBounded, VisibleDb, Respond;
    RequestKnown(s);
    HandleReacts(s, f);
    assert ClientBounded(s.clients[s.pc.client], bound);
    HandleSizes(s, f, bound);
    HandleKeepsClients(s, f);
  }

  lemma HandleSizes(s: State, f: Fresh, bound: nat)
    requires s.pc.Handling? && Enabled(s, Handle(f)) && ClientBounded(s.clients[s.pc.client], bound)
    requires (forall k | k in VisibleDb(s) :: VisibleDb(s)[k].size <= bound) && BlocksBounded(s.store.heap, bound)
    requires var p, m := s.clients[s.pc.client].phase, s.clients[s.pc.client].up.buf;
             m.ShutDown? || (Active(p) && RequestOk(p, m) && Respond(s.store, s.pc.client, m, f).React?)
    ensures var db := VisibleDb(Apply(s, Handle(f))); forall k | k in db :: db[k].size <= bound
    ensures BlocksBounded(Apply(s, Handle(f)).store.heap, bound)
  {
    hide Respond;
    var m := s.clients[s.pc.client].up.buf;
    assert VisibleDb(s) == s.store.db;
    if !m.ShutDown? {
      assert m.SetEager? || m.SetRendezvous? ==> m.size <= bound;
      RespondSizes(s.store, s.pc.client, m, f, bound);
    }
  }

  // A handler changes no phase and no script.
  lemma HandleKeepsClients(s: State, f: Fresh)
    requires Enabled(s, Handle(f))
    ensures var s' := Apply(s, Handle(f));
            && |s'.clients| == |s.clients|
            && forall i, bound | 0 <= i < |s.clients| && ClientBounded(s.clients[i], bound) ::
                 ClientBounded(s'.clients[i], bound)
  {
    hide Respond;
  }

  lemma ClientKeepsBounded(s: State, step: Step, bound: nat)
    requires Bounded(s, bound) && Enabled(s, step) && !step.Handle?
    ensures Bounded(Apply(s, step), bound)
  {
    var s' := Apply(s, step);
    assert |s'.clients| == |s.clients| && VisibleDb(s') == VisibleDb(s) by {
      hide Bounded;
    }
    assert BlocksBounded(s'.store.heap, bound) by {
      hide VisibleDb, ClientBounded;
    }
    hide VisibleDb, Apply, Enabled, BlocksBounded;
    forall i | 0 <= i < |s'.clients|
      ensures ClientBounded(s'.clients[i], bound)
    {
      assert ClientBounded(s.clients[i], bound);
      hide Bounded, ClientBounded;
      KeepsToCall(s, step, i);
      ClientStaysBounded(s.clients[i], s'.clients[i], bound);
    }
  }

  lemma KeepsToCall(s: State, step: Step, i: nat)
    requires Enabled(s, step) && !step.Handle? && i < |s.clients|
    ensures |Apply(s, step).clients| == |s.clients|
    ensures var c, c' := s.clients[i], Apply(s, step).clients[i];
            && (c'.script == c.script || (c.script != [] && c'.script == c.script[1..]))
            && (Active(c'.phase) ==>
                  || (Active(c.phase) && OpOf(c'.phase) == OpOf(c.phase))
                  || (c.script != [] && OpOf(c'.phase) == c.script[0]))
  {
  }

  // A call is one of the script, and a client keeps to it until it returns.
  lemma ClientStaysBounded(c: Client, c': Client, bound: nat)
    requires ClientBounded(c, bound)
    requires c'.script == c.script || (c.script != [] && c'.script == c.script[1..])
    requires Active(c'.phase) ==>
               (Active(c.phase) && OpOf(c'.phase) == OpOf(c.phase)) || (c.script != [] && OpOf(c'.phase) == c.script[0])
    ensures ClientBounded(c', bound)
  {
  }

  // Every step other than an empty poll uses up work, and an empty poll none.
  lemma StepUsesWork(s: State, step: Step, bound: nat)
    requires StateInv(s) && Bounded(s, bound) && Enabled(s, step)
    ensures StateInv(Apply(s, step)) && Bounded(Apply(s, step), bound)
    ensures EmptyPoll(s, step) ==> WorkLeft(Apply(s, step), bound) == WorkLeft(s, bound)
    ensures !EmptyPoll(s, step) ==> WorkLeft(Apply(s, step), bound) < WorkLeft(s, bound)
  {
    hide StateInv, Bounded, WorkLeft, Apply, Enabled;
    StepKeepsInv(s, step);
    KeepsBounded(s, step, bound);
    match step
    case Begin(i) => BeginWork(s, i, bound);
    case Receive(i, junk) => ReceiveWork(s, i, junk, bound);
    case WriteByte(i, x) => WriteWork(s, i, x, bound);
    case ReadByte(i, x) => ReadWork(s, i, x, bound);
    case Poll => PollWork(s, bound);
    case Handle(f) => HandleWork(s, f, bound);
    case Finish => FinishWork(s, bound);
    case _ => PostWork(s, step, bound);
  }

  // How many steps of a run are not empty polls.
  function Progressing(s: State, steps: seq<Step>): nat
    requires ValidRun(s, steps)
    decreases |steps|
  {
    if steps == [] then 0
    else
      var before := steps[..|steps| - 1];
      Progressing(s, before) + (if EmptyPoll(Execute(s, before), steps[|steps| - 1]) then 0 else 1)
  }

  // In every run, however long, the steps that are not empty polls and the work
  // left at the end add up to no more than the work at the start.
  lemma {:induction false} RunsAreBounded(s0: State, steps: seq<Step>, bound: nat)
    requires Init(s0) && Bounded(s0, bound) && ValidRun(s0, steps)
    ensures StateInv(Execute(s0, steps)) && Bounded(Execute(s0, steps), bound)
    ensures Progressing(s0, steps) + WorkLeft(Execute(s0, steps), bound) <= WorkLeft(s0, bound)
    decreases |steps|
  {
    if steps == [] {
      InitInv(s0);
    } else {
      var before := steps[..|steps| - 1];
      RunsAreBounded(s0, before, bound);
      hide StateInv, Bounded, WorkLeft, Apply, Enabled, Init, EmptyPoll;
      StepUsesWork(Execute(s0, before), steps[|steps| - 1], bound);
    }
  }

  // Every finite set of scripts has such a bound.
  function LongestValue(script: seq<Op>): nat {
    if script == [] then 0
    else
      var rest := LongestValue(script[1..]);
      if script[0].Set? && |script[0].value| + 1 > rest then |script[0].value| + 1 else rest
  }

  lemma {:induction false} LongestValueBounds(script: seq<Op>, bound: nat)
    requires LongestValue(script) <= bound
    ensures forall op | op in script :: OpBounded(op, bound)
  {
    if script != [] {
      LongestValueBounds(script[1..], bound);
      forall op | op in script
        ensures OpBounded(op, bound)
      {
        assert op == script[0] || op in script[1..];
      }
    }
  }

  function LongestOfAll(clients: seq<Client>): nat {
    if clients == [] then 0
    else
      var rest := LongestOfAll(clients[1..]);
      if LongestValue(clients[0].script) > rest then LongestValue(clients[0].script) else rest
  }

  lemma {:induction false} LongestOfAllBounds(clients: seq<Client>, i: nat)
    requires i < |clients|
    ensures LongestValue(clients[i].script) <= LongestOfAll(clients)
  {
    if i > 0 {
      LongestOfAllBounds(clients[1..], i - 1);
    }
  }

  lemma InitBounded(s: State)
    requires Connected(s)
    ensures Bounded(s, LongestOfAll(s.clients))
  {
    forall i | 0 <= i < |s.clients|
      ensures ClientBounded(s.clients[i], LongestOfAll(s.clients))
    {
      LongestOfAllBounds(s.clients, i);
      LongestValueBounds(s.clients[i].script, LongestOfAll(s.clients));
    }
  }

  // ----- something can always be done ----------------------------------------------------

  lemma {:induction false} OneRegionEach(rkeys: set<nat>, regions: map<nat, Region>, owners: set<nat>)
    requires forall r | r in rkeys :: r in regions && regions[r].pd in owners
    requires forall q, r | q in rkeys && r in rkeys && regions[q].pd == regions[r].pd :: q == r
    ensures |rkeys| <= |owners|
  {
    if r :| r in rkeys {
      OneRegionEach(rkeys - {r}, regions, owners - {regions[r].pd});
    }
  }

  lemma FewRegions(s: State)
    requires StateInv(s)
    ensures |s.store.regions.Keys| <= |s.clients|
  {
    var views, w := Views(s), WorldOf(s);
    assert RegionsOk(views, w);
    hide StateInv, Held;
    OneRegionEach(s.store.regions.Keys, s.store.regions, Range(|s.clients|));
  }

  // Allocation does not fail: the address space has a gap and there is an
  // unused key.
  predicate HasRoom(s: State, bound: nat) {
    (2 * |s.store.heap.Keys| + 1) * (bound + 1) <= TWO_TO_64 && |s.clients| < TWO_TO_32
  }

  lemma FreshExists(s: State, bound: nat) returns (f: Fresh)
    requires StateInv(s) && Bounded(s, bound) && HasRoom(s, bound) && s.pc.Handling?
    ensures Enabled(s, Handle(f))
  {
    hide StateInv;
    RequestKnown(s);
    FewRegions(s);
    var c := s.clients[s.pc.client];
    assert ClientBounded(c, bound);
    var size := if c.up.buf.SetEager? || c.up.buf.SetRendezvous? then c.up.buf.size else 0;
    assert size <= bound;
    hide VisibleDb, ClientBounded, RequestOk;
    var addr := Place(s.store.heap, bound + 1, TWO_TO_64);
    var rkey := FreeBelow(s.store.regions.Keys, TWO_TO_32);
    f := Fresh(addr, rkey, seq(size, _ => 0));
  }

  lemma UnbrokenClient(s: State, i: nat)
    requires StateInv(s) && i < |s.clients|
    ensures !s.clients[i].phase.Broken?
  {
    assert ClientOk(Views(s)[i], i, WorldOf(s));
  }

  // A waiting client has a message on its way, and so has a client that has
  // asked for shutdown and is not gone.
  lemma MessageUnderWay(s: State, i: nat)
    requires StateInv(s) && i < |s.clients| && !HandlingNow(s, i)
    requires s.clients[i].phase.Closed? ==> !Gone(ViewOf(s, i))
    requires !s.clients[i].phase.Idle? && !s.clients[i].phase.SetWriting? && !s.clients[i].phase.GetReading?
    ensures s.at < |s.clients|
    ensures var c := s.clients[i];
            CanLand(c.up) || c.up.ready > 0 || CanLand(c.down) || (c.down.ready > 0 && Waiting(c.phase))
  {
    hide ClientOk, TokenOf, LinkOk, CanLand, MemoryOk, ShutDownsOk;
    assert ClientOk(Views(s)[i], i, WorldOf(s));
    TokenExpected(ViewOf(s, i), i, WorldOf(s));
    TokenOnLinks(s.clients[i], s.rxDepth, Waiting(s.clients[i].phase));
  }

  lemma TokenExpected(v: View, i: nat, w: World)
    requires ClientOk(v, i, w) && (v.phase.Closed? ==> !Gone(v))
    requires !v.phase.Idle? && !v.phase.SetWriting? && !v.phase.GetReading?
    ensures v.token.ToServer? || (v.token.ToClient? && Waiting(v.phase))
  {
  }

  lemma TokenOnLinks(c: Client, rxDepth: nat, waiting: bool)
    requires TokenOf(c, false).ToServer? || (TokenOf(c, false).ToClient? && waiting)
    requires LinkOk(c.up, rxDepth) && LinkOk(c.down, rxDepth)
    ensures CanLand(c.up) || c.up.ready > 0 || CanLand(c.down) || (c.down.ready > 0 && waiting)
  {
  }

  // Until the server returns, some step other than a poll is possible, or the
  // server is polling while a message is there for it.
  lemma Progress(s: State, bound: nat) returns (step: Step)
    requires StateInv(s) && Bounded(s, bound) && HasRoom(s, bound) && !s.pc.Stopped?
    ensures Enabled(s, step)
    ensures step.Poll? ==> exists j :: 0 <= j < |s.clients| && s.clients[j].up.ready > 0
  {
    if s.pc.Granting? {
      step := Finish;
    } else if s.pc.Handling? {
      var f := FreshExists(s, bound);
      step := Handle(f);
    } else {
      assert s.pc.Polling?;
      var i := SomeoneLeft(s);
      step := ClientStep(s, i);
    }
  }

  lemma SomeoneLeft(s: State) returns (i: nat)
    requires StateInv(s) && !s.pc.Stopped?
    ensures i < |s.clients| && !Gone(ViewOf(s, i))
  {
    hide Inv;
    if forall i | 0 <= i < |s.clients| :: Gone(Views(s)[i]) {
      EveryoneGone(Views(s));
      assert false;
    }
    var j :| 0 <= j < |s.clients| && !Gone(Views(s)[j]);
    i := j;
  }

  lemma ClientStep(s: State, i: nat) returns (step: Step)
    requires StateInv(s) && s.pc.Polling? && i < |s.clients| && !Gone(ViewOf(s, i))
    ensures Enabled(s, step)
    ensures step.Quit? ==> s.clients[i].phase.Idle? && s.clients[i].script == []
    ensures step.Poll? ==> exists j :: 0 <= j < |s.clients| && s.clients[j].up.ready > 0
  {
    hide StateInv, Waiting, ViewOf;
    var c := s.clients[i];
    UnbrokenClient(s, i);
    if c.phase.Idle? {
      step := if c.script == [] then Quit(i) else Begin(i);
    } else if c.phase.SetWriting? {
      if x :| x in c.phase.todo { step := WriteByte(i, x); } else { step := SendSetFin(i); }
    } else if c.phase.GetReading? {
      if x :| x in c.phase.todo { step := ReadByte(i, x); } else { step := SendGetFin(i); }
    } else {
      MessageUnderWay(s, i);
      hide CanLand;
      if CanLand(c.up) {
        step := LandUp(i);
      } else if CanLand(c.down) {
        step := LandDown(i);
      } else if c.up.ready > 0 {
        step := Poll;
      } else {
        step := Receive(i, seq(if c.down.buf.GetGrant? then c.down.buf.size else 0, _ => 0));
      }
    }
  }

  // ----- round robin ---------------------------------------------------------------------

  // How many other clients the server looks at before it looks at j.
  function Turns(s: State, j: nat): (n: nat)
    requires s.at < |s.clients| && j < |s.clients|
    ensures n < |s.clients|
  {
    if j >= s.at then j - s.at else |s.clients| - s.at + j
  }

  // No poll of the run looks at client j.
  predicate NeverPolls(s: State, steps: seq<Step>, j: nat)
    requires ValidRun(s, steps)
    decreases |steps|
  {
    steps == [] ||
    (var before := steps[..|steps| - 1];
     NeverPolls(s, before, j) && (steps[|steps| - 1].Poll? ==> Execute(s, before).at != j))
  }

  function Polls(steps: seq<Step>): nat {
    if steps == [] then 0 else Polls(steps[..|steps| - 1]) + (if steps[|steps| - 1].Poll? then 1 else 0)
  }

  function Handled(steps: seq<Step>): nat {
    if steps == [] then 0 else Handled(steps[..|steps| - 1]) + (if steps[|steps| - 1].Handle? then 1 else 0)
  }

  lemma TurnsStep(s: State, step: Step, j: nat)
    requires Enabled(s, step) && s.at < |s.clients| && j < |s.clients|
    requires step.Poll? ==> s.at != j
    ensures var s' := Apply(s, step);
            && |s'.clients| == |s.clients| && s'.at < |s.clients|
            && Turns(s', j) + (if step.Poll? then 1 else 0) == Turns(s, j)
            && (if s'.pc.Handling? then 1 else 0) + (if step.Handle? then 1 else 0) <=
               (if s.pc.Handling? then 1 else 0) + (if step.Poll? then 1 else 0)
  {
    hide Respond;
  }

  // While client j waits to be looked at, every poll of the server brings its
  // turn nearer by exactly one, so at most |clients| - 1 messages of other
  // clients are taken up before it, besides one already being handled.
  lemma {:induction false} RoundRobin(s: State, steps: seq<Step>, j: nat)
    requires s.at < |s.clients| && j < |s.clients|
    requires ValidRun(s, steps) && NeverPolls(s, steps, j)
    ensures var s' := Execute(s, steps);
            && |s'.clients| == |s.clients| && s'.at < |s.clients|
            && Polls(steps) + Turns(s', j) == Turns(s, j)
            && Polls(steps) <= |s.clients| - 1
            && Handled(steps) + (if s'.pc.Handling? then 1 else 0) <= Polls(steps) + (if s.pc.Handling? then 1 else 0)
    decreases |steps|
  {
    if steps != [] {
      var before := steps[..|steps| - 1];
      RoundRobin(s, before, j);
      hide Apply, Enabled;
      TurnsStep(Execute(s, before), steps[|steps| - 1], j);
    }
  }

  // ----- every state can be run to the end --------------------------------------------------

  lemma {:induction false} RunCons(s: State, step: Step, steps: seq<Step>)
    requires Enabled(s, step) && ValidRun(Apply(s, step), steps)
    ensures ValidRun(s, [step] + steps)
    ensures Execute(s, [step] + steps) == Execute(Apply(s, step), steps)
    decreases |steps|
  {
    var run := [step] + steps;
    hide Apply, Enabled;
    if steps == [] {
      assert run[..0] == [] && run[0] == step;
      assert ValidRun(s, run[..0]) && Execute(s, run[..0]) == s;
    } else {
      var before := steps[..|steps| - 1];
      RunCons(s, step, before);
      assert run[..|run| - 1] == [step] + before;
      assert run[|run| - 1] == steps[|steps| - 1];
    }
  }

  // The blocks a client can still make the server allocate: one for each set it
  // has to call, and one for a set whose request the server has not handled.
  function SetsIn(script: seq<Op>): nat {
    if script == [] then 0 else SetsIn(script[1..]) + (if script[0].Set? then 1 else 0)
  }

  function BlocksOf(c: Client, handling: bool): nat {
    SetsIn(c.script)
    + (if (c.phase.SetEagerWait? || c.phase.SetGrantWait?) && (c.up.flight != [] || c.up.ready > 0 || handling) then 1
       else 0)
  }

  function BlockCounts(s: State): (counts: seq<nat>)
    ensures |counts| == |s.clients|
    ensures forall i | 0 <= i < |counts| :: counts[i] == BlocksOf(s.clients[i], HandlingNow(s, i))
  {
    seq(|s.clients|, i requires 0 <= i < |s.clients| => BlocksOf(s.clients[i], HandlingNow(s, i)))
  }

  // All blocks there will be.
  function BlocksEver(s: State): nat {
    |s.store.heap.Keys| + Sum(BlockCounts(s))
  }

  // The address space is large enough for all of them, wherever they are put.
  predicate EnoughRoom(s: State, bound: nat) {
    (2 * BlocksEver(s) + 1) * (bound + 1) <= TWO_TO_64 && |s.clients| < TWO_TO_32
  }

  lemma RoomNow(s: State, bound: nat)
    requires EnoughRoom(s, bound)
    ensures HasRoom(s, bound)
  {
    Times(2 * |s.store.heap.Keys| + 1, 2 * BlocksEver(s) + 1, bound + 1);
    hide Sum;
  }

  lemma LessRoom(s: State, s': State, bound: nat, bound': nat)
    requires EnoughRoom(s, bound) && |s'.clients| == |s.clients|
    requires BlocksEver(s') <= BlocksEver(s) && bound' <= bound
    ensures EnoughRoom(s', bound')
  {
    hide BlocksEver;
    Times(2 * BlocksEver(s') + 1, 2 * BlocksEver(s) + 1, bound + 1);
    Times(bound' + 1, bound + 1, 2 * BlocksEver(s') + 1);
  }

  lemma BlocksOn(s: State, i: nat, s': State)
    requires ActsOn(s, i, s')
    ensures Sum(BlockCounts(s')) + BlocksOf(s.clients[i], HandlingNow(s, i)) ==
            Sum(BlockCounts(s)) + BlocksOf(s'.clients[i], HandlingNow(s', i))
  {
    hide BlocksOf;
    assert BlockCounts(s') == BlockCounts(s)[i := BlockCounts(s')[i]];
    SumUpdate(BlockCounts(s), i, BlockCounts(s')[i]);
  }

  // Client i acts, and the server allocates no more than its request asks for.
  lemma BlocksShrink(s: State, i: nat, s': State)
    requires ActsOn(s, i, s')
    requires |s'.store.heap.Keys| + BlocksOf(s'.clients[i], HandlingNow(s', i)) <=
             |s.store.heap.Keys| + BlocksOf(s.clients[i], HandlingNow(s, i))
    ensures BlocksEver(s') <= BlocksEver(s) && |s'.clients| == |s.clients|
  {
    hide BlocksOf, Sum;
    BlocksOn(s, i, s');
  }

  lemma BeginBlocks(s: State, i: nat)
    requires Enabled(s, Begin(i))
    ensures BlocksEver(Apply(s, Begin(i))) <= BlocksEver(s) && |Apply(s, Begin(i)).clients| == |s.clients|
  {
    hide BlocksEver;
    BlocksShrink(s, i, Apply(s, Begin(i)));
  }

  lemma ReceiveBlocks(s: State, i: nat, junk: seq<byte>)
    requires Enabled(s, Receive(i, junk))
    ensures BlocksEver(Apply(s, Receive(i, junk))) <= BlocksEver(s)
    ensures |Apply(s, Receive(i, junk)).clients| == |s.clients|
  {
    hide BlocksEver, SetsIn;
    BlocksShrink(s, i, Apply(s, Receive(i, junk)));
  }

  lemma WriteBlocks(s: State, i: nat, x: nat)
    requires Enabled(s, WriteByte(i, x))
    ensures BlocksEver(Apply(s, WriteByte(i, x))) <= BlocksEver(s)
    ensures |Apply(s, WriteByte(i, x)).clients| == |s.clients|
  {
    hide BlocksEver, SetsIn;
    var p := s.clients[i].phase;
    if p.va in s.store.heap {
      assert s.store.heap.Keys + {p.va} == s.store.heap.Keys;
    }
    BlocksShrink(s, i, Apply(s, WriteByte(i, x)));
  }

  lemma PostBlocks(s: State, step: Step)
    requires Enabled(s, step)
    requires step.Quit? || step.LandUp? || step.LandDown? || step.SendSetFin? || step.ReadByte? || step.SendGetFin?
    ensures BlocksEver(Apply(s, step)) <= BlocksEver(s) && |Apply(s, step).clients| == |s.clients|
  {
    hide BlocksEver, SetsIn, ValidAccess;
    BlocksShrink(s, step.i, Apply(s, step));
  }

  lemma PollBlocks(s: State)
    requires Enabled(s, Poll)
    ensures BlocksEver(Apply(s, Poll)) <= BlocksEver(s) && |Apply(s, Poll).clients| == |s.clients|
  {
    hide BlocksEver, SetsIn;
    BlocksShrink(s, s.at, Apply(s, Poll));
  }

  lemma FinishBlocks(s: State)
    requires Enabled(s, Finish)
    ensures BlocksEver(Apply(s, Finish)) == BlocksEver(s) && |Apply(s, Finish).clients| == |s.clients|
  {
    assert BlockCounts(Apply(s, Finish)) == BlockCounts(s);
  }

  lemma RespondHeap(st: Store, i: nat, m: Msg, f: Fresh)
    requires Respond(st, i, m, f).React?
    ensures Respond(st, i, m, f).store.heap.Keys <= st.heap.Keys + {f.addr}
    ensures !m.SetEager? && !m.SetRendezvous? ==> Respond(st, i, m, f).store.heap.Keys == st.heap.Keys
  {
  }

  lemma RespondGrowth(st: Store, i: nat, m: Msg, f: Fresh)
    requires Respond(st, i, m, f).React?
    ensures |Respond(st, i, m, f).store.heap.Keys| <=
            |st.heap.Keys| + (if m.SetEager? || m.SetRendezvous? then 1 else 0)
  {
    RespondHeap(st, i, m, f);
    hide Respond;
    SubsetSize(Respond(st, i, m, f).store.heap.Keys, st.heap.Keys + {f.addr});
  }

  // The server allocates only for a set, whose request is then handled.
  lemma HandleBlocks(s: State, f: Fresh)
    requires StateInv(s) && Enabled(s, Handle(f))
    ensures BlocksEver(Apply(s, Handle(f))) <= BlocksEver(s) && |Apply(s, Handle(f)).clients| == |s.clients|
  {
    assert s.pc.Handling?;
    hide StateInv, Respond, BlocksEver, SetsIn;
    RequestKnown(s);
    HandleReacts(s, f);
    var m := s.clients[s.pc.client].up.buf;
    if !m.ShutDown? {
      RespondGrowth(s.store, s.pc.client, m, f);
    }
    BlocksShrink(s, s.pc.client, Apply(s, Handle(f)));
  }

  lemma RoomLasts(s: State, step: Step, bound: nat)
    requires StateInv(s) && EnoughRoom(s, bound) && Enabled(s, step)
    ensures EnoughRoom(Apply(s, step), bound)
  {
    hide StateInv, BlocksEver, EnoughRoom, Apply, Enabled;
    match step {
      case Begin(i) => BeginBlocks(s, i);
      case Receive(i, junk) => ReceiveBlocks(s, i, junk);
      case WriteByte(i, x) => WriteBlocks(s, i, x);
      case Poll => PollBlocks(s);
      case Handle(f) => HandleBlocks(s, f);
      case Finish => FinishBlocks(s);
      case _ => PostBlocks(s, step);
    }
    LessRoom(s, Apply(s, step), bound, bound);
  }

  // From every state that satisfies the invariant, the system can be run until
  // the server returns: there is no deadlock and no dead end.
  lemma CanFinish(s: State, bound: nat) returns (steps: seq<Step>)
    requires StateInv(s) && Bounded(s, bound) && EnoughRoom(s, bound)
    ensures ValidRun(s, steps) && Execute(s, steps).pc.Stopped?
    decreases WorkLeft(s, bound), |s.clients| + 1
  {
    if s.pc.Stopped? {
      steps := [];
    } else {
      RoomNow(s, bound);
      var step := Progress(s, bound);
      if step.Poll? {
        var j :| 0 <= j < |s.clients| && s.clients[j].up.ready > 0;
        steps := PollUntil(s, j, bound);
      } else {
        hide StateInv, Bounded, WorkLeft, Apply;
        StepUsesWork(s, step, bound);
        RoomLasts(s, step, bound);
        var rest := CanFinish(Apply(s, step), bound);
        RunCons(s, step, rest);
        steps := [step] + rest;
      }
    }
  }

  lemma PollUntil(s: State, j: nat, bound: nat) returns (steps: seq<Step>)
    requires StateInv(s) && Bounded(s, bound) && EnoughRoom(s, bound)
    requires s.pc.Polling? && j < |s.clients| && s.clients[j].up.ready > 0
    ensures ValidRun(s, steps) && Execute(s, steps).pc.Stopped?
    decreases WorkLeft(s, bound), |s.clients|, Turns(s, j)
  {
    assert s.at < |s.clients|;
    hide StateInv, Bounded, WorkLeft, Turns, EnoughRoom;
    var s' := Apply(s, Poll);
    var rest;
    StepUsesWork(s, Poll, bound);
    RoomLasts(s, Poll, bound);
    if EmptyPoll(s, Poll) {
      TurnsStep(s, Poll, j);
      rest := PollUntil(s', j, bound);
    } else {
      rest := CanFinish(s', bound);
    }
    hide Apply;
    RunCons(s, Poll, rest);
    steps := [Poll] + rest;
  }

  lemma {:induction false} RoomAlong(s0: State, steps: seq<Step>, bound: nat)
    requires Init(s0) && Bounded(s0, bound) && EnoughRoom(s0, bound) && ValidRun(s0, steps)
    ensures EnoughRoom(Execute(s0, steps), bound)
    decreases |steps|
  {
    hide StateInv, Bounded, EnoughRoom, Apply, Enabled, Init;
    if steps != [] {
      var before := steps[..|steps| - 1];
      RoomAlong(s0, before, bound);
      RunsAreBounded(s0, before, bound);
      RoomLasts(Execute(s0, before), steps[|steps| - 1], bound);
    }
  }

  // No deadlock: every run can be continued to the clean end, as long as the
  // address space is enough for one block of the longest value for each set.
  lemma NoDeadlock(s0: State, steps: seq<Step>) returns (rest: seq<Step>)
    requires Init(s0) && ValidRun(s0, steps) && EnoughRoom(s0, LongestOfAll(s0.clients))
    ensures ValidRun(Execute(s0, steps), rest)
    ensures Execute(Execute(s0, steps), rest).pc.Stopped?
  {
    var bound := LongestOfAll(s0.clients);
    InitBounded(s0);
    RunsAreBounded(s0, steps, bound);
    RoomAlong(s0, steps, bound);
    hide StateInv, Bounded, EnoughRoom;
    rest := CanFinish(Execute(s0, steps), bound);
  }

  // ----- the window after a grant ---------------------------------------------------------

  // Client i has been granted a transfer and the server has not recorded it yet.
  predicate InWindow(s: State, i: nat) {
    && i < |s.clients| && s.pc.Granting? && s.pc.client == i
    && var p, token := s.clients[i].phase, ViewOf(s, i).token;
       || (p.SetGrantWait? && token.ToClient? && token.msg.SetGrant?)
       || (p.GetWait? && token.ToClient? && token.msg.GetGrant?)
       || p.SetWriting? || p.GetReading?
       || ((p.SetFinWait? || p.GetFinWait?) && token.ToServer?)
  }

  lemma PendingMeansGrant(st: Store, i: nat, m: Msg, f: Fresh)
    requires Respond(st, i, m, f).React? && Respond(st, i, m, f).pending.Some?
    ensures var r := Respond(st, i, m, f);
            && ((m.SetRendezvous? && r.reply.SetGrant?) || (m.GetKey? && r.reply.GetGrant?))
            && r.store.db == st.db && r.pending.value.key == m.key
  {
  }

  // Every grant opens one.
  lemma WindowOpens(s: State, f: Fresh)
    requires StateInv(s) && Enabled(s, Handle(f)) && Apply(s, Handle(f)).pc.Granting?
    ensures InWindow(Apply(s, Handle(f)), s.pc.client)
    ensures Apply(s, Handle(f)).store.db == s.store.db
    ensures Apply(s, Handle(f)).pc.pending.key == s.clients[s.pc.client].phase.key
  {
    hide Inv, ShutDownsOk;
    NotJammed(s, s.pc.client);
    RequestKnown(s);
    hide StateInv, Respond;
    PendingMeansGrant(s.store, s.pc.client, s.clients[s.pc.client].up.buf, f);
  }

  // The client can move on inside the window: the server stays where it is.
  predicate StaysInWindow(s: State, i: nat, step: Step) {
    && Enabled(s, step) && !step.Poll? && !step.Handle? && !step.Finish?
    && InWindow(Apply(s, step), i)
    && Apply(s, step).pc == s.pc && Apply(s, step).store.db == s.store.db
  }

  lemma WindowLanding(s: State, i: nat)
    requires StateInv(s) && InWindow(s, i) && s.clients[i].down.flight != []
    ensures StaysInWindow(s, i, LandDown(i))
  {
    hide Inv, ShutDownsOk;
    NotJammed(s, i);
    assert !HandlingNow(s, i);
    hide StateInv;
  }

  lemma WindowGranted(s: State, i: nat) returns (step: Step)
    requires StateInv(s) && InWindow(s, i) && s.clients[i].down.flight == []
    requires s.clients[i].phase.SetGrantWait? || s.clients[i].phase.GetWait?
    ensures StaysInWindow(s, i, step)
  {
    hide Inv, ShutDownsOk;
    NotJammed(s, i);
    assert !HandlingNow(s, i);
    hide StateInv, OpFits, CanLand;
    var c := s.clients[i];
    var junk := seq(if c.down.buf.GetGrant? then c.down.buf.size else 0, _ => 0);
    step := Receive(i, junk);
    GrantTaken(c, c.down.buf, junk);
    hide Received;
  }

  lemma GrantTaken(c: Client, m: Msg, junk: seq<byte>)
    requires (c.phase.SetGrantWait? && m.SetGrant?) || (c.phase.GetWait? && m.GetGrant?)
    ensures Waiting(c.phase) && Received(c.phase, m, junk).1.None?
    ensures var p := Received(c.phase, m, junk).0; p.SetWriting? || p.GetReading?
  {
  }

  lemma WindowByte(s: State, i: nat, step: Step)
    requires StateInv(s) && InWindow(s, i) && Enabled(s, step)
    requires (step.WriteByte? || step.ReadByte?) && step.i == i
    ensures StaysInWindow(s, i, step)
  {
    hide Inv, ShutDownsOk;
    hide StateInv;
    StepKeepsInv(s, step);
    UnbrokenClient(Apply(s, step), i);
  }

  lemma WindowSendFin(s: State, i: nat, step: Step)
    requires StateInv(s) && InWindow(s, i) && Enabled(s, step)
    requires (step.SendSetFin? || step.SendGetFin?) && step.i == i
    ensures StaysInWindow(s, i, step)
  {
    hide Inv, ShutDownsOk;
    NotJammed(s, i);
    hide StateInv;
  }

  lemma WindowFin(s: State, i: nat)
    requires StateInv(s) && InWindow(s, i) && s.clients[i].up.ready == 0
    requires s.clients[i].phase.SetFinWait? || s.clients[i].phase.GetFinWait?
    ensures StaysInWindow(s, i, LandUp(i))
  {
    hide Inv, ShutDownsOk;
    NotJammed(s, i);
  }

  // The FIN is in the server's receive buffer.
  predicate FinArrived(s: State, i: nat) {
    i < |s.clients| && (s.clients[i].phase.SetFinWait? || s.clients[i].phase.GetFinWait?) && s.clients[i].up.ready > 0
  }

  lemma WindowStep(s: State, i: nat) returns (step: Step)
    requires StateInv(s) && InWindow(s, i) && !FinArrived(s, i)
    ensures StaysInWindow(s, i, step)
  {
    hide StateInv, StaysInWindow, ViewOf;
    var p := s.clients[i].phase;
    if p.SetWriting? {
      if x :| x in p.todo {
        step := WriteByte(i, x);
        WindowByte(s, i, step);
      } else {
        step := SendSetFin(i);
        WindowSendFin(s, i, step);
      }
    } else if p.GetReading? {
      if x :| x in p.todo {
        step := ReadByte(i, x);
        WindowByte(s, i, step);
      } else {
        step := SendGetFin(i);
        WindowSendFin(s, i, step);
      }
    } else if p.SetFinWait? || p.GetFinWait? {
      step := LandUp(i);
      WindowFin(s, i);
    } else if s.clients[i].down.flight != [] {
      step := LandDown(i);
      WindowLanding(s, i);
    } else {
      step := WindowGranted(s, i);
    }
  }

  // The window is real: after any grant the client can complete the whole
  // transfer and have its FIN in the server's receive buffer before the server
  // has recorded the grant in the database.
  lemma WindowIsReal(s: State, i: nat, bound: nat) returns (steps: seq<Step>)
    requires StateInv(s) && Bounded(s, bound) && InWindow(s, i)
    ensures ValidRun(s, steps) && FinArrived(Execute(s, steps), i)
    ensures Execute(s, steps).pc == s.pc && Execute(s, steps).store.db == s.store.db
    decreases WorkLeft(s, bound)
  {
    if FinArrived(s, i) {
      steps := [];
    } else {
      var step := WindowStep(s, i);
      StepUsesWork(s, step, bound);
      hide StateInv, Bounded, WorkLeft, Apply, InWindow;
      var rest := WindowIsReal(Apply(s, step), i, bound);
      RunCons(s, step, rest);
      steps := [step] + rest;
    }
  }
}
