// The transition system refines the abstract transitions, so every reachable
// state satisfies the invariant.
module ProtocolRuns {
  import opened Messages
  import opened History
  import opened ServerStore
  import opened Credits
  import opened Protocol
  import opened ProtocolInvariant
  import opened ProtocolSteps

  predicate HandlingNow(s: State, i: nat) {
    s.pc.Handling? && s.pc.client == i
  }

  // What is outstanding on a connection, wherever it sits: in flight, landed
  // but not polled, or polled and being handled by the server.
  function TokenOf(c: Client, handling: bool): Token {
    var up := |c.up.flight| + c.up.ready + (if handling then 1 else 0);
    var down := |c.down.flight| + c.down.ready;
    if up + down == 0 then Quiet
    else if up + down > 1 then Jam
    else if up == 1 then ToServer(if |c.up.flight| == 1 then c.up.flight[0] else c.up.buf)
    else ToClient(if |c.down.flight| == 1 then c.down.flight[0] else c.down.buf)
  }

  function ViewOf(s: State, i: nat): View
    requires i < |s.clients|
  {
    View(s.clients[i].phase, TokenOf(s.clients[i], HandlingNow(s, i)))
  }

  function Views(s: State): (views: seq<View>)
    ensures |views| == |s.clients|
    ensures forall i | 0 <= i < |s.clients| :: views[i] == ViewOf(s, i)
  {
    seq(|s.clients|, i requires 0 <= i < |s.clients| => ViewOf(s, i))
  }

  // The database with a pending grant applied.
  function VisibleDb(s: State): map<CString, Entry> {
    match s.pc
    case Granting(_, p) => s.store.db[p.key := p.entry]
    case _ => s.store.db
  }

  function WorldOf(s: State): World {
    World(VisibleDb(s), s.store.regions, s.store.heap, s.ext, s.lin)
  }

  predicate Gone(v: View) {
    v == View(Closed, Quiet)
  }

  function GoneCount(views: seq<View>): (n: nat)
    ensures n <= |views|
  {
    if views == [] then 0
    else GoneCount(views[..|views| - 1]) + (if Gone(views[|views| - 1]) then 1 else 0)
  }

  predicate LinkOk(l: Link, rxDepth: nat) {
    && l.routs == l.free + l.ready && 1 <= l.routs <= rxDepth
    && (rxDepth > REFILL_THRESHOLD ==> l.routs > REFILL_THRESHOLD)
  }

  predicate PlumbingOk(s: State) {
    && s.rxDepth >= 1 && s.at < |s.clients|
    && (forall i | 0 <= i < |s.clients| ::
          && LinkOk(s.clients[i].up, s.rxDepth) && LinkOk(s.clients[i].down, s.rxDepth)
          && (forall op | op in s.clients[i].script :: OpFits(op))
          && (s.clients[i].phase.Closed? ==> s.clients[i].script == []))
    && !s.pc.Crashed?
    && (s.pc.Handling? || s.pc.Granting? ==> s.pc.client < |s.clients|)
  }

  predicate ShutDownsOk(s: State) {
    && s.shutdowns == GoneCount(Views(s))
    && (s.pc.Stopped? <==> s.shutdowns == |s.clients|)
  }

  predicate StateInv(s: State) {
    PlumbingOk(s) && ShutDownsOk(s) && Inv(Views(s), WorldOf(s))
  }

  // ----- counting clients that are gone -----------------------------------------

  lemma {:induction false} GoneUpdate(views: seq<View>, i: nat, v: View)
    requires i < |views|
    ensures GoneCount(views[i := v]) ==
            GoneCount(views) - (if Gone(views[i]) then 1 else 0) + (if Gone(v) then 1 else 0)
  {
    var n := |views| - 1;
    if i == n {
      assert views[i := v][..n] == views[..n];
    } else {
      GoneUpdate(views[..n], i, v);
      assert views[i := v][..n] == views[..n][i := v];
    }
  }

  lemma {:induction false} AllGone(views: seq<View>)
    requires GoneCount(views) == |views|
    ensures forall i | 0 <= i < |views| :: Gone(views[i])
  {
    if views != [] {
      AllGone(views[..|views| - 1]);
      assert forall i | 0 <= i < |views| - 1 :: views[i] == views[..|views| - 1][i];
    }
  }

  lemma {:induction false} EveryoneGone(views: seq<View>)
    requires forall i | 0 <= i < |views| :: Gone(views[i])
    ensures GoneCount(views) == |views|
  {
    if views != [] {
      EveryoneGone(views[..|views| - 1]);
    }
  }

  lemma {:induction false} NoneGone(views: seq<View>)
    requires forall i | 0 <= i < |views| :: !Gone(views[i])
    ensures GoneCount(views) == 0
  {
    if views != [] {
      NoneGone(views[..|views| - 1]);
    }
  }

  // ----- every step keeps the invariant --------------------------------------------

  // Only client i's part of the state and the world may have changed.
  predicate ActsOn(s: State, i: nat, s': State) {
    && |s'.clients| == |s.clients| && i < |s.clients| && s'.rxDepth == s.rxDepth
    && (forall j | 0 <= j < |s.clients| && j != i :: s'.clients[j] == s.clients[j])
    && (forall j | 0 <= j < |s.clients| && j != i :: HandlingNow(s', j) == HandlingNow(s, j))
  }

  lemma ViewsUpdate(s: State, i: nat, s': State)
    requires ActsOn(s, i, s')
    ensures Views(s') == Views(s)[i := ViewOf(s', i)]
    ensures GoneCount(Views(s')) ==
            GoneCount(Views(s)) - (if Gone(ViewOf(s, i)) then 1 else 0) + (if Gone(ViewOf(s', i)) then 1 else 0)
  {
    assert Views(s') == Views(s)[i := ViewOf(s', i)];
    GoneUpdate(Views(s), i, ViewOf(s', i));
  }

  lemma SameViews(s: State, i: nat, s': State)
    requires ActsOn(s, i, s') && ViewOf(s', i) == ViewOf(s, i)
    ensures Views(s') == Views(s)
  {
    ViewsUpdate(s, i, s');
  }

  lemma NotJammed(s: State, i: nat)
    requires Inv(Views(s), WorldOf(s)) && i < |s.clients|
    ensures !ViewOf(s, i).token.Jam?
    ensures s.clients[i].phase.Idle? || s.clients[i].phase.SetWriting? || s.clients[i].phase.GetReading? ==>
              ViewOf(s, i).token.Quiet?
  {
    assert ClientOk(Views(s)[i], i, WorldOf(s));
  }

  // A step of client i that keeps the abstract invariant keeps the rest too.
  lemma ClientActs(s: State, i: nat, s': State)
    requires StateInv(s) && ActsOn(s, i, s') && Inv(Views(s'), WorldOf(s'))
    requires Gone(ViewOf(s', i)) == Gone(ViewOf(s, i))
    requires s'.pc == s.pc && s'.at == s.at && s'.shutdowns == s.shutdowns
    requires LinkOk(s'.clients[i].up, s.rxDepth) && LinkOk(s'.clients[i].down, s.rxDepth)
    requires forall op | op in s'.clients[i].script :: op in s.clients[i].script
    requires s'.clients[i].phase.Closed? ==> s'.clients[i].script == []
    ensures StateInv(s')
  {
    hide Inv;
    ViewsUpdate(s, i, s');
  }

  lemma KeepsLand(s: State, step: Step)
    requires StateInv(s) && Enabled(s, step) && (step.LandUp? || step.LandDown?)
    ensures StateInv(Apply(s, step))
  {
    hide Inv;
    NotJammed(s, step.i);
    SameViews(s, step.i, Apply(s, step));
  }

  lemma KeepsPoll(s: State)
    requires StateInv(s) && Enabled(s, Poll)
    ensures StateInv(Apply(s, Poll))
  {
    hide Inv;
    NotJammed(s, s.at);
    SameViews(s, s.at, Apply(s, Poll));
  }

  lemma KeepsFinish(s: State)
    requires StateInv(s) && Enabled(s, Finish)
    ensures StateInv(Apply(s, Finish))
  {
    hide Inv;
    SameViews(s, 0, Apply(s, Finish));
  }

  lemma KeepsBegin(s: State, i: nat)
    requires StateInv(s) && Enabled(s, Begin(i))
    ensures StateInv(Apply(s, Begin(i)))
  {
    hide Inv;
    var s' := Apply(s, Begin(i));
    NotJammed(s, i);
    ViewsUpdate(s, i, s');
    BeginStep(Views(s), i, Views(s'), WorldOf(s), WorldOf(s'), s.clients[i].script[0]);
    ClientActs(s, i, s');
  }

  lemma KeepsQuit(s: State, i: nat)
    requires StateInv(s) && Enabled(s, Quit(i))
    ensures StateInv(Apply(s, Quit(i)))
  {
    hide Inv;
    var s' := Apply(s, Quit(i));
    NotJammed(s, i);
    ViewsUpdate(s, i, s');
    QuitStep(Views(s), i, Views(s'), WorldOf(s));
    ClientActs(s, i, s');
  }

  lemma KeepsWriteByte(s: State, i: nat, x: nat)
    requires StateInv(s) && Enabled(s, WriteByte(i, x))
    ensures StateInv(Apply(s, WriteByte(i, x)))
  {
    hide Inv;
    var s' := Apply(s, WriteByte(i, x));
    var p := s.clients[i].phase;
    NotJammed(s, i);
    ViewsUpdate(s, i, s');
    WriteByteStep(Views(s), i, Views(s'), WorldOf(s), WorldOf(s'), p.id, p.key, p.value, p.va, p.rkey, p.todo, x);
    ClientActs(s, i, s');
  }

  lemma KeepsReadByte(s: State, i: nat, x: nat)
    requires StateInv(s) && Enabled(s, ReadByte(i, x))
    ensures StateInv(Apply(s, ReadByte(i, x)))
  {
    hide Inv;
    var s' := Apply(s, ReadByte(i, x));
    var p := s.clients[i].phase;
    NotJammed(s, i);
    ViewsUpdate(s, i, s');
    ReadByteStep(Views(s), i, Views(s'), WorldOf(s), p.id, p.key, p.va, p.rkey, p.local, p.todo, x);
    ClientActs(s, i, s');
  }

  lemma KeepsSendSetFin(s: State, i: nat)
    requires StateInv(s) && Enabled(s, SendSetFin(i))
    ensures StateInv(Apply(s, SendSetFin(i)))
  {
    hide Inv;
    var s' := Apply(s, SendSetFin(i));
    var p := s.clients[i].phase;
    NotJammed(s, i);
    ViewsUpdate(s, i, s');
    SendSetFinStep(Views(s), i, Views(s'), WorldOf(s), p.id, p.key, p.value, p.va, p.rkey);
    ClientActs(s, i, s');
  }

  lemma KeepsSendGetFin(s: State, i: nat)
    requires StateInv(s) && Enabled(s, SendGetFin(i))
    ensures StateInv(Apply(s, SendGetFin(i)))
  {
    hide Inv;
    var s' := Apply(s, SendGetFin(i));
    var p := s.clients[i].phase;
    NotJammed(s, i);
    ViewsUpdate(s, i, s');
    SendGetFinStep(Views(s), i, Views(s'), WorldOf(s), p.id, p.key, p.va, p.rkey, p.local);
    ClientActs(s, i, s');
  }

  // The reply a waiting client takes is the one that was posted for it, and it
  // is one that the client expects.
  lemma ReplyKnown(s: State, i: nat)
    requires StateInv(s) && i < |s.clients| && Waiting(s.clients[i].phase) && s.clients[i].down.ready > 0
    ensures var m := s.clients[i].down.buf;
            var p := s.clients[i].phase;
            && ViewOf(s, i).token == ToClient(m)
            && s.clients[i].down.ready == 1 && s.clients[i].down.flight == []
            && |s.clients[i].up.flight| + s.clients[i].up.ready == 0 && !HandlingNow(s, i)
            && (FinalAnswer(p, m).Some? || (p.SetGrantWait? && m.SetGrant?) || (p.GetWait? && m.GetGrant?))
  {
    NotJammed(s, i);
    assert ClientOk(Views(s)[i], i, WorldOf(s));
    hide ClientOk;
  }

  lemma ReceivedAnswer(p: Phase, m: Msg, junk: seq<byte>)
    requires Waiting(p) && FinalAnswer(p, m).Some?
    ensures Received(p, m, junk) == (Idle, FinalAnswer(p, m))
  {
  }

  // The reply ends the call.
  lemma KeepsReturn(s: State, i: nat, junk: seq<byte>)
    requires StateInv(s) && Enabled(s, Receive(i, junk))
    requires Active(s.clients[i].phase) && FinalAnswer(s.clients[i].phase, s.clients[i].down.buf).Some?
    ensures StateInv(Apply(s, Receive(i, junk)))
  {
    hide Inv, FinalAnswer;
    var s' := Apply(s, Receive(i, junk));
    var p, m := s.clients[i].phase, s.clients[i].down.buf;
    ReplyKnown(s, i);
    ReceivedAnswer(p, m, junk);
    hide Received;
    ViewsUpdate(s, i, s');
    ReturnStep(Views(s), i, Views(s'), WorldOf(s), WorldOf(s'), FinalAnswer(p, m).value);
    ClientActs(s, i, s');
  }

  // The reply grants a write.
  lemma KeepsWriteGranted(s: State, i: nat, junk: seq<byte>)
    requires StateInv(s) && Enabled(s, Receive(i, junk)) && s.clients[i].phase.SetGrantWait?
    requires FinalAnswer(s.clients[i].phase, s.clients[i].down.buf).None?
    ensures StateInv(Apply(s, Receive(i, junk)))
  {
    hide Inv, FinalAnswer;
    var s' := Apply(s, Receive(i, junk));
    var p, m := s.clients[i].phase, s.clients[i].down.buf;
    ReplyKnown(s, i);
    ViewsUpdate(s, i, s');
    GrantedSetStep(Views(s), i, Views(s'), WorldOf(s), p.id, p.key, p.value, m.va, m.rkey);
    ClientActs(s, i, s');
  }

  // The reply grants a read.
  lemma KeepsReadGranted(s: State, i: nat, junk: seq<byte>)
    requires StateInv(s) && Enabled(s, Receive(i, junk)) && !s.clients[i].phase.SetGrantWait?
    requires Active(s.clients[i].phase) && FinalAnswer(s.clients[i].phase, s.clients[i].down.buf).None?
    ensures StateInv(Apply(s, Receive(i, junk)))
  {
    hide Inv, FinalAnswer;
    var s' := Apply(s, Receive(i, junk));
    var p, m := s.clients[i].phase, s.clients[i].down.buf;
    ReplyKnown(s, i);
    ViewsUpdate(s, i, s');
    GrantedGetStep(Views(s), i, Views(s'), WorldOf(s), p.id, p.key, m.size, m.va, m.rkey, junk);
    ClientActs(s, i, s');
  }

  lemma KeepsReceive(s: State, i: nat, junk: seq<byte>)
    requires StateInv(s) && Enabled(s, Receive(i, junk))
    ensures StateInv(Apply(s, Receive(i, junk)))
  {
    hide StateInv, Apply, FinalAnswer;
    if FinalAnswer(s.clients[i].phase, s.clients[i].down.buf).Some? {
      KeepsReturn(s, i, junk);
    } else if s.clients[i].phase.SetGrantWait? {
      KeepsWriteGranted(s, i, junk);
    } else {
      KeepsReadGranted(s, i, junk);
    }
  }

  // ----- the server handles one message ---------------------------------------------

  // The message being handled is the one its client sent, and nothing else is
  // outstanding on that connection.
  lemma RequestKnown(s: State)
    requires StateInv(s) && s.pc.Handling?
    ensures var i := s.pc.client;
            && i < |s.clients|
            && var c := s.clients[i];
            && ViewOf(s, i).token == ToServer(c.up.buf)
            && c.up.flight == [] && c.up.ready == 0 && c.down.flight == [] && c.down.ready == 0
            && (c.phase.Closed? ==> c.up.buf == ShutDown)
            && (!c.phase.Closed? ==> Waiting(c.phase) && RequestOk(c.phase, c.up.buf))
  {
    NotJammed(s, s.pc.client);
    assert ClientOk(Views(s)[s.pc.client], s.pc.client, WorldOf(s));
    hide ClientOk;
  }

  // The server posted a reply to client i and moved on.
  predicate Replied(s: State, i: nat, reply: Msg, s': State) {
    && i < |s.clients| && s.pc == Handling(i) && Active(s.clients[i].phase)
    && ActsOn(s, i, s')
    && s'.clients[i] == s.clients[i].(down := Post(s.clients[i].down, reply))
    && (s'.pc.Polling? || (s'.pc.Granting? && s'.pc.client == i))
    && s'.at == s.at && s'.shutdowns == s.shutdowns
  }

  lemma ServerReplied(s: State, i: nat, reply: Msg, s': State)
    requires StateInv(s) && Replied(s, i, reply, s')
    ensures Views(s') == Views(s)[i := View(s.clients[i].phase, ToClient(reply))]
    ensures Inv(Views(s'), WorldOf(s')) ==> StateInv(s')
  {
    hide Inv;
    RequestKnown(s);
    ViewsUpdate(s, i, s');
  }

  lemma KeepsShutDown(s: State, f: Fresh)
    requires StateInv(s) && Enabled(s, Handle(f)) && s.clients[s.pc.client].phase.Closed?
    ensures StateInv(Apply(s, Handle(f)))
  {
    hide Inv;
    var i, s' := s.pc.client, Apply(s, Handle(f));
    RequestKnown(s);
    ViewsUpdate(s, i, s');
    ShutDownStep(Views(s), i, Views(s'), WorldOf(s));
  }

  // Replies that change nothing at the server.
  lemma KeepsQuietReply(s: State, f: Fresh, reply: Msg, answer: Answer)
    requires StateInv(s) && Enabled(s, Handle(f)) && Active(s.clients[s.pc.client].phase)
    requires !s.clients[s.pc.client].phase.SetFinWait? && !s.clients[s.pc.client].phase.GetFinWait?
    requires Respond(s.store, s.pc.client, s.clients[s.pc.client].up.buf, f) == React(s.store, reply, None)
    requires Commits(s.clients[s.pc.client].phase, reply, s.store.heap) ==
             [Commit(s.clients[s.pc.client].phase.id, OpOf(s.clients[s.pc.client].phase), answer)]
    requires FinalAnswer(s.clients[s.pc.client].phase, reply) == Some(answer) && Fits(reply)
    requires Replay(s.lin).Some?
    requires Effect(Replay(s.lin).value, OpOf(s.clients[s.pc.client].phase), answer) == Replay(s.lin)
    ensures StateInv(Apply(s, Handle(f)))
  {
    hide Inv, FinalAnswer, Respond, Commits, Effect;
    var i, s' := s.pc.client, Apply(s, Handle(f));
    RequestKnown(s);
    ServerReplied(s, i, reply, s');
    QuietReplyStep(Views(s), i, Views(s'), WorldOf(s), WorldOf(s'), reply, answer);
  }

  lemma LegalSoFar(s: State)
    requires StateInv(s)
    ensures Replay(s.lin).Some?
  {
  }

  lemma BusyResponse(st: Store, i: nat, p: Phase, m: Msg, f: Fresh)
    requires (p.SetEagerWait? || p.SetGrantWait? || p.GetWait?) && RequestOk(p, m) && Locked(st, p.key)
    ensures Respond(st, i, m, f) == React(st, InProgress, None)
    ensures Commits(p, InProgress, st.heap) == [Commit(p.id, OpOf(p), Busy)]
    ensures FinalAnswer(p, InProgress) == Some(Busy)
  {
  }

  lemma KeepsBusy(s: State, f: Fresh)
    requires StateInv(s) && Enabled(s, Handle(f)) && Active(s.clients[s.pc.client].phase)
    requires !s.clients[s.pc.client].phase.SetFinWait? && !s.clients[s.pc.client].phase.GetFinWait?
    requires Locked(s.store, s.clients[s.pc.client].phase.key)
    ensures StateInv(Apply(s, Handle(f)))
  {
    hide StateInv, Respond, Commits, FinalAnswer, RequestOk;
    var i := s.pc.client;
    RequestKnown(s);
    LegalSoFar(s);
    BusyResponse(s.store, i, s.clients[i].phase, s.clients[i].up.buf, f);
    KeepsQuietReply(s, f, InProgress, Busy);
  }

  lemma KeepsSetEager(s: State, f: Fresh)
    requires StateInv(s) && Enabled(s, Handle(f)) && s.clients[s.pc.client].phase.SetEagerWait?
    requires !Locked(s.store, s.clients[s.pc.client].phase.key)
    ensures StateInv(Apply(s, Handle(f)))
  {
    hide Inv;
    var i, s' := s.pc.client, Apply(s, Handle(f));
    var p := s.clients[i].phase;
    RequestKnown(s);
    assert p.value + [0] + f.junk[|p.value| + 1..] == p.value + [0];
    ServerReplied(s, i, SetSuccessful, s');
    EagerSetStep(Views(s), i, Views(s'), WorldOf(s), WorldOf(s'), f.addr, p.id, p.key, p.value);
  }

  lemma KeepsSetGrant(s: State, f: Fresh)
    requires StateInv(s) && Enabled(s, Handle(f)) && s.clients[s.pc.client].phase.SetGrantWait?
    requires !Locked(s.store, s.clients[s.pc.client].phase.key)
    ensures StateInv(Apply(s, Handle(f)))
  {
    hide Inv;
    var i, s' := s.pc.client, Apply(s, Handle(f));
    var p := s.clients[i].phase;
    RequestKnown(s);
    ServerReplied(s, i, SetGrant(f.addr, f.rkey), s');
    GrantSetStep(Views(s), i, Views(s'), WorldOf(s), WorldOf(s'), f.addr, f.rkey, f.junk, p.id, p.key, p.value);
  }

  // What the server's memory says about an unlocked key, by the history.
  lemma StoredValue(s: State, k: CString)
    requires StateInv(s) && s.pc.Handling?
    ensures Replay(s.lin).Some?
    ensures k in Replay(s.lin).value ==> k in s.store.db
    ensures k in s.store.db && s.store.db[k].mr.None? ==>
              && k in Replay(s.lin).value
              && s.store.db[k].addr in s.store.heap
              && CStr(s.store.heap[s.store.db[k].addr]) == Replay(s.lin).value[k]
              && s.store.db[k].size == |Replay(s.lin).value[k]| + 1
  {
    if k in s.store.db && s.store.db[k].mr.None? {
      UnlockedEntry(WorldOf(s), k);
    }
  }

  lemma KeepsGet(s: State, f: Fresh)
    requires StateInv(s) && Enabled(s, Handle(f)) && s.clients[s.pc.client].phase.GetWait?
    requires !Locked(s.store, s.clients[s.pc.client].phase.key)
    ensures StateInv(Apply(s, Handle(f)))
  {
    hide Inv;
    var i, s' := s.pc.client, Apply(s, Handle(f));
    var p := s.clients[i].phase;
    RequestKnown(s);
    StoredValue(s, p.key);
    if p.key !in s.store.db {
      KeepsQuietReply(s, f, KeyNotFound, Missing);
    } else if s.store.db[p.key].size < BUFFER_SIZE {
      var v := CStr(s.store.heap[s.store.db[p.key].addr]);
      KeepsQuietReply(s, f, GetEager(v), Found(v));
    } else {
      KeepsGetGrant(s, f);
    }
  }

  lemma KeepsGetGrant(s: State, f: Fresh)
    requires StateInv(s) && Enabled(s, Handle(f)) && s.clients[s.pc.client].phase.GetWait?
    requires s.clients[s.pc.client].phase.key in s.store.db
    requires var e := s.store.db[s.clients[s.pc.client].phase.key];
             e.mr.None? && e.addr in s.store.heap && e.size >= BUFFER_SIZE
    ensures StateInv(Apply(s, Handle(f)))
  {
    hide Inv;
    var i, s' := s.pc.client, Apply(s, Handle(f));
    var p := s.clients[i].phase;
    var e := s.store.db[p.key];
    RequestKnown(s);
    ServerReplied(s, i, GetGrant(e.size, e.addr, f.rkey), s');
    GrantGetStep(Views(s), i, Views(s'), WorldOf(s), WorldOf(s'), f.rkey, p.id, p.key, e);
  }

  // A FIN names a key that is in the database and locked by its sender.
  lemma FinTrusted(s: State)
    requires StateInv(s) && s.pc.Handling?
    requires s.clients[s.pc.client].phase.SetFinWait? || s.clients[s.pc.client].phase.GetFinWait?
    ensures var p := s.clients[s.pc.client].phase;
            Owns(WorldOf(s), s.pc.client, Hold(p.key, if p.SetFinWait? then RemoteWrite else RemoteRead))
  {
    RequestKnown(s);
    HolderOwns(Views(s)[s.pc.client], s.pc.client, WorldOf(s));
    hide Inv, ClientOk;
  }

  lemma KeepsSetFin(s: State, f: Fresh)
    requires StateInv(s) && Enabled(s, Handle(f)) && s.clients[s.pc.client].phase.SetFinWait?
    ensures StateInv(Apply(s, Handle(f)))
  {
    hide Inv;
    var i, s' := s.pc.client, Apply(s, Handle(f));
    var p := s.clients[i].phase;
    RequestKnown(s);
    FinTrusted(s);
    ServerReplied(s, i, SetSuccessful, s');
    SetFinStep(Views(s), i, Views(s'), WorldOf(s), WorldOf(s'), p.id, p.key, p.value);
  }

  lemma KeepsGetFin(s: State, f: Fresh)
    requires StateInv(s) && Enabled(s, Handle(f)) && s.clients[s.pc.client].phase.GetFinWait?
    ensures StateInv(Apply(s, Handle(f)))
  {
    hide Inv;
    var i, s' := s.pc.client, Apply(s, Handle(f));
    var p := s.clients[i].phase;
    RequestKnown(s);
    FinTrusted(s);
    ServerReplied(s, i, GetSuccessful, s');
    GetFinStep(Views(s), i, Views(s'), WorldOf(s), WorldOf(s'), p.id, p.key, p.local);
  }

  lemma KeepsHandle(s: State, f: Fresh)
    requires StateInv(s) && Enabled(s, Handle(f))
    ensures StateInv(Apply(s, Handle(f)))
  {
    RequestKnown(s);
    hide StateInv;
    var p := s.clients[s.pc.client].phase;
    if p.Closed? {
      KeepsShutDown(s, f);
    } else if p.SetFinWait? {
      KeepsSetFin(s, f);
    } else if p.GetFinWait? {
      KeepsGetFin(s, f);
    } else if Locked(s.store, p.key) {
      KeepsBusy(s, f);
    } else if p.SetEagerWait? {
      KeepsSetEager(s, f);
    } else if p.SetGrantWait? {
      KeepsSetGrant(s, f);
    } else {
      KeepsGet(s, f);
    }
  }

  // ----- all runs ------------------------------------------------------------------

  lemma StepKeepsInv(s: State, step: Step)
    requires StateInv(s) && Enabled(s, step)
    ensures StateInv(Apply(s, step))
  {
    hide StateInv;
    match step
    case Begin(i) => KeepsBegin(s, i);
    case Quit(i) => KeepsQuit(s, i);
    case LandUp(_) => KeepsLand(s, step);
    case LandDown(_) => KeepsLand(s, step);
    case Receive(i, junk) => KeepsReceive(s, i, junk);
    case WriteByte(i, x) => KeepsWriteByte(s, i, x);
    case SendSetFin(i) => KeepsSendSetFin(s, i);
    case ReadByte(i, x) => KeepsReadByte(s, i, x);
    case SendGetFin(i) => KeepsSendGetFin(s, i);
    case Poll => KeepsPoll(s);
    case Handle(f) => KeepsHandle(s, f);
    case Finish => KeepsFinish(s);
  }

  lemma InitInv(s: State)
    requires Init(s)
    ensures StateInv(s)
  {
    NoneGone(Views(s));
  }

  lemma {:induction false} RunKeepsInv(s: State, steps: seq<Step>)
    requires StateInv(s) && ValidRun(s, steps)
    ensures StateInv(Execute(s, steps))
    decreases |steps|
  {
    hide StateInv;
    if steps != [] {
      var before := steps[..|steps| - 1];
      RunKeepsInv(s, before);
      StepKeepsInv(Execute(s, before), steps[|steps| - 1]);
    }
  }

  lemma ReachableInv(s: State)
    requires Reachable(s)
    ensures StateInv(s)
  {
    hide StateInv;
    var s0, steps :| Init(s0) && ValidRun(s0, steps) && Execute(s0, steps) == s;
    InitInv(s0);
    RunKeepsInv(s0, steps);
  }
}
