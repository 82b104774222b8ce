// Histories of client calls, the sequential key-value specification, and
// linearizability of a history against it.
module History {
  import opened Messages

  datatype Op = Set(key: CString, value: CString) | Get(key: CString)

  // What a call reports: `Missing` and `Busy` are the two unsuccessful outcomes.
  datatype Answer = Stored | Found(value: CString) | Missing | Busy

  // A call is named by the position of its Invoke event.
  datatype Event =
    | Invoke(client: nat, op: Op)
    | Return(client: nat, id: nat, answer: Answer)

  // One call taking effect.
  datatype Commit = Commit(id: nat, op: Op, answer: Answer)

  type Table = map<CString, CString>

  // The sequential specification of one call. A busy answer is always allowed
  // and never changes the table.
  function Effect(m: Table, op: Op, answer: Answer): Option<Table> {
    match (op, answer)
    case (_, Busy) => Some(m)
    case (Set(k, v), Stored) => Some(m[k := v])
    case (Get(k), Found(v)) => if k in m && m[k] == v then Some(m) else None
    case (Get(k), Missing) => if k !in m then Some(m) else None
    case _ => None
  }

  // The table after a sequence of calls, or None if one of the answers is wrong.
  function Replay(lin: seq<Commit>): Option<Table> {
    if lin == [] then Some(map[])
    else
      var last := lin[|lin| - 1];
      match Replay(lin[..|lin| - 1])
      case None => None
      case Some(m) => Effect(m, last.op, last.answer)
  }

  // Every returned call is in `lin` with its answer.
  predicate CoversReturns(ext: seq<Event>, lin: seq<Commit>) {
    forall n | 0 <= n < |ext| && ext[n].Return? ::
      && ext[n].id < n && ext[ext[n].id].Invoke?
      && ext[ext[n].id].client == ext[n].client
      && Commit(ext[n].id, ext[ext[n].id].op, ext[n].answer) in lin
  }

  // `lin` has only invoked calls.
  predicate OnlyInvoked(ext: seq<Event>, lin: seq<Commit>) {
    forall a | 0 <= a < |lin| ::
      lin[a].id < |ext| && ext[lin[a].id].Invoke? && ext[lin[a].id].op == lin[a].op
  }

  // `lin` has each call at most once.
  predicate NoRepeats(lin: seq<Commit>) {
    forall a, b | 0 <= a < b < |lin| :: lin[a].id != lin[b].id
  }

  // `lin` never puts a call before one that had returned when it was invoked.
  predicate RespectsTime(ext: seq<Event>, lin: seq<Commit>)
    requires OnlyInvoked(ext, lin)
  {
    forall a, b, p | 0 <= a < b < |lin| && 0 <= p < lin[a].id ::
      !(ext[p].Return? && ext[p].id == lin[b].id)
  }

  // `lin` is a linearization of the history `ext` in the sense of Herlihy and
  // Wing: a legal sequential execution of the calls of `ext` that contains all
  // completed ones and keeps their real-time order.
  predicate IsLinearization(ext: seq<Event>, lin: seq<Commit>) {
    && CoversReturns(ext, lin) && OnlyInvoked(ext, lin) && NoRepeats(lin) && RespectsTime(ext, lin)
    && Replay(lin).Some?
  }

  ghost predicate Linearizable(ext: seq<Event>) {
    exists lin :: IsLinearization(ext, lin)
  }

  // Every call returns at most once.
  predicate ReturnsOnce(ext: seq<Event>) {
    forall m, n | 0 <= m < n < |ext| && ext[m].Return? && ext[n].Return? :: ext[m].id != ext[n].id
  }

  // ----- how a linearization grows ------------------------------------------

  lemma ReplayAppend(lin: seq<Commit>, c: Commit)
    ensures Replay(lin + [c]) ==
            match Replay(lin) case None => None case Some(m) => Effect(m, c.op, c.answer)
  {
    assert (lin + [c])[..|lin|] == lin;
  }

  lemma AppendEventTime(ext: seq<Event>, lin: seq<Commit>, e: Event)
    requires OnlyInvoked(ext, lin) && RespectsTime(ext, lin)
    ensures OnlyInvoked(ext + [e], lin) && RespectsTime(ext + [e], lin)
  {
    forall a, b, p | 0 <= a < b < |lin| && 0 <= p < lin[a].id
      ensures !((ext + [e])[p].Return? && (ext + [e])[p].id == lin[b].id)
    {
      assert (ext + [e])[p] == ext[p];
    }
  }

  lemma AppendInvoke(ext: seq<Event>, lin: seq<Commit>, i: nat, op: Op)
    requires IsLinearization(ext, lin) && ReturnsOnce(ext)
    ensures IsLinearization(ext + [Invoke(i, op)], lin) && ReturnsOnce(ext + [Invoke(i, op)])
  {
    AppendEventTime(ext, lin, Invoke(i, op));
    hide RespectsTime;
  }

  lemma AppendReturn(ext: seq<Event>, lin: seq<Commit>, i: nat, id: nat, answer: Answer)
    requires IsLinearization(ext, lin) && ReturnsOnce(ext)
    requires id < |ext| && ext[id].Invoke? && ext[id].client == i
    requires Commit(id, ext[id].op, answer) in lin
    requires forall n | 0 <= n < |ext| && ext[n].Return? :: ext[n].id != id
    ensures IsLinearization(ext + [Return(i, id, answer)], lin)
    ensures ReturnsOnce(ext + [Return(i, id, answer)])
  {
    AppendEventTime(ext, lin, Return(i, id, answer));
    hide RespectsTime;
  }

  lemma AppendCommitTime(ext: seq<Event>, lin: seq<Commit>, c: Commit)
    requires OnlyInvoked(ext, lin) && RespectsTime(ext, lin) && OnlyInvoked(ext, lin + [c])
    requires forall n | 0 <= n < |ext| && ext[n].Return? :: ext[n].id != c.id
    ensures RespectsTime(ext, lin + [c])
  {
    var lin' := lin + [c];
    forall a, b, p | 0 <= a < b < |lin'| && 0 <= p < lin'[a].id
      ensures !(ext[p].Return? && ext[p].id == lin'[b].id)
    {
      assert lin'[a] == lin[a];
      if b < |lin| {
        assert lin'[b] == lin[b];
      }
    }
  }

  lemma AppendCommitCovers(ext: seq<Event>, lin: seq<Commit>, c: Commit)
    requires CoversReturns(ext, lin)
    requires forall d | d in lin :: d.id != c.id
    ensures CoversReturns(ext, lin + [c])
    ensures forall n | 0 <= n < |ext| && ext[n].Return? :: ext[n].id != c.id
  {
    forall n | 0 <= n < |ext| && ext[n].Return?
      ensures ext[n].id != c.id && Commit(ext[n].id, ext[ext[n].id].op, ext[n].answer) in lin + [c]
    {
      assert Commit(ext[n].id, ext[ext[n].id].op, ext[n].answer) in lin;
    }
  }

  lemma AppendCommit(ext: seq<Event>, lin: seq<Commit>, c: Commit)
    requires IsLinearization(ext, lin)
    requires c.id < |ext| && ext[c.id].Invoke? && ext[c.id].op == c.op
    requires forall d | d in lin :: d.id != c.id
    requires Effect(Replay(lin).value, c.op, c.answer).Some?
    ensures IsLinearization(ext, lin + [c])
  {
    ReplayAppend(lin, c);
    AppendCommitCovers(ext, lin, c);
    hide CoversReturns;
    assert OnlyInvoked(ext, lin + [c]);
    AppendCommitTime(ext, lin, c);
    hide RespectsTime, OnlyInvoked;
  }

  // ----- what a legal sequential execution says about reads ------------------

  // The value of the last successful set of k among the given calls.
  function LastStored(lin: seq<Commit>, k: CString): Option<CString> {
    if lin == [] then None
    else
      var last := lin[|lin| - 1];
      if last.op.Set? && last.op.key == k && last.answer.Stored? then Some(last.op.value)
      else LastStored(lin[..|lin| - 1], k)
  }

  lemma {:induction false} ReplayIsLastStored(lin: seq<Commit>, k: CString)
    requires Replay(lin).Some?
    ensures k in Replay(lin).value <==> LastStored(lin, k).Some?
    ensures k in Replay(lin).value ==> Replay(lin).value[k] == LastStored(lin, k).value
  {
    if lin != [] {
      ReplayIsLastStored(lin[..|lin| - 1], k);
    }
  }

  lemma {:induction false} PrefixLegal(lin: seq<Commit>, n: nat)
    requires Replay(lin).Some? && n <= |lin|
    ensures Replay(lin[..n]).Some?
    decreases |lin|
  {
    if n < |lin| {
      PrefixLegal(lin[..|lin| - 1], n);
      assert lin[..|lin| - 1][..n] == lin[..n];
    } else {
      assert lin[..n] == lin;
    }
  }

  // Each call of a legal execution has its effect on the table before it.
  lemma EffectAt(lin: seq<Commit>, n: nat)
    requires Replay(lin).Some? && n < |lin|
    ensures Replay(lin[..n]).Some? && Replay(lin[..n + 1]).Some?
    ensures Replay(lin[..n + 1]) == Effect(Replay(lin[..n]).value, lin[n].op, lin[n].answer)
  {
    PrefixLegal(lin, n);
    PrefixLegal(lin, n + 1);
    assert lin[..n + 1][..n] == lin[..n];
  }

  // In a legal execution a get finds exactly the value of the latest
  // successful set of its key, and misses exactly when there is none.
  lemma GetsSeeLatestSet(lin: seq<Commit>, n: nat)
    requires Replay(lin).Some? && n < |lin| && lin[n].op.Get?
    ensures lin[n].answer.Found? ==> LastStored(lin[..n], lin[n].op.key) == Some(lin[n].answer.value)
    ensures lin[n].answer.Missing? ==> LastStored(lin[..n], lin[n].op.key) == None
    ensures !lin[n].answer.Stored?
  {
    PrefixLegal(lin, n);
    PrefixLegal(lin, n + 1);
    assert lin[..n + 1][..n] == lin[..n];
    ReplayIsLastStored(lin[..n], lin[n].op.key);
  }

  // ----- calls that compete ------------------------------------------------------

  // Call m had returned before event n.
  predicate ReturnedBefore(ext: seq<Event>, m: nat, n: nat) {
    exists p :: 0 <= p < n && p < |ext| && ext[p].Return? && ext[p].id == m
  }

  // Calls of two clients on one key that overlap in time: neither had returned
  // when the other was invoked.
  predicate Rivals(ext: seq<Event>, m: nat, n: nat) {
    && m < |ext| && n < |ext| && ext[m].Invoke? && ext[n].Invoke?
    && ext[m].client != ext[n].client && ext[m].op.key == ext[n].op.key
    && !ReturnedBefore(ext, m, n) && !ReturnedBefore(ext, n, m)
  }

  // No call of another client on the key overlaps call n.
  predicate Unrivalled(ext: seq<Event>, n: nat) {
    forall m | 0 <= m < |ext| :: !Rivals(ext, m, n)
  }

  // Only calls with a rival were answered busy.
  predicate BusyHasRival(ext: seq<Event>, lin: seq<Commit>) {
    forall a | 0 <= a < |lin| && lin[a].answer.Busy? :: !Unrivalled(ext, lin[a].id)
  }

  lemma RivalsStay(ext: seq<Event>, more: seq<Event>, n: nat)
    requires !Unrivalled(ext, n)
    ensures !Unrivalled(ext + more, n)
  {
    var m :| 0 <= m < |ext| && Rivals(ext, m, n);
    var ext' := ext + more;
    assert forall p | 0 <= p < |ext| :: ext'[p] == ext[p];
    assert Rivals(ext', m, n);
  }

  // The value of the last of several sets, when no other stored after it.
  lemma {:induction false} LastStoredAt(lin: seq<Commit>, a: nat, b: nat)
    requires a < b <= |lin| && lin[a].op.Set? && lin[a].answer.Stored?
    requires forall n | a < n < b :: !(lin[n].op.Set? && lin[n].op.key == lin[a].op.key && lin[n].answer.Stored?)
    ensures LastStored(lin[..b], lin[a].op.key) == Some(lin[a].op.value)
    decreases b
  {
    assert lin[..b][..b - 1] == lin[..b - 1];
    if b - 1 > a {
      LastStoredAt(lin, a, b - 1);
    }
  }

  // Call m had returned before call n was invoked, so it took effect earlier.
  lemma TookEffectBefore(ext: seq<Event>, lin: seq<Commit>, a: nat, b: nat)
    requires IsLinearization(ext, lin) && a < |lin| && b < |lin| && a != b
    requires ReturnedBefore(ext, lin[a].id, lin[b].id)
    ensures a < b
  {
    var p :| 0 <= p < lin[b].id && p < |ext| && ext[p].Return? && ext[p].id == lin[a].id;
  }
}
