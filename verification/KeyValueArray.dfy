// The server's database: a growable array of entries searched by key content.
// Methods work on the array in place; the functions over its used part say
// what they do, and the lemmas relate those to a finite map and to the cost of
// doubling.
module KeyValueArray {
  import opened Messages
  import opened ServerStore

  datatype Slot = Slot(key: CString, entry: Entry)

  // ----- the array as a sequence of slots ----------------------------------------

  // The first slot of the key, or the length if there is none.
  function Find(slots: seq<Slot>, k: CString): (i: nat)
    ensures i <= |slots|
    ensures i < |slots| ==> slots[i].key == k
    ensures forall j | 0 <= j < i :: slots[j].key != k
  {
    if slots == [] then 0
    else if slots[0].key == k then 0
    else
      var i := Find(slots[1..], k);
      assert forall j | 0 < j <= i :: slots[j] == slots[1..][j - 1];
      1 + i
  }

  function Inserted(slots: seq<Slot>, s: Slot): seq<Slot> {
    var i := Find(slots, s.key);
    if i < |slots| then slots[i := s] else slots + [s]
  }

  predicate Unique(slots: seq<Slot>) {
    forall i, j | 0 <= i < j < |slots| :: slots[i].key != slots[j].key
  }

  // The finite map the slots stand for.
  function Table(slots: seq<Slot>): map<CString, Entry> {
    if slots == [] then map[] else Table(slots[..|slots| - 1])[slots[|slots| - 1].key := slots[|slots| - 1].entry]
  }

  lemma {:induction false} TableHolds(slots: seq<Slot>)
    requires Unique(slots)
    ensures forall i | 0 <= i < |slots| :: slots[i].key in Table(slots) && Table(slots)[slots[i].key] == slots[i].entry
    ensures forall k | k in Table(slots) :: exists i :: 0 <= i < |slots| && slots[i].key == k
  {
    if slots != [] {
      var front, last := slots[..|slots| - 1], slots[|slots| - 1];
      TableHolds(front);
      forall k | k in Table(slots)
        ensures exists i :: 0 <= i < |slots| && slots[i].key == k
      {
        if k != last.key {
          assert k in Table(front);
          var i :| 0 <= i < |front| && front[i].key == k;
          assert slots[i].key == k;
        } else {
          assert slots[|slots| - 1].key == k;
        }
      }
      forall i | 0 <= i < |slots|
        ensures slots[i].key in Table(slots) && Table(slots)[slots[i].key] == slots[i].entry
      {
        if i < |front| {
          assert front[i] == slots[i];
        }
      }
    }
  }

  // A search finds exactly the keys of the map, with their entries.
  lemma FindIsLookup(slots: seq<Slot>, k: CString)
    requires Unique(slots)
    ensures k in Table(slots) <==> Find(slots, k) < |slots|
    ensures k in Table(slots) ==> Table(slots)[k] == slots[Find(slots, k)].entry
  {
    TableHolds(slots);
  }

  // Inserting is map update. Keys stay unique; the other slots keep their
  // place, and a new key goes to the end.
  lemma InsertIsUpdate(slots: seq<Slot>, s: Slot)
    requires Unique(slots)
    ensures Unique(Inserted(slots, s))
    ensures Table(Inserted(slots, s)) == Table(slots)[s.key := s.entry]
    ensures forall i | 0 <= i < |slots| && slots[i].key != s.key :: Inserted(slots, s)[i] == slots[i]
    ensures |Inserted(slots, s)| == |slots| + (if s.key in Table(slots) then 0 else 1)
  {
    FindIsLookup(slots, s.key);
    var i := Find(slots, s.key);
    hide Find;
    if i < |slots| {
      ReplaceIsUpdate(slots, i, s.entry);
      hide Unique, Table;
    } else {
      assert (slots + [s])[..|slots|] == slots;
    }
  }

  lemma {:induction false} ReplaceIsUpdate(slots: seq<Slot>, i: nat, e: Entry)
    requires Unique(slots) && i < |slots|
    ensures Unique(slots[i := Slot(slots[i].key, e)])
    ensures Table(slots[i := Slot(slots[i].key, e)]) == Table(slots)[slots[i].key := e]
  {
    var n := |slots| - 1;
    var slots' := slots[i := Slot(slots[i].key, e)];
    if i < n {
      ReplaceIsUpdate(slots[..n], i, e);
      assert slots'[..n] == slots[..n][i := Slot(slots[i].key, e)];
    } else {
      assert slots'[..n] == slots[..n];
    }
  }

  // ----- any sequence of operations --------------------------------------------------

  datatype Operation = Insert(slot: Slot) | SetLock(key: CString, mr: Option<nat>)

  function Performed(slots: seq<Slot>, op: Operation): seq<Slot> {
    match op
    case Insert(s) => Inserted(slots, s)
    case SetLock(k, mr) =>
      var i := Find(slots, k);
      if i < |slots| then slots[i := slots[i].(entry := slots[i].entry.(mr := mr))] else slots
  }

  function PerformedAll(ops: seq<Operation>): seq<Slot> {
    if ops == [] then [] else Performed(PerformedAll(ops[..|ops| - 1]), ops[|ops| - 1])
  }

  function Mapped(m: map<CString, Entry>, op: Operation): map<CString, Entry> {
    match op
    case Insert(s) => m[s.key := s.entry]
    case SetLock(k, mr) => if k in m then m[k := m[k].(mr := mr)] else m
  }

  function MappedAll(ops: seq<Operation>): map<CString, Entry> {
    if ops == [] then map[] else Mapped(MappedAll(ops[..|ops| - 1]), ops[|ops| - 1])
  }

  // Over every sequence of inserts, locks and unlocks the array is a finite
  // map, and searching it agrees with looking up in the map.
  lemma {:induction false} ArrayRefinesMap(ops: seq<Operation>)
    ensures Unique(PerformedAll(ops)) && Table(PerformedAll(ops)) == MappedAll(ops)
    ensures |PerformedAll(ops)| == |MappedAll(ops)|
    ensures forall k :: k in MappedAll(ops) <==> Find(PerformedAll(ops), k) < |PerformedAll(ops)|
    ensures forall k | k in MappedAll(ops) :: MappedAll(ops)[k] == PerformedAll(ops)[Find(PerformedAll(ops), k)].entry
  {
    if ops != [] {
      var before, op := ops[..|ops| - 1], ops[|ops| - 1];
      ArrayRefinesMap(before);
      var slots := PerformedAll(before);
      match op {
        case Insert(s) => InsertIsUpdate(slots, s);
        case SetLock(k, mr) =>
          FindIsLookup(slots, k);
          var i := Find(slots, k);
          if i < |slots| {
            ReplaceIsUpdate(slots, i, slots[i].entry.(mr := mr));
          }
      }
    }
    forall k
      ensures k in MappedAll(ops) <==> Find(PerformedAll(ops), k) < |PerformedAll(ops)|
      ensures k in MappedAll(ops) ==> MappedAll(ops)[k] == PerformedAll(ops)[Find(PerformedAll(ops), k)].entry
    {
      FindIsLookup(PerformedAll(ops), k);
    }
  }

  // ----- the cost of doubling ---------------------------------------------------------

  // The capacity after n distinct keys, from initial capacity c.
  function Capacity(c: nat, n: nat): nat {
    if n == 0 then c
    else
      var t := Capacity(c, n - 1);
      if n - 1 == t then 2 * t else t
  }

  // The elements all reallocations together have carried over.
  function Carried(c: nat, n: nat): nat {
    if n == 0 then 0
    else Carried(c, n - 1) + (if n - 1 == Capacity(c, n - 1) then n - 1 else 0)
  }

  function Doubled(c: nat, j: nat): nat {
    if j == 0 then c else 2 * Doubled(c, j - 1)
  }

  // The array always has room, its capacity is the initial one doubled some
  // number of times, and growing has cost fewer than two moves per key.
  lemma {:induction false} DoublingCost(c: nat, n: nat) returns (j: nat)
    requires c >= 1
    ensures Capacity(c, n) == Doubled(c, j) && n <= Capacity(c, n)
    ensures Carried(c, n) == Capacity(c, n) - c
    ensures n > c ==> Capacity(c, n) < 2 * n && j > 0
    ensures n <= c ==> Capacity(c, n) == c && Carried(c, n) == 0
    ensures n > 0 ==> Carried(c, n) < 2 * n
  {
    if n == 0 {
      j := 0;
    } else {
      j := DoublingCost(c, n - 1);
      if n - 1 == Capacity(c, n - 1) {
        j := j + 1;
      }
    }
  }

  // Growing by doubling makes room for every key exactly when the array starts
  // with room for one.
  lemma RoomExactly(c: nat)
    ensures (forall n: nat :: n <= Capacity(c, n)) <==> c >= 1
  {
    if c == 0 {
      assert Capacity(c, 1) == 0;
    } else {
      forall n: nat
        ensures n <= Capacity(c, n)
      {
        var j := DoublingCost(c, n);
      }
    }
  }

  // ----- the array itself --------------------------------------------------------------

  class KeyValueAddressArray {
    var head: array<Slot>
    var usedLength: nat
    var totalLength: nat
    ghost const initialSize: nat
    ghost var moved: nat

    ghost predicate Valid()
      reads this, head
    {
      && initialSize >= 1
      && usedLength <= totalLength == head.Length
      && Unique(head[..usedLength])
      && totalLength == Capacity(initialSize, usedLength) && moved == Carried(initialSize, usedLength)
    }

    // The slots in use.
    ghost function Slots(): (s: seq<Slot>)
      reads this, head
      requires Valid()
    {
      head[..usedLength]
    }

    constructor (initialSize: nat)
      ensures fresh(head) && usedLength == 0 && totalLength == head.Length == this.initialSize == initialSize
      ensures initialSize >= 1 ==> Valid() && Slots() == []
    {
      this.initialSize := initialSize;
      head := new Slot[initialSize];
      totalLength := initialSize;
      usedLength := 0;
      moved := 0;
    }

    // realloc: a larger block with the old elements in front.
    method Grow()
      requires usedLength == totalLength == head.Length && Unique(head[..usedLength])
      modifies this`head, this`totalLength, this`moved
      ensures fresh(head) && head.Length == totalLength == 2 * old(totalLength)
      ensures head[..usedLength] == old(head[..usedLength]) && moved == old(moved) + usedLength
    {
      totalLength := totalLength * 2;
      var larger := new Slot[totalLength];
      forall i | 0 <= i < usedLength {
        larger[i] := head[i];
      }
      moved := moved + usedLength;
      head := larger;
    }

    method InsertEntry(slot: Slot)
      requires Valid()
      modifies this, head
      ensures Valid() && (head == old(head) || fresh(head))
      ensures Slots() == Inserted(old(Slots()), slot)
      ensures Table(Slots()) == Table(old(Slots()))[slot.key := slot.entry]
    {
      InsertIsUpdate(Slots(), slot);
      for i := 0 to usedLength
        invariant Valid() && head == old(head) && Slots() == old(Slots())
        invariant forall n | 0 <= n < i :: head[n].key != slot.key
      {
        if head[i].key == slot.key {
          assert Find(Slots(), slot.key) == i;
          head[i] := slot;
          assert Slots() == Inserted(old(Slots()), slot);
          return;
        }
      }
      assert Find(Slots(), slot.key) == usedLength;
      Append(slot);
    }

    // The tail of the insertion: a key that is not in the array yet.
    method Append(slot: Slot)
      requires Valid() && Unique(Slots() + [slot])
      modifies this, head
      ensures Valid() && (head == old(head) || fresh(head))
      ensures Slots() == old(Slots()) + [slot]
    {
      ghost var j := DoublingCost(initialSize, usedLength);
      if usedLength == totalLength {
        Grow();
      }
      head[usedLength] := slot;
      usedLength := usedLength + 1;
      assert head[..usedLength] == old(Slots()) + [slot];
    }

    // get_KeyValueAddressPair: a reference to the slot of the key, or None.
    method GetPair(key: CString) returns (found: Option<nat>)
      requires Valid()
      ensures found.Some? ==> found.value < usedLength && found.value == Find(Slots(), key)
      ensures found.Some? <==> key in Table(Slots())
      ensures found.Some? ==> Table(Slots())[key] == head[found.value].entry && head[found.value].key == key
    {
      FindIsLookup(Slots(), key);
      for i := 0 to usedLength
        invariant forall n | 0 <= n < i :: head[n].key != key
      {
        if head[i].key == key {
          assert Find(Slots(), key) == i;
          return Some(i);
        }
      }
      assert Find(Slots(), key) == usedLength;
      return None;
    }

    // Assigning through such a reference.
    method SetRegistration(i: nat, mr: Option<nat>)
      requires Valid() && i < usedLength
      modifies head
      ensures Valid() && Slots() == old(Slots())[i := old(Slots())[i].(entry := old(Slots())[i].entry.(mr := mr))]
      ensures Table(Slots()) == Table(old(Slots()))[old(head[i].key) := old(head[i].entry).(mr := mr)]
    {
      ReplaceIsUpdate(Slots(), i, head[i].entry.(mr := mr));
      head[i] := Slot(head[i].key, head[i].entry.(mr := mr));
      assert Slots() == old(Slots())[i := old(Slots())[i].(entry := old(Slots())[i].entry.(mr := mr))];
    }
  }
}
