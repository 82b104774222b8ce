// Where a new block fits: blocks of bounded length at arbitrary places always
// leave a gap in a large enough address space.
module Allocation {
  import opened Messages
  import opened ServerStore
  import opened Protocol

  lemma {:induction false} SubsetSize(a: set<nat>, b: set<nat>)
    requires a <= b
    ensures |a| <= |b|
  {
    if x :| x in a {
      SubsetSize(a - {x}, b - {x});
    }
  }

  lemma FreeBelow(used: set<nat>, limit: nat) returns (x: nat)
    requires |used| < limit
    ensures x < limit && x !in used
  {
    if Range(limit) <= used {
      SubsetSize(Range(limit), used);
    }
    x :| x in Range(limit) && x !in used;
  }

  // Where a block starts and ends, in slots of the given width.
  function First(a: nat, width: nat): nat
    requires width > 0
  {
    a / width
  }

  function Last(a: nat, n: nat, width: nat): nat
    requires width > 0
  {
    (a + n) / width
  }

  // Blocks start and end in at most two slots each.
  lemma {:induction false} Touched(heap: map<nat, seq<byte>>, addrs: set<nat>, width: nat) returns (slots: set<nat>)
    requires width > 0 && addrs <= heap.Keys
    ensures |slots| <= 2 * |addrs|
    ensures forall a | a in addrs :: First(a, width) in slots && Last(a, |heap[a]|, width) in slots
  {
    slots := {};
    if a :| a in addrs {
      var rest := Touched(heap, addrs - {a}, width);
      hide First, Last;
      slots := rest + {First(a, width)} + {Last(a, |heap[a]|, width)};
    }
  }

  lemma Below(a: nat, x: nat, width: nat)
    requires width > 0 && a / width < x
    ensures a < x * width
  {
    assert a == (a / width) * width + a % width;
    assert (a / width + 1) * width <= x * width by {
      Times(a / width + 1, x, width);
    }
  }

  lemma Above(a: nat, x: nat, width: nat)
    requires width > 0 && a / width > x
    ensures a >= x * width + width
  {
    assert a == (a / width) * width + a % width;
    assert (x + 1) * width <= (a / width) * width by {
      Times(x + 1, a / width, width);
    }
  }

  lemma Times(a: nat, b: nat, c: nat)
    requires a <= b
    ensures a * c <= b * c
  {
    assert b * c - a * c == (b - a) * c;
  }

  // A block no longer than a slot keeps clear of a slot in which it neither
  // starts nor ends.
  lemma ClearOf(a: nat, n: nat, x: nat, width: nat)
    requires width > 0 && n <= width && First(a, width) != x && Last(a, n, width) != x
    ensures Apart(a, n, x * width, width) && a != x * width
  {
    if First(a, width) < x {
      Below(a, x, width);
      if Last(a, n, width) > x {
        Above(a + n, x, width);
      } else {
        Below(a + n, x, width);
      }
    } else {
      Above(a, x, width);
    }
  }

  lemma Place(heap: map<nat, seq<byte>>, width: nat, limit: nat) returns (addr: nat)
    requires width > 0 && forall a | a in heap :: |heap[a]| <= width
    requires (2 * |heap.Keys| + 1) * width <= limit
    ensures addr !in heap && addr + width <= limit
    ensures forall a | a in heap :: Apart(a, |heap[a]|, addr, width)
  {
    var slots := Touched(heap, heap.Keys, width);
    hide First, Last, Apart;
    var x := FreeBelow(slots, 2 * |heap.Keys| + 1);
    addr := x * width;
    Times(x + 1, 2 * |heap.Keys| + 1, width);
    forall a | a in heap
      ensures Apart(a, |heap[a]|, addr, width) && a != addr
    {
      ClearOf(a, |heap[a]|, x, width);
    }
  }
}
