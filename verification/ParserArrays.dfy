// The string arrays a Parser owns by hand: allocated, copied and freed on an explicit
// heap, so that freeing something twice or using something freed would not verify.

module ParserArrays {

  // An allocation: a character array or an array of pointers. 0 is the null pointer.
  datatype Block = Text(text: string) | Table(slots: seq<nat>)

  type Blocks = map<nat, Block>

  class Heap {
    var blocks: Blocks
    var next: nat

    ghost predicate Valid()
      reads this
    {
      next > 0 && forall p :: p in blocks ==> 0 < p < next
    }

    constructor ()
      ensures Valid() && blocks == map[]
    {
      blocks, next := map[], 1;
    }

    method New(b: Block) returns (p: nat)
      requires Valid()
      modifies this
      ensures Valid() && p == old(next) && next == old(next) + 1 && blocks == old(blocks)[p := b]
    {
      p := next;
      blocks, next := blocks[p := b], next + 1;
    }

    // delete: only of what is allocated.
    method Delete(p: nat)
      requires Valid() && p in blocks
      modifies this
      ensures Valid() && blocks == old(blocks) - {p} && next == old(next)
    {
      blocks := blocks - {p};
    }

    method SetSlot(p: nat, i: nat, q: nat)
      requires Valid() && p in blocks && blocks[p].Table? && i < |blocks[p].slots|
      modifies this
      ensures Valid() && next == old(next)
      ensures blocks == old(blocks)[p := Table(old(blocks)[p].slots[i := q])]
    {
      blocks := blocks[p := Table(blocks[p].slots[i := q])];
    }
  }

  // An array of n strings ended by a null slot, all of it allocated, nothing twice.
  ghost predicate Owns(b: Blocks, p: nat, n: nat) {
    && p in b && b[p].Table? && |b[p].slots| == n + 1 && b[p].slots[n] == 0
    && (forall i :: 0 <= i < n ==> b[p].slots[i] in b && b[b[p].slots[i]].Text?)
    && (forall i, j :: 0 <= i < j < n ==> b[p].slots[i] != b[p].slots[j])
  }

  ghost function Foot(b: Blocks, p: nat, n: nat): set<nat>
    requires Owns(b, p, n)
  {
    {p} + set i | 0 <= i < n :: b[p].slots[i]
  }

  ghost function Content(b: Blocks, p: nat, n: nat): seq<string>
    requires Owns(b, p, n)
  {
    seq(n, i requires 0 <= i < n && Owns(b, p, n) => b[b[p].slots[i]].text)
  }

  // Blocks of b that are not in gone are still there, unchanged.
  ghost predicate Keeps(b: Blocks, c: Blocks, gone: set<nat>) {
    forall p :: p in b && p !in gone ==> p in c && c[p] == b[p]
  }

  // An array nobody touched is still owned, with the same footprint and content.
  lemma OwnsKept(b: Blocks, c: Blocks, gone: set<nat>, p: nat, n: nat)
    requires Owns(b, p, n) && Keeps(b, c, gone) && Foot(b, p, n) !! gone
    ensures Owns(c, p, n) && Foot(c, p, n) == Foot(b, p, n) && Content(c, p, n) == Content(b, p, n)
  {
    assert p in Foot(b, p, n);
    assert c[p] == b[p];
    forall i | 0 <= i < n ensures b[p].slots[i] in c && c[b[p].slots[i]] == b[b[p].slots[i]] {
      assert b[p].slots[i] in Foot(b, p, n);
    }
  }

  // The loop of constructing_massives and copying_massives for one array.
  method AllocTable(heap: Heap, texts: seq<string>) returns (p: nat)
    requires heap.Valid()
    modifies heap
    ensures heap.Valid() && Keeps(old(heap.blocks), heap.blocks, {}) && p == old(heap.next)
    ensures Owns(heap.blocks, p, |texts|) && Content(heap.blocks, p, |texts|) == texts
    ensures forall q :: q in Foot(heap.blocks, p, |texts|) ==> q >= old(heap.next)
    ensures heap.next >= old(heap.next)
    ensures heap.blocks.Keys == old(heap.blocks).Keys + Foot(heap.blocks, p, |texts|)
  {
    var n := |texts|;
    p := heap.New(Table(seq(n + 1, _ => 0)));
    for i := 0 to n
      invariant heap.Valid() && Keeps(old(heap.blocks), heap.blocks, {})
      invariant p in heap.blocks && heap.blocks[p].Table? && |heap.blocks[p].slots| == n + 1
      invariant heap.next == p + 1 + i && heap.blocks[p].slots[n] == 0
      invariant forall k :: 0 <= k < i ==> heap.blocks[p].slots[k] == p + 1 + k
      invariant forall k :: 0 <= k < i ==> p + 1 + k in heap.blocks && heap.blocks[p + 1 + k] == Text(texts[k])
      invariant forall q :: q in heap.blocks <==> q in old(heap.blocks) || p <= q < p + 1 + i
    {
      var s := heap.New(Text(texts[i]));
      heap.SetSlot(p, i, s);
    }
    forall i | 0 <= i < n
      ensures heap.blocks[p].slots[i] in heap.blocks && heap.blocks[heap.blocks[p].slots[i]] == Text(texts[i])
    {
      assert heap.blocks[p + 1 + i] == Text(texts[i]);
    }
    assert Owns(heap.blocks, p, n);
    forall q ensures q in heap.blocks.Keys <==> q in old(heap.blocks).Keys + Foot(heap.blocks, p, n) {
      if p < q <= p + n {
        assert heap.blocks[p].slots[q - p - 1] == q;
      }
    }
  }

  // The loops of clearing_massives for one array: each string, then the array.
  method FreeTable(heap: Heap, p: nat, n: nat)
    requires heap.Valid() && Owns(heap.blocks, p, n)
    modifies heap
    ensures heap.Valid() && heap.next == old(heap.next)
    ensures heap.blocks == old(heap.blocks) - Foot(old(heap.blocks), p, n)
  {
    ghost var b := heap.blocks;
    ghost var freed: set<nat> := {};
    for i := 0 to n
      invariant heap.Valid() && heap.next == old(heap.next)
      invariant freed == set k | 0 <= k < i :: b[p].slots[k]
      invariant heap.blocks == b - freed && p !in freed
    {
      heap.Delete(heap.blocks[p].slots[i]);
      freed := freed + {b[p].slots[i]};
    }
    heap.Delete(p);
    assert freed + {p} == Foot(b, p, n);
  }

  class Parser {
    const heap: Heap
    var size: nat
    var keywords: nat
    var values: nat

    // A parser with entries owns both arrays, and they share nothing.
    ghost predicate Valid()
      reads this, heap
    {
      heap.Valid() &&
      (size != 0 ==>
         && Owns(heap.blocks, keywords, size) && Owns(heap.blocks, values, size)
         && Foot(heap.blocks, keywords, size) !! Foot(heap.blocks, values, size))
    }

    ghost function Footprint(): set<nat>
      requires Valid()
      reads this, heap
    {
      if size == 0 then {} else Foot(heap.blocks, keywords, size) + Foot(heap.blocks, values, size)
    }

    ghost function Keys(): seq<string>
      requires Valid()
      reads this, heap
    {
      if size == 0 then [] else Content(heap.blocks, keywords, size)
    }

    ghost function Values(): seq<string>
      requires Valid()
      reads this, heap
    {
      if size == 0 then [] else Content(heap.blocks, values, size)
    }

    constructor (h: Heap)
      requires h.Valid()
      ensures heap == h && Valid() && size == 0 && Footprint() == {} && Keys() == [] && Values() == []
    {
      heap, size, keywords, values := h, 0, 0, 0;
    }

    // constructing_massives, on a parser that owns nothing yet. Everything allocated is
    // owned afterwards exactly when the section has an entry.
    method ConstructingMassives(keys: seq<string>, texts: seq<string>)
      requires Valid() && size == 0 && |keys| == |texts|
      modifies this, heap
      ensures Valid() && size == |keys| && Keys() == keys && Values() == texts
      ensures Keeps(old(heap.blocks), heap.blocks, {}) && forall q :: q in Footprint() ==> q >= old(heap.next)
      ensures heap.blocks.Keys == old(heap.blocks).Keys + Footprint() <==> size != 0
    {
      size := |keys|;
      keywords := AllocTable(heap, keys);
      ghost var b := heap.blocks;
      values := AllocTable(heap, texts);
      OwnsKept(b, heap.blocks, {}, keywords, size);
      assert keywords in Foot(heap.blocks, keywords, size);
    }

    // clearing_massives: frees the footprint and nothing else. The fields keep their
    // values.
    method ClearingMassives()
      requires Valid()
      modifies heap
      ensures heap.Valid() && heap.next == old(heap.next)
      ensures heap.blocks == old(heap.blocks) - old(Footprint())
    {
      if size != 0 {
        ghost var b := heap.blocks;
        FreeTable(heap, values, size);
        OwnsKept(b, heap.blocks, Foot(b, values, size), keywords, size);
        FreeTable(heap, keywords, size);
      }
    }

    // A deep copy of the entries of p, whose array pointers may be stale when p has
    // no entries: they are compared with null and not followed.
    method CopyingMassives(p: Parser)
      requires heap == p.heap && p.Valid() && this != p && size == p.size
      modifies this, heap
      ensures Valid() && size == old(size)
      ensures p.Valid() && p.Keys() == old(p.Keys()) && p.Values() == old(p.Values())
      ensures p.Footprint() == old(p.Footprint())
      ensures Keys() == p.Keys() && Values() == p.Values()
      ensures Keeps(old(heap.blocks), heap.blocks, {}) && forall q :: q in Footprint() ==> q >= old(heap.next)
      ensures heap.blocks.Keys == old(heap.blocks).Keys + Footprint() <==> size != 0
    {
      ghost var b0 := heap.blocks;
      var texts := ReadTable(heap, p.values, size);
      var keys := ReadTable(heap, p.keywords, size);
      values := AllocTable(heap, texts);
      ghost var b1 := heap.blocks;
      assert values in b1 && values !in b0;
      if size == 0 {
        if p.keywords != 0 {
          keywords := AllocTable(heap, keys);
        }
      } else {
        assert p.keywords != 0;
        keywords := AllocTable(heap, keys);
        OwnsKept(b1, heap.blocks, {}, values, size);
        OwnsKept(b0, b1, {}, p.values, size);
        OwnsKept(b1, heap.blocks, {}, p.values, size);
        OwnsKept(b0, b1, {}, p.keywords, size);
        OwnsKept(b1, heap.blocks, {}, p.keywords, size);
      }
    }

    // operator=: the old arrays go, the new ones are the parser's own, and the right
    // side and every other parser on the heap keep theirs.
    method Assign(rhs: Parser)
      requires Valid() && rhs.Valid() && heap == rhs.heap
      requires this != rhs ==> Footprint() !! rhs.Footprint()
      modifies this, heap
      ensures Valid() && rhs.Valid()
      ensures Keys() == rhs.Keys() == old(rhs.Keys()) && Values() == rhs.Values() == old(rhs.Values())
      ensures rhs.Footprint() == old(rhs.Footprint())
      ensures this == rhs ==> heap.blocks == old(heap.blocks)
      ensures this != rhs ==> Footprint() !! rhs.Footprint() && Footprint() !! old(heap.blocks).Keys
      ensures Keeps(old(heap.blocks), heap.blocks, if this == rhs then {} else old(Footprint()))
      ensures this != rhs ==>
        (heap.blocks.Keys == old(heap.blocks).Keys - old(Footprint()) + Footprint() <==> rhs.size != 0)
    {
      if this == rhs {
        return;
      }
      ghost var b0, mine := heap.blocks, Footprint();
      ghost var k, v, n := rhs.keywords, rhs.values, rhs.size;
      ClearingMassives();
      ghost var b1 := heap.blocks;
      assert b1.Keys == b0.Keys - mine;
      assert Keeps(b0, b1, mine);
      if n != 0 {
        OwnsKept(b0, b1, mine, k, n);
        OwnsKept(b0, b1, mine, v, n);
      }
      size := rhs.size;
      CopyFrom(rhs, b0, mine);
    }

    // The copy at the end of operator=, when this parser's own fields are stale.
    method CopyFrom(rhs: Parser, ghost before: Blocks, ghost mine: set<nat>)
      requires heap == rhs.heap && rhs.Valid() && this != rhs && size == rhs.size
      requires heap.blocks == before - mine && mine <= before.Keys && mine !! rhs.Footprint()
      requires forall p :: p in before ==> p < heap.next
      modifies this, heap
      ensures Valid() && rhs.Valid()
      ensures Keys() == rhs.Keys() == old(rhs.Keys()) && Values() == rhs.Values() == old(rhs.Values())
      ensures rhs.Footprint() == old(rhs.Footprint())
      ensures Footprint() !! rhs.Footprint() && Footprint() !! before.Keys
      ensures Keeps(before, heap.blocks, mine)
      ensures heap.blocks.Keys == before.Keys - mine + Footprint() <==> rhs.size != 0
    {
      CopyingMassives(rhs);
    }
  }

  // The strings of one array, read for copying; nothing is followed when n is 0.
  method ReadTable(heap: Heap, p: nat, n: nat) returns (texts: seq<string>)
    requires n != 0 ==> Owns(heap.blocks, p, n)
    ensures n == 0 ==> texts == []
    ensures n != 0 ==> texts == Content(heap.blocks, p, n)
  {
    texts := [];
    for i := 0 to n
      invariant |texts| == i
      invariant forall k :: 0 <= k < i ==> texts[k] == heap.blocks[heap.blocks[p].slots[k]].text
    {
      texts := texts + [heap.blocks[heap.blocks[p].slots[i]].text];
    }
  }

  // ---- validate_parsed ----

  // Overrun: the loop reads a name past the expected ones, and what comes of that is
  // not defined.
  datatype Verdict = TooFew | WrongKey(expected: string) | Good | Overrun

  // Good means the keys are the expected ones, in order; the first one that differs is
  // reported; the expected names are overrun exactly when all of them match and there
  // are more keys.
  method ValidateParsed(keys: seq<string>, expected: seq<string>) returns (v: Verdict)
    ensures v == TooFew <==> |keys| < |expected|
    ensures v == Good <==> keys == expected
    ensures v == Overrun <==> |keys| > |expected| && keys[..|expected|] == expected
    ensures v.WrongKey? ==> exists k :: 0 <= k < |expected| && v.expected == expected[k]
                                       && keys[..k] == expected[..k] && keys[k] != expected[k]
  {
    if |keys| < |expected| {
      return TooFew;
    }
    for i := 0 to |keys|
      invariant i <= |expected| && forall k :: 0 <= k < i ==> keys[k] == expected[k]
    {
      if i == |expected| {
        return Overrun;
      }
      if keys[i] != expected[i] {
        assert keys[..i] == expected[..i];
        assert keys[..|expected|][i] == keys[i];
        return WrongKey(expected[i]);
      }
    }
    return Good;
  }
}
