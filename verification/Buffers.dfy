/** Buffers that the Rust side of the C layer allocates and that C or C++ code releases.
    Structures are objects that are filled and cleared in place; a structure embedded in
    another is a constant field. Freeing or reading a buffer has the precondition that it is
    live and as it was allocated, so a double free does not verify. */
module Buffers {
  import opened Base

  type Ptr = nat           // an address; 0 is the null pointer
  type Bytes = seq<bv8>    // a byte buffer, or a string in UTF-8

  // ---------- messages ----------

  datatype SourceInfo = SourceInfo(id: Bytes, sequence: nat)
  datatype Sample = Sample(keyExpr: Bytes, payload: Bytes, encoding: Bytes, kind: int,
                           attachment: Bytes, timestamp: Bytes, sourceInfo: Option<SourceInfo>)
  datatype ReplyError = ReplyError(payload: Bytes, encoding: Bytes)
  datatype Reply = SampleReply(sample: Sample) | ErrorReply(error: ReplyError)
  datatype Query = Query(queryId: QueryId, selector: Bytes, keyExpr: Bytes, parameters: Bytes,
                         payload: Bytes, encoding: Bytes, attachment: Bytes)

  /** Texts with an interior NUL cannot become C strings; the conversion panics on them. */
  predicate Clean(s: Bytes) { 0 !in s }

  predicate CleanSource(s: Option<SourceInfo>) { s.Some? ==> Clean(s.value.id) }

  predicate CleanSample(s: Sample) {
    Clean(s.keyExpr) && Clean(s.encoding) && Clean(s.timestamp) && CleanSource(s.sourceInfo)
  }

  predicate CleanReply(r: Option<Reply>) {
    match r
    case Some(SampleReply(s)) => CleanSample(s)
    case Some(ErrorReply(e)) => Clean(e.encoding)
    case None => true
  }

  predicate CleanQuery(q: Query) {
    Clean(q.selector) && Clean(q.keyExpr) && Clean(q.parameters) && Clean(q.encoding)
  }

  /** A panic inside an exported C function ends the process. */
  datatype Outcome = Fine | Panic {
    predicate IsFailure() { Panic? }
    function PropagateFailure(): Outcome { this }
  }

  datatype Made = Made(p: Ptr) | Panicked {
    predicate IsFailure() { Panicked? }
    function PropagateFailure(): Outcome { Panic }
    function Extract(): Ptr requires Made? { p }
  }

  // ---------- blocks and slots ----------

  /** A C string, the memory of a vector with its capacity, or a boxed reply stream with the
      replies it still has to give. */
  datatype Block = Text(data: Bytes) | Raw(data: Bytes, capacity: nat) | Boxed(replies: seq<Option<Reply>>)

  type Live = map<Ptr, Block>

  function DataOf(b: Block): Bytes { if b.Boxed? then [] else b.data }

  function DataAt(live: Live, p: Ptr): Bytes { if p in live then DataOf(live[p]) else [] }

  /** `live` after freeing `p`, which does nothing for the null pointer. */
  function Freed(live: Live, p: Ptr): Live { live - {p} }

  /** A pointer field of a structure: a string, or a buffer with its length. */
  datatype Slot = Str(p: Ptr) | Buf(p: Ptr, len: nat)

  /** The slot may be freed: null, or live and exactly what the free function rebuilds, which
      for a buffer is a vector whose capacity is its length. */
  predicate Freeable(live: Live, s: Slot) {
    s.p == 0 || (s.p in live &&
      match s
      case Str(p) => live[p].Text?
      case Buf(p, len) => live[p].Raw? && |live[p].data| == len == live[p].capacity && len > 0)
  }

  /** The slots can be freed one after the other; so no two of them share a buffer. */
  predicate Owned(live: Live, slots: seq<Slot>) {
    slots == [] || (Freeable(live, slots[0]) && Owned(Freed(live, slots[0].p), slots[1..]))
  }

  /** What stays live once the slots are freed. */
  function Rest(live: Live, slots: seq<Slot>): Live {
    if slots == [] then live else Rest(Freed(live, slots[0].p), slots[1..])
  }

  predicate AllNull(slots: seq<Slot>) { forall i :: 0 <= i < |slots| ==> slots[i].p == 0 }

  // ---------- what holds of all slots ----------

  lemma {:induction false} Shrinks(live: Live, slots: seq<Slot>)
    ensures forall q :: q in Rest(live, slots) ==> q in live && Rest(live, slots)[q] == live[q]
    ensures forall i :: 0 <= i < |slots| ==> slots[i].p !in Rest(live, slots)
  {
    if slots != [] {
      Shrinks(Freed(live, slots[0].p), slots[1..]);
      forall i | 0 <= i < |slots| ensures slots[i].p !in Rest(live, slots) {
        if i > 0 { assert slots[1..][i - 1] == slots[i]; }
      }
    }
  }

  lemma {:induction false} Nulls(live: Live, slots: seq<Slot>)
    requires 0 !in live && AllNull(slots)
    ensures Owned(live, slots) && Rest(live, slots) == live
  {
    if slots != [] {
      assert slots[0].p == 0 && Freed(live, 0) == live;
      assert forall i :: 0 <= i < |slots| - 1 ==> slots[1..][i] == slots[i + 1];
      Nulls(live, slots[1..]);
    }
  }

  lemma {:induction false} Appended(live: Live, a: seq<Slot>, b: seq<Slot>)
    ensures Owned(live, a + b) <==> Owned(live, a) && Owned(Rest(live, a), b)
    ensures Rest(live, a + b) == Rest(Rest(live, a), b)
  {
    if a == [] {
      assert a + b == b;
    } else {
      assert (a + b)[1..] == a[1..] + b;
      Appended(Freed(live, a[0].p), a[1..], b);
    }
  }

  /** A block outside the slots can be released before them. */
  lemma {:induction false} Apart(live: Live, slots: seq<Slot>, q: Ptr)
    requires 0 !in live && Owned(live, slots) && (q == 0 || q in Rest(live, slots))
    ensures Owned(Freed(live, q), slots) && Rest(Freed(live, q), slots) == Freed(Rest(live, slots), q)
  {
    if slots != [] {
      var p := slots[0].p;
      Shrinks(live, slots);
      assert Freed(Freed(live, q), p) == Freed(Freed(live, p), q);
      Apart(Freed(live, p), slots[1..], q);
    }
  }

  /** Two groups of slots can be freed in either order. */
  lemma {:induction false} Swapped(live: Live, a: seq<Slot>, b: seq<Slot>)
    requires 0 !in live && Owned(live, a) && Owned(Rest(live, a), b)
    ensures Owned(live, b) && Owned(Rest(live, b), a)
    ensures Rest(Rest(live, a), b) == Rest(Rest(live, b), a)
    decreases |b|
  {
    if b != [] {
      Shrinks(live, a);
      Apart(live, a, b[0].p);
      Swapped(Freed(live, b[0].p), a, b[1..]);
    }
  }

  /** Once freed, slots that still hold their pointers can be freed again exactly if they were
      all null. */
  lemma {:induction false} FreedAgain(live: Live, slots: seq<Slot>)
    requires 0 !in live && Owned(live, slots)
    ensures Owned(Rest(live, slots), slots) <==> AllNull(slots)
  {
    var rest := Rest(live, slots);
    Shrinks(live, slots);
    if AllNull(slots) {
      Nulls(rest, slots);
    } else {
      var i :| 0 <= i < |slots| && slots[i].p != 0;
      if Owned(rest, slots) { OwnedLive(rest, slots, i); }
    }
  }

  lemma {:induction false} OwnedLive(live: Live, slots: seq<Slot>, i: nat)
    requires Owned(live, slots) && i < |slots|
    ensures slots[i].p == 0 || slots[i].p in live
  {
    if i > 0 { OwnedLive(Freed(live, slots[0].p), slots[1..], i - 1); }
  }

  /** When the slots before `k` are freed, slot `k` is still there with its contents. */
  lemma Stage(live: Live, slots: seq<Slot>, k: nat)
    requires 0 !in live && Owned(live, slots) && k < |slots|
    ensures var now := Rest(live, slots[..k]);
      && Freeable(now, slots[k]) && DataAt(now, slots[k].p) == DataAt(live, slots[k].p)
      && Rest(live, slots[..k + 1]) == Freed(now, slots[k].p)
  {
    var now := Rest(live, slots[..k]);
    assert slots[..k] + slots[k..] == slots && slots[..k] + [slots[k]] == slots[..k + 1];
    Appended(live, slots[..k], slots[k..]);
    Appended(live, slots[..k], [slots[k]]);
    Shrinks(live, slots[..k]);
    assert Rest(now, [slots[k]]) == Rest(Freed(now, slots[k].p), [slots[k]][1..]);
  }

  /** The stages of freeing two, three and six slots. */
  lemma TwoStages(live: Live, s: seq<Slot>)
    requires 0 !in live && Owned(live, s) && |s| == 2
    ensures var l1 := Freed(live, s[0].p);
      && Freeable(live, s[0]) && Freeable(l1, s[1]) && Rest(live, s) == Freed(l1, s[1].p)
      && DataAt(l1, s[1].p) == DataAt(live, s[1].p)
  {
    Stage(live, s, 0);
    Stage(live, s, 1);
    assert s[..2] == s && s[..0] == [];
  }

  lemma ThreeStages(live: Live, s: seq<Slot>)
    requires 0 !in live && Owned(live, s) && |s| == 3
    ensures var l1 := Freed(live, s[0].p); var l2 := Freed(l1, s[1].p);
      && Freeable(live, s[0]) && Freeable(l1, s[1]) && Freeable(l2, s[2]) && Rest(live, s) == Freed(l2, s[2].p)
      && DataAt(l1, s[1].p) == DataAt(live, s[1].p) && DataAt(l2, s[2].p) == DataAt(live, s[2].p)
  {
    assert s[..2] + [s[2]] == s;
    Appended(live, s[..2], [s[2]]);
    TwoStages(live, s[..2]);
    Stage(live, s, 2);
    assert s[..3] == s;
  }

  lemma SixStages(live: Live, s: seq<Slot>)
    requires 0 !in live && Owned(live, s) && |s| == 6
    ensures var l1 := Freed(live, s[0].p);
      var l2 := Freed(l1, s[1].p);
      var l3 := Freed(l2, s[2].p);
      var l4 := Freed(l3, s[3].p);
      var l5 := Freed(l4, s[4].p);
      && Freeable(live, s[0]) && Freeable(l1, s[1]) && Freeable(l2, s[2])
      && Freeable(l3, s[3]) && Freeable(l4, s[4]) && Freeable(l5, s[5]) && Rest(live, s) == Freed(l5, s[5].p)
      && DataAt(l1, s[1].p) == DataAt(live, s[1].p) && DataAt(l2, s[2].p) == DataAt(live, s[2].p)
      && DataAt(l3, s[3].p) == DataAt(live, s[3].p) && DataAt(l4, s[4].p) == DataAt(live, s[4].p)
      && DataAt(l5, s[5].p) == DataAt(live, s[5].p)
  {
    var a, b := s[..3], s[3..];
    assert a + b == s;
    Appended(live, a, b);
    ThreeStages(live, a);
    Shrinks(live, a);
    ThreeStages(Rest(live, a), b);
    forall j | 0 <= j < 3 ensures DataAt(Rest(live, a), b[j].p) == DataAt(live, b[j].p) {
      OwnedLive(Rest(live, a), b, j);
    }
  }

  /** Of two groups either can be taken first, leaving null slots; the structure can then still
      be freed, and what is left in the end is the same. */
  lemma TakenPart(live: Live, a: seq<Slot>, b: seq<Slot>, n: seq<Slot>)
    requires 0 !in live && Owned(live, a + b) && AllNull(n)
    ensures Owned(live, a) && Owned(Rest(live, a), n + b) && Rest(Rest(live, a), n + b) == Rest(live, a + b)
    ensures Owned(live, b) && Owned(Rest(live, b), a + n) && Rest(Rest(live, b), a + n) == Rest(live, a + b)
  {
    Appended(live, a, b);
    Swapped(live, a, b);
    Shrinks(live, a);
    Nulls(Rest(live, a), n);
    Appended(Rest(live, a), n, b);
    Shrinks(live, b);
    Appended(Rest(live, b), a, n);
    Shrinks(Rest(live, b), a);
    Nulls(Rest(Rest(live, b), a), n);
  }

  /** Slots `g` handed to somebody else, leaving null slots: the structure can be freed, and
      then exactly `g` is left besides what was there before, with its contents. */
  lemma HandedOver(live: Live, g: seq<Slot>, x: seq<Slot>, n: seq<Slot>)
    requires 0 !in live && Owned(live, g + x) && AllNull(n)
    ensures Owned(live, n + x) && Owned(Rest(live, n + x), g) && Rest(Rest(live, n + x), g) == Rest(live, g + x)
    ensures forall i :: 0 <= i < |g| ==> DataAt(Rest(live, n + x), g[i].p) == DataAt(live, g[i].p)
  {
    Appended(live, g, x);
    Swapped(live, g, x);
    Nulls(live, n);
    Appended(live, n, x);
    Shrinks(live, x);
    forall i | 0 <= i < |g| ensures DataAt(Rest(live, x), g[i].p) == DataAt(live, g[i].p) {
      OwnedLive(Rest(live, x), g, i);
    }
  }

  /** The same for a slot in the middle. */
  lemma HandedOverInside(live: Live, a: seq<Slot>, g: Slot, x: seq<Slot>, n: Slot)
    requires 0 !in live && Owned(live, a + ([g] + x)) && n.p == 0
    ensures var rest := Rest(live, a + ([n] + x));
      && Owned(live, a + ([n] + x)) && Freeable(rest, g) && Freed(rest, g.p) == Rest(live, a + ([g] + x))
      && DataAt(rest, g.p) == DataAt(live, g.p)
  {
    Appended(live, a, [g] + x);
    Shrinks(live, a);
    HandedOver(Rest(live, a), [g], x, [n]);
    Appended(live, a, [n] + x);
    var rest := Rest(live, a + ([n] + x));
    assert Owned(rest, [g]) && Rest(rest, [g]) == Rest(Freed(rest, g.p), [g][1..]);
    assert [g][0] == g;
    OwnedLive(Rest(live, a), [g] + x, 0);
  }

  // ---------- what holds of new buffers ----------

  /** `p` is the buffer made from `b`. */
  predicate Is(live: Live, p: Ptr, b: Block) {
    if DataOf(b) == [] then p == 0 else p != 0 && p in live && live[p] == b
  }

  datatype Cell = Cell(p: Ptr, b: Block)

  /** Releasing the cells in this order finds each of them there, and leaves `base`. */
  ghost predicate Holds(live: Live, cells: seq<Cell>, base: Live) {
    0 !in live &&
    if cells == [] then live == base
    else Is(live, cells[0].p, cells[0].b) && Holds(Freed(live, cells[0].p), cells[1..], base)
  }

  function Insert(cells: seq<Cell>, k: nat, c: Cell): seq<Cell>
    requires k <= |cells|
  {
    cells[..k] + [c] + cells[k..]
  }

  /** `live` became `live'` by making the buffer `p` of `b`. */
  predicate Added(live: Live, live': Live, p: Ptr, b: Block) {
    p !in live && (p == 0 <==> DataOf(b) == []) && live' == if p == 0 then live else live[p := b]
  }

  /** A new buffer is separate from the others and can be released at any point of the order. */
  lemma {:induction false} HoldsInserted(live: Live, live': Live, cells: seq<Cell>, base: Live, k: nat, c: Cell)
    requires Holds(live, cells, base) && Added(live, live', c.p, c.b) && k <= |cells|
    ensures Holds(live', Insert(cells, k, c), base)
  {
    var all := Insert(cells, k, c);
    if k == 0 {
      assert all[0] == c && all[1..] == cells;
      AddedFreed(live, live', c.p, c.b);
    } else {
      var x := cells[0];
      AddedPast(live, live', c.p, c.b, x);
      HoldsInserted(Freed(live, x.p), Freed(live', x.p), cells[1..], base, k - 1, c);
      assert all[0] == x && all[1..] == Insert(cells[1..], k - 1, c);
    }
  }

  lemma AddedFreed(live: Live, live': Live, p: Ptr, b: Block)
    requires 0 !in live && Added(live, live', p, b)
    ensures 0 !in live' && Freed(live', p) == live && Is(live', p, b)
  {
  }

  lemma AddedPast(live: Live, live': Live, p: Ptr, b: Block, x: Cell)
    requires 0 !in live && Added(live, live', p, b) && Is(live, x.p, x.b)
    ensures 0 !in live' && Is(live', x.p, x.b) && Added(Freed(live, x.p), Freed(live', x.p), p, b)
  {
  }

  function SlotOf(c: Cell): Slot { if c.b.Text? then Str(c.p) else Buf(c.p, |DataOf(c.b)|) }

  /** The cells come from clones: strings, and vectors without spare capacity. */
  predicate Exact(cells: seq<Cell>) {
    forall i :: 0 <= i < |cells| ==> cells[i].b.Text? || (cells[i].b.Raw? && cells[i].b.capacity == |cells[i].b.data|)
  }

  ghost predicate SlotsOf(cells: seq<Cell>, slots: seq<Slot>) {
    |slots| == |cells| && forall i :: 0 <= i < |cells| ==> slots[i] == SlotOf(cells[i])
  }

  lemma {:induction false} HoldsOwned(live: Live, cells: seq<Cell>, slots: seq<Slot>, base: Live)
    requires Holds(live, cells, base) && Exact(cells) && SlotsOf(cells, slots)
    ensures Owned(live, slots) && Rest(live, slots) == base
    ensures forall i :: 0 <= i < |cells| ==> DataAt(live, slots[i].p) == DataOf(cells[i].b)
  {
    if cells != [] {
      var rest := Freed(live, cells[0].p);
      assert forall i :: 0 <= i < |cells| - 1 ==> cells[1..][i] == cells[i + 1] && slots[1..][i] == slots[i + 1];
      HoldsOwned(rest, cells[1..], slots[1..], base);
      forall i | 0 <= i < |cells| ensures DataAt(live, slots[i].p) == DataOf(cells[i].b) {
        if i > 0 {
          OwnedLive(rest, slots[1..], i - 1);
          assert DataAt(rest, slots[1..][i - 1].p) == DataOf(cells[1..][i - 1].b);
        }
      }
    }
  }

  lemma {:induction false} FreshAddress(s: set<Ptr>) returns (p: Ptr)
    ensures p != 0 && forall q :: q in s ==> q < p
  {
    p := 1;
    if s != {} {
      var x :| x in s;
      p := FreshAddress(s - {x});
      assert forall q :: q in s ==> q == x || q in s - {x};
      p := if p <= x then x + 1 else p;
    }
  }

  // ---------- the heap ----------

  /** A Rust vector. A clone has no spare capacity. */
  datatype Vec = Vec(data: Bytes, capacity: nat)

  function Cloned(s: Bytes): Vec { Vec(s, |s|) }

  function TextCell(p: Ptr, s: Bytes): Cell { Cell(p, Text(s)) }
  function RawCell(p: Ptr, s: Bytes): Cell { Cell(p, Raw(s, |s|)) }

  class Heap {
    var live: Live

    ghost predicate Valid() reads this { 0 !in live }

    constructor () ensures Valid() && live == map[] { live := map[]; }

    /** Any address that is not in use; one that was released may come back. */
    method Alloc(b: Block) returns (p: Ptr)
      requires Valid()
      modifies this
      ensures Valid() && p != 0 && p !in old(live) && live == old(live)[p := b]
    {
      ghost var unused := FreshAddress(live.Keys);
      assert unused !in live.Keys;
      p :| p != 0 && p !in live;
      live := live[p := b];
    }

    /** into_c_string: null exactly for the empty text, a panic exactly on a NUL. The new
        buffer is separate from `cells` and can be released at place `k` among them. */
    method IntoCString(s: Bytes, ghost cells: seq<Cell>, ghost k: nat, ghost base: Live) returns (r: Made)
      requires Holds(live, cells, base) && k <= |cells|
      modifies this
      ensures Valid() && (r.Made? <==> Clean(s))
      ensures r.Made? ==> (r.p == 0 <==> s == []) && Holds(live, Insert(cells, k, TextCell(r.p, s)), base)
    {
      if s == [] {
        HoldsInserted(live, live, cells, base, k, TextCell(0, s));
        return Made(0);
      }
      if !Clean(s) { return Panicked; }
      var p := Alloc(Text(s));
      HoldsInserted(old(live), live, cells, base, k, TextCell(p, s));
      return Made(p);
    }

    /** into_c_bytes: null exactly for the empty vector; the capacity is forgotten, so what is
        handed out can be freed exactly if there was none to spare. */
    method IntoCBytes(v: Vec, ghost cells: seq<Cell>, ghost k: nat, ghost base: Live) returns (p: Ptr, len: nat)
      requires Holds(live, cells, base) && k <= |cells| && |v.data| <= v.capacity
      modifies this
      ensures Valid() && len == |v.data| && (p == 0 <==> v.data == [])
      ensures Freeable(live, Buf(p, len)) <==> v.data == [] || v.capacity == |v.data|
      ensures Holds(live, Insert(cells, k, Cell(p, Raw(v.data, v.capacity))), base)
    {
      if v.data == [] {
        HoldsInserted(live, live, cells, base, k, Cell(0, Raw(v.data, v.capacity)));
        return 0, 0;
      }
      p := Alloc(Raw(v.data, v.capacity));
      HoldsInserted(old(live), live, cells, base, k, Cell(p, Raw(v.data, v.capacity)));
      len := |v.data|;
    }

    method StringFree(p: Ptr)
      requires Valid() && Freeable(live, Str(p))
      modifies this
      ensures Valid() && live == Freed(old(live), p)
    {
      if p != 0 { live := live - {p}; }
    }

    method BytesFree(p: Ptr, len: nat)
      requires Valid() && Freeable(live, Buf(p, len))
      modifies this
      ensures Valid() && live == Freed(old(live), p)
    {
      if p != 0 { live := live - {p}; }
    }

    /** C++ take_string: copy, then free. */
    method TakeString(p: Ptr) returns (s: Bytes)
      requires Valid() && Freeable(live, Str(p))
      modifies this
      ensures Valid() && live == Freed(old(live), p) && s == DataAt(old(live), p)
    {
      if p == 0 { return []; }
      s := live[p].data;
      StringFree(p);
    }

    /** C++ take_bytes: it frees nothing when the length is 0, which is sound because no
        buffer of length 0 is ever allocated. */
    method TakeBytes(p: Ptr, len: nat) returns (s: Bytes)
      requires Valid() && Freeable(live, Buf(p, len))
      modifies this
      ensures Valid() && live == Freed(old(live), p) && s == DataAt(old(live), p)
    {
      if p == 0 || len == 0 { return []; }
      s := live[p].data;
      BytesFree(p, len);
    }
  }

  // ---------- zgrpc_source_info_t ----------

  class CSourceInfo {
    var isValid: bool
    var id: Ptr
    var sequence: nat

    predicate Cleared() reads this { !isValid && id == 0 && sequence == 0 }

    function Value(live: Live): Option<SourceInfo> reads this {
      if isValid then Some(SourceInfo(DataAt(live, id), sequence)) else None
    }

    constructor () ensures Cleared() { isValid, id, sequence := false, 0, 0; }

    method Clear()
      modifies this
      ensures Cleared()
    {
      isValid, id, sequence := false, 0, 0;
    }

    /** The id is one more string among the `cells` of the enclosing structure. */
    method Fill(h: Heap, source: Option<SourceInfo>, ghost cells: seq<Cell>, ghost k: nat, ghost base: Live)
      returns (o: Outcome)
      requires Holds(h.live, cells, base) && k <= |cells|
      modifies h, this
      ensures h.Valid() && (o.Fine? <==> CleanSource(source))
      ensures o.Fine? ==>
        && isValid == source.Some? && (source.Some? ==> sequence == source.value.sequence)
        && Holds(h.live, Insert(cells, k, TextCell(id, IdOf(source))), base)
    {
      Clear();
      if source.Some? {
        isValid := true;
        id :- h.IntoCString(source.value.id, cells, k, base);
        sequence := source.value.sequence;
      } else {
        HoldsInserted(h.live, h.live, cells, base, k, TextCell(0, []));
      }
      return Fine;
    }

    method Free(h: Heap)
      requires h.Valid() && Freeable(h.live, Str(id))
      modifies h, this
      ensures h.Valid() && h.live == Freed(old(h.live), old(id)) && Cleared()
    {
      h.StringFree(id);
      Clear();
    }

    /** C++ take_source_info. */
    method Take(h: Heap) returns (info: Option<SourceInfo>)
      requires h.Valid() && Freeable(h.live, Str(id))
      modifies h, this
      ensures h.Valid() && h.live == Freed(old(h.live), old(id)) && Cleared()
      ensures info == old(Value(h.live))
    {
      if !isValid {
        Free(h);
        return None;
      }
      var text := h.TakeString(id);
      info := Some(SourceInfo(text, sequence));
      id := 0;
      Free(h);
    }
  }

  function IdOf(source: Option<SourceInfo>): Bytes { if source.Some? then source.value.id else [] }

  // ---------- zgrpc_sample_ex_t ----------

  /** The strings of a sample among its two buffers, in the order of zgrpc_sample_ex_free. */
  function WithTexts(cells: seq<Cell>, k: Ptr, e: Ptr, t: Ptr, v: Sample): seq<Cell>
    requires |cells| == 2
  {
    Insert(Insert(Insert(cells, 0, TextCell(k, v.keyExpr)), 2, TextCell(e, v.encoding)), 4, TextCell(t, v.timestamp))
  }

  /** Buffers made in the order of fill_sample_ex are released in that of
      zgrpc_sample_ex_free. */
  lemma SampleHeld(live: Live, s: seq<Slot>, v: Sample, base: Live)
    requires |s| == 6 && Str(s[0].p) == s[0] && Str(s[2].p) == s[2] && Str(s[4].p) == s[4] && Str(s[5].p) == s[5]
    requires s[1] == Buf(s[1].p, |v.payload|) && s[3] == Buf(s[3].p, |v.attachment|)
    requires Holds(live, Insert(WithTexts([RawCell(s[1].p, v.payload), RawCell(s[3].p, v.attachment)],
                                          s[0].p, s[2].p, s[4].p, v), 5, TextCell(s[5].p, IdOf(v.sourceInfo))), base)
    ensures Owned(live, s) && Rest(live, s) == base
    ensures DataAt(live, s[0].p) == v.keyExpr && DataAt(live, s[1].p) == v.payload && DataAt(live, s[2].p) == v.encoding
    ensures DataAt(live, s[3].p) == v.attachment && DataAt(live, s[4].p) == v.timestamp
    ensures DataAt(live, s[5].p) == IdOf(v.sourceInfo)
  {
    var p, a := RawCell(s[1].p, v.payload), RawCell(s[3].p, v.attachment);
    var k, e, t := TextCell(s[0].p, v.keyExpr), TextCell(s[2].p, v.encoding), TextCell(s[4].p, v.timestamp);
    var i := TextCell(s[5].p, IdOf(v.sourceInfo));
    assert Insert([p, a], 0, k) == [k, p, a] && Insert([k, p, a], 2, e) == [k, p, e, a];
    assert Insert([k, p, e, a], 4, t) == [k, p, e, a, t] && Insert([k, p, e, a, t], 5, i) == [k, p, e, a, t, i];
    HoldsOwned(live, [k, p, e, a, t, i], s, base);
  }

  class CSampleEx {
    var keyExpr: Ptr
    var payload: Ptr
    var payloadLen: nat
    var encoding: Ptr
    var kind: int
    var attachment: Ptr
    var attachmentLen: nat
    var timestamp: Ptr
    const sourceInfo: CSourceInfo

    function Slots(): seq<Slot> reads this, sourceInfo {
      [Str(keyExpr), Buf(payload, payloadLen), Str(encoding), Buf(attachment, attachmentLen), Str(timestamp),
       Str(sourceInfo.id)]
    }

    predicate Cleared() reads this, sourceInfo {
      && keyExpr == 0 && payload == 0 && payloadLen == 0 && encoding == 0 && kind == 0
      && attachment == 0 && attachmentLen == 0 && timestamp == 0 && sourceInfo.Cleared()
    }

    function Value(live: Live): Sample reads this, sourceInfo {
      Sample(DataAt(live, keyExpr), DataAt(live, payload), DataAt(live, encoding), kind,
             DataAt(live, attachment), DataAt(live, timestamp), sourceInfo.Value(live))
    }

    constructor ()
      ensures Cleared() && fresh(sourceInfo)
    {
      keyExpr, payload, payloadLen, encoding, kind := 0, 0, 0, 0, 0;
      attachment, attachmentLen, timestamp := 0, 0, 0;
      sourceInfo := new CSourceInfo();
    }

    method Clear()
      modifies this, sourceInfo
      ensures Cleared()
    {
      keyExpr, payload, payloadLen, encoding, kind := 0, 0, 0, 0, 0;
      attachment, attachmentLen, timestamp := 0, 0, 0;
      sourceInfo.Clear();
    }

    /** fill_sample_ex: afterwards the buffers are separate, freeing them restores the heap,
        and they read back as the sample. What the structure held before is overwritten. */
    method Fill(h: Heap, sample: Sample) returns (o: Outcome)
      requires h.Valid()
      modifies h, this, sourceInfo
      ensures h.Valid() && (o.Fine? <==> CleanSample(sample))
      ensures o.Fine? ==>
        Owned(h.live, Slots()) && Rest(h.live, Slots()) == old(h.live) && Value(h.live) == sample
    {
      Clear();
      FillBuffers(h, sample);
      ghost var cells := [RawCell(payload, sample.payload), RawCell(attachment, sample.attachment)];
      :- FillTexts(h, sample, cells, old(h.live));
      cells := WithTexts(cells, keyExpr, encoding, timestamp, sample);
      :- sourceInfo.Fill(h, sample.sourceInfo, cells, 5, old(h.live));
      SampleHeld(h.live, Slots(), sample, old(h.live));
      return Fine;
    }

    /** The two buffers. */
    method FillBuffers(h: Heap, sample: Sample)
      requires h.Valid()
      modifies h, this
      ensures Holds(h.live, [RawCell(payload, sample.payload), RawCell(attachment, sample.attachment)], old(h.live))
      ensures payloadLen == |sample.payload| && attachmentLen == |sample.attachment|
    {
      payload, payloadLen := h.IntoCBytes(Cloned(sample.payload), [], 0, old(h.live));
      ghost var p := RawCell(payload, sample.payload);
      assert Insert([], 0, p) == [p];
      attachment, attachmentLen := h.IntoCBytes(Cloned(sample.attachment), [p], 1, old(h.live));
      ghost var a := RawCell(attachment, sample.attachment);
      assert Insert([p], 1, a) == [p, a];
    }

    /** The three strings of its own, and the kind. */
    method FillTexts(h: Heap, sample: Sample, ghost cells: seq<Cell>, ghost base: Live) returns (o: Outcome)
      requires |cells| == 2 && Holds(h.live, cells, base)
      modifies h, this
      ensures h.Valid() && (o.Fine? <==> Clean(sample.keyExpr) && Clean(sample.encoding) && Clean(sample.timestamp))
      ensures payload == old(payload) && payloadLen == old(payloadLen)
      ensures attachment == old(attachment) && attachmentLen == old(attachmentLen)
      ensures o.Fine? ==>
        kind == sample.kind && Holds(h.live, WithTexts(cells, keyExpr, encoding, timestamp, sample), base)
    {
      keyExpr :- h.IntoCString(sample.keyExpr, cells, 0, base);
      ghost var cells1 := Insert(cells, 0, TextCell(keyExpr, sample.keyExpr));
      encoding :- h.IntoCString(sample.encoding, cells1, 2, base);
      ghost var cells2 := Insert(cells1, 2, TextCell(encoding, sample.encoding));
      kind := sample.kind;
      timestamp :- h.IntoCString(sample.timestamp, cells2, 4, base);
      return Fine;
    }

    /** zgrpc_sample_ex_free. */
    method Free(h: Heap)
      requires h.Valid() && Owned(h.live, Slots())
      modifies h, this, sourceInfo
      ensures h.Valid() && h.live == old(Rest(h.live, Slots())) && Cleared()
    {
      SixStages(h.live, Slots());
      h.StringFree(keyExpr);
      h.BytesFree(payload, payloadLen);
      h.StringFree(encoding);
      h.BytesFree(attachment, attachmentLen);
      h.StringFree(timestamp);
      sourceInfo.Free(h);
      Clear();
    }

    /** C++ take_sample: everything is moved out; only `kind` keeps its value. */
    method Take(h: Heap) returns (out: Sample)
      requires h.Valid() && Owned(h.live, Slots())
      modifies h, this, sourceInfo
      ensures h.Valid() && h.live == old(Rest(h.live, Slots())) && AllNull(Slots())
      ensures out == old(Value(h.live))
    {
      SixStages(h.live, Slots());
      var k := h.TakeString(keyExpr);
      var p := h.TakeBytes(payload, payloadLen);
      var e := h.TakeString(encoding);
      var a := h.TakeBytes(attachment, attachmentLen);
      var t := h.TakeString(timestamp);
      var i := sourceInfo.Take(h);
      out := Sample(k, p, e, kind, a, t, i);
      keyExpr, payload, payloadLen, encoding := 0, 0, 0, 0;
      attachment, attachmentLen, timestamp := 0, 0, 0;
    }
  }

  // ---------- zgrpc_reply_error_t ----------

  class CReplyError {
    var payload: Ptr
    var payloadLen: nat
    var encoding: Ptr

    function Slots(): seq<Slot> reads this { [Buf(payload, payloadLen), Str(encoding)] }

    predicate Cleared() reads this { payload == 0 && payloadLen == 0 && encoding == 0 }

    function Value(live: Live): ReplyError reads this { ReplyError(DataAt(live, payload), DataAt(live, encoding)) }

    constructor () ensures Cleared() { payload, payloadLen, encoding := 0, 0, 0; }

    method Clear()
      modifies this
      ensures Cleared()
    {
      payload, payloadLen, encoding := 0, 0, 0;
    }

    /** The part of fill_reply_ex for an error. */
    method Fill(h: Heap, error: ReplyError) returns (o: Outcome)
      requires h.Valid()
      modifies h, this
      ensures h.Valid() && (o.Fine? <==> Clean(error.encoding))
      ensures o.Fine? ==>
        Owned(h.live, Slots()) && Rest(h.live, Slots()) == old(h.live) && Value(h.live) == error
    {
      payload, payloadLen := h.IntoCBytes(Cloned(error.payload), [], 0, old(h.live));
      ghost var p := RawCell(payload, error.payload);
      assert Insert([], 0, p) == [p];
      encoding :- h.IntoCString(error.encoding, [p], 1, old(h.live));
      ghost var e := TextCell(encoding, error.encoding);
      assert Insert([p], 1, e) == [p, e];
      HoldsOwned(h.live, [p, e], Slots(), old(h.live));
      assert Slots()[0].p == payload && Slots()[1].p == encoding;
      return Fine;
    }

    method Free(h: Heap)
      requires h.Valid() && Owned(h.live, Slots())
      modifies h, this
      ensures h.Valid() && h.live == old(Rest(h.live, Slots())) && Cleared()
    {
      TwoStages(h.live, Slots());
      h.BytesFree(payload, payloadLen);
      h.StringFree(encoding);
      Clear();
    }

    /** C++ take_reply_error. */
    method Take(h: Heap) returns (out: ReplyError)
      requires h.Valid() && Owned(h.live, Slots())
      modifies h, this
      ensures h.Valid() && h.live == old(Rest(h.live, Slots())) && Cleared()
      ensures out == old(Value(h.live))
    {
      TwoStages(h.live, Slots());
      var p := h.TakeBytes(payload, payloadLen);
      var e := h.TakeString(encoding);
      out := ReplyError(p, e);
      payload, payloadLen, encoding := 0, 0, 0;
      Nulls(h.live, Slots());
      Free(h);
    }
  }

  // ---------- zgrpc_reply_ex_t ----------

  /** What a C++ caller is given for a reply. */
  datatype CppReply = CppReply(ok: bool, sample: Option<Sample>, error: Option<ReplyError>)

  /** The C++ reply that says the same as a reply from the server. */
  function AsCpp(r: Option<Reply>): CppReply {
    match r
    case Some(SampleReply(s)) => CppReply(true, Some(s), None)
    case Some(ErrorReply(e)) => CppReply(false, None, Some(e))
    case None => CppReply(false, None, None)
  }

  /** A C++ reply is ok exactly for a sample, carries exactly what was sent, and tells different
      replies apart. */
  lemma CppReplyTells(r: Option<Reply>, q: Option<Reply>)
    ensures AsCpp(r).ok <==> r.Some? && r.value.SampleReply?
    ensures AsCpp(r).sample.Some? <==> AsCpp(r).ok
    ensures AsCpp(r).error.Some? <==> r.Some? && r.value.ErrorReply?
    ensures AsCpp(r).sample.Some? ==> r == Some(SampleReply(AsCpp(r).sample.value))
    ensures AsCpp(r).error.Some? ==> r == Some(ErrorReply(AsCpp(r).error.value))
    ensures AsCpp(r) == AsCpp(q) ==> r == q
  {
  }

  class CReplyEx {
    var hasSample: bool
    const sample: CSampleEx
    var hasError: bool
    const error: CReplyError

    function Slots(): seq<Slot> reads this, sample, sample.sourceInfo, error { sample.Slots() + error.Slots() }

    predicate Cleared() reads this, sample, sample.sourceInfo, error {
      !hasSample && sample.Cleared() && !hasError && error.Cleared()
    }

    /** The reply held; a sample takes precedence, as it does for every reader. */
    function Value(live: Live): Option<Reply> reads this, sample, sample.sourceInfo, error {
      if hasSample then Some(SampleReply(sample.Value(live)))
      else if hasError then Some(ErrorReply(error.Value(live)))
      else None
    }

    constructor ()
      ensures Cleared() && fresh(sample) && fresh(sample.sourceInfo) && fresh(error)
    {
      hasSample, hasError := false, false;
      sample := new CSampleEx();
      error := new CReplyError();
    }

    method Clear()
      modifies this, sample, sample.sourceInfo, error
      ensures Cleared()
    {
      hasSample := false;
      sample.Clear();
      hasError := false;
      error.Clear();
    }

    /** fill_reply_ex; -1 for a reply without a result. Whatever the structure held before is
        overwritten and not freed. */
    method Fill(h: Heap, reply: Option<Reply>) returns (o: Outcome, rc: int)
      requires h.Valid()
      modifies h, this, sample, sample.sourceInfo, error
      ensures h.Valid() && (o.Fine? <==> CleanReply(reply))
      ensures o.Fine? ==>
        && rc == (if reply.Some? then 0 else -1) && (rc != 0 ==> Cleared())
        && Owned(h.live, Slots()) && Rest(h.live, Slots()) == old(h.live) && Value(h.live) == reply
    {
      rc := -1;
      Clear();
      match reply
      case Some(SampleReply(s)) =>
        hasSample := true;
        :- sample.Fill(h, s);
        Appended(h.live, sample.Slots(), error.Slots());
        Nulls(old(h.live), error.Slots());
        return Fine, 0;
      case Some(ErrorReply(e)) =>
        hasError := true;
        :- error.Fill(h, e);
        Appended(h.live, sample.Slots(), error.Slots());
        Nulls(h.live, sample.Slots());
        return Fine, 0;
      case None =>
        Nulls(h.live, Slots());
        return Fine, -1;
    }

    /** zgrpc_reply_ex_free. */
    method Free(h: Heap)
      requires h.Valid() && Owned(h.live, Slots())
      modifies h, this, sample, sample.sourceInfo, error
      ensures h.Valid() && h.live == old(Rest(h.live, Slots())) && Cleared()
    {
      Appended(h.live, sample.Slots(), error.Slots());
      sample.Free(h);
      error.Free(h);
      Clear();
    }

    /** A second `Free` is allowed and releases nothing. */
    lemma SecondFree(live: Live)
      requires Cleared() && 0 !in live
      ensures Owned(live, Slots()) && Rest(live, Slots()) == live
    {
      Nulls(live, Slots());
    }

    /** C++ take_reply: copies what the flags announce and frees everything. */
    method Take(h: Heap) returns (out: CppReply)
      requires h.Valid() && Owned(h.live, Slots())
      modifies h, this, sample, sample.sourceInfo, error
      ensures h.Valid() && h.live == old(Rest(h.live, Slots())) && Cleared()
      ensures out == AsCpp(old(Value(h.live)))
    {
      ghost var live, a, b := h.live, sample.Slots(), error.Slots();
      out := CppReply(false, None, None);
      if hasSample {
        TakenPart(live, a, b, []);
        var s := sample.Take(h);
        TakenPart(live, a, b, sample.Slots());
        out := CppReply(true, Some(s), None);
      } else if hasError {
        TakenPart(live, a, b, []);
        var e := error.Take(h);
        TakenPart(live, a, b, error.Slots());
        out := CppReply(false, None, Some(e));
      }
      Free(h);
    }
  }

  // ---------- reply streams and the single-reply query ----------

  /** A stream pointer: null, or a live boxed stream. */
  predicate StreamAt(live: Live, p: Ptr) { p == 0 || (p in live && live[p].Boxed?) }

  /** The stream after one `recv`; a stream without replies is closed and gives an error. */
  function Received(live: Live, p: Ptr): Live {
    if p in live && live[p].Boxed? && live[p].replies != [] then live[p := Boxed(live[p].replies[1..])] else live
  }

  /** The reply that `recv` gives: None for a null or closed stream and for a reply without a
      result. */
  function NextReply(live: Live, p: Ptr): Option<Reply> {
    if p in live && live[p].Boxed? && live[p].replies != [] then live[p].replies[0] else None
  }

  /** zgrpc_querier_get_stream: boxes the stream of a successful `get`. */
  method QuerierGetStream(h: Heap, got: Option<seq<Option<Reply>>>) returns (stream: Ptr)
    requires h.Valid()
    modifies h
    ensures h.Valid() && StreamAt(h.live, stream) && (stream == 0 <==> got.None?)
    ensures got.None? ==> h.live == old(h.live)
    ensures got.Some? ==> stream !in old(h.live) && h.live == old(h.live)[stream := Boxed(got.value)]
  {
    if got.None? { return 0; }
    stream := h.Alloc(Boxed(got.value));
  }

  /** zgrpc_reply_stream_drop. */
  method ReplyStreamDrop(h: Heap, stream: Ptr)
    requires h.Valid() && StreamAt(h.live, stream)
    modifies h
    ensures h.Valid() && h.live == Freed(old(h.live), stream)
  {
    if stream != 0 { h.live := h.live - {stream}; }
  }

  /** zgrpc_reply_stream_recv: 0 exactly when there is a stream, somewhere to put the reply, and
      a reply with a result; what it allocates is what the structure then owns. A NUL in the
      reply panics. */
  method ReplyStreamRecv(h: Heap, stream: Ptr, out: CReplyEx?) returns (o: Outcome, rc: int)
    requires h.Valid() && StreamAt(h.live, stream)
    modifies h, if out == null then {} else {out, out.sample, out.sample.sourceInfo, out.error}
    ensures h.Valid() && (o.Fine? <==> out == null || CleanReply(NextReply(old(h.live), stream)))
    ensures o.Fine? ==> rc == if out != null && NextReply(old(h.live), stream).Some? then 0 else -1
    ensures out == null || stream == 0 ==> h.live == old(h.live)
    ensures out != null && stream == 0 ==> unchanged(out) && unchanged(out.sample) && unchanged(out.sample.sourceInfo) && unchanged(out.error)
    ensures o.Fine? && out != null && stream != 0 ==>
      && Owned(h.live, out.Slots()) && Rest(h.live, out.Slots()) == Received(old(h.live), stream)
      && out.Value(h.live) == NextReply(old(h.live), stream) && (rc != 0 ==> out.Cleared())
  {
    if stream == 0 || out == null { return Fine, -1; }
    out.Clear();
    var replies := h.live[stream].replies;
    if replies == [] {
      Nulls(h.live, out.Slots());
      return Fine, -1;
    }
    h.live := h.live[stream := Boxed(replies[1..])];
    o, rc := out.Fill(h, replies[0]);
  }

  /** C++ ReplyStream::recv: throws, or returns the next reply unchanged; either way the heap is
      as before, but for the reply taken from the stream. */
  method CppReplyStreamRecv(h: Heap, stream: Ptr) returns (o: Outcome, reply: Option<CppReply>)
    requires h.Valid() && StreamAt(h.live, stream)
    modifies h
    ensures h.Valid() && (o.Fine? <==> CleanReply(NextReply(old(h.live), stream)))
    ensures o.Fine? ==>
      && h.live == Received(old(h.live), stream)
      && reply == (if NextReply(old(h.live), stream).Some? then Some(AsCpp(NextReply(old(h.live), stream))) else None)
  {
    reply := None;
    var raw := new CReplyEx();
    var rc;
    o, rc := ReplyStreamRecv(h, stream, raw);
    if o.Panic? { return; }
    if rc != 0 {
      Nulls(h.live, raw.Slots());
      return;
    }
    var r := raw.Take(h);
    reply := Some(r);
  }

  /** `n` receives in a row. */
  function ReceivedTimes(live: Live, p: Ptr, n: nat): Live {
    if n == 0 then live else Received(ReceivedTimes(live, p, n - 1), p)
  }

  /** Receives take the replies in order, once each, and then find the stream closed; nothing
      but the stream changes. */
  lemma {:induction false} ReceivesInOrder(live: Live, p: Ptr, replies: seq<Option<Reply>>, n: nat)
    requires p in live && live[p] == Boxed(replies)
    ensures var now := ReceivedTimes(live, p, n);
      && p in now && now[p] == Boxed(if n <= |replies| then replies[n..] else [])
      && NextReply(now, p) == (if n < |replies| then replies[n] else None)
      && Freed(now, p) == Freed(live, p)
  {
    if n > 0 { ReceivesInOrder(live, p, replies, n - 1); }
  }

  /** What C++ code gets that receives from the stream of a successful `get` until it throws
      after the last reply, and drops it: each reply once and in order, as it was sent, an
      exception for one without a result and at the end, and nothing left allocated. */
  method CppDrain(h: Heap, replies: seq<Option<Reply>>) returns (o: Outcome, outs: seq<Option<CppReply>>)
    requires h.Valid()
    modifies h
    ensures h.Valid() && (o.Fine? <==> forall i :: 0 <= i < |replies| ==> CleanReply(replies[i]))
    ensures o.Fine? ==> h.live == old(h.live) && |outs| == |replies| + 1 && outs[|replies|] == None
    ensures o.Fine? ==> forall i :: 0 <= i < |replies| ==>
      outs[i] == if replies[i].Some? then Some(AsCpp(replies[i])) else None
  {
    outs := [];
    var stream := QuerierGetStream(h, Some(replies));
    ghost var live := h.live;
    var n := 0;
    while n <= |replies|
      invariant 0 <= n <= |replies| + 1 && h.Valid() && h.live == ReceivedTimes(live, stream, n) && |outs| == n
      invariant stream in live && live[stream] == Boxed(replies)
      invariant forall i :: 0 <= i < n && i < |replies| ==>
        CleanReply(replies[i]) && outs[i] == if replies[i].Some? then Some(AsCpp(replies[i])) else None
      invariant n == |replies| + 1 ==> outs[|replies|] == None
    {
      ReceivesInOrder(live, stream, replies, n);
      var reply;
      o, reply := CppReplyStreamRecv(h, stream);
      if o.Panic? { return; }
      outs := outs + [reply];
      n := n + 1;
    }
    ReceivesInOrder(live, stream, replies, n);
    ReplyStreamDrop(h, stream);
    o := Fine;
  }

  class CReply {
    var isError: bool
    var keyExpr: Ptr
    var payload: Ptr
    var payloadLen: nat

    function Slots(): seq<Slot> reads this { [Str(keyExpr), Buf(payload, payloadLen)] }

    predicate Cleared() reads this { !isError && keyExpr == 0 && payload == 0 && payloadLen == 0 }

    /** It tells whether the reply is an error, and its key expression and payload. */
    predicate Tells(live: Live, r: Reply) reads this {
      && isError == r.ErrorReply?
      && DataAt(live, keyExpr) == (if r.SampleReply? then r.sample.keyExpr else [])
      && DataAt(live, payload) == (if r.SampleReply? then r.sample.payload else r.error.payload)
    }

    constructor () ensures Cleared() { isError, keyExpr, payload, payloadLen := false, 0, 0, 0; }

    method Clear()
      modifies this
      ensures Cleared()
    {
      isError, keyExpr, payload, payloadLen := false, 0, 0, 0;
    }

    /** zgrpc_reply_free. */
    method Free(h: Heap)
      requires h.Valid() && Owned(h.live, Slots())
      modifies h, this
      ensures h.Valid() && h.live == old(Rest(h.live, Slots())) && Cleared()
    {
      TwoStages(h.live, Slots());
      h.StringFree(keyExpr);
      h.BytesFree(payload, payloadLen);
      Clear();
    }
  }

  /** zgrpc_querier_get_with_options, given what the `get` yields. It succeeds exactly when
      there is a stream, its next reply has a result and there is somewhere to put it; what it
      then leaves allocated is what the caller's structure owns, and otherwise nothing, with
      the caller's structure untouched. The boxed stream is gone on every path. */
  method QuerierGetWithOptions(h: Heap, got: Option<seq<Option<Reply>>>, replyOut: CReply?) returns (o: Outcome, rc: int)
    requires h.Valid()
    modifies h, if replyOut == null then {} else {replyOut}
    ensures h.Valid() && (o.Fine? <==> CleanReply(FirstReply(got)))
    ensures o.Fine? ==>
      if FirstReply(got).Some? && replyOut != null then
        && rc == 0 && Owned(h.live, replyOut.Slots()) && Rest(h.live, replyOut.Slots()) == old(h.live)
        && replyOut.Tells(h.live, FirstReply(got).value)
      else
        rc == -1 && h.live == old(h.live) && (replyOut != null ==> unchanged(replyOut))
  {
    rc := -1;
    var stream := QuerierGetStream(h, got);
    if stream == 0 { return Fine, -1; }
    var reply := new CReplyEx();
    o, rc := ReplyOfStream(h, stream, reply, old(h.live), got);
    if o.Panic? { return; }
    if rc != 0 {
      reply.Free(h);
      return;
    }
    if replyOut == null {
      reply.Free(h);
      rc := -1;
      return;
    }
    replyOut.Clear();
    if reply.hasSample {
      HandSample(h, reply, replyOut);
    } else if reply.hasError {
      HandError(h, reply, replyOut);
    } else {
      assert false;   // a fill that returned 0 has set one of the flags
    }
  }

  function FirstReply(got: Option<seq<Option<Reply>>>): Option<Reply> {
    if got.Some? && got.value != [] then got.value[0] else None
  }

  /** Receive one reply from a stream just boxed, and drop the stream. */
  method ReplyOfStream(h: Heap, stream: Ptr, reply: CReplyEx, ghost base: Live, ghost got: Option<seq<Option<Reply>>>)
    returns (o: Outcome, rc: int)
    requires h.Valid() && stream != 0 && got.Some? && stream !in base && h.live == base[stream := Boxed(got.value)]
    modifies h, reply, reply.sample, reply.sample.sourceInfo, reply.error
    ensures h.Valid() && (o.Fine? <==> CleanReply(FirstReply(got)))
    ensures o.Fine? ==>
      && rc == (if FirstReply(got).Some? then 0 else -1)
      && Owned(h.live, reply.Slots()) && Rest(h.live, reply.Slots()) == base && reply.Value(h.live) == FirstReply(got)
  {
    o, rc := ReplyStreamRecv(h, stream, reply);
    if o.Panic? { return; }
    ghost var live := h.live;
    Apart(live, reply.Slots(), stream);
    Shrinks(live, reply.Slots());
    ReplyStreamDrop(h, stream);
    assert Freed(Received(base[stream := Boxed(got.value)], stream), stream) == base;
    SameValue(reply, live, stream);
  }

  /** A block outside a reply does not matter to its value. */
  lemma SameValue(reply: CReplyEx, live: Live, q: Ptr)
    requires 0 !in live && Owned(live, reply.Slots()) && q in Rest(live, reply.Slots())
    ensures reply.Value(Freed(live, q)) == reply.Value(live)
  {
    var s := reply.Slots();
    Shrinks(live, s);
    assert forall i :: 0 <= i < |s| ==> s[i].p != q;
    assert s[0].p == reply.sample.keyExpr && s[1].p == reply.sample.payload && s[2].p == reply.sample.encoding;
    assert s[3].p == reply.sample.attachment && s[4].p == reply.sample.timestamp && s[5].p == reply.sample.sourceInfo.id;
    assert s[6].p == reply.error.payload && s[7].p == reply.error.encoding;
  }

  /** The end of the sample case: the two buffers change hands, the rest is freed. */
  method HandSample(h: Heap, reply: CReplyEx, replyOut: CReply)
    requires h.Valid() && Owned(h.live, reply.Slots()) && reply.hasSample && replyOut.Cleared()
    modifies h, replyOut, reply, reply.sample, reply.sample.sourceInfo, reply.error
    ensures h.Valid() && Owned(h.live, replyOut.Slots()) && Rest(h.live, replyOut.Slots()) == old(Rest(h.live, reply.Slots()))
    ensures replyOut.Tells(h.live, old(reply.Value(h.live)).value)
  {
    ghost var live, s := h.live, reply.Slots();
    assert s == s[..2] + s[2..];
    replyOut.isError := false;
    replyOut.keyExpr, replyOut.payload := reply.sample.keyExpr, reply.sample.payload;
    replyOut.payloadLen := reply.sample.payloadLen;
    reply.sample.keyExpr, reply.sample.payload, reply.sample.payloadLen := 0, 0, 0;
    ghost var nulls := [Str(0), Buf(0, 0)];
    HandedOver(live, s[..2], s[2..], nulls);
    assert replyOut.Slots() == s[..2];
    assert reply.Slots() == nulls + s[2..];
    reply.Free(h);
    assert s[..2][0].p == replyOut.keyExpr && s[..2][1].p == replyOut.payload;
  }

  /** The end of the error case. */
  method HandError(h: Heap, reply: CReplyEx, replyOut: CReply)
    requires h.Valid() && Owned(h.live, reply.Slots()) && !reply.hasSample && reply.hasError && replyOut.Cleared()
    modifies h, replyOut, reply, reply.sample, reply.sample.sourceInfo, reply.error
    ensures h.Valid() && Owned(h.live, replyOut.Slots()) && Rest(h.live, replyOut.Slots()) == old(Rest(h.live, reply.Slots()))
    ensures replyOut.Tells(h.live, old(reply.Value(h.live)).value)
  {
    ghost var live, a, e := h.live, reply.sample.Slots(), reply.error.Slots();
    assert e == [e[0]] + [e[1]];
    replyOut.isError := true;
    replyOut.payload := reply.error.payload;
    replyOut.payloadLen := reply.error.payloadLen;
    reply.error.payload, reply.error.payloadLen := 0, 0;
    HandedOverInside(live, a, e[0], [e[1]], Buf(0, 0));
    assert reply.error.Slots() == [Buf(0, 0)] + [e[1]];
    reply.Free(h);
    NullThen(h.live, Str(0), e[0]);
    assert replyOut.Slots() == [Str(0), e[0]];
  }

  lemma NullThen(live: Live, n: Slot, g: Slot)
    requires 0 !in live && n.p == 0 && Freeable(live, g)
    ensures Owned(live, [n, g]) && Rest(live, [n, g]) == Freed(live, g.p)
  {
    assert [n, g][1..] == [g] && [g][1..] == [] && Freed(live, 0) == live;
    assert Owned(live, [g]) && Rest(live, [g]) == Freed(live, g.p);
  }

  // ---------- zgrpc_subscriber_event_t and zgrpc_sample_t ----------

  predicate CleanEvent(event: Option<Sample>) { event.Some? ==> CleanSample(event.value) }

  class CSubscriberEvent {
    var hasSample: bool
    const sample: CSampleEx

    function Slots(): seq<Slot> reads this, sample, sample.sourceInfo { sample.Slots() }

    predicate Cleared() reads this, sample, sample.sourceInfo { !hasSample && sample.Cleared() }

    function Value(live: Live): Option<Sample> reads this, sample, sample.sourceInfo {
      if hasSample then Some(sample.Value(live)) else None
    }

    constructor ()
      ensures Cleared() && fresh(sample) && fresh(sample.sourceInfo)
    {
      hasSample := false;
      sample := new CSampleEx();
    }

    method Clear()
      modifies this, sample, sample.sourceInfo
      ensures Cleared()
    {
      hasSample := false;
      sample.Clear();
    }

    /** fill_subscriber_event; -1 for an event without a sample. */
    method Fill(h: Heap, event: Option<Sample>) returns (o: Outcome, rc: int)
      requires h.Valid()
      modifies h, this, sample, sample.sourceInfo
      ensures h.Valid() && (o.Fine? <==> CleanEvent(event))
      ensures o.Fine? ==>
        && rc == (if event.Some? then 0 else -1) && (rc != 0 ==> Cleared())
        && Owned(h.live, Slots()) && Rest(h.live, Slots()) == old(h.live) && Value(h.live) == event
    {
      rc := -1;
      Clear();
      if event.None? {
        Nulls(h.live, Slots());
        return Fine, -1;
      }
      hasSample := true;
      :- sample.Fill(h, event.value);
      return Fine, 0;
    }

    /** zgrpc_subscriber_event_free. */
    method Free(h: Heap)
      requires h.Valid() && Owned(h.live, Slots())
      modifies h, this, sample, sample.sourceInfo
      ensures h.Valid() && h.live == old(Rest(h.live, Slots())) && Cleared()
    {
      sample.Free(h);
      Clear();
    }

    /** C++ take_subscriber_event. */
    method Take(h: Heap) returns (out: Option<Sample>)
      requires h.Valid() && Owned(h.live, Slots())
      modifies h, this, sample, sample.sourceInfo
      ensures h.Valid() && h.live == old(Rest(h.live, Slots())) && Cleared()
      ensures out == old(Value(h.live))
    {
      out := None;
      if hasSample {
        Shrinks(h.live, Slots());
        var s := sample.Take(h);
        out := Some(s);
        Nulls(h.live, Slots());
      }
      Free(h);
    }
  }

  /** C++ Subscriber::recv_event on an event from the server: throws if it has no sample, and
      otherwise returns it unchanged; nothing stays allocated. */
  method CppRecvEvent(h: Heap, event: Option<Sample>) returns (o: Outcome, sample: Option<Sample>)
    requires h.Valid()
    modifies h
    ensures h.Valid() && (o.Fine? <==> CleanEvent(event))
    ensures o.Fine? ==> h.live == old(h.live) && sample == event
  {
    sample := None;
    var raw := new CSubscriberEvent();
    var rc;
    o, rc := raw.Fill(h, event);
    if o.Panic? { return; }
    if rc != 0 {
      Nulls(h.live, raw.Slots());
      return;
    }
    sample := raw.Take(h);
  }

  class CSample {
    var keyExpr: Ptr
    var payload: Ptr
    var payloadLen: nat

    function Slots(): seq<Slot> reads this { [Str(keyExpr), Buf(payload, payloadLen)] }

    predicate Cleared() reads this { keyExpr == 0 && payload == 0 && payloadLen == 0 }

    constructor () ensures Cleared() { keyExpr, payload, payloadLen := 0, 0, 0; }

    /** fill_sample: the payload is allocated first and freed last. */
    method Fill(h: Heap, sample: Sample) returns (o: Outcome)
      requires h.Valid()
      modifies h, this
      ensures h.Valid() && (o.Fine? <==> Clean(sample.keyExpr))
      ensures o.Fine? ==>
        && Owned(h.live, Slots()) && Rest(h.live, Slots()) == old(h.live)
        && DataAt(h.live, keyExpr) == sample.keyExpr && DataAt(h.live, payload) == sample.payload
    {
      keyExpr, payload, payloadLen := 0, 0, 0;
      var bytes, len := h.IntoCBytes(Cloned(sample.payload), [], 0, old(h.live));
      ghost var p := RawCell(bytes, sample.payload);
      assert Insert([], 0, p) == [p];
      keyExpr :- h.IntoCString(sample.keyExpr, [p], 0, old(h.live));
      payload, payloadLen := bytes, len;
      ghost var k := TextCell(keyExpr, sample.keyExpr);
      assert Insert([p], 0, k) == [k, p];
      HoldsOwned(h.live, [k, p], Slots(), old(h.live));
      assert Slots()[0].p == keyExpr && Slots()[1].p == payload;
      return Fine;
    }

    /** zgrpc_sample_free. */
    method Free(h: Heap)
      requires h.Valid() && Owned(h.live, Slots())
      modifies h, this
      ensures h.Valid() && h.live == old(Rest(h.live, Slots())) && Cleared()
    {
      TwoStages(h.live, Slots());
      h.StringFree(keyExpr);
      h.BytesFree(payload, payloadLen);
      keyExpr, payload, payloadLen := 0, 0, 0;
    }
  }

  // ---------- zgrpc_query_t and zgrpc_query_ex_t ----------

  class CQuery {
    var queryId: QueryId
    var keyExpr: Ptr
    var parameters: Ptr
    var payload: Ptr
    var payloadLen: nat

    function Slots(): seq<Slot> reads this { [Str(keyExpr), Str(parameters), Buf(payload, payloadLen)] }

    predicate Cleared() reads this { queryId == 0 && keyExpr == 0 && parameters == 0 && payload == 0 && payloadLen == 0 }

    constructor () ensures Cleared() { queryId, keyExpr, parameters, payload, payloadLen := 0, 0, 0, 0, 0; }

    /** fill_legacy_query. */
    method Fill(h: Heap, query: Query) returns (o: Outcome)
      requires h.Valid()
      modifies h, this
      ensures h.Valid() && (o.Fine? <==> Clean(query.keyExpr) && Clean(query.parameters))
      ensures o.Fine? ==>
        && Owned(h.live, Slots()) && Rest(h.live, Slots()) == old(h.live) && queryId == query.queryId
        && DataAt(h.live, keyExpr) == query.keyExpr && DataAt(h.live, parameters) == query.parameters
        && DataAt(h.live, payload) == query.payload
    {
      queryId, keyExpr, parameters, payload, payloadLen := query.queryId, 0, 0, 0, 0;
      keyExpr :- h.IntoCString(query.keyExpr, [], 0, old(h.live));
      ghost var k := TextCell(keyExpr, query.keyExpr);
      assert Insert([], 0, k) == [k];
      parameters :- h.IntoCString(query.parameters, [k], 1, old(h.live));
      ghost var r := TextCell(parameters, query.parameters);
      assert Insert([k], 1, r) == [k, r];
      payload, payloadLen := h.IntoCBytes(Cloned(query.payload), [k, r], 2, old(h.live));
      ghost var p := RawCell(payload, query.payload);
      assert Insert([k, r], 2, p) == [k, r, p];
      HoldsOwned(h.live, [k, r, p], Slots(), old(h.live));
      assert Slots()[0].p == keyExpr && Slots()[1].p == parameters && Slots()[2].p == payload;
      return Fine;
    }

    /** zgrpc_query_free. */
    method Free(h: Heap)
      requires h.Valid() && Owned(h.live, Slots())
      modifies h, this
      ensures h.Valid() && h.live == old(Rest(h.live, Slots())) && Cleared()
    {
      ThreeStages(h.live, Slots());
      h.StringFree(keyExpr);
      h.StringFree(parameters);
      h.BytesFree(payload, payloadLen);
      queryId, keyExpr, parameters, payload, payloadLen := 0, 0, 0, 0, 0;
    }
  }

  /** The buffers of a query in the order in which query_to_owned makes them, which is also
      that of zgrpc_query_ex_free. */
  function Head(q: Query, s: Ptr, k: Ptr, r: Ptr): seq<Cell> {
    [TextCell(s, q.selector), TextCell(k, q.keyExpr), TextCell(r, q.parameters)]
  }

  lemma QueryHeld(live: Live, s: seq<Slot>, q: Query, base: Live)
    requires |s| == 6 && Str(s[0].p) == s[0] && Str(s[1].p) == s[1] && Str(s[2].p) == s[2] && Str(s[4].p) == s[4]
    requires s[3] == Buf(s[3].p, |q.payload|) && s[5] == Buf(s[5].p, |q.attachment|)
    requires Holds(live, Insert(Insert(Insert(Head(q, s[0].p, s[1].p, s[2].p), 3, RawCell(s[3].p, q.payload)),
                                       4, TextCell(s[4].p, q.encoding)), 5, RawCell(s[5].p, q.attachment)), base)
    ensures Owned(live, s) && Rest(live, s) == base
    ensures DataAt(live, s[0].p) == q.selector && DataAt(live, s[1].p) == q.keyExpr && DataAt(live, s[2].p) == q.parameters
    ensures DataAt(live, s[3].p) == q.payload && DataAt(live, s[4].p) == q.encoding && DataAt(live, s[5].p) == q.attachment
  {
    var c := Head(q, s[0].p, s[1].p, s[2].p);
    var p, e, a := RawCell(s[3].p, q.payload), TextCell(s[4].p, q.encoding), RawCell(s[5].p, q.attachment);
    assert Insert(c, 3, p) == c + [p] && Insert(c + [p], 4, e) == c + [p, e];
    assert Insert(c + [p, e], 5, a) == c + [p, e, a];
    HoldsOwned(live, c + [p, e, a], s, base);
  }

  class CQueryEx {
    var queryId: QueryId
    var selector: Ptr
    var keyExpr: Ptr
    var parameters: Ptr
    var payload: Ptr
    var payloadLen: nat
    var encoding: Ptr
    var attachment: Ptr
    var attachmentLen: nat

    function Slots(): seq<Slot> reads this {
      [Str(selector), Str(keyExpr), Str(parameters), Buf(payload, payloadLen), Str(encoding), Buf(attachment, attachmentLen)]
    }

    predicate Cleared() reads this {
      && queryId == 0 && selector == 0 && keyExpr == 0 && parameters == 0 && payload == 0 && payloadLen == 0
      && encoding == 0 && attachment == 0 && attachmentLen == 0
    }

    function Value(live: Live): Query reads this {
      Query(queryId, DataAt(live, selector), DataAt(live, keyExpr), DataAt(live, parameters),
            DataAt(live, payload), DataAt(live, encoding), DataAt(live, attachment))
    }

    constructor ()
      ensures Cleared()
    {
      queryId, selector, keyExpr, parameters, payload, payloadLen := 0, 0, 0, 0, 0, 0;
      encoding, attachment, attachmentLen := 0, 0, 0;
    }

    method Clear()
      modifies this
      ensures Cleared()
    {
      queryId, selector, keyExpr, parameters, payload, payloadLen := 0, 0, 0, 0, 0, 0;
      encoding, attachment, attachmentLen := 0, 0, 0;
    }

    /** query_to_owned. */
    method Fill(h: Heap, query: Query) returns (o: Outcome)
      requires h.Valid()
      modifies h, this
      ensures h.Valid() && (o.Fine? <==> CleanQuery(query))
      ensures o.Fine? ==>
        Owned(h.live, Slots()) && Rest(h.live, Slots()) == old(h.live) && Value(h.live) == query
    {
      Clear();
      queryId := query.queryId;
      :- FillHead(h, query);
      ghost var cells := Head(query, selector, keyExpr, parameters);
      :- FillTail(h, query, cells, old(h.live));
      QueryHeld(h.live, Slots(), query, old(h.live));
      return Fine;
    }

    method FillHead(h: Heap, query: Query) returns (o: Outcome)
      requires h.Valid()
      modifies h, this
      ensures h.Valid() && (o.Fine? <==> Clean(query.selector) && Clean(query.keyExpr) && Clean(query.parameters))
      ensures queryId == old(queryId)
      ensures o.Fine? ==> Holds(h.live, Head(query, selector, keyExpr, parameters), old(h.live))
    {
      selector :- h.IntoCString(query.selector, [], 0, old(h.live));
      ghost var s := TextCell(selector, query.selector);
      assert Insert([], 0, s) == [s];
      keyExpr :- h.IntoCString(query.keyExpr, [s], 1, old(h.live));
      ghost var k := TextCell(keyExpr, query.keyExpr);
      assert Insert([s], 1, k) == [s, k];
      parameters :- h.IntoCString(query.parameters, [s, k], 2, old(h.live));
      ghost var r := TextCell(parameters, query.parameters);
      assert Insert([s, k], 2, r) == [s, k, r];
      return Fine;
    }

    method FillTail(h: Heap, query: Query, ghost cells: seq<Cell>, ghost base: Live) returns (o: Outcome)
      requires |cells| == 3 && Holds(h.live, cells, base)
      modifies h, this
      ensures h.Valid() && (o.Fine? <==> Clean(query.encoding))
      ensures queryId == old(queryId) && selector == old(selector) && keyExpr == old(keyExpr) && parameters == old(parameters)
      ensures o.Fine? ==>
        && payloadLen == |query.payload| && attachmentLen == |query.attachment|
        && Holds(h.live, Insert(Insert(Insert(cells, 3, RawCell(payload, query.payload)),
                                       4, TextCell(encoding, query.encoding)), 5, RawCell(attachment, query.attachment)), base)
    {
      payload, payloadLen := h.IntoCBytes(Cloned(query.payload), cells, 3, base);
      ghost var cells1 := Insert(cells, 3, RawCell(payload, query.payload));
      encoding :- h.IntoCString(query.encoding, cells1, 4, base);
      ghost var cells2 := Insert(cells1, 4, TextCell(encoding, query.encoding));
      attachment, attachmentLen := h.IntoCBytes(Cloned(query.attachment), cells2, 5, base);
      return Fine;
    }

    /** zgrpc_query_ex_free. */
    method Free(h: Heap)
      requires h.Valid() && Owned(h.live, Slots())
      modifies h, this
      ensures h.Valid() && h.live == old(Rest(h.live, Slots())) && Cleared()
    {
      SixStages(h.live, Slots());
      h.StringFree(selector);
      h.StringFree(keyExpr);
      h.StringFree(parameters);
      h.BytesFree(payload, payloadLen);
      h.StringFree(encoding);
      h.BytesFree(attachment, attachmentLen);
      Clear();
    }

    /** The C++ constructor of a query takes all six buffers and, unlike the other takes, leaves
        the pointers where they are: freeing the structure afterwards is allowed exactly if
        they are all null. */
    method Take(h: Heap) returns (out: Query)
      requires h.Valid() && Owned(h.live, Slots())
      modifies h
      ensures h.Valid() && h.live == old(Rest(h.live, Slots())) && out == old(Value(h.live))
      ensures Owned(h.live, Slots()) <==> AllNull(Slots())
    {
      SixStages(h.live, Slots());
      FreedAgain(h.live, Slots());
      var s := h.TakeString(selector);
      var k := h.TakeString(keyExpr);
      var r := h.TakeString(parameters);
      var p := h.TakeBytes(payload, payloadLen);
      var e := h.TakeString(encoding);
      var a := h.TakeBytes(attachment, attachmentLen);
      out := Query(queryId, s, k, r, p, e, a);
    }

    /** C++ Query::borrow, which copies. */
    method Borrow(h: Heap) returns (out: Query)
      requires h.Valid() && Owned(h.live, Slots())
      ensures out == Value(h.live)
    {
      var s, k, r := CopyOf(h, selector), CopyOf(h, keyExpr), CopyOf(h, parameters);
      var p, e, a := CopyOf(h, payload), CopyOf(h, encoding), CopyOf(h, attachment);
      out := Query(queryId, s, k, r, p, e, a);
    }
  }

  function CopyOf(h: Heap, p: Ptr): Bytes
    reads h
  {
    if p == 0 || p !in h.live then [] else DataOf(h.live[p])
  }

  /** C++ Queryable::recv on a received query: the query unchanged, and nothing stays
      allocated. */
  method CppQueryableRecv(h: Heap, query: Query) returns (o: Outcome, out: Option<Query>)
    requires h.Valid()
    modifies h
    ensures h.Valid() && (o.Fine? <==> CleanQuery(query))
    ensures o.Fine? ==> h.live == old(h.live) && out == Some(query)
  {
    out := None;
    var raw := new CQueryEx();
    o := raw.Fill(h, query);
    if o.Panic? { return; }
    var q := raw.Take(h);
    out := Some(q);
  }

  /** The callback of a queryable: the query is lent to C++ code, which copies it, and freed
      afterwards. */
  method QueryCallback(h: Heap, query: Query) returns (o: Outcome, lent: Option<Query>)
    requires h.Valid()
    modifies h
    ensures h.Valid() && (o.Fine? <==> CleanQuery(query))
    ensures o.Fine? ==> h.live == old(h.live) && lent == Some(query)
  {
    lent := None;
    var raw := new CQueryEx();
    o := raw.Fill(h, query);
    if o.Panic? { return; }
    var q := raw.Borrow(h);
    lent := Some(q);
    raw.Free(h);
  }

  // ---------- inputs on which it goes wrong ----------

  /** A query with a one-letter selector, taken by the C++ constructor: a zgrpc_query_ex_free
      of the structure would free the selector a second time. */
  method TakenQueryMustNotBeFreed() returns (h: Heap, raw: CQueryEx)
    ensures h.Valid() && !Owned(h.live, raw.Slots())
  {
    h := new Heap();
    raw := new CQueryEx();
    var query := Query(1, [97], [], [], [], [], []);
    var o := raw.Fill(h, query);
    assert raw.Value(h.live).selector == [97];
    ghost var s := raw.Slots();
    assert s[0].p != 0;
    var q := raw.Take(h);
  }

  /** A reply whose encoding has a NUL in it: the fill panics. */
  method NulPanics() returns (o: Outcome)
    ensures o.Panic?
  {
    var h := new Heap();
    var reply := new CReplyEx();
    var error := ReplyError([], [97, 0, 98]);
    assert error.encoding[1] == 0;
    var rc;
    o, rc := reply.Fill(h, Some(ErrorReply(error)));
  }

  /** A vector with spare capacity: what into_c_bytes hands out must not be freed. */
  method SpareCapacityMustNotBeFreed() returns (h: Heap, p: Ptr, len: nat)
    ensures h.Valid() && !Freeable(h.live, Buf(p, len))
  {
    h := new Heap();
    p, len := h.IntoCBytes(Vec([97], 2), [], 0, map[]);
  }
}
