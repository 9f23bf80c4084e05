/** The paged key/value driver of the language model: one sequence on its own (the specification) and
    many sequences in one packed batch over a shared slot memory.
 */
module PagedLlm {
  import opened Arithmetic
  import opened Outcomes
  import opened Packing
  import opened Transformer

  /** Hidden states of the rows `chunk` appended to a sequence that already holds `history`. */
  function LoneHidden(s: Stack, history: seq<Vec>, chunk: seq<Vec>): (h: seq<Vec>)
    ensures |h| == |chunk|
  {
    MapRows(s.output, TailHidden(s, history, chunk, s.depth))
  }

  /** The pair layer `l` computes for the last row of `x`: all a slot of the memory can mean. */
  function KvAt(s: Stack, x: seq<Vec>, l: nat): Vec
    requires x != []
  {
    CausalKV(s, x, l)[|x| - 1]
  }

  lemma KvAtPrefix(s: Stack, x: seq<Vec>, l: nat, p: nat)
    requires p < |x|
    ensures CausalKV(s, x, l)[p] == KvAt(s, x[..p + 1], l)
  {
    assert x == x[..p + 1] + x[p + 1..];
    CausalPrefix(s, x[..p + 1], x[p + 1..], l);
    assert CausalKV(s, x, l)[p] == CausalKV(s, x, l)[..p + 1][p];
  }

  /** Physical slot of logical position `p`. */
  function Slot(table: seq<nat>, blockSize: nat, p: nat): nat
    requires blockSize > 0 && p / blockSize < |table|
  {
    table[p / blockSize] * blockSize + p % blockSize
  }

  lemma InTable(table: seq<nat>, blockSize: nat, p: nat)
    requires blockSize > 0 && p < |table| * blockSize
    ensures p / blockSize < |table|
  {
  }

  /** Physical slots of positions 0 .. n - 1. */
  function Slots(table: seq<nat>, blockSize: nat, n: nat): (r: seq<nat>)
    requires blockSize > 0 && n <= |table| * blockSize
    ensures |r| == n
  {
    seq(n, p requires 0 <= p < n => (InTable(table, blockSize, p); Slot(table, blockSize, p)))
  }

  predicate InPool(table: seq<nat>, numBlocks: nat) {
    forall i :: 0 <= i < |table| ==> table[i] < numBlocks
  }

  lemma SlotInPool(table: seq<nat>, blockSize: nat, numBlocks: nat, p: nat)
    requires blockSize > 0 && p / blockSize < |table| && InPool(table, numBlocks)
    ensures Slot(table, blockSize, p) < numBlocks * blockSize
  {
    var b := table[p / blockSize];
    MulLe(b + 1, numBlocks, blockSize);
    MulAdd(b, 1, blockSize);
  }

  /** Equal slots are the same offset of the same block. */
  lemma SlotInjective(b: nat, o: nat, b': nat, o': nat, blockSize: nat)
    requires o < blockSize && o' < blockSize
    requires b * blockSize + o == b' * blockSize + o'
    ensures b == b' && o == o'
  {
    MulAdd(b, 1, blockSize);
    MulAdd(b', 1, blockSize);
    if b < b' {
      MulLe(b + 1, b', blockSize);
    } else if b' < b {
      MulLe(b' + 1, b, blockSize);
    }
  }

  // ---------------------------------------------------------------- one batch

  /** One sequence's part of a batch: its new rows, its block table and how much is already resident. */
  datatype Item = Item(chunk: seq<Vec>, table: seq<nat>, cached: nat)

  /** What the batch means: each sequence's resident history, its new rows and the slots of both. */
  datatype Part = Part(history: seq<Vec>, chunk: seq<Vec>, slots: seq<nat>) {
    function Full(): seq<Vec> { history + chunk }

    predicate Fits(numSlots: nat) {
      |slots| == |history| + |chunk| && forall p :: 0 <= p < |slots| ==> slots[p] < numSlots
    }
  }

  /** The rows of a sequence up to position `p`. */
  function Upto(a: Part, p: nat): (x: seq<Vec>)
    requires p < |a.history| + |a.chunk|
    ensures x != []
  {
    a.Full()[..p + 1]
  }

  /** Slot `slots[p]` of `a` is also written by `b`, at its position `q`, with the same meaning. */
  ghost predicate SameMeaning(a: Part, p: nat, b: Part, q: nat)
    requires p < |a.history| + |a.chunk| && q < |b.history| + |b.chunk|
  {
    Upto(a, p) == Upto(b, q)
  }

  ghost predicate Writes(b: Part, x: nat) {
    exists q :: |b.history| <= q < |b.slots| && b.slots[q] == x
  }

  // ghost views of a batch, sequence by sequence
  ghost function HiddenOf(s: Stack, parts: seq<Part>, l: nat): (r: seq<seq<Vec>>)
    ensures |r| == |parts|
    ensures forall i :: 0 <= i < |parts| ==> r[i] == TailHidden(s, parts[i].history, parts[i].chunk, l)
  {
    seq(|parts|, i requires 0 <= i < |parts| => TailHidden(s, parts[i].history, parts[i].chunk, l))
  }

  ghost function PositionsOf(parts: seq<Part>): (r: seq<seq<nat>>)
    ensures |r| == |parts| && forall i :: 0 <= i < |parts| ==> r[i] == Positions(|parts[i].history|, |parts[i].chunk|)
  {
    seq(|parts|, i requires 0 <= i < |parts| => Positions(|parts[i].history|, |parts[i].chunk|))
  }

  ghost function NewSlotsOf(parts: seq<Part>): (r: seq<seq<nat>>)
    requires forall i :: 0 <= i < |parts| ==> |parts[i].slots| == |parts[i].history| + |parts[i].chunk|
    ensures |r| == |parts| && forall i :: 0 <= i < |parts| ==> r[i] == parts[i].slots[|parts[i].history|..]
  {
    seq(|parts|, i requires 0 <= i < |parts| => parts[i].slots[|parts[i].history|..])
  }

  ghost predicate Slotted(parts: seq<Part>) {
    forall i :: 0 <= i < |parts| ==> |parts[i].slots| == |parts[i].history| + |parts[i].chunk|
  }

  /** The packed row of row `t` of sequence `i`. */
  ghost function RowAt(parts: seq<Part>, i: nat, t: nat): nat
    requires Slotted(parts) && i < |parts|
  {
    Start(NewSlotsOf(parts), i) + t
  }

  lemma PackedShape(s: Stack, parts: seq<Part>, l: nat)
    requires Slotted(parts)
    ensures |Flat(HiddenOf(s, parts, l))| == |Flat(PositionsOf(parts))| == |Flat(NewSlotsOf(parts))|
  {
    hide Flat, TailHidden;
    SameFlatLength(HiddenOf(s, parts, l), NewSlotsOf(parts));
    SameFlatLength(PositionsOf(parts), NewSlotsOf(parts));
  }

  lemma PackedRow(s: Stack, parts: seq<Part>, l: nat, i: nat, t: nat)
    requires Slotted(parts) && i < |parts| && t < |parts[i].chunk|
    ensures var a := RowAt(parts, i, t);
            && a < |Flat(HiddenOf(s, parts, l))| == |Flat(PositionsOf(parts))| == |Flat(NewSlotsOf(parts))|
            && Flat(HiddenOf(s, parts, l))[a] == TailHidden(s, parts[i].history, parts[i].chunk, l)[t]
            && Flat(PositionsOf(parts))[a] == |parts[i].history| + t
            && Flat(NewSlotsOf(parts))[a] == parts[i].slots[|parts[i].history| + t]
  {
    hide Flat, TailHidden, Start;
    PackedShape(s, parts, l);
    SameStarts(HiddenOf(s, parts, l), NewSlotsOf(parts), i);
    SameStarts(PositionsOf(parts), NewSlotsOf(parts), i);
    FlatAt(HiddenOf(s, parts, l), i, t);
    FlatAt(PositionsOf(parts), i, t);
    FlatAt(NewSlotsOf(parts), i, t);
  }

  /** The packed rows of sequence `i` are the slice from its start. */
  lemma PackedSlices(s: Stack, parts: seq<Part>, l: nat, i: nat)
    requires Slotted(parts) && i < |parts|
    ensures var from := Start(NewSlotsOf(parts), i); var to := from + |parts[i].chunk|;
            && to <= |Flat(HiddenOf(s, parts, l))| && to <= |Flat(PositionsOf(parts))|
            && Flat(HiddenOf(s, parts, l))[from..to] == TailHidden(s, parts[i].history, parts[i].chunk, l)
            && Flat(PositionsOf(parts))[from..to] == Positions(|parts[i].history|, |parts[i].chunk|)
  {
    hide Flat, TailHidden, Start;
    SliceAlike(HiddenOf(s, parts, l), NewSlotsOf(parts), i);
    SliceAlike(PositionsOf(parts), NewSlotsOf(parts), i);
  }

  /** Where a packed row is stored and what its pair means. */
  lemma PackedPair(s: Stack, parts: seq<Part>, l: nat, kv: seq<Vec>, slotMapping: seq<nat>, i: nat, t: nat)
    requires Slotted(parts) && i < |parts| && t < |parts[i].chunk|
    requires IsPacked(s, parts, l, kv, slotMapping)
    ensures var a := RowAt(parts, i, t);
            && a < |kv| == |slotMapping|
            && slotMapping[a] == parts[i].slots[|parts[i].history| + t]
            && kv[a] == KvAt(s, Upto(parts[i], |parts[i].history| + t), l)
  {
    hide Flat, CausalHidden, Start;
    PackedRow(s, parts, l, i, t);
    KvAtPrefix(s, parts[i].Full(), l, |parts[i].history| + t);
  }

  /** The packed pairs of layer `l` and the slots they go to. */
  ghost predicate IsPacked(s: Stack, parts: seq<Part>, l: nat, kv: seq<Vec>, slotMapping: seq<nat>)
    requires Slotted(parts)
  {
    && |Flat(HiddenOf(s, parts, l))| == |Flat(PositionsOf(parts))|
    && kv == KeyValues(s, l, Flat(HiddenOf(s, parts, l)), Flat(PositionsOf(parts)))
    && slotMapping == Flat(NewSlotsOf(parts))
  }

  class BatchedPagedLLM {
    const s: Stack
    const numBlocks: nat
    const blockSize: nat
    const mem: array2<Vec>   // layer, slot

    constructor (s: Stack, numBlocks: nat, blockSize: nat, blank: Vec)
      requires blockSize > 0
      ensures this.s == s && this.numBlocks == numBlocks && this.blockSize == blockSize
      ensures Shaped() && fresh(mem)
    {
      this.s, this.numBlocks, this.blockSize := s, numBlocks, blockSize;
      mem := new Vec[s.depth, numBlocks * blockSize]((_, _) => blank);
    }

    predicate Shaped() {
      blockSize > 0 && mem.Length0 == s.depth && mem.Length1 == numBlocks * blockSize
    }

    /** Layer `l` of slot `x` holds the pair of the last row of `prefix`. */
    ghost predicate HoldsPair(l: nat, x: nat, prefix: seq<Vec>)
      requires Shaped() && l < s.depth && prefix != []
      reads mem
    {
      x < mem.Length1 && mem[l, x] == KvAt(s, prefix, l)
    }

    /** Every layer of slot `x` does. */
    ghost predicate Means(x: nat, prefix: seq<Vec>)
      requires Shaped() && prefix != []
      reads mem
    {
      x < mem.Length1 && forall l :: 0 <= l < s.depth ==> HoldsPair(l, x, prefix)
    }

    /** The rows `x` of a sequence are all resident at `slots`. */
    ghost predicate Resident(x: seq<Vec>, slots: seq<nat>)
      requires Shaped() && |x| <= |slots|
      reads mem
    {
      forall p :: 0 <= p < |x| ==> Means(slots[p], x[..p + 1])
    }

    ghost predicate Fit(parts: seq<Part>)
      requires Shaped()
    {
      forall i :: 0 <= i < |parts| ==> parts[i].Fits(mem.Length1)
    }

    /** Whatever slot one sequence of the batch reads or writes and another writes means the same to both. */
    ghost predicate Agree(parts: seq<Part>)
      requires Shaped() && Fit(parts)
    {
      forall i, p, j, q :: 0 <= i < |parts| && 0 <= j < |parts| && 0 <= p < |parts[i].slots|
                           && |parts[j].history| <= q < |parts[j].slots|
                           && parts[i].slots[p] == parts[j].slots[q]
                           ==> SameMeaning(parts[i], p, parts[j], q)
    }

    ghost predicate Written(parts: seq<Part>, x: nat) {
      exists j :: 0 <= j < |parts| && Writes(parts[j], x)
    }

    /** A batch may run: its sequences agree, and every history row that none of them writes is resident. */
    ghost predicate Coherent(parts: seq<Part>)
      requires Shaped()
      reads mem
    {
      && Fit(parts) && Agree(parts)
      && forall i, p :: 0 <= i < |parts| && 0 <= p < |parts[i].history| && !Written(parts, parts[i].slots[p])
                        ==> Means(parts[i].slots[p], Upto(parts[i], p))
    }

    /** store_kvcache at one layer: stores to the same slot never disagree. */
    method StoreKvCache(l: nat, kv: seq<Vec>, slotMapping: seq<nat>)
      requires Shaped() && l < s.depth && |kv| == |slotMapping|
      requires forall a :: 0 <= a < |kv| ==> slotMapping[a] < mem.Length1
      requires forall a, b :: 0 <= a < |kv| && 0 <= b < |kv| && slotMapping[a] == slotMapping[b] ==> kv[a] == kv[b]
      modifies mem
      ensures forall a :: 0 <= a < |kv| ==> mem[l, slotMapping[a]] == kv[a]
      ensures forall l', x :: 0 <= l' < s.depth && 0 <= x < mem.Length1 && (l' != l || x !in slotMapping) ==>
                mem[l', x] == old(mem[l', x])
    {
      for idx := 0 to |kv|
        invariant forall a :: 0 <= a < idx ==> mem[l, slotMapping[a]] == kv[a]
        invariant forall l', x :: 0 <= l' < s.depth && 0 <= x < mem.Length1 && (l' != l || x !in slotMapping) ==>
                    mem[l', x] == old(mem[l', x])
      {
        mem[l, slotMapping[idx]] := kv[idx];
      }
    }

    /** At layer `l`, every position of every sequence of the batch is in the memory. */
    ghost predicate LayerDone(parts: seq<Part>, l: nat)
      requires Shaped() && Fit(parts) && l < s.depth
      reads mem
    {
      forall i, p :: 0 <= i < |parts| && 0 <= p < |parts[i].slots| ==>
        HoldsPair(l, parts[i].slots[p], Upto(parts[i], p))
    }

    /** At layer `l`, every history row that the batch does not write is in the memory. */
    ghost predicate LayerReady(parts: seq<Part>, l: nat)
      requires Shaped() && Fit(parts) && l < s.depth
      reads mem
    {
      forall i, p :: 0 <= i < |parts| && 0 <= p < |parts[i].history| && !Written(parts, parts[i].slots[p])
                     ==> HoldsPair(l, parts[i].slots[p], Upto(parts[i], p))
    }

    twostate predicate OnlyLayer(l: nat)
      requires Shaped()
      reads mem
    {
      forall l', x :: 0 <= l' < s.depth && 0 <= x < mem.Length1 && l' != l ==> mem[l', x] == old(mem[l', x])
    }

    /** Everything the memory currently means. */
    ghost function Meanings(): iset<(nat, seq<Vec>)>
      requires Shaped()
      reads mem
    {
      iset x: nat, prefix: seq<Vec> | prefix != [] && Means(x, prefix) :: (x, prefix)
    }

    /** Slots the batch does not write keep the meanings `before`. */
    ghost predicate Keeps(before: iset<(nat, seq<Vec>)>, parts: seq<Part>)
      requires Shaped()
      reads mem
    {
      forall x: nat, prefix: seq<Vec> :: (x, prefix) in before && prefix != [] && !Written(parts, x) ==>
        Means(x, prefix)
    }

    twostate lemma KeepMeaning(parts: seq<Part>)
      requires Shaped() && OnlyWritten(parts)
      ensures Keeps(old(Meanings()), parts)
    {
      hide KvAt;
      forall x: nat, prefix: seq<Vec> | (x, prefix) in old(Meanings()) && prefix != [] && !Written(parts, x)
        ensures Means(x, prefix)
      {
        assert old(Means(x, prefix));
        forall l | 0 <= l < s.depth ensures HoldsPair(l, x, prefix) {
          assert old(HoldsPair(l, x, prefix)) && mem[l, x] == old(mem[l, x]);
        }
      }
    }

    twostate predicate OnlyWritten(parts: seq<Part>)
      requires Shaped()
      reads mem
    {
      forall l', x :: 0 <= l' < s.depth && 0 <= x < mem.Length1 && !Written(parts, x) ==> mem[l', x] == old(mem[l', x])
    }

    /** Store the packed pairs of layer `l`: afterwards the layer is complete for the whole batch. */
    method StorePacked(l: nat, h: seq<Vec>, positions: seq<nat>, slotMapping: seq<nat>, ghost parts: seq<Part>)
      returns (kv: seq<Vec>)
      requires Shaped() && l < s.depth && Fit(parts) && Agree(parts) && LayerReady(parts, l)
      requires h == Flat(HiddenOf(s, parts, l)) && positions == Flat(PositionsOf(parts))
      requires slotMapping == Flat(NewSlotsOf(parts))
      requires |h| == |positions| == |slotMapping|
      modifies mem
      ensures kv == KeyValues(s, l, h, positions)
      ensures LayerDone(parts, l) && OnlyLayer(l) && OnlyWritten(parts)
    {
      hide Flat, TailHidden, KvAt;
      kv := KeyValues(s, l, h, positions);
      PackedStores(l, kv, slotMapping, parts);
      StoreKvCache(l, kv, slotMapping);
      StoredRows(l, kv, slotMapping, parts);
    }

    lemma StoredRows(l: nat, kv: seq<Vec>, slotMapping: seq<nat>, parts: seq<Part>)
      requires Shaped() && l < s.depth && Fit(parts) && Agree(parts) && LayerReady(parts, l)
      requires IsPacked(s, parts, l, kv, slotMapping) && |kv| == |slotMapping|
      requires forall a :: 0 <= a < |kv| ==> slotMapping[a] < mem.Length1 && mem[l, slotMapping[a]] == kv[a]
      ensures LayerDone(parts, l)
    {
      hide Flat, TailHidden, KvAt;
      forall i, p | 0 <= i < |parts| && 0 <= p < |parts[i].slots|
        ensures HoldsPair(l, parts[i].slots[p], Upto(parts[i], p))
      {
        StoredRow(l, kv, slotMapping, parts, i, p);
      }
    }

    /** The packed stores are in range, hit only slots the batch writes, and never disagree. */
    lemma PackedStores(l: nat, kv: seq<Vec>, slotMapping: seq<nat>, parts: seq<Part>)
      requires Shaped() && Fit(parts) && Agree(parts)
      requires IsPacked(s, parts, l, kv, slotMapping) && |kv| == |slotMapping|
      ensures forall a :: 0 <= a < |kv| ==> slotMapping[a] < mem.Length1 && Written(parts, slotMapping[a])
      ensures forall a, b :: 0 <= a < |kv| && 0 <= b < |kv| && slotMapping[a] == slotMapping[b] ==> kv[a] == kv[b]
    {
      hide Flat, TailHidden, KvAt;
      forall a | 0 <= a < |kv|
        ensures slotMapping[a] < mem.Length1 && Written(parts, slotMapping[a])
      {
        StoreInRange(l, slotMapping, parts, a);
      }
      forall a, b | 0 <= a < |kv| && 0 <= b < |kv| && slotMapping[a] == slotMapping[b]
        ensures kv[a] == kv[b]
      {
        StoresAgree(l, kv, slotMapping, parts, a, b);
      }
    }

    lemma StoreInRange(l: nat, slotMapping: seq<nat>, parts: seq<Part>, a: nat)
      requires Shaped() && Fit(parts) && slotMapping == Flat(NewSlotsOf(parts)) && a < |slotMapping|
      ensures slotMapping[a] < mem.Length1 && Written(parts, slotMapping[a])
    {
      hide Flat, Start, TailHidden;
      var i, t := FlatFind(NewSlotsOf(parts), a);
      PackedRow(s, parts, l, i, t);
      assert Writes(parts[i], parts[i].slots[|parts[i].history| + t]);
    }

    lemma StoresAgree(l: nat, kv: seq<Vec>, slotMapping: seq<nat>, parts: seq<Part>, a: nat, b: nat)
      requires Shaped() && Fit(parts) && Agree(parts)
      requires IsPacked(s, parts, l, kv, slotMapping) && |kv| == |slotMapping|
      requires a < |kv| && b < |kv| && slotMapping[a] == slotMapping[b]
      ensures kv[a] == kv[b]
    {
      hide Flat, Start, TailHidden, KvAt;
      var i, t := FlatFind(NewSlotsOf(parts), a);
      var j, u := FlatFind(NewSlotsOf(parts), b);
      PackedPair(s, parts, l, kv, slotMapping, i, t);
      PackedPair(s, parts, l, kv, slotMapping, j, u);
      assert SameMeaning(parts[i], |parts[i].history| + t, parts[j], |parts[j].history| + u);
    }

    lemma StoredRow(l: nat, kv: seq<Vec>, slotMapping: seq<nat>, parts: seq<Part>, i: nat, p: nat)
      requires Shaped() && l < s.depth && Fit(parts) && Agree(parts) && LayerReady(parts, l)
      requires IsPacked(s, parts, l, kv, slotMapping) && |kv| == |slotMapping|
      requires forall a :: 0 <= a < |kv| ==> slotMapping[a] < mem.Length1 && mem[l, slotMapping[a]] == kv[a]
      requires i < |parts| && p < |parts[i].slots|
      ensures HoldsPair(l, parts[i].slots[p], Upto(parts[i], p))
    {
      hide Flat, TailHidden, KvAt;
      var x := parts[i].slots[p];
      assert p >= |parts[i].history| ==> Writes(parts[i], x);
      if Written(parts, x) {
        var j :| 0 <= j < |parts| && Writes(parts[j], x);
        var q :| |parts[j].history| <= q < |parts[j].slots| && parts[j].slots[q] == x;
        assert SameMeaning(parts[i], p, parts[j], q);
        StoredByWriter(l, kv, slotMapping, parts, j, q);
      }
    }

    lemma StoredByWriter(l: nat, kv: seq<Vec>, slotMapping: seq<nat>, parts: seq<Part>, j: nat, q: nat)
      requires Shaped() && l < s.depth && Fit(parts)
      requires IsPacked(s, parts, l, kv, slotMapping) && |kv| == |slotMapping|
      requires forall a :: 0 <= a < |kv| ==> slotMapping[a] < mem.Length1 && mem[l, slotMapping[a]] == kv[a]
      requires j < |parts| && |parts[j].history| <= q < |parts[j].slots|
      ensures HoldsPair(l, parts[j].slots[q], Upto(parts[j], q))
    {
      hide Flat, TailHidden, KvAt, Start;
      PackedPair(s, parts, l, kv, slotMapping, j, q - |parts[j].history|);
    }

    // ---------------------------------------------------------------- attention over the packed batch

    /** The pairs of a sequence, read through its block table. */
    method ReadTable(l: nat, table: seq<nat>, n: nat, ghost slots: seq<nat>) returns (kv: seq<Vec>)
      requires Shaped() && l < s.depth && n <= |table| * blockSize && slots == Slots(table, blockSize, n)
      requires forall p :: 0 <= p < n ==> slots[p] < mem.Length1
      ensures |kv| == n && forall p :: 0 <= p < n ==> kv[p] == mem[l, slots[p]]
    {
      kv := [];
      for p := 0 to n
        invariant |kv| == p && forall q :: 0 <= q < p ==> kv[q] == mem[l, slots[q]]
      {
        InTable(table, blockSize, p);
        var x := table[p / blockSize] * blockSize + p % blockSize;
        assert slots[p] == x;
        kv := kv + [mem[l, x]];
      }
    }

    ghost predicate Covered(items: seq<Item>)
      requires blockSize > 0
    {
      forall i :: 0 <= i < |items| ==> items[i].cached + |items[i].chunk| <= |items[i].table| * blockSize
    }

    ghost function PartOf(it: Item, history: seq<Vec>): (r: Part)
      requires blockSize > 0 && it.cached + |it.chunk| <= |it.table| * blockSize && |history| == it.cached
      ensures |r.slots| == |history| + |it.chunk|
    {
      Part(history, it.chunk, Slots(it.table, blockSize, it.cached + |it.chunk|))
    }

    ghost predicate Aligned(items: seq<Item>, histories: seq<seq<Vec>>) {
      && |items| == |histories|
      && forall i :: 0 <= i < |items| ==> items[i].cached == |histories[i]| && InPool(items[i].table, numBlocks)
    }

    /** What a batch of items over these resident histories means. */
    ghost function PartsOf(items: seq<Item>, histories: seq<seq<Vec>>): (parts: seq<Part>)
      requires Shaped() && Aligned(items, histories) && Covered(items)
      ensures |parts| == |items| && Slotted(parts)
      ensures forall i :: 0 <= i < |items| ==> parts[i] == PartOf(items[i], histories[i])
    {
      seq(|items|, i requires 0 <= i < |items| => PartOf(items[i], histories[i]))
    }

    /** Attention of one sequence's rows, from the memory (`paged`) or, when nothing is cached, from the
        packed pairs themselves. */
    method AttendSequence(l: nat, h: seq<Vec>, positions: seq<nat>, kv: seq<Vec>, it: Item, paged: bool, ghost q: Part)
      returns (rows: seq<Vec>)
      requires Shaped() && l < s.depth && it.cached + |it.chunk| <= |it.table| * blockSize
      requires |q.history| == it.cached && q == PartOf(it, q.history) && q.Fits(mem.Length1)
      requires h == TailHidden(s, q.history, q.chunk, l) && positions == Positions(it.cached, |it.chunk|)
      requires kv == KeyValues(s, l, h, positions)
      requires forall p :: 0 <= p < |q.slots| ==> HoldsPair(l, q.slots[p], Upto(q, p))
      requires paged || it.cached == 0
      ensures rows == TailHidden(s, q.history, q.chunk, l + 1)
    {
      hide CausalHidden, TailHidden, CausalKV, KeyValues, KvAt, LayerRow, Slots;
      var pairs: seq<Vec>;
      if paged {
        pairs := ReadTable(l, it.table, it.cached + |it.chunk|, q.slots);
        ResidentPairs(q, l, pairs);
      } else {
        pairs := kv;
        PackedPairs(q, l);
      }
      rows := AttendCausal(s, l, h, positions, pairs, it.cached);
      CausalRows(s, q.history, q.chunk, l, rows);
    }

    /** Without a history the new pairs are all there is. */
    lemma PackedPairs(q: Part, l: nat)
      requires q.history == []
      ensures KeyValues(s, l, TailHidden(s, q.history, q.chunk, l), Positions(0, |q.chunk|)) == CausalKV(s, q.Full(), l)
    {
      hide TailHidden, CausalKV, KeyValues;
      CausalKVSplit(s, q.history, q.chunk, l);
      NoPairs(l);
      var rows := KeyValues(s, l, TailHidden(s, [], q.chunk, l), Positions(0, |q.chunk|));
      assert [] + rows == rows;
    }

    lemma NoPairs(l: nat)
      ensures CausalKV(s, [], l) == []
    {
      hide CausalHidden;
    }

    lemma ResidentPairs(q: Part, l: nat, pairs: seq<Vec>)
      requires Shaped() && l < s.depth && q.Fits(mem.Length1)
      requires |pairs| == |q.slots| && forall p :: 0 <= p < |pairs| ==> pairs[p] == mem[l, q.slots[p]]
      requires forall p :: 0 <= p < |q.slots| ==> HoldsPair(l, q.slots[p], Upto(q, p))
      ensures pairs == CausalKV(s, q.Full(), l)
    {
      hide CausalKV, KvAt;
      forall p | 0 <= p < |pairs| ensures pairs[p] == CausalKV(s, q.Full(), l)[p] {
        assert HoldsPair(l, q.slots[p], Upto(q, p));
        KvAtPrefix(s, q.Full(), l, p);
      }
    }

    /** One layer of the forward pass over the packed batch. */
    method RunLayer(l: nat, h: seq<Vec>, positions: seq<nat>, slotMapping: seq<nat>, cuQ: seq<nat>, items: seq<Item>,
                    paged: bool,
                    ghost parts: seq<Part>)
      returns (next: seq<Vec>)
      requires Shaped() && l < s.depth && BatchReady(items, parts, cuQ, paged) && LayerReady(parts, l)
      requires h == Flat(HiddenOf(s, parts, l)) && positions == Flat(PositionsOf(parts))
      requires slotMapping == Flat(NewSlotsOf(parts))
      modifies mem
      ensures next == Flat(HiddenOf(s, parts, l + 1))
      ensures LayerDone(parts, l) && OnlyWritten(parts)
      ensures forall j :: 0 <= j < s.depth && j != l && old(LayerDone(parts, j)) ==> LayerDone(parts, j)
      ensures forall j :: 0 <= j < s.depth && j != l && old(LayerReady(parts, j)) ==> LayerReady(parts, j)
    {
      hide Flat, TailHidden, KvAt, KeyValues;
      PackedShape(s, parts, l);
      var kv := StorePacked(l, h, positions, slotMapping, parts);
      assert forall j, x, prefix: seq<Vec> :: 0 <= j < s.depth && j != l && prefix != [] ==>
                                                old(HoldsPair(j, x, prefix)) ==> HoldsPair(j, x, prefix);
      next := AttendBatch(l, h, positions, kv, cuQ, items, paged, parts);
    }

    /** The batch is well formed: items mean `parts`, `cuQ` are their packed starts, and the plain path is
        taken only when nothing is cached. */
    ghost predicate BatchReady(items: seq<Item>, parts: seq<Part>, cuQ: seq<nat>, paged: bool)
      requires Shaped()
    {
      && |items| == |parts| == |cuQ| && Fit(parts) && Agree(parts)
      && (forall i :: 0 <= i < |items| ==> items[i].cached + |items[i].chunk| <= |items[i].table| * blockSize)
      && (forall i :: 0 <= i < |items| ==>
          |parts[i].history| == items[i].cached && parts[i] == PartOf(items[i], parts[i].history))
      && (forall i :: 0 <= i < |items| ==> cuQ[i] == Start(NewSlotsOf(parts), i))
      && (paged || forall i :: 0 <= i < |items| ==> items[i].cached == 0)
    }

    method AttendBatch(l: nat, h: seq<Vec>, positions: seq<nat>, kv: seq<Vec>, cuQ: seq<nat>, items: seq<Item>,
                       paged: bool,
                       ghost parts: seq<Part>)
      returns (next: seq<Vec>)
      requires Shaped() && l < s.depth && BatchReady(items, parts, cuQ, paged) && LayerDone(parts, l)
      requires h == Flat(HiddenOf(s, parts, l)) && positions == Flat(PositionsOf(parts)) && |h| == |positions|
      requires kv == KeyValues(s, l, h, positions)
      ensures next == Flat(HiddenOf(s, parts, l + 1))
    {
      hide TailHidden, KvAt, KeyValues, Start;
      next := [];
      ghost var goal := HiddenOf(s, parts, l + 1);
      for i := 0 to |items|
        invariant next == Flat(goal[..i])
      {
        var rows := AttendOne(l, h, positions, kv, cuQ, items, paged, parts, i);
        StartStep(goal, i);
        next := next + rows;
      }
      assert goal[..|items|] == goal;
    }

    method AttendOne(l: nat, h: seq<Vec>, positions: seq<nat>, kv: seq<Vec>, cuQ: seq<nat>, items: seq<Item>,
                     paged: bool,
                     ghost parts: seq<Part>, i: nat)
      returns (rows: seq<Vec>)
      requires Shaped() && l < s.depth && BatchReady(items, parts, cuQ, paged) && LayerDone(parts, l) && i < |items|
      requires h == Flat(HiddenOf(s, parts, l)) && positions == Flat(PositionsOf(parts)) && |h| == |positions|
      requires kv == KeyValues(s, l, h, positions)
      ensures rows == HiddenOf(s, parts, l + 1)[i]
    {
      hide TailHidden, KvAt, Flat, Start;
      var from, to := cuQ[i], cuQ[i] + |items[i].chunk|;
      PackedSlices(s, parts, l, i);
      KeyValuesSlice(s, l, h, positions, from, to);
      forall p | 0 <= p < |parts[i].slots| ensures HoldsPair(l, parts[i].slots[p], Upto(parts[i], p)) {
      }
      rows := AttendSequence(l, h[from..to], positions[from..to], kv[from..to], items[i], paged, parts[i]);
    }

    /** The whole forward pass over the packed batch. */
    method RunLlm(embeds: seq<Vec>, positions: seq<nat>, slotMapping: seq<nat>, cuQ: seq<nat>, items: seq<Item>,
                  paged: bool,
                  ghost parts: seq<Part>)
      returns (hidden: seq<Vec>)
      requires Shaped() && BatchReady(items, parts, cuQ, paged) && Coherent(parts)
      requires MapRows(s.input, embeds) == Flat(HiddenOf(s, parts, 0))
      requires positions == Flat(PositionsOf(parts)) && slotMapping == Flat(NewSlotsOf(parts))
      modifies mem
      ensures hidden == MapRows(s.output, Flat(HiddenOf(s, parts, s.depth)))
      ensures LayersDone(parts, s.depth) && OnlyWritten(parts)
    {
      hide TailHidden, KvAt, Flat;
      var h := MapRows(s.input, embeds);
      for l := 0 to s.depth
        invariant h == Flat(HiddenOf(s, parts, l))
        invariant LayersDone(parts, l) && LayersReady(parts, l) && OnlyWritten(parts)
      {
        h := NextLayer(l, h, positions, slotMapping, cuQ, items, paged, parts);
      }
      hidden := MapRows(s.output, h);
    }

    method NextLayer(l: nat, h: seq<Vec>, positions: seq<nat>, slotMapping: seq<nat>, cuQ: seq<nat>, items: seq<Item>,
                     paged: bool,
                     ghost parts: seq<Part>)
      returns (next: seq<Vec>)
      requires Shaped() && l < s.depth && BatchReady(items, parts, cuQ, paged)
      requires LayersDone(parts, l) && LayersReady(parts, l)
      requires h == Flat(HiddenOf(s, parts, l)) && positions == Flat(PositionsOf(parts))
      requires slotMapping == Flat(NewSlotsOf(parts))
      modifies mem
      ensures next == Flat(HiddenOf(s, parts, l + 1))
      ensures LayersDone(parts, l + 1) && LayersReady(parts, l + 1) && OnlyWritten(parts)
    {
      hide TailHidden, KvAt, Flat;
      next := RunLayer(l, h, positions, slotMapping, cuQ, items, paged, parts);
    }

    ghost predicate LayersDone(parts: seq<Part>, n: nat)
      requires Shaped() && Fit(parts) && n <= s.depth
      reads mem
    {
      forall l :: 0 <= l < n ==> LayerDone(parts, l)
    }

    ghost predicate LayersReady(parts: seq<Part>, n: nat)
      requires Shaped() && Fit(parts) && n <= s.depth
      reads mem
    {
      forall l :: n <= l < s.depth ==> LayerReady(parts, l)
    }

    // ---------------------------------------------------------------- building and splitting a batch

    ghost predicate BuiltFor(parts: seq<Part>, embeds: seq<Vec>, positions: seq<nat>, slotMapping: seq<nat>,
                             cuQ: seq<nat>)
      requires Slotted(parts)
    {
      && MapRows(s.input, embeds) == Flat(HiddenOf(s, parts, 0))
      && positions == Flat(PositionsOf(parts))
      && slotMapping == Flat(NewSlotsOf(parts))
      && StartsFor(parts, cuQ)
    }

    ghost predicate StartsFor(parts: seq<Part>, cuQ: seq<nat>)
      requires Slotted(parts)
    {
      |cuQ| == |parts| && forall j :: 0 <= j < |parts| ==> cuQ[j] == Start(NewSlotsOf(parts), j)
    }

    lemma EmbedsStep(parts: seq<Part>, embeds: seq<Vec>, q: Part)
      requires MapRows(s.input, embeds) == Flat(HiddenOf(s, parts, 0))
      ensures MapRows(s.input, embeds + q.chunk) == Flat(HiddenOf(s, parts + [q], 0))
    {
      hide Flat;
      assert TailHidden(s, q.history, q.chunk, 0) == MapRows(s.input, q.chunk);
      assert HiddenOf(s, parts + [q], 0) == HiddenOf(s, parts, 0) + [MapRows(s.input, q.chunk)];
      FlatSnoc(HiddenOf(s, parts, 0), MapRows(s.input, q.chunk));
      assert MapRows(s.input, embeds + q.chunk) == MapRows(s.input, embeds) + MapRows(s.input, q.chunk);
    }

    lemma SlotsStep(parts: seq<Part>, cuQ: seq<nat>, q: Part)
      requires Slotted(parts) && StartsFor(parts, cuQ)
      requires |q.slots| == |q.history| + |q.chunk|
      ensures Slotted(parts + [q])
      ensures Flat(PositionsOf(parts + [q])) == Flat(PositionsOf(parts)) + Positions(|q.history|, |q.chunk|)
      ensures Flat(NewSlotsOf(parts + [q])) == Flat(NewSlotsOf(parts)) + q.slots[|q.history|..]
      ensures StartsFor(parts + [q], cuQ + [|Flat(NewSlotsOf(parts))|])
    {
      hide Flat, Start;
      var ps, ns := PositionsOf(parts), NewSlotsOf(parts);
      assert PositionsOf(parts + [q]) == ps + [Positions(|q.history|, |q.chunk|)];
      NewSlotsSnoc(parts, q);
      FlatSnoc(ps, Positions(|q.history|, |q.chunk|));
      FlatSnoc(ns, q.slots[|q.history|..]);
      StartsStep(parts, cuQ, q);
    }

    lemma NewSlotsSnoc(parts: seq<Part>, q: Part)
      requires Slotted(parts) && |q.slots| == |q.history| + |q.chunk|
      ensures Slotted(parts + [q])
      ensures NewSlotsOf(parts + [q]) == NewSlotsOf(parts) + [q.slots[|q.history|..]]
    {
    }

    lemma StartsStep(parts: seq<Part>, cuQ: seq<nat>, q: Part)
      requires Slotted(parts) && Slotted(parts + [q]) && StartsFor(parts, cuQ)
      ensures StartsFor(parts + [q], cuQ + [|Flat(NewSlotsOf(parts))|])
    {
      assert |q.slots| == |q.history| + |q.chunk| by { assert (parts + [q])[|parts|] == q; }
      NewSlotsSnoc(parts, q);
      forall j | 0 <= j <= |parts|
        ensures Start(NewSlotsOf(parts + [q]), j) == (cuQ + [|Flat(NewSlotsOf(parts))|])[j]
      {
        StartSnoc(NewSlotsOf(parts), q.slots[|q.history|..], j);
      }
    }

    /** Adding one more item to the packed inputs. */
    lemma BuiltStep(parts: seq<Part>, embeds: seq<Vec>, positions: seq<nat>, slotMapping: seq<nat>, cuQ: seq<nat>,
                    q: Part)
      requires Slotted(parts) && BuiltFor(parts, embeds, positions, slotMapping, cuQ)
      requires |q.slots| == |q.history| + |q.chunk|
      ensures Slotted(parts + [q])
      ensures BuiltFor(parts + [q], embeds + q.chunk, positions + Positions(|q.history|, |q.chunk|),
                       slotMapping + q.slots[|q.history|..], cuQ + [|slotMapping|])
    {
      hide TailHidden, Flat;
      EmbedsStep(parts, embeds, q);
      SlotsStep(parts, cuQ, q);
    }

    /** `parts` are the meanings of the first items. */
    ghost predicate FirstParts(parts: seq<Part>, items: seq<Item>, histories: seq<seq<Vec>>)
      requires Shaped() && Aligned(items, histories)
    {
      && |parts| <= |items| && Slotted(parts)
      && forall j :: 0 <= j < |parts| ==>
                       && items[j].cached + |items[j].chunk| <= |items[j].table| * blockSize
                       && parts[j] == PartOf(items[j], histories[j])
    }

    lemma NoParts(items: seq<Item>, histories: seq<seq<Vec>>)
      requires Shaped() && Aligned(items, histories)
      ensures FirstParts([], items, histories)
      ensures BuiltFor([], [], [], [], [])
    {
    }

    lemma FirstPartsStep(parts: seq<Part>, items: seq<Item>, histories: seq<seq<Vec>>)
      requires Shaped() && Aligned(items, histories) && FirstParts(parts, items, histories) && |parts| < |items|
      requires var it := items[|parts|]; it.cached + |it.chunk| <= |it.table| * blockSize
      ensures FirstParts(parts + [PartOf(items[|parts|], histories[|parts|])], items, histories)
    {
      hide Slots;
    }

    lemma AllParts(parts: seq<Part>, items: seq<Item>, histories: seq<seq<Vec>>)
      requires Shaped() && Aligned(items, histories) && FirstParts(parts, items, histories) && |parts| == |items|
      ensures Covered(items) && parts == PartsOf(items, histories)
    {
    }

    predicate AnyCached(items: seq<Item>, n: nat)
      requires n <= |items|
    {
      exists j :: 0 <= j < n && items[j].cached > 0
    }

    /** The new slots of one item, position by position. */
    method NewSlots(it: Item) returns (slots: seq<nat>)
      requires blockSize > 0 && it.cached + |it.chunk| <= |it.table| * blockSize
      ensures slots == Slots(it.table, blockSize, it.cached + |it.chunk|)[it.cached..]
    {
      slots := [];
      ghost var goal := Slots(it.table, blockSize, it.cached + |it.chunk|);
      for p := it.cached to it.cached + |it.chunk|
        invariant slots == goal[it.cached..p]
      {
        InTable(it.table, blockSize, p);
        slots := slots + [it.table[p / blockSize] * blockSize + p % blockSize];
      }
    }

    /** Packs a batch for the varlen kernel; raises (returns false) when a block table is too short. */
    method PackVarlen(items: seq<Item>, ghost histories: seq<seq<Vec>>)
      returns (ok: bool, embeds: seq<Vec>, positions: seq<nat>, slotMapping: seq<nat>, cuQ: seq<nat>, paged: bool)
      requires Shaped() && Aligned(items, histories)
      ensures ok == Covered(items)
      ensures ok ==> BuiltFor(PartsOf(items, histories), embeds, positions, slotMapping, cuQ)
      ensures ok ==> paged == AnyCached(items, |items|)
    {
      hide TailHidden, Slots, Flat, HiddenOf, PositionsOf, NewSlotsOf, Start, StartsFor, FirstParts, BuiltFor, MapRows;
      embeds, positions, slotMapping, cuQ, paged := [], [], [], [], false;
      var endQ, endK := 0, 0;
      ghost var parts: seq<Part> := [];
      NoParts(items, histories);
      for i := 0 to |items|
        invariant |parts| == i && Slotted(parts) && FirstParts(parts, items, histories)
        invariant BuiltFor(parts, embeds, positions, slotMapping, cuQ)
        invariant endQ <= endK && (endQ < endK <==> AnyCached(items, i))
      {
        var it := items[i];
        var total := it.cached + |it.chunk|;
        if |it.table| * blockSize < total {
          return false, embeds, positions, slotMapping, cuQ, false;
        }
        var slots := NewSlots(it);
        ghost var q := PartOf(it, histories[i]);
        FirstPartsStep(parts, items, histories);
        BuiltStep(parts, embeds, positions, slotMapping, cuQ, q);
        parts := parts + [q];
        embeds := embeds + it.chunk;
        positions := positions + Positions(it.cached, |it.chunk|);
        cuQ := cuQ + [|slotMapping|];
        slotMapping := slotMapping + slots;
        endQ, endK := endQ + |it.chunk|, endK + total;
      }
      ok, paged := true, endK > endQ;
      AllParts(parts, items, histories);
    }

    /** Packs one row per sequence for the decode kernel; raises when a block table is too short. */
    method PackDecode(items: seq<Item>, ghost histories: seq<seq<Vec>>)
      returns (ok: bool, embeds: seq<Vec>, positions: seq<nat>, slotMapping: seq<nat>, rows: seq<nat>)
      requires Shaped() && Aligned(items, histories)
      requires forall i :: 0 <= i < |items| ==> |items[i].chunk| == 1
      ensures ok == Covered(items)
      ensures ok ==> BuiltFor(PartsOf(items, histories), embeds, positions, slotMapping, rows)
    {
      hide TailHidden, Slots, Flat, HiddenOf, PositionsOf, NewSlotsOf, Start, StartsFor, FirstParts, BuiltFor, MapRows;
      embeds, positions, slotMapping, rows := [], [], [], [];
      ghost var parts: seq<Part> := [];
      NoParts(items, histories);
      for i := 0 to |items|
        invariant |parts| == i == |slotMapping| && Slotted(parts) && FirstParts(parts, items, histories)
        invariant BuiltFor(parts, embeds, positions, slotMapping, rows)
      {
        var it := items[i];
        var pos := it.cached;
        if |it.table| * blockSize <= pos {
          return false, embeds, positions, slotMapping, rows;
        }
        var slots := NewSlots(it);
        ghost var q := PartOf(it, histories[i]);
        FirstPartsStep(parts, items, histories);
        BuiltStep(parts, embeds, positions, slotMapping, rows, q);
        parts := parts + [q];
        embeds := embeds + it.chunk;
        positions := positions + Positions(pos, 1);
        rows := rows + [i];
        slotMapping := slotMapping + slots;
      }
      ok := true;
      AllParts(parts, items, histories);
    }

    /** Hands every sequence its rows of the packed result. */
    method SplitHidden(items: seq<Item>, hidden: seq<Vec>, ghost parts: seq<Part>) returns (out: seq<seq<Vec>>)
      requires Slotted(parts) && |items| == |parts| && forall i :: 0 <= i < |items| ==> parts[i].chunk == items[i].chunk
      requires hidden == MapRows(s.output, Flat(HiddenOf(s, parts, s.depth)))
      ensures |out| == |items|
      ensures forall i :: 0 <= i < |items| ==> out[i] == LoneHidden(s, parts[i].history, items[i].chunk)
    {
      hide TailHidden;
      out := [];
      var off := 0;
      ghost var hs := HiddenOf(s, parts, s.depth);
      for i := 0 to |items|
        invariant |out| == i && off == Start(hs, i)
        invariant forall j :: 0 <= j < i ==> out[j] == LoneHidden(s, parts[j].history, items[j].chunk)
      {
        FlatSlice(hs, i);
        StartStep(hs, i);
        var to := off + |items[i].chunk|;
        MapRowsSlice(s.output, Flat(hs), off, to);
        out := out + [hidden[off..to]];
        off := to;
      }
    }

    /** Advances a batch by one append: every sequence gets the hidden states of a lone append, and its rows
        are resident afterwards; nothing else in the memory changes. */
    method AppendBatch(items: seq<Item>, ghost histories: seq<seq<Vec>>) returns (r: Option<seq<seq<Vec>>>)
      requires Shaped() && Aligned(items, histories)
      requires Covered(items) ==> Coherent(PartsOf(items, histories))
      modifies mem
      ensures r.Some? <==> Covered(items)
      ensures r.Some? ==> |r.value| == |items|
      ensures r.Some? ==> forall i :: 0 <= i < |items| ==> r.value[i] == LoneHidden(s, histories[i], items[i].chunk)
      ensures r.Some? ==> LayersDone(PartsOf(items, histories), s.depth) && OnlyWritten(PartsOf(items, histories))
      ensures r.Some? ==> Keeps(old(Meanings()), PartsOf(items, histories))
      ensures r.None? ==> unchanged(mem)
    {
      hide TailHidden, Flat, KvAt, LoneHidden;
      var allOnes := true;
      for i := 0 to |items|
        invariant allOnes == forall j :: 0 <= j < i ==> |items[j].chunk| == 1
      {
        if |items[i].chunk| != 1 {
          allOnes := false;
        }
      }
      if allOnes {
        r := DecodeBatch(items, histories);
      } else {
        r := VarlenBatch(items, histories);
      }
    }

    method VarlenBatch(items: seq<Item>, ghost histories: seq<seq<Vec>>) returns (r: Option<seq<seq<Vec>>>)
      requires Shaped() && Aligned(items, histories)
      requires Covered(items) ==> Coherent(PartsOf(items, histories))
      modifies mem
      ensures r.Some? <==> Covered(items)
      ensures r.Some? ==> |r.value| == |items|
      ensures r.Some? ==> forall i :: 0 <= i < |items| ==> r.value[i] == LoneHidden(s, histories[i], items[i].chunk)
      ensures r.Some? ==> LayersDone(PartsOf(items, histories), s.depth) && OnlyWritten(PartsOf(items, histories))
      ensures r.Some? ==> Keeps(old(Meanings()), PartsOf(items, histories))
      ensures r.None? ==> unchanged(mem)
    {
      hide TailHidden, Flat, KvAt, LoneHidden;
      var ok, embeds, positions, slotMapping, cuQ, paged := PackVarlen(items, histories);
      if !ok {
        return None;
      }
      ghost var parts := PartsOf(items, histories);
      var hidden := RunLlm(embeds, positions, slotMapping, cuQ, items, paged, parts);
      KeepMeaning(parts);
      var out := SplitHidden(items, hidden, parts);
      r := Some(out);
    }

    /** One new row per sequence, always through the memory. */
    method DecodeBatch(items: seq<Item>, ghost histories: seq<seq<Vec>>) returns (r: Option<seq<seq<Vec>>>)
      requires Shaped() && Aligned(items, histories)
      requires forall i :: 0 <= i < |items| ==> |items[i].chunk| == 1
      requires Covered(items) ==> Coherent(PartsOf(items, histories))
      modifies mem
      ensures r.Some? <==> Covered(items)
      ensures r.Some? ==> |r.value| == |items|
      ensures r.Some? ==> forall i :: 0 <= i < |items| ==> r.value[i] == LoneHidden(s, histories[i], items[i].chunk)
      ensures r.Some? ==> LayersDone(PartsOf(items, histories), s.depth) && OnlyWritten(PartsOf(items, histories))
      ensures r.Some? ==> Keeps(old(Meanings()), PartsOf(items, histories))
      ensures r.None? ==> unchanged(mem)
    {
      hide TailHidden, Flat, KvAt, LoneHidden;
      var ok, embeds, positions, slotMapping, rows := PackDecode(items, histories);
      if !ok {
        return None;
      }
      ghost var parts := PartsOf(items, histories);
      var hidden := RunLlm(embeds, positions, slotMapping, rows, items, true, parts);
      KeepMeaning(parts);
      var out := SplitHidden(items, hidden, parts);
      r := Some(out);
    }
  }
}
