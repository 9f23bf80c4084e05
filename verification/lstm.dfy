/** The latent LSTM ahead of the decoder: stepping it chunk by chunk through its saved hidden state
    gives the outputs of one pass over the whole sequence.
 */
module Lstm {
  import opened Decoder

  /** Hidden and cell state of one layer. */
  datatype Memory = Memory(h: Sample, c: Sample)

  type Cell = (Sample, Memory) -> Memory

  datatype LayerOut = LayerOut(ys: seq<Sample>, memory: Memory)

  datatype LstmOut = LstmOut(ys: seq<Sample>, memories: seq<Memory>)

  /** One layer over `xs`: each output is the hidden state after its frame. */
  function LayerRun(cell: Cell, xs: seq<Sample>, m: Memory): (r: LayerOut)
    ensures |r.ys| == |xs|
  {
    if xs == [] then LayerOut([], m)
    else
      var before := LayerRun(cell, xs[..|xs| - 1], m);
      var after := cell(xs[|xs| - 1], before.memory);
      LayerOut(before.ys + [after.h], after)
  }

  /** The layers one on top of the other. */
  function LstmRun(cells: seq<Cell>, xs: seq<Sample>, ms: seq<Memory>): (r: LstmOut)
    requires |ms| == |cells|
    ensures |r.ys| == |xs| && |r.memories| == |cells|
  {
    if cells == [] then LstmOut(xs, [])
    else
      var first := LayerRun(cells[0], xs, ms[0]);
      var rest := LstmRun(cells[1..], first.ys, ms[1..]);
      LstmOut(rest.ys, [first.memory] + rest.memories)
  }

  /** Each frame moves the state on, and its output is the hidden state after it. */
  lemma {:induction false} FrameStep(cell: Cell, xs: seq<Sample>, m: Memory, i: nat)
    requires i < |xs|
    ensures var after := cell(xs[i], LayerRun(cell, xs[..i], m).memory);
            LayerRun(cell, xs[..i + 1], m).memory == after && LayerRun(cell, xs, m).ys[i] == after.h
    decreases |xs|
  {
    assert xs[..i + 1][..i] == xs[..i];
    var last := |xs| - 1;
    if i < last {
      FrameStep(cell, xs[..last], m, i);
      assert xs[..last][..i] == xs[..i] && xs[..last][..i + 1] == xs[..i + 1];
    } else {
      assert xs[..i + 1] == xs;
    }
  }

  /** A cell whose hidden state is its input. */
  ghost predicate Echoes(cell: Cell) {
    forall x, m :: cell(x, m).h == x
  }

  /** Layers that echo give every frame back in its place. */
  lemma {:induction false} EchoRun(cells: seq<Cell>, xs: seq<Sample>, ms: seq<Memory>)
    requires |ms| == |cells| && forall k :: 0 <= k < |cells| ==> Echoes(cells[k])
    ensures LstmRun(cells, xs, ms).ys == xs
    decreases |cells|
  {
    hide LayerRun;
    if cells != [] {
      forall i | 0 <= i < |xs| ensures LayerRun(cells[0], xs, ms[0]).ys[i] == xs[i] {
        FrameStep(cells[0], xs, ms[0], i);
      }
      assert LayerRun(cells[0], xs, ms[0]).ys == xs;
      EchoRun(cells[1..], xs, ms[1..]);
    }
  }

  /** Every layer reads what the layers under it put out. */
  lemma {:induction false} LastLayer(cells: seq<Cell>, cell: Cell, xs: seq<Sample>, ms: seq<Memory>, m: Memory)
    requires |ms| == |cells|
    ensures var below := LstmRun(cells, xs, ms);
            var top := LayerRun(cell, below.ys, m);
            LstmRun(cells + [cell], xs, ms + [m]) == LstmOut(top.ys, below.memories + [top.memory])
    decreases |cells|
  {
    hide LayerRun;
    if cells == [] {
      assert cells + [cell] == [cell] && ms + [m] == [m] && [cell][1..] == [] && [m][1..] == [];
    } else {
      assert (cells + [cell])[1..] == cells[1..] + [cell] && (ms + [m])[1..] == ms[1..] + [m];
      LastLayer(cells[1..], cell, LayerRun(cells[0], xs, ms[0]).ys, ms[1..], m);
    }
  }

  lemma {:induction false} LayerSplit(cell: Cell, a: seq<Sample>, b: seq<Sample>, m: Memory)
    ensures var first := LayerRun(cell, a, m);
            var second := LayerRun(cell, b, first.memory);
            LayerRun(cell, a + b, m) == LayerOut(first.ys + second.ys, second.memory)
    decreases |b|
  {
    if b == [] {
      assert a + b == a;
    } else {
      var last := |b| - 1;
      assert (a + b)[..|a + b| - 1] == a + b[..last];
      LayerSplit(cell, a, b[..last], m);
    }
  }

  /** Any cut of the input gives the same outputs and the same final state. */
  lemma {:induction false} LstmSplit(cells: seq<Cell>, a: seq<Sample>, b: seq<Sample>, ms: seq<Memory>)
    requires |ms| == |cells|
    ensures var first := LstmRun(cells, a, ms);
            var second := LstmRun(cells, b, first.memories);
            LstmRun(cells, a + b, ms) == LstmOut(first.ys + second.ys, second.memories)
    decreases |cells|
  {
    hide LayerRun;
    if cells != [] {
      LayerSplit(cells[0], a, b, ms[0]);
      var la := LayerRun(cells[0], a, ms[0]);
      var lb := LayerRun(cells[0], b, la.memory);
      LstmSplit(cells[1..], la.ys, lb.ys, ms[1..]);
      var first := LstmRun(cells, a, ms);
      assert first.memories[1..] == LstmRun(cells[1..], la.ys, ms[1..]).memories;
    }
  }

  /** The streaming loop over layers and frames computes one pass from the saved state. */
  method StreamStep(cells: seq<Cell>, xs: seq<Sample>, hidden: seq<Memory>) returns (ys: seq<Sample>, next: seq<Memory>)
    requires |hidden| == |cells|
    ensures LstmOut(ys, next) == LstmRun(cells, xs, hidden)
  {
    ys, next := xs, [];
    for k := 0 to |cells|
      invariant |next| == k
      invariant LstmRun(cells, xs, hidden) ==
                (var rest := LstmRun(cells[k..], ys, hidden[k..]); LstmOut(rest.ys, next + rest.memories))
    {
      var outputs, m := LayerLoop(cells[k], ys, hidden[k]);
      ghost var before, tail := next, LstmRun(cells[k + 1..], outputs, hidden[k + 1..]);
      assert cells[k..][1..] == cells[k + 1..] && hidden[k..][1..] == hidden[k + 1..];
      assert LstmRun(cells[k..], ys, hidden[k..]) == LstmOut(tail.ys, [m] + tail.memories);
      next := next + [m];
      assert before + ([m] + tail.memories) == next + tail.memories;
      ys := outputs;
    }
    assert next + LstmRun(cells[|cells|..], ys, hidden[|cells|..]).memories == next;
  }

  method LayerLoop(cell: Cell, xs: seq<Sample>, m: Memory) returns (outputs: seq<Sample>, memory: Memory)
    ensures LayerOut(outputs, memory) == LayerRun(cell, xs, m)
  {
    outputs, memory := [], m;
    for i := 0 to |xs|
      invariant LayerOut(outputs, memory) == LayerRun(cell, xs[..i], m)
    {
      assert xs[..i + 1][..i] == xs[..i];
      memory := cell(xs[i], memory);
      outputs := outputs + [memory.h];
    }
    assert xs[..|xs|] == xs;
  }
}
