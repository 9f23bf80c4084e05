/** The streaming vocoder: a sliding window of decoder inputs, decoded again at every step, of which
    only the frames that can no longer change are emitted.  What it emits, chunk after chunk, is the
    one-shot waveform of everything it was fed.
 */
module VocoderStream {
  import opened Arithmetic
  import opened Decoder
  import opened DecoderLocality
  import opened Lstm
  import opened Outcomes
  import opened Packing
  import opened ReceptiveField

  datatype StreamError = ChunkSizeChanged | ChunkTooLarge | WindowTooShort

  /** The vocoder: projections frame by frame around the LSTM, then the causal decoder. */
  datatype Vocoder = Vocoder(net: Net, hop: nat, inward: Sample -> Sample, cells: seq<Cell>, start: Memory,
                             skip: bool, add: (Sample, Sample) -> Sample, outward: Sample -> Sample)
  {
    /** The hop size is the number of samples the decoder makes of a frame. */
    predicate Valid() {
      NetOk(net) && hop == Rate(Reaches(net))
    }

    function Start(): (r: seq<Memory>)
      ensures |r| == |cells|
    {
      seq(|cells|, _ => start)
    }

    /** Decoder input for latents `z` from saved state `ms`. */
    function Inputs(z: seq<Sample>, ms: seq<Memory>): (r: seq<Sample>)
      requires |ms| == |cells|
      ensures |r| == |z|
    {
      var x := Mapped(inward, z);
      var y := LstmRun(cells, x, ms).ys;
      Mapped(outward, if skip then Added(add, y, x) else y)
    }

    function Memories(z: seq<Sample>, ms: seq<Memory>): (r: seq<Memory>)
      requires |ms| == |cells|
      ensures |r| == |cells|
    {
      LstmRun(cells, Mapped(inward, z), ms).memories
    }

    /** One-shot decoding of all latents. */
    function Waveform(z: seq<Sample>): seq<Sample>
      requires Valid()
    {
      Decode(net, Inputs(z, Start()))
    }

    /** The window keeps a chunk, the lookahead and the left context. */
    function WindowSize(chunk: nat): int
      requires NetOk(net)
    {
      chunk + Lookahead(net) + LeftContext(Reaches(net))
    }
  }

  lemma InputsSplit(v: Vocoder, a: seq<Sample>, b: seq<Sample>, ms: seq<Memory>)
    requires |ms| == |v.cells|
    ensures v.Inputs(a + b, ms) == v.Inputs(a, ms) + v.Inputs(b, v.Memories(a, ms))
    ensures v.Memories(a + b, ms) == v.Memories(b, v.Memories(a, ms))
  {
    hide LstmRun, Mapped, Added;
    var xa, xb := Mapped(v.inward, a), Mapped(v.inward, b);
    var ra := LstmRun(v.cells, xa, ms);
    var rb := LstmRun(v.cells, xb, ra.memories);
    MappedSplit(v.inward, a, b);
    LstmSplit(v.cells, xa, xb, ms);
    AddedSplit(v.add, ra.ys, rb.ys, xa, xb);
    MappedSplit(v.outward, ra.ys, rb.ys);
    MappedSplit(v.outward, Added(v.add, ra.ys, xa), Added(v.add, rb.ys, xb));
  }

  /** The decoder's input is the LSTM's output, and what the LSTM was given where there is a skip connection. */
  lemma InputPaths(v: Vocoder, z: seq<Sample>, ms: seq<Memory>)
    requires |ms| == |v.cells|
    ensures v.skip && v.add == KeepSecond ==> v.Inputs(z, ms) == Mapped(v.outward, Mapped(v.inward, z))
    ensures !v.skip || v.add == KeepFirst ==>
              v.Inputs(z, ms) == Mapped(v.outward, LstmRun(v.cells, Mapped(v.inward, z), ms).ys)
  {
    hide LstmRun, Mapped;
    var x := Mapped(v.inward, z);
    var y := LstmRun(v.cells, x, ms).ys;
    assert Added(KeepFirst, y, x) == y && Added(KeepSecond, y, x) == x by { AddedKeeps(y, x); }
  }

  function KeepFirst(a: Sample, b: Sample): Sample { a }

  function KeepSecond(a: Sample, b: Sample): Sample { b }

  lemma AddedKeeps(y: seq<Sample>, x: seq<Sample>)
    requires |y| == |x|
    ensures Added(KeepFirst, y, x) == y && Added(KeepSecond, y, x) == x
  {
    forall i | 0 <= i < |y| ensures Added(KeepFirst, y, x)[i] == y[i] && Added(KeepSecond, y, x)[i] == x[i] {
      assert KeepFirst(y[i], x[i]) == y[i] && KeepSecond(y[i], x[i]) == x[i];
    }
  }

  lemma MappedSplit(f: Sample -> Sample, a: seq<Sample>, b: seq<Sample>)
    ensures Mapped(f, a + b) == Mapped(f, a) + Mapped(f, b)
  {
  }

  lemma AddedSplit(add: (Sample, Sample) -> Sample, a: seq<Sample>, b: seq<Sample>, x: seq<Sample>, y: seq<Sample>)
    requires |a| == |x| && |b| == |y|
    ensures Added(add, a + b, x + y) == Added(add, a, x) + Added(add, b, y)
  {
  }

  // ---------------------------------------------------------------- the window

  /** The last `size` frames of `xs`, or all of them followed by silence. */
  function WindowOf(zero: Sample, size: nat, xs: seq<Sample>): (w: seq<Sample>)
    ensures |w| == size
  {
    if |xs| >= size then xs[|xs| - size..] else xs + seq(size - |xs|, _ => zero)
  }

  function Clamp(x: int, lo: int, hi: int): int {
    if x < lo then lo else if x > hi then hi else x
  }

  /** Scatters the chunk behind the valid frames of the window, gathers the last window's worth and
      masks what is not valid. */
  method AppendInput(zero: Sample, input: seq<Sample>, window: seq<Sample>, valid: int)
    returns (r: Result<seq<Sample>, StreamError>)
    ensures |input| >= |window| ==> r == Err(ChunkTooLarge)
    ensures forall xs | window == WindowOf(zero, |window|, xs) && valid == Clamp(|xs|, 0, |window|) ::
              |input| < |window| ==> r == Ok(WindowOf(zero, |window|, xs + input))
  {
    var n, size := |input|, |window|;
    if n >= size {
      return Err(ChunkTooLarge);
    }
    var clipped := Clamp(valid, 0, size);
    var combined := Scatter(zero, input, window, clipped);
    var gathered := Gather(zero, combined, size, clipped + n);
    forall xs | window == WindowOf(zero, size, xs) && valid == Clamp(|xs|, 0, size)
      ensures gathered == WindowOf(zero, size, xs + input)
    {
      TailWindow(zero, size, xs, input, window, combined[..clipped + n], gathered);
    }
    r := Ok(gathered);
  }

  /** The chunk overwrites what follows the valid frames of the lengthened window. */
  method Scatter(zero: Sample, input: seq<Sample>, window: seq<Sample>, valid: nat) returns (combined: seq<Sample>)
    requires valid <= |window|
    ensures |combined| == |window| + |input|
    ensures combined[..valid + |input|] == window[..valid] + input
  {
    combined := window + seq(|input|, _ => zero);
    for i := 0 to |input|
      invariant |combined| == |window| + |input|
      invariant combined[..valid + i] == window[..valid] + input[..i]
    {
      combined := combined[valid + i := input[i]];
    }
  }

  /** Element `p` of the window that ends `end` frames into `joined`. */
  function GatheredAt(zero: Sample, joined: seq<Sample>, size: nat, p: nat): Sample
    requires p < size
  {
    if p < |joined| then joined[Clamp(|joined| - size, 0, |joined|) + p] else zero
  }

  method Gather(zero: Sample, combined: seq<Sample>, size: nat, end: nat) returns (gathered: seq<Sample>)
    requires end <= |combined| && size <= |combined|
    ensures |gathered| == size
    ensures forall p :: 0 <= p < size ==> gathered[p] == GatheredAt(zero, combined[..end], size, p)
  {
    var newValid := Clamp(end, 0, size);
    var start := Clamp(end - size, 0, end);
    gathered := seq(size, p requires 0 <= p < size =>
      if p < newValid then combined[Clamp(start + p, 0, |combined| - 1)] else zero);
  }

  /** Gathering behind the valid frames of a window gives the window of the longer signal. */
  lemma TailWindow(zero: Sample, size: nat, xs: seq<Sample>, input: seq<Sample>, window: seq<Sample>,
                   joined: seq<Sample>, gathered: seq<Sample>)
    requires window == WindowOf(zero, size, xs) && |gathered| == size
    requires joined == window[..Clamp(|xs|, 0, size)] + input
    requires forall p :: 0 <= p < size ==> gathered[p] == GatheredAt(zero, joined, size, p)
    ensures gathered == WindowOf(zero, size, xs + input)
  {
    var all := xs + input;
    assert joined == all[|all| - |joined|..];
  }

  /** A window that is not full starts at the start; a full one knows its last `size` frames.  Either
      way it knows what the whole signal is up to `ahead` frames past frame `end`. */
  lemma WindowKnows(zero: Sample, size: nat, xs: seq<Sample>, end: nat, ahead: nat, later: seq<Sample>)
    requires |xs| - Clamp(|xs|, 0, size) <= end <= |xs|
    requires later == [] || end + ahead <= |xs|
    ensures var s := |xs| - Clamp(|xs|, 0, size);
            Knows(zero, xs + later, WindowOf(zero, size, xs), s, 0, end - s, ahead)
  {
    var s := |xs| - Clamp(|xs|, 0, size);
    var w := WindowOf(zero, size, xs);
    forall i | i < end - s + ahead && (s == 0 || 0 <= i)
      ensures At(zero, w, i) == At(zero, xs + later, s + i)
    {
    }
  }

  /** The window holds more than a chunk: the last convolution alone reads six samples back. */
  lemma ContextPositive(d: Net)
    requires NetOk(d)
    ensures LeftContext(Reaches(d)) >= 1
  {
    hide StageReaches, Rate;
    var rs := Reaches(d);
    var front := [Shift(Lookahead(d))] + (StageReaches(ActContext, d.stages) + [Shift(ActContext(d.postAct))]);
    var last := [Shift(d.postConv.Causal())];
    assert rs == front + last;
    assert Proper(front);
    RightOfSum(front, last, 0);
    RightGrows(front, 0);
    ShiftAlone(d.postConv.Causal(), FirstRight(front, 0));
    CeilBounds(FirstRight(rs, 0), Rate(rs));
    if LeftContext(rs) <= 0 { MulLe(LeftContext(rs), 0, Rate(rs)); }
  }

  predicate Inside(a: int, b: int, n: int, hop: nat) {
    0 <= a * hop <= b * hop <= n * hop
  }

  lemma FramesInside(a: int, b: int, n: int, hop: nat)
    requires 0 <= a <= b <= n
    ensures Inside(a, b, n, hop)
  {
    MulLe(0, a, hop);
    MulLe(a, b, hop);
    MulLe(b, n, hop);
  }

  /** Frames that have seen their whole lookahead. */
  function StableEnd(total: nat, ahead: nat): nat {
    if total >= ahead then total - ahead else 0
  }

  /** First frame of the window. */
  function WindowStart(total: nat, size: nat): nat {
    total - Clamp(total, 0, size)
  }

  /** The samples of frames [from, to) of the decoded signal. */
  function Frames(v: Vocoder, xs: seq<Sample>, from: nat, to: nat): seq<Sample>
    requires v.Valid() && from <= to <= |xs|
  {
    DecodeLength(v.net, xs);
    FramesInside(from, to, |xs|, v.hop);
    Decode(v.net, xs)[from * v.hop..to * v.hop]
  }

  /** The same frames cut out of the decoded window. */
  function Cut(v: Vocoder, size: nat, xs: seq<Sample>, from: nat, to: nat): seq<Sample>
    requires v.Valid() && WindowStart(|xs|, size) <= from <= to <= |xs|
  {
    var s, w := WindowStart(|xs|, size), WindowOf(v.net.zero, size, xs);
    DecodeLength(v.net, w);
    FramesInside(from - s, to - s, size, v.hop);
    Decode(v.net, w)[(from - s) * v.hop..(to - s) * v.hop]
  }

  lemma FramesSplit(v: Vocoder, xs: seq<Sample>, from: nat, to: nat)
    requires v.Valid() && from <= to <= |xs|
    ensures Frames(v, xs, 0, to) == Frames(v, xs, 0, from) + Frames(v, xs, from, to)
    ensures Frames(v, xs, 0, 0) == [] && Frames(v, xs, 0, |xs|) == Decode(v.net, xs)
  {
    hide Decode, Reaches, NetOk, Rate;
    DecodeLength(v.net, xs);
    FramesInside(from, to, |xs|, v.hop);
  }

  lemma CutIsFrames(v: Vocoder, size: nat, xs: seq<Sample>, from: nat, to: nat)
    requires v.Valid() && WindowStart(|xs|, size) <= from <= to <= |xs|
    requires WindowStart(|xs|, size) == 0 || from >= WindowStart(|xs|, size) + LeftContext(Reaches(v.net))
    ensures Cut(v, size, xs, from, to) == Frames(v, xs, from, to)
  {
    hide Decode, Reaches, LeftContext, Rate, WindowOf;
    var s, w := WindowStart(|xs|, size), WindowOf(v.net.zero, size, xs);
    assert xs + [] == xs;
    WindowKnows(v.net.zero, size, xs, to, Lookahead(v.net), []);
    WindowDecodes(v.net, xs, w, s, 0, from - s, to - s);
  }

  /** Frames that see their whole lookahead never change. */
  lemma StablePrefix(v: Vocoder, xs: seq<Sample>, later: seq<Sample>, end: nat)
    requires v.Valid() && (end == 0 || end + Lookahead(v.net) <= |xs|)
    ensures end <= |xs| && Frames(v, xs + later, 0, end) == Frames(v, xs, 0, end)
  {
    hide Decode, Reaches, LeftContext, NetOk, Rate;
    if end == 0 {
      FramesSplit(v, xs, 0, 0);
      FramesSplit(v, xs + later, 0, 0);
    } else {
      WindowKnows(v.net.zero, |xs|, xs, end, Lookahead(v.net), later);
      WindowDecodes(v.net, xs + later, xs, 0, 0, 0, end);
    }
  }

  /** One step: what is stable now is what was delivered, followed by the cut of the new window.  A full window
      holds the left context of the first new frame and nothing before it. */
  lemma StepDelivers(v: Vocoder, before: seq<Sample>, input: seq<Sample>)
    requires v.Valid() && LeftContext(Reaches(v.net)) >= 0
    ensures var all, size := before + input, v.WindowSize(|input|);
            var from, to := StableEnd(|before|, Lookahead(v.net)), StableEnd(|all|, Lookahead(v.net));
            && WindowStart(|all|, size) <= from <= to
            && (WindowStart(|all|, size) > 0 ==> from - WindowStart(|all|, size) == LeftContext(Reaches(v.net)))
            && Frames(v, all, 0, to) == Frames(v, before, 0, from) + Cut(v, size, all, from, to)
  {
    hide Decode, Reaches, LeftContext, NetOk, Rate, WindowOf, Frames, Cut;
    var all, size := before + input, v.WindowSize(|input|);
    var from, to := StableEnd(|before|, Lookahead(v.net)), StableEnd(|all|, Lookahead(v.net));
    CutIsFrames(v, size, all, from, to);
    FramesSplit(v, all, from, to);
    StablePrefix(v, before, input, from);
  }

  /** The flush: the window still reaches the last delivered frame, and the rest of it is the rest. */
  lemma FlushDelivers(v: Vocoder, chunk: nat, all: seq<Sample>)
    requires v.Valid() && LeftContext(Reaches(v.net)) >= 0
    ensures var size, from := v.WindowSize(chunk), StableEnd(|all|, Lookahead(v.net));
            && WindowStart(|all|, size) <= from <= |all|
            && Decode(v.net, all) == Frames(v, all, 0, from) + Cut(v, size, all, from, |all|)
  {
    hide Decode, Reaches, LeftContext, NetOk, Rate, WindowOf, Frames, Cut;
    var size, from := v.WindowSize(chunk), StableEnd(|all|, Lookahead(v.net));
    CutIsFrames(v, size, all, from, |all|);
    FramesSplit(v, all, from, |all|);
  }

  // ---------------------------------------------------------------- the stream

  /** A decoder stream and the latents it was fed. */
  class BigVganStream {
    const v: Vocoder
    const chunkSize: nat
    var hidden: seq<Memory>
    var window: seq<Sample>
    var total: nat
    var emitted: nat
    ghost var fed: seq<Sample>

    /** The decoder inputs of everything fed. */
    ghost function Seen(): (xs: seq<Sample>)
      reads this
      ensures |xs| == |fed|
    {
      v.Inputs(fed, v.Start())
    }

    /** The state of a stream after `fed`: streaming, or flushed. */
    ghost predicate Valid()
      reads this
    {
      && v.Valid() && chunkSize >= 1 && LeftContext(Reaches(v.net)) >= 1
      && hidden == v.Memories(fed, v.Start())
      && window == WindowOf(v.net.zero, v.WindowSize(chunkSize), Seen())
      && total == |fed|
      && (emitted == StableEnd(total, Lookahead(v.net)) || emitted == total)
    }

    /** No flush yet: exactly the stable frames are out. */
    ghost predicate Streaming()
      reads this
    {
      Valid() && emitted == StableEnd(total, Lookahead(v.net))
    }

    /** The audio delivered so far: that many frames of the one-shot waveform of what was fed. */
    ghost function Delivered(): seq<Sample>
      reads this
      requires Valid()
    {
      Frames(v, Seen(), 0, emitted)
    }

    constructor (v: Vocoder, chunkSize: nat)
      requires v.Valid() && chunkSize >= 1
      ensures this.v == v && this.chunkSize == chunkSize && fed == []
      ensures Streaming() && Delivered() == []
    {
      hide Reaches, LeftContext, NetOk, Rate, Decode;
      ContextPositive(v.net);
      this.v := v;
      this.chunkSize := chunkSize;
      hidden := v.Start();
      window := seq(v.WindowSize(chunkSize), _ => v.net.zero);
      total, emitted, fed := 0, 0, [];
      new;
      StartMemories(v);
      FramesSplit(v, [], 0, 0);
    }

    /** Appends one chunk of decoder inputs; a chunk of another size is refused. */
    method Append(input: seq<Sample>, ghost before: seq<Sample>) returns (r: Result<seq<Sample>, StreamError>)
      requires v.Valid() && LeftContext(Reaches(v.net)) >= 1 && total == |before|
      requires window == WindowOf(v.net.zero, v.WindowSize(chunkSize), before)
      modifies this`window, this`total
      ensures |input| != chunkSize ==> r == Err(ChunkSizeChanged) && window == old(window) && total == old(total)
      ensures |input| == chunkSize ==>
                && r == Ok(window) && total == old(total) + chunkSize
                && window == WindowOf(v.net.zero, v.WindowSize(chunkSize), before + input)
    {
      if |input| != chunkSize {
        return Err(ChunkSizeChanged);
      }
      var valid := Clamp(total, 0, |window|);
      r := AppendInput(v.net.zero, input, window, valid);
      if r.Ok? {
        window := r.value;
        total := total + chunkSize;
      }
    }

    /** Cuts the frames that became stable out of the decoded window. */
    method SliceAudio(audio: seq<Sample>, final: bool) returns (r: Result<seq<Sample>, StreamError>)
      requires v.Valid() && |audio| == |window| * v.hop && emitted <= total
      modifies this`emitted
      ensures var to := if final then total else StableEnd(total, Lookahead(v.net));
              var start := WindowStart(total, |window|);
              if to <= old(emitted) then r == Ok([]) && emitted == old(emitted)
              else if old(emitted) < start then r == Err(WindowTooShort) && emitted == old(emitted)
              else emitted == to && Inside(old(emitted) - start, to - start, |window|, v.hop)
                   && r == Ok(audio[(old(emitted) - start) * v.hop..(to - start) * v.hop])
    {
      var to := if final then total else if total > Lookahead(v.net) then total - Lookahead(v.net) else 0;
      if to <= emitted {
        return Ok([]);
      }
      var valid := Clamp(total, 0, |window|);
      var start := total - valid;
      if emitted < start {
        return Err(WindowTooShort);
      }
      FramesInside(emitted - start, to - start, |window|, v.hop);
      r := Ok(audio[(emitted - start) * v.hop..(to - start) * v.hop]);
      emitted := to;
    }

    /** The decoder inputs of one chunk; the LSTM state moves on. */
    method Prepare(latents: seq<Sample>) returns (input: seq<Sample>)
      requires |hidden| == |v.cells|
      modifies this`hidden
      ensures input == v.Inputs(latents, old(hidden)) && hidden == v.Memories(latents, old(hidden))
    {
      var x := Mapped(v.inward, latents);
      var y, next := Lstm.StreamStep(v.cells, x, hidden);
      hidden := next;
      input := Mapped(v.outward, if v.skip then Added(v.add, y, x) else y);
    }

    /** One chunk in, the newly stable audio out.  The only failure is a chunk of another size, which
        has already advanced the LSTM. */
    method StreamStep(latents: seq<Sample>) returns (r: Result<seq<Sample>, StreamError>)
      requires Streaming()
      modifies this
      ensures r.Ok? <==> |latents| == chunkSize
      ensures r.Ok? ==> Streaming() && fed == old(fed) + latents && Delivered() == old(Delivered()) + r.value
      ensures r.Err? ==> r == Err(ChunkSizeChanged) && hidden == v.Memories(latents, old(hidden))
                         && window == old(window) && total == old(total) && emitted == old(emitted) && fed == old(fed)
    {
      hide LeftContext, Decode, Reaches, WindowOf, Rate, NetOk, Frames, LstmRun;
      hide Vocoder.Inputs, Vocoder.Memories;
      ghost var before := Seen();
      InputsSplit(v, fed, latents, v.Start());
      var input := Prepare(latents);
      var w := Append(input, before);
      if w.Err? {
        return Err(w.error);
      }
      DecodeLength(v.net, w.value);
      var audio := Decode(v.net, w.value);
      r := SliceAudio(audio, false);
      fed := fed + latents;
      StepDelivers(v, before, input);
    }

    /** The rest of the audio: the frames whose lookahead is silence.  Everything delivered is now the
        one-shot waveform. */
    method Flush() returns (r: Result<seq<Sample>, StreamError>)
      requires Streaming()
      modifies this`emitted
      ensures r.Ok? && Valid() && emitted == total
      ensures Delivered() == old(Delivered()) + r.value == v.Waveform(fed)
    {
      hide LeftContext, Decode, Reaches, WindowOf, Rate, NetOk, LstmRun, Frames;
      hide Vocoder.Inputs, Vocoder.Memories;
      DecodeLength(v.net, window);
      var audio := Decode(v.net, window);
      r := SliceAudio(audio, true);
      FlushDelivers(v, chunkSize, Seen());
      FramesSplit(v, Seen(), 0, total);
    }
  }

  lemma StartMemories(v: Vocoder)
    ensures v.Memories([], v.Start()) == v.Start() && v.Inputs([], v.Start()) == []
  {
    assert Mapped(v.inward, []) == [];
    NothingRun(v.cells, v.Start());
  }

  lemma {:induction false} NothingRun(cells: seq<Cell>, ms: seq<Memory>)
    requires |ms| == |cells|
    ensures LstmRun(cells, [], ms) == LstmOut([], ms)
    decreases |cells|
  {
    if cells != [] { NothingRun(cells[1..], ms[1..]); }
  }
}
