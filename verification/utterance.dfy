/** A whole utterance of one request: hiddens and patches join its history, the flow matching decodes each
    patch from the caches, and what it decodes feeds the next hidden.  The counters of the request are what
    keeps the caches within their bounds and on whole strides.
 */
module Utterance {
  import opened Arithmetic
  import opened FlashFmCache
  import opened FmCache
  import opened FmSeeding
  import opened FmSolver
  import opened Lockstep
  import opened Transformer

  /** What the request gets from the rest of the engine, as functions of the patches emitted so far. */
  datatype Voice = Voice(
    prefillHidden: nat -> Vec,            // the language model at a position of the prefill
    nextHidden: seq<seq<Vec>> -> Vec,     // and after the patches so far
    promptPatch: nat -> seq<Vec>,
    noise: nat -> seq<Vec>,
    hiddenRow: Vec -> Vec,
    nullRow: Vec,                         // the unguided branch has no hidden
    latentRow: Vec -> Vec,
    eos: Vec -> bool)

  ghost predicate Fits(v: Voice, patchRows: nat) {
    && (forall i: nat :: |v.promptPatch(i)| == patchRows)
    && (forall i: nat :: |v.noise(i)| == patchRows)
  }

  function ItemRow(v: Voice, x: Item, guided: bool): seq<Vec> {
    match x
    case Hidden(at) => if guided then [v.hiddenRow(v.prefillHidden(at))] else [v.nullRow]
    case Latent(patch) => MapRows(v.latentRow, v.promptPatch(patch))
  }

  /** The rows seeded on prefill, for one guidance branch. */
  function Opening(v: Voice, items: seq<Item>, guided: bool): seq<Vec> {
    if items == [] then []
    else Opening(v, items[..|items| - 1], guided) + ItemRow(v, items[|items| - 1], guided)
  }

  lemma {:induction false} OpeningRows(v: Voice, items: seq<Item>, guided: bool, patchRows: nat)
    requires Fits(v, patchRows)
    ensures |Opening(v, items, guided)| == Rows(items, patchRows)
    decreases |items|
  {
    if items != [] { OpeningRows(v, items[..|items| - 1], guided, patchRows); }
  }

  // ---------------------------------------------------------------- what the request should say

  /** Both histories when a patch is decoded, and the patches so far. */
  datatype Take = Take(history: seq<Vec>, cfgHistory: seq<Vec>, patches: seq<seq<Vec>>)

  /** The next patch, decoded over the whole history. */
  function NextPatchOf(v: Voice, flow: FlowHead, t: Take): (z: seq<Vec>) {
    SoloFlow(flow, t.history, t.cfgHistory, v.noise(|t.patches|), flow.numSteps)
  }

  /** A patch and the hidden it leads to join the histories. */
  function Continued(v: Voice, hc: seq<Vec>, hu: seq<Vec>, patches: seq<seq<Vec>>, z: seq<Vec>): Take {
    var latents := MapRows(v.latentRow, z);
    Take(hc + latents + [v.hiddenRow(v.nextHidden(patches + [z]))], hu + latents + [v.nullRow], patches + [z])
  }

  function NextTake(v: Voice, flow: FlowHead, t: Take): Take {
    Continued(v, t.history, t.cfgHistory, t.patches, NextPatchOf(v, flow, t))
  }

  /** `k` patches, every one decoded over the whole history at that point. */
  function TakeAt(v: Voice, flow: FlowHead, audio: seq<bool>, prompts: nat, k: nat): (t: Take)
    requires Proper(audio, prompts)
    ensures |t.patches| == k
  {
    if k == 0 then
      var items := Items(audio, prompts);
      Take(Opening(v, items, true), Opening(v, items, false), [])
    else NextTake(v, flow, TakeAt(v, flow, audio, prompts, k - 1))
  }

  /** Which rows of a history are hiddens. */
  function Marks(items: seq<Item>, patchRows: nat): (r: seq<bool>) {
    if items == [] then []
    else
      Marks(items[..|items| - 1], patchRows)
      + if items[|items| - 1].Hidden? then [true] else seq(patchRows, _ => false)
  }

  function MarksAt(audio: seq<bool>, prompts: nat, patchRows: nat, k: nat): seq<bool>
    requires Proper(audio, prompts)
  {
    if k == 0 then Marks(Items(audio, prompts), patchRows)
    else MarksAt(audio, prompts, patchRows, k - 1) + seq(patchRows, _ => false) + [true]
  }

  /** The history with the null row for every hidden. */
  function Nulled(v: Voice, history: seq<Vec>, marks: seq<bool>): seq<Vec>
    requires |history| == |marks|
  {
    seq(|history|, i requires 0 <= i < |history| => if marks[i] then v.nullRow else history[i])
  }

  lemma NulledSum(v: Voice, a: seq<Vec>, m: seq<bool>, b: seq<Vec>, n: seq<bool>)
    requires |a| == |m| && |b| == |n|
    ensures Nulled(v, a + b, m + n) == Nulled(v, a, m) + Nulled(v, b, n)
  {
  }

  lemma {:induction false} OpeningNulled(v: Voice, items: seq<Item>, patchRows: nat)
    requires Fits(v, patchRows)
    ensures |Opening(v, items, true)| == |Marks(items, patchRows)|
    ensures Opening(v, items, false) == Nulled(v, Opening(v, items, true), Marks(items, patchRows))
    decreases |items|
  {
    if items != [] {
      var front, x := items[..|items| - 1], items[|items| - 1];
      var mark := if x.Hidden? then [true] else seq(patchRows, _ => false);
      OpeningNulled(v, front, patchRows);
      NulledSum(v, Opening(v, front, true), Marks(front, patchRows), ItemRow(v, x, true), mark);
      assert Nulled(v, ItemRow(v, x, true), mark) == ItemRow(v, x, false);
    }
  }

  /** The unguided history is at every patch the guided one with every hidden nulled. */
  lemma {:induction false} UnguidedHistory(v: Voice, flow: FlowHead, audio: seq<bool>, prompts: nat, patchRows: nat,
                                           k: nat)
    requires Proper(audio, prompts) && Fits(v, patchRows)
    ensures var t, marks := TakeAt(v, flow, audio, prompts, k), MarksAt(audio, prompts, patchRows, k);
            |t.history| == |marks| && t.cfgHistory == Nulled(v, t.history, marks)
    decreases k
  {
    hide Items, SoloFlow, Marks, Nulled;
    if k == 0 {
      OpeningNulled(v, Items(audio, prompts), patchRows);
    } else {
      UnguidedHistory(v, flow, audio, prompts, patchRows, k - 1);
      var t, marks := TakeAt(v, flow, audio, prompts, k - 1), MarksAt(audio, prompts, patchRows, k - 1);
      var z := NextPatchOf(v, flow, t);
      var latents, mark := MapRows(v.latentRow, z), seq(patchRows, _ => false);
      var hidden := [v.hiddenRow(v.nextHidden(t.patches + [z]))];
      NulledSum(v, t.history, marks, latents, mark);
      NulledSum(v, t.history + latents, marks + mark, hidden, [true]);
      NulledParts(v, latents, hidden[0], patchRows);
    }
  }

  lemma NulledParts(v: Voice, latents: seq<Vec>, hidden: Vec, patchRows: nat)
    requires |latents| == patchRows
    ensures Nulled(v, latents, seq(patchRows, _ => false)) == latents && Nulled(v, [hidden], [true]) == [v.nullRow]
  {
  }

  /** The hidden a patch is decoded for is the last row of the guided history. */
  lemma LastIsHidden(v: Voice, flow: FlowHead, audio: seq<bool>, prompts: nat, k: nat)
    requires Proper(audio, prompts) && PrefillEnd(audio, prompts) > 0
    ensures var t := TakeAt(v, flow, audio, prompts, k);
            t.history != [] && t.history[|t.history| - 1] == v.hiddenRow(HiddenFor(v, flow, audio, prompts, k))
  {
    hide SoloFlow, AudioSpans, Items, PrefillEnd;
    if k == 0 { LastItem(audio, prompts); }
  }

  /** The hidden that patch `k` is decoded for and that may end the utterance with it, counting from 0. */
  function HiddenFor(v: Voice, flow: FlowHead, audio: seq<bool>, prompts: nat, k: nat): Vec
    requires Proper(audio, prompts) && PrefillEnd(audio, prompts) > 0
  {
    if k == 0 then v.prefillHidden(PrefillEnd(audio, prompts) - 1)
    else v.nextHidden(TakeAt(v, flow, audio, prompts, k).patches)
  }

  /** After how many patches the model ends the utterance. */
  function Stops(v: Voice, flow: FlowHead, audio: seq<bool>, prompts: nat): nat -> bool
    requires Proper(audio, prompts) && PrefillEnd(audio, prompts) > 0
  {
    (n: nat) => n > 0 && v.eos(HiddenFor(v, flow, audio, prompts, n - 1))
  }

  // ---------------------------------------------------------------- the utterance as the engine makes it

  /** A stream and a request of the same sizes. */
  ghost predicate Paired(q: Request, st: FmStream) {
    st.stride == q.Stride() && st.fmCapacity == q.fmCapacity
  }

  /** Between two steps: the histories lack only the hidden that the patches so far lead to. */
  ghost predicate Between(q: Request, flow: FlowHead, v: Voice, oldC: seq<Vec>, oldU: seq<Vec>,
                          newC: seq<Vec>, newU: seq<Vec>, patches: seq<seq<Vec>>)
    requires Proper(q.audio, q.prompts)
    reads q
  {
    && |patches| == q.emitted && |oldC| == |oldU| && |newC| == |newU|
    && if q.emitted == 0 then patches == [] && oldC == newC == []
       else
         && |oldC + newC| == q.fmRows && |newC| == q.patchRows
         && TakeAt(v, flow, q.audio, q.prompts, q.emitted)
            == Take(oldC + newC + [v.hiddenRow(v.nextHidden(patches))], oldU + newU + [v.nullRow], patches)
  }

  /** Before the flow matching: the seeded prefill, or the hidden of the patches so far, joins the histories. */
  method JoinHidden(q: Request, v: Voice, oldC: seq<Vec>, oldU: seq<Vec>, newC: seq<Vec>, newU: seq<Vec>,
                    patches: seq<seq<Vec>>, ghost flow: FlowHead)
    returns (h: Vec, joinedC: seq<Vec>, joinedU: seq<Vec>)
    requires q.Valid() && !q.stopped && PrefillEnd(q.audio, q.prompts) > 0 && Fits(v, q.patchRows)
    requires Between(q, flow, v, oldC, oldU, newC, newU, patches)
    modifies q`fmRows
    ensures q.AtFlow() && |oldC + joinedC| == q.fmRows && |joinedC| == |joinedU| > 0
    ensures q.emitted > 0 ==> |joinedC| == q.Stride()
    ensures TakeAt(v, flow, q.audio, q.prompts, q.emitted) == Take(oldC + joinedC, oldU + joinedU, patches)
    ensures h == HiddenFor(v, flow, q.audio, q.prompts, q.emitted)
  {
    hide AudioSpans, Items, Rows, Opening;
    if q.donePrefill {
      h := v.nextHidden(patches);
      var _ := q.NextHidden();
      joinedC, joinedU := newC + [v.hiddenRow(h)], newU + [v.nullRow];
      assert oldC + joinedC == oldC + newC + [v.hiddenRow(h)];
      assert oldU + joinedU == oldU + newU + [v.nullRow];
    } else {
      h := v.prefillHidden(PrefillEnd(q.audio, q.prompts) - 1);
      var _, items := q.Seed();
      joinedC, joinedU := Opening(v, items, true), Opening(v, items, false);
      OpeningRows(v, items, true, q.patchRows);
      OpeningRows(v, items, false, q.patchRows);
      assert oldC + joinedC == joinedC && oldU + joinedU == joinedU;
      SeededSome(q);
    }
  }

  lemma SeededSome(q: Request)
    requires q.AtFlow() && q.emitted == 0
    ensures q.fmRows > 0
  {
    if q.prompts > 0 { MulPositive(q.prompts, q.Stride()); }
  }

  /** After it: the decoded patch is the next one of the full-history utterance. */
  lemma PatchJoins(q: Request, flow: FlowHead, v: Voice, hc: seq<Vec>, hu: seq<Vec>, patches: seq<seq<Vec>>,
                   z: seq<Vec>)
    requires Proper(q.audio, q.prompts)
    requires TakeAt(v, flow, q.audio, q.prompts, q.emitted) == Take(hc, hu, patches)
    requires z == SoloFlow(flow, hc, hu, v.noise(|patches|), flow.numSteps)
    ensures TakeAt(v, flow, q.audio, q.prompts, q.emitted + 1) == Continued(v, hc, hu, patches, z)
  {
    hide SoloFlow;
  }

  /** The history fits the cache, and the first one is a length the graphed head takes exactly for a text-only
      request or a single prompt patch with its hidden. */
  lemma FirstFits(q: Request)
    requires q.AtFlow()
    ensures q.fmRows <= q.fmCapacity
    ensures q.emitted == 0 && PrefillEnd(q.audio, q.prompts) > 0 ==>
              (q.fmRows == 1 || q.fmRows == 1 + q.Stride() <==> Cacheable(q))
  {
    hide AudioSpans;
    Room(q, q.prompts + q.emitted);
    FirstIsAudio(q.audio);
    if q.prompts > 1 {
      MulLe(2, q.prompts, q.Stride());
    }
  }

  /** What a caller can see of the request: no prompt, or one patch of it that is not at the very start. */
  predicate Cacheable(q: Request) {
    q.prompts == 0 || (q.prompts == 1 && q.Missing() == 0)
  }

  lemma LastPatchStep(v: Voice, flow: FlowHead, q: Request, k: nat)
    requires Proper(q.audio, q.prompts) && PrefillEnd(q.audio, q.prompts) > 0
    ensures var stops := Stops(v, flow, q.audio, q.prompts);
            LastPatch(stops, q.Cap(), k + 1)
            == if v.eos(HiddenFor(v, flow, q.audio, q.prompts, k)) || k + 1 >= q.Cap() then k + 1
               else LastPatch(stops, q.Cap(), k + 2)
  {
    hide HiddenFor, AudioSpans;
  }

  /** One step up to the decoded patch. */
  method SpeakPatch(q: Request, st: FmStream, v: Voice, oldC: seq<Vec>, oldU: seq<Vec>, newC: seq<Vec>,
                    newU: seq<Vec>, patches: seq<seq<Vec>>)
    returns (ok: bool, h: Vec, z: seq<Vec>, hc: seq<Vec>, hu: seq<Vec>)
    requires q.Valid() && !q.stopped && PrefillEnd(q.audio, q.prompts) > 0
    requires st.Valid(oldC, oldU) && Paired(q, st) && Fits(v, q.patchRows)
    requires Between(q, st.flow, v, oldC, oldU, newC, newU, patches) && (oldC == [] <==> q.emitted == 0)
    modifies q`fmRows, st.Repr()
    ensures ok <==> st.prime || q.emitted > 0 || Cacheable(q)
    ensures ok ==> q.AtFlow() && st.Valid(hc, hu) && fresh(st.Repr() - old(st.Repr())) && |z| == q.patchRows
    ensures ok ==> hc != [] && |hc| == |hu| == q.fmRows && h == HiddenFor(v, st.flow, q.audio, q.prompts, q.emitted)
    ensures ok ==> TakeAt(v, st.flow, q.audio, q.prompts, q.emitted + 1) == Continued(v, hc, hu, patches, z)
  {
    hide SoloFlow, CausalKV, AudioSpans, Items, TakeAt, HiddenFor, FmStream.Valid, Cacheable, Continued;
    var joinedC, joinedU;
    h, joinedC, joinedU := JoinHidden(q, v, oldC, oldU, newC, newU, patches, st.flow);
    FirstFits(q);
    ok, z := st.NextPatch(oldC, oldU, joinedC, joinedU, v.noise(|patches|));
    hc, hu := oldC + joinedC, oldU + joinedU;
    if ok {
      PatchJoins(q, st.flow, v, hc, hu, patches, z);
    }
  }

  /** The whole request on the cached flow matching, feedback included, is the request decoded over the whole
      history at every patch.  Text-only requests never fail; a cloned prompt does unless the cache is primed,
      or it is a single patch with a hidden before it. */
  method Speak(q: Request, st: FmStream, v: Voice) returns (ok: bool, patches: seq<seq<Vec>>)
    requires q.Valid() && !q.stopped && q.emitted == 0 && PrefillEnd(q.audio, q.prompts) > 0
    requires st.Valid([], []) && st.fmHead == null && Paired(q, st) && Fits(v, q.patchRows)
    modifies q, st
    ensures ok <==> st.prime || Cacheable(q)
    ensures ok ==> q.Valid() && q.stopped && q.emitted == |patches|
    ensures ok ==> |patches| == LastPatch(Stops(v, st.flow, q.audio, q.prompts), q.Cap(), 1)
    ensures ok ==> patches == TakeAt(v, st.flow, q.audio, q.prompts, |patches|).patches
  {
    hide SoloFlow, CausalKV, AudioSpans, Items, LastPatch, TakeAt, HiddenFor, Stops, FmStream.Valid, Cacheable;
    hide Fits, PrefillEnd, Proper, MapRows;
    patches := [];
    var oldC, oldU, newC, newU: seq<Vec> := [], [], [], [];
    ghost var stops := Stops(v, st.flow, q.audio, q.prompts);
    while !q.stopped
      invariant q.Valid() && q.emitted == |patches|
      invariant st.Valid(oldC, oldU) && fresh(st.Repr() - {st})
      invariant oldC == [] <==> q.emitted == 0
      invariant Between(q, st.flow, v, oldC, oldU, newC, newU, patches)
      invariant q.emitted > 0 ==> st.prime || Cacheable(q)
      invariant q.stopped ==> q.emitted == LastPatch(stops, q.Cap(), 1)
      invariant !q.stopped ==> LastPatch(stops, q.Cap(), 1) == LastPatch(stops, q.Cap(), q.emitted + 1)
      decreases !q.stopped, q.SpanCount() - q.emitted
    {
      LastPatchStep(v, st.flow, q, q.emitted);
      var h, z;
      ok, h, z, oldC, oldU := SpeakPatch(q, st, v, oldC, oldU, newC, newU, patches);
      if !ok {
        return;
      }
      patches := patches + [z];
      newC, newU := MapRows(v.latentRow, z), MapRows(v.latentRow, z);
      ok := q.Emit(v.eos(h));
    }
    ok := true;
  }

  // ---------------------------------------------------------------- a run of given rows

  /** The histories that the counters of a finished request prescribe are a run the cached decoder takes: one
      stride from patch to patch, never more than its capacity, and a first length it accepts exactly for a
      text-only request or a single prompt patch with its hidden. */
  lemma KvCacheFits(q: Request, prefixes: seq<nat>, ps: seq<PatchInput>)
    requires q.Sized() && PrefillEnd(q.audio, q.prompts) > 0
    requires PrefixRun(q, prefixes) && |ps| == |prefixes| <= q.SpanCount()
    requires forall i :: 0 <= i < |ps| ==> |HistoryAfter(ps[..i + 1])| == prefixes[i] + 1
    ensures forall i :: 1 <= i < |ps| ==> |ps[i].rows| == q.Stride()
    ensures |HistoryAfter(ps)| <= q.fmCapacity
    ensures ps != [] ==> (|ps[0].rows| == 1 || |ps[0].rows| == 1 + q.Stride() <==> Cacheable(q))
  {
    hide AudioSpans, HistoryAfter, Request.Sized, Cacheable;
    forall i | 1 <= i < |ps| ensures |ps[i].rows| == q.Stride() {
      RowsJoin(ps, i);
      assert |HistoryAfter(ps[..(i - 1) + 1])| == prefixes[i - 1] + 1;
      assert |HistoryAfter(ps[..i + 1])| == prefixes[i] + 1;
      assert prefixes[i] == prefixes[i - 1] + q.Stride();
    }
    RowsJoin(ps, 0);
    if ps != [] {
      var n := |ps| - 1;
      assert ps[..n + 1] == ps;
      PrefixFits(q, prefixes, n);
      FirstPrefix(q, prefixes[0]);
    }
  }

  lemma PrefixFits(q: Request, prefixes: seq<nat>, n: nat)
    requires q.Sized() && PrefixRun(q, prefixes) && n < |prefixes| <= q.SpanCount()
    ensures prefixes[n] + 1 <= q.fmCapacity
  {
    hide AudioSpans;
    PrefixAt(q, prefixes, n);
    Room(q, q.prompts + n);
  }

  lemma RowsJoin(ps: seq<PatchInput>, i: nat)
    ensures HistoryAfter(ps[..0]) == []
    ensures i < |ps| ==> |HistoryAfter(ps[..i + 1])| == |HistoryAfter(ps[..i])| + |ps[i].rows|
  {
    if i < |ps| { assert ps[..i + 1][..i] == ps[..i]; }
  }

  lemma FirstPrefix(q: Request, prefix: nat)
    requires q.Sized() && PrefillEnd(q.audio, q.prompts) > 0 && prefix + q.Missing() == q.prompts * q.Stride()
    ensures prefix == 0 || prefix == q.Stride() <==> Cacheable(q)
  {
    hide AudioSpans;
    FirstIsAudio(q.audio);
    if q.prompts > 1 { MulLe(2, q.prompts, q.Stride()); }
  }
}
