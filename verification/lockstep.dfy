/** The counters of one request: flow-matching rows, encoder length, sequence length, schedule position and
    emitted patches advance in lockstep, so no buffer can overflow.
 */
module Lockstep {
  import opened Arithmetic
  import opened FmSeeding
  import opened Outcomes

  datatype Limit = NoLimit | AtMost(n: int)

  datatype AddError = CloneNeedsFlash | NoTargetSpans | Interleaved | TooManyPatches

  /** One request of the engine.  `prompts` is 0 for a text-only request. */
  class Request {
    const patchRows: nat      // rows of history a patch takes
    const rate: nat           // encoder tokens a patch takes
    const audio: seq<bool>    // the schedule: which positions are audio
    const prompts: nat
    const limit: Limit
    const fmCapacity: nat
    const encoderCapacity: nat
    var fmRows: nat
    var encoderLen: nat
    var seqLen: nat
    var position: nat
    var emitted: nat
    var donePrefill: bool
    var stopped: bool

    /** Rows of history per patch: its hidden and its latents. */
    function Stride(): nat { 1 + patchRows }

    /** Patches of the prompt and patches to generate. */
    function PatchCount(): nat {
      |AudioSpans(audio)|
    }

    /** Patches to generate. */
    function SpanCount(): nat
      requires Proper(audio, prompts)
    {
      |AudioSpans(audio)| - prompts
    }

    /** Most patches the request may emit. */
    function Cap(): (most: int)
      requires Proper(audio, prompts)
      ensures most <= SpanCount() && (limit.AtMost? ==> most <= limit.n)
      ensures most == SpanCount() || limit == AtMost(most)
    {
      if limit.AtMost? && limit.n < SpanCount() then limit.n else SpanCount()
    }

    /** A prompt at the very start of the schedule lacks the hidden before its first patch. */
    function Missing(): nat {
      if prompts > 0 && audio != [] && audio[0] then 1 else 0
    }

    /** The sizes fixed when the request was added: private history, shared encoder rows. */
    predicate Sized() {
      && patchRows > 0 && Proper(audio, prompts)
      && fmCapacity == PatchCount() * Stride()
      && PatchCount() * rate <= encoderCapacity
    }

    /** All counters say the same number of patches. */
    predicate InStep()
      requires Proper(audio, prompts)
      reads this
    {
      && (if donePrefill then fmRows + Missing() == (prompts + emitted) * Stride() else fmRows == 0)
      && encoderLen == (prompts + emitted) * rate
      && seqLen == position == PrefillEnd(audio, prompts) + emitted
      && (donePrefill <==> emitted > 0)
      && emitted <= SpanCount()
    }

    ghost predicate Valid()
      reads this
    {
      Sized() && InStep() && (stopped ==> emitted > 0) && (!stopped ==> emitted == 0 || emitted < Cap())
    }

    /** The history is one row more than whole strides, as it must be when the flow matching runs. */
    ghost predicate AtFlow()
      reads this
    {
      && Sized() && !stopped && emitted < SpanCount()
      && fmRows + Missing() == (prompts + emitted) * Stride() + 1
      && encoderLen == (prompts + emitted) * rate
      && seqLen == position == PrefillEnd(audio, prompts) + emitted
    }

    constructor (patchRows: nat, rate: nat, audio: seq<bool>, prompts: nat, limit: Limit, encoderCapacity: nat)
      requires patchRows > 0 && Proper(audio, prompts) && |AudioSpans(audio)| * rate <= encoderCapacity
      ensures Valid() && !stopped && emitted == 0
      ensures this.patchRows == patchRows && this.audio == audio && this.prompts == prompts && this.limit == limit
    {
      hide AudioSpans;
      this.patchRows, this.rate, this.audio, this.prompts := patchRows, rate, audio, prompts;
      this.limit, this.encoderCapacity := limit, encoderCapacity;
      fmCapacity := |AudioSpans(audio)| * (1 + patchRows);
      fmRows, encoderLen, seqLen, position := 0, prompts * rate, PrefillEnd(audio, prompts), PrefillEnd(audio, prompts);
      emitted, donePrefill, stopped := 0, false, false;
    }

    /** Rows appended to the history; refused when it is full. */
    method Append(rows: nat) returns (ok: bool)
      modifies this`fmRows
      ensures ok <==> old(fmRows) + rows <= fmCapacity
      ensures fmRows == if ok then old(fmRows) + rows else old(fmRows)
    {
      ok := fmRows + rows <= fmCapacity;
      if ok { fmRows := fmRows + rows; }
    }

    /** The prompt's hiddens and patches one by one, or the last hidden of a text-only prefill. */
    method Seed() returns (ok: bool, items: seq<Item>)
      requires Valid() && !stopped && !donePrefill && PrefillEnd(audio, prompts) > 0
      modifies this`fmRows
      ensures ok && AtFlow() && items == Items(audio, prompts) && fmRows == Rows(items, patchRows)
    {
      hide Items, AudioSpans, Rows;
      Room(this, prompts);
      ItemRows(audio, prompts, patchRows);
      FirstIsAudio(audio);
      if prompts > 0 {
        items := SeedPrefillFm(audio, prompts);
      } else {
        TextOnlyItems(audio);
        items := [Hidden(PrefillEnd(audio, prompts) - 1)];
      }
      ok := AppendItems(items);
    }

    method AppendItems(items: seq<Item>) returns (ok: bool)
      requires fmRows == 0 && Rows(items, patchRows) <= fmCapacity
      modifies this`fmRows
      ensures ok && fmRows == Rows(items, patchRows)
    {
      hide Rows;
      ok := true;
      NoRows(patchRows);
      for i := 0 to |items|
        invariant ok && fmRows == Rows(items[..i], patchRows)
      {
        assert items[..i + 1] == items[..i] + [items[i]];
        RowsSnoc(items[..i], items[i], patchRows);
        RowsGrow(items, i + 1, patchRows);
        ok := Append(if items[i].Hidden? then 1 else patchRows);
      }
      assert items[..|items|] == items;
    }

    /** The hidden of the patch emitted last. */
    method NextHidden() returns (ok: bool)
      requires Valid() && !stopped && donePrefill
      modifies this`fmRows
      ensures ok && AtFlow() && fmRows == old(fmRows) + 1
    {
      hide AudioSpans, PrefillEnd;
      Room(this, prompts + emitted);
      ok := Append(1);
    }

    /** After the flow matching: the patch joins history, encoder, sequence and schedule, and the stop rule is
        applied. */
    method Emit(stop: bool) returns (ok: bool)
      requires AtFlow()
      modifies this
      ensures ok && Valid() && emitted == old(emitted) + 1 && donePrefill && fmRows == old(fmRows) + patchRows
      ensures encoderLen <= encoderCapacity
      ensures stopped <==> stop || emitted >= Cap()
    {
      hide AudioSpans;
      Room(this, prompts + emitted);
      SpansFit(audio, prompts);
      ok := Append(patchRows);
      encoderLen := encoderLen + rate;
      donePrefill := true;
      emitted := emitted + 1;
      position := position + 1;
      seqLen := seqLen + 1;
      if stop || position >= |audio| || emitted >= Cap() {
        stopped := true;
      }
    }

    /** One engine step of this request: nothing overflows, and the cached prefix, all but the last row of the
        history when the flow matching runs, is whole strides.  It is refused only without a prefill. */
    method Step(stop: bool) returns (ok: bool, prefix: nat)
      requires Valid() && !stopped
      modifies this
      ensures ok <==> old(donePrefill) || PrefillEnd(audio, prompts) > 0
      ensures ok ==> Valid() && emitted == old(emitted) + 1 && encoderLen <= encoderCapacity
      ensures ok ==> prefix + Missing() == (prompts + old(emitted)) * Stride()
      ensures ok ==> (stopped <==> stop || emitted >= Cap())
    {
      hide AudioSpans, Items, Rows, Proper;
      if donePrefill {
        ok := NextHidden();
      } else if PrefillEnd(audio, prompts) == 0 {
        return false, 0;
      } else {
        var items;
        ok, items := Seed();
      }
      prefix := fmRows - 1;
      ok := Emit(stop);
    }
  }

  /** A request is added: cloned prompts need the shared encoder, and only that one limits the patches. */
  method AddRequest(patchRows: nat, rate: nat, audio: seq<bool>, prompts: nat, limit: Limit, flash: bool,
                    maxPatches: nat)
    returns (r: Result<Request, AddError>)
    requires patchRows > 0
    ensures r == Err(CloneNeedsFlash) <==> prompts > 0 && !flash
    ensures r == Err(NoTargetSpans) <==> (prompts == 0 || flash) && !Proper(audio, prompts)
    ensures r == Err(Interleaved) <==>
            (prompts == 0 || flash) && Proper(audio, prompts) && !Contiguous(AudioSpans(audio)[prompts..])
    ensures r == Err(TooManyPatches) <==>
            flash && Proper(audio, prompts) && Contiguous(AudioSpans(audio)[prompts..])
            && |AudioSpans(audio)| > maxPatches
    ensures r.Ok? ==> fresh(r.value) && r.value.Valid() && !r.value.stopped && r.value.emitted == 0
    ensures r.Ok? ==> r.value.audio == audio && r.value.prompts == prompts && r.value.limit == limit
  {
    hide AudioSpans, Contiguous, Request.Valid;
    if prompts > 0 && !flash {
      return Err(CloneNeedsFlash);
    }
    if !Proper(audio, prompts) {
      return Err(NoTargetSpans);
    }
    var together := CheckTogether(AudioSpans(audio)[prompts..]);
    if !together {
      return Err(Interleaved);
    }
    var count := |AudioSpans(audio)|;
    if flash && count > maxPatches {
      return Err(TooManyPatches);
    }
    var room := if flash then maxPatches else count;
    MulLe(count, room, rate);
    var q := new Request(patchRows, rate, audio, prompts, limit, room * rate);
    r := Ok(q);
  }

  /** No text between the spans. */
  predicate Contiguous(spans: seq<nat>) {
    forall i :: 0 <= i < |spans| ==> spans[i] == spans[0] + i
  }

  /** First and last span tell whether there is text in between. */
  method CheckTogether(s: seq<nat>) returns (ok: bool)
    requires s != [] && forall a, b :: 0 <= a < b < |s| ==> s[a] < s[b]
    ensures ok <==> Contiguous(s)
  {
    ok := !(|s| > 1 && s[|s| - 1] - s[0] != |s| - 1);
    if ok {
      forall i | 0 <= i < |s| ensures s[i] == s[0] + i {
        Increases(s, 0, i);
        Increases(s, i, |s| - 1);
      }
    }
  }

  /** Increasing numbers are at least as far apart as their places. */
  lemma {:induction false} Increases(s: seq<nat>, i: nat, j: nat)
    requires i <= j < |s| && forall a, b :: 0 <= a < b < |s| ==> s[a] < s[b]
    ensures s[j] >= s[i] + (j - i)
    decreases j
  {
    if i < j { Increases(s, i, j - 1); }
  }

  /** The schedule is not over before the last span. */
  lemma SpansFit(audio: seq<bool>, prompts: nat)
    requires Proper(audio, prompts)
    ensures PrefillEnd(audio, prompts) + (|AudioSpans(audio)| - prompts) <= |audio|
  {
    hide AudioSpans;
    Increases(AudioSpans(audio), prompts, |AudioSpans(audio)| - 1);
  }

  lemma TextOnlyItems(audio: seq<bool>)
    requires Proper(audio, 0) && PrefillEnd(audio, 0) > 0
    ensures Items(audio, 0) == [Hidden(PrefillEnd(audio, 0) - 1)]
  {
  }

  /** A history only grows while it is seeded. */
  lemma {:induction false} RowsGrow(items: seq<Item>, i: nat, patch: nat)
    requires i <= |items|
    ensures Rows(items[..i], patch) <= Rows(items, patch)
  {
    if i < |items| {
      assert items[..|items| - 1][..i] == items[..i];
      RowsGrow(items[..|items| - 1], i, patch);
    } else {
      assert items[..i] == items;
    }
  }

  /** Another patch fits the history and the encoder as long as spans are left. */
  lemma Room(q: Request, k: nat)
    requires q.Sized() && k < q.PatchCount()
    ensures k * q.Stride() + q.Stride() == (k + 1) * q.Stride() <= q.fmCapacity
    ensures k * q.rate + q.rate == (k + 1) * q.rate <= q.encoderCapacity
  {
    MulAdd(k, 1, q.Stride());
    MulAdd(k, 1, q.rate);
    MulLe(k + 1, q.PatchCount(), q.Stride());
    MulLe(k + 1, q.PatchCount(), q.rate);
  }

  /** The patch a request stops at: the first that the model ends, but no later than the cap, and at least one. */
  function LastPatch(stops: nat -> bool, cap: int, k: nat): nat
    requires k > 0
    decreases cap - k
  {
    if stops(k) || k >= cap then k else LastPatch(stops, cap, k + 1)
  }

  predicate GoesOn(stops: nat -> bool, cap: int, j: nat) {
    !stops(j) && j < cap
  }

  /** Every patch before the last goes on, the last does not. */
  lemma {:induction false} LastPatchIsFirst(stops: nat -> bool, cap: int, k: nat)
    requires k > 0
    ensures var r := LastPatch(stops, cap, k);
            r >= k && !GoesOn(stops, cap, r) && forall j :: k <= j < r ==> GoesOn(stops, cap, j)
    decreases cap - k
  {
    if GoesOn(stops, cap, k) {
      LastPatchIsFirst(stops, cap, k + 1);
    }
  }

  /** A request driven to its end: every step succeeds, it ends at the patch the stop rule names, and from
      one flow-matching call to the next the cached prefix grows by exactly one stride. */
  method Generate(q: Request, stops: nat -> bool) returns (ok: bool, prefixes: seq<nat>)
    requires q.Valid() && !q.stopped && q.emitted == 0
    modifies q
    ensures ok <==> PrefillEnd(q.audio, q.prompts) > 0
    ensures ok ==> q.Valid() && q.stopped && q.emitted == |prefixes| == LastPatch(stops, q.Cap(), 1)
    ensures ok ==> PrefixRun(q, prefixes)
  {
    hide AudioSpans, Proper, PrefixRun;
    PrefixNone(q);
    prefixes := [];
    while !q.stopped
      invariant q.Valid() && q.emitted == |prefixes| && PrefixRun(q, prefixes)
      invariant q.emitted > 0 ==> PrefillEnd(q.audio, q.prompts) > 0
      invariant q.stopped ==> q.emitted == LastPatch(stops, q.Cap(), 1)
      invariant !q.stopped ==> LastPatch(stops, q.Cap(), 1) == LastPatch(stops, q.Cap(), q.emitted + 1)
      decreases !q.stopped, q.SpanCount() - q.emitted
    {
      var next := stops(q.emitted + 1);
      var prefix;
      ok, prefix := q.Step(next);
      if !ok {
        return;
      }
      StrideOn(q, prefixes, prefix);
      prefixes := prefixes + [prefix];
    }
    ok := true;
  }

  /** The prefixes of a run: the prompt's strides first, one stride more each time. */
  ghost predicate PrefixRun(q: Request, prefixes: seq<nat>) {
    && (prefixes != [] ==> prefixes[0] + q.Missing() == q.prompts * q.Stride())
    && forall k :: 0 < k < |prefixes| ==> prefixes[k] == prefixes[k - 1] + q.Stride()
  }

  lemma PrefixNone(q: Request)
    ensures PrefixRun(q, [])
  {
  }

  lemma StrideOn(q: Request, prefixes: seq<nat>, prefix: nat)
    requires PrefixRun(q, prefixes) && prefix + q.Missing() == (q.prompts + |prefixes|) * q.Stride()
    ensures PrefixRun(q, prefixes + [prefix])
  {
    PrefixAt(q, prefixes, |prefixes|);
  }

  /** In closed form. */
  lemma {:induction false} PrefixAt(q: Request, prefixes: seq<nat>, k: nat)
    requires PrefixRun(q, prefixes) && k <= |prefixes|
    ensures k < |prefixes| ==> prefixes[k] + q.Missing() == (q.prompts + k) * q.Stride()
    ensures 0 < k ==> prefixes[k - 1] + q.Missing() + q.Stride() == (q.prompts + k) * q.Stride()
    decreases k
  {
    if k > 0 {
      PrefixAt(q, prefixes, k - 1);
      MulAdd(q.prompts + k - 1, 1, q.Stride());
    }
  }
}
