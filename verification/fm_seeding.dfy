/** Seeding the flow-matching history of a cloned prompt from the hiddens of its prefill. */
module FmSeeding {
  import opened Arithmetic

  /** What one append adds: the hidden of a schedule position, or a prompt patch. */
  datatype Item = Hidden(at: nat) | Latent(patch: nat)

  /** The audio spans of a schedule, in order. */
  function AudioSpans(audio: seq<bool>): (r: seq<nat>)
    ensures forall i :: 0 <= i < |r| ==> r[i] < |audio| && audio[r[i]]
    ensures forall i, j :: 0 <= i < j < |r| ==> r[i] < r[j]
    ensures forall p :: 0 <= p < |audio| && audio[p] ==> p in r
  {
    if audio == [] then []
    else
      var front, last := AudioSpans(audio[..|audio| - 1]), |audio| - 1;
      assert forall p :: 0 <= p < last ==> audio[..last][p] == audio[p];
      if audio[last] then front + [last] else front
  }

  /** The patch after a hidden, for every prompt span, then the hidden that seeds target patch 0. */
  function Wanted(spans: seq<nat>, prefillEnd: nat): seq<Item>
    requires prefillEnd > 0 && forall i :: 0 <= i < |spans| ==> spans[i] > 0
  {
    WantedUpto(spans, |spans|) + [Hidden(prefillEnd - 1)]
  }

  function WantedUpto(spans: seq<nat>, n: nat): (r: seq<Item>)
    requires n <= |spans| && forall i :: 0 <= i < n ==> spans[i] > 0
  {
    if n == 0 then [] else WantedUpto(spans, n - 1) + [Hidden(spans[n - 1] - 1), Latent(n - 1)]
  }

  predicate NextIsAudio(audio: seq<bool>, p: nat) {
    p + 1 < |audio| && audio[p + 1]
  }

  /** A schedule with `prompts` prompt spans and something to generate after them. */
  predicate Proper(audio: seq<bool>, prompts: nat) {
    prompts < |AudioSpans(audio)|
  }

  function PromptSpans(audio: seq<bool>, prompts: nat): seq<nat>
    requires Proper(audio, prompts)
  {
    AudioSpans(audio)[..prompts]
  }

  /** The first target span: where the prefill ends. */
  function PrefillEnd(audio: seq<bool>, prompts: nat): nat
    requires Proper(audio, prompts)
  {
    AudioSpans(audio)[prompts]
  }

  /** One turn of the cursor loop. */
  method SeedSpan(audio: seq<bool>, spans: seq<nat>, i: nat, before: seq<Item>, cursor: nat)
    returns (out: seq<Item>, cursor': nat)
    requires i < |spans| && before == Seeded(audio, spans, i) && cursor == Cursor(spans, i)
    ensures out == Seeded(audio, spans, i + 1) && cursor' == Cursor(spans, i + 1)
  {
    hide NextIsAudio;
    var sp := spans[i];
    out := before;
    if sp > cursor {
      out := out + [Hidden(sp - 1)];
    }
    out := out + [Latent(i)];
    if NextIsAudio(audio, sp) {
      out := out + [Hidden(sp)];
    }
    cursor' := sp + 1;
  }

  /** The cursor loop over the prompt spans, then the last hidden.  It appends exactly what is wanted if and
      only if the schedule does not start with audio; if it does, the first prompt patch has no hidden. */
  method SeedPrefillFm(audio: seq<bool>, prompts: nat) returns (out: seq<Item>)
    requires Proper(audio, prompts)
    ensures out == Items(audio, prompts)
    ensures !audio[0] ==>
              PrefillEnd(audio, prompts) > 0 && (forall i :: 0 <= i < prompts ==> PromptSpans(audio, prompts)[i] > 0)
                          && out == Wanted(PromptSpans(audio, prompts), PrefillEnd(audio, prompts))
    ensures audio[0] ==> |out| == 2 * prompts && (prompts > 0 ==> out[0] == Latent(0))
  {
    hide Wanted, AudioSpans, Seeded, Cursor;
    var spans, end := PromptSpans(audio, prompts), PrefillEnd(audio, prompts);
    out := [];
    var cursor: nat := 0;
    SeededNone(audio, spans);
    for i := 0 to |spans|
      invariant cursor == Cursor(spans, i) && out == Seeded(audio, spans, i)
    {
      out, cursor := SeedSpan(audio, spans, i, out, cursor);
    }
    if end > cursor {
      out := out + [Hidden(end - 1)];
    }
    ItemsAre(audio, prompts);
  }

  /** All that the cursor loop and its last step append. */
  function Items(audio: seq<bool>, prompts: nat): seq<Item>
    requires Proper(audio, prompts)
  {
    var spans, end := PromptSpans(audio, prompts), PrefillEnd(audio, prompts);
    Seeded(audio, spans, prompts) + if end > Cursor(spans, prompts) then [Hidden(end - 1)] else []
  }

  lemma SeededNone(audio: seq<bool>, spans: seq<nat>)
    ensures Seeded(audio, spans, 0) == [] && Cursor(spans, 0) == 0
  {
  }

  lemma ItemsAre(audio: seq<bool>, prompts: nat)
    requires Proper(audio, prompts)
    ensures !audio[0] ==>
              PrefillEnd(audio, prompts) > 0 && (forall i :: 0 <= i < prompts ==> PromptSpans(audio, prompts)[i] > 0)
                          && Items(audio, prompts) == Wanted(PromptSpans(audio, prompts), PrefillEnd(audio, prompts))
    ensures audio[0] ==>
              |Items(audio, prompts)| == 2 * prompts && (prompts > 0 ==> Items(audio, prompts)[0] == Latent(0))
  {
    hide AudioSpans, WantedUpto, Seeded;
    var all := AudioSpans(audio);
    FirstIsAudio(audio);
    SpansInOrder(audio);
    SeededPrefix(audio, all, prompts, prompts);
    if all[0] > 0 {
      SeededIsWanted(audio, all, prompts);
    } else if prompts > 0 {
      SeededFromZero(audio, all, prompts, 0);
    } else {
      SeededNone(audio, all);
    }
  }

  /** The history that seeding leaves: the prompt's strides and one row more, or the strides alone when the
      schedule starts with audio. */
  lemma ItemRows(audio: seq<bool>, prompts: nat, patch: nat)
    requires Proper(audio, prompts)
    ensures Rows(Items(audio, prompts), patch) == prompts * (1 + patch) + if audio[0] then 0 else 1
  {
    hide AudioSpans, WantedUpto, Seeded, Rows;
    var all, spans, end := AudioSpans(audio), PromptSpans(audio, prompts), PrefillEnd(audio, prompts);
    FirstIsAudio(audio);
    ItemsAre(audio, prompts);
    if all[0] > 0 {
      WantedRows(spans, prompts, patch);
      RowsSnoc(WantedUpto(spans, prompts), Hidden(end - 1), patch);
    } else if prompts > 0 {
      SpansInOrder(audio);
      SeededPrefix(audio, all, prompts, prompts);
      SeededFromZero(audio, all, prompts, patch);
      var seeded := Seeded(audio, spans, prompts);
      RowsSnoc(seeded, Hidden(end - 1), patch);
      assert seeded + [] == seeded;
    } else {
      NoRows(patch);
    }
  }

  /** Seeding ends with the hidden right before the first patch to generate. */
  lemma LastItem(audio: seq<bool>, prompts: nat)
    requires Proper(audio, prompts) && PrefillEnd(audio, prompts) > 0
    ensures var items := Items(audio, prompts);
            items != [] && items[|items| - 1] == Hidden(PrefillEnd(audio, prompts) - 1)
  {
    hide AudioSpans, NextIsAudio;
    if prompts > 0 {
      var all := AudioSpans(audio);
      SpansInOrder(audio);
      assert NextIsAudio(audio, all[prompts - 1]) <==> all[prompts] == all[prompts - 1] + 1;
    }
  }

  lemma NoRows(patch: nat)
    ensures Rows([], patch) == 0
  {
  }

  /** What the loop has appended after `n` spans: the hidden after a span is already there when the next
      token is audio too. */
  function Seeded(audio: seq<bool>, spans: seq<nat>, n: nat): seq<Item>
    requires n <= |spans|
  {
    if n == 0 then []
    else
      var sp := spans[n - 1];
      Seeded(audio, spans, n - 1)
      + (if sp > Cursor(spans, n - 1) then [Hidden(sp - 1)] else []) + [Latent(n - 1)]
      + (if NextIsAudio(audio, sp) then [Hidden(sp)] else [])
  }

  /** Just behind the last of the first `n` spans. */
  function Cursor(spans: seq<nat>, n: nat): nat
    requires n <= |spans|
  {
    if n == 0 then 0 else spans[n - 1] + 1
  }

  /** The schedule starts with audio exactly when its first span is at 0. */
  lemma FirstIsAudio(audio: seq<bool>)
    requires AudioSpans(audio) != []
    ensures audio[0] <==> AudioSpans(audio)[0] == 0
  {
    var s := AudioSpans(audio);
    if audio[0] {
      var k :| 0 <= k < |s| && s[k] == 0;
    }
  }

  /** The token after a span is audio exactly when the next span is right behind it. */
  lemma NextSpan(audio: seq<bool>, n: nat)
    requires n < |AudioSpans(audio)|
    ensures n > 0 ==>
              (NextIsAudio(audio, AudioSpans(audio)[n - 1]) <==> AudioSpans(audio)[n] == AudioSpans(audio)[n - 1] + 1)
  {
    hide AudioSpans;
    if n > 0 {
      var s := AudioSpans(audio);
      var p := s[n - 1] + 1;
      if p < |audio| && audio[p] {
        var k :| 0 <= k < |s| && s[k] == p;
        assert k > n - 1;
      }
    }
  }

  /** Spans in order, the token after one being audio exactly when the next is right behind it. */
  predicate InOrder(audio: seq<bool>, spans: seq<nat>) {
    && (forall i, j :: 0 <= i < j < |spans| ==> spans[i] < spans[j])
    && forall i :: 0 < i < |spans| ==> (NextIsAudio(audio, spans[i - 1]) <==> spans[i] == spans[i - 1] + 1)
  }

  lemma SpansInOrder(audio: seq<bool>)
    ensures InOrder(audio, AudioSpans(audio))
  {
    hide AudioSpans, NextIsAudio;
    forall i | 0 < i < |AudioSpans(audio)|
      ensures NextIsAudio(audio, AudioSpans(audio)[i - 1]) <==> AudioSpans(audio)[i] == AudioSpans(audio)[i - 1] + 1
    {
      NextSpan(audio, i);
    }
  }

  /** The hidden that follows span `n - 1` early. */
  function Early(spans: seq<nat>, n: nat): seq<Item>
    requires n < |spans|
  {
    if n > 0 && spans[n] == spans[n - 1] + 1 then [Hidden(spans[n - 1])] else []
  }

  lemma {:induction false} SeededIsWanted(audio: seq<bool>, spans: seq<nat>, n: nat)
    requires InOrder(audio, spans) && n < |spans| && spans[0] > 0
    ensures forall i :: 0 <= i < |spans| ==> spans[i] > 0
    ensures Seeded(audio, spans, n) == WantedUpto(spans, n) + Early(spans, n)
    decreases n
  {
    hide NextIsAudio;
    assert forall i :: 0 < i < |spans| ==> spans[0] < spans[i];
    if n > 0 {
      SeededIsWanted(audio, spans, n - 1);
      assert NextIsAudio(audio, spans[n - 1]) <==> spans[n] == spans[n - 1] + 1;
    }
  }

  /** A schedule that starts with a prompt span has no hidden before it. */
  lemma {:induction false} SeededFromZero(audio: seq<bool>, spans: seq<nat>, n: nat, patch: nat)
    requires InOrder(audio, spans) && 0 < n < |spans| && spans[0] == 0
    ensures |Seeded(audio, spans, n)| == 2 * n - 1 + |Early(spans, n)| && Seeded(audio, spans, n)[0] == Latent(0)
    ensures Rows(Seeded(audio, spans, n), patch) == n * (1 + patch) - 1 + |Early(spans, n)|
    decreases n
  {
    hide NextIsAudio, Rows;
    assert NextIsAudio(audio, spans[n - 1]) <==> spans[n] == spans[n - 1] + 1;
    SpanRows(audio, spans, n, patch);
    if n > 1 {
      SeededFromZero(audio, spans, n - 1, patch);
      assert n * (1 + patch) == (n - 1) * (1 + patch) + (1 + patch);
    } else {
      assert Seeded(audio, spans, 0) == [];
      NoRows(patch);
    }
  }

  /** What one turn of the loop adds. */
  lemma SpanRows(audio: seq<bool>, spans: seq<nat>, n: nat, patch: nat)
    requires 0 < n <= |spans|
    ensures Rows(Seeded(audio, spans, n), patch)
            == Rows(Seeded(audio, spans, n - 1), patch) + patch
               + (if spans[n - 1] > Cursor(spans, n - 1) then 1 else 0)
                 + (if NextIsAudio(audio, spans[n - 1]) then 1 else 0)
  {
    hide NextIsAudio, Rows, Cursor;
    var before, sp := Seeded(audio, spans, n - 1), spans[n - 1];
    var gap: seq<Item> := if sp > Cursor(spans, n - 1) then [Hidden(sp - 1)] else [];
    if gap != [] { RowsSnoc(before, gap[0], patch); } else { assert before + gap == before; }
    var mid := before + gap + [Latent(n - 1)];
    RowsSnoc(before + gap, Latent(n - 1), patch);
    RowsSnoc(mid, Hidden(sp), patch);
    assert mid + [] == mid;
  }

  /** Only the first `n` spans matter. */
  lemma {:induction false} SeededPrefix(audio: seq<bool>, spans: seq<nat>, k: nat, n: nat)
    requires n <= k <= |spans|
    ensures Seeded(audio, spans[..k], n) == Seeded(audio, spans, n)
    ensures (forall i :: 0 <= i < n ==> spans[i] > 0) ==> WantedUpto(spans[..k], n) == WantedUpto(spans, n)
    decreases n
  {
    hide NextIsAudio;
    if n > 0 { SeededPrefix(audio, spans, k, n - 1); }
  }

  /** Rows of history that seeding leaves: per prompt a hidden and a patch, and one hidden more. */
  function Rows(items: seq<Item>, patch: nat): nat {
    if items == [] then 0
    else Rows(items[..|items| - 1], patch) + if items[|items| - 1].Hidden? then 1 else patch
  }

  lemma {:induction false} WantedRows(spans: seq<nat>, n: nat, patch: nat)
    requires n <= |spans| && forall i :: 0 <= i < n ==> spans[i] > 0
    ensures Rows(WantedUpto(spans, n), patch) == n * (1 + patch)
    decreases n
  {
    hide Rows;
    if n == 0 {
      NoRows(patch);
    } else {
      WantedRows(spans, n - 1, patch);
      var w := WantedUpto(spans, n - 1);
      var h, l := Hidden(spans[n - 1] - 1), Latent(n - 1);
      assert w + [h, l] == w + [h] + [l];
      RowsSnoc(w, h, patch);
      RowsSnoc(w + [h], l, patch);
      MulAdd(n - 1, 1, 1 + patch);
    }
  }

  lemma RowsSnoc(items: seq<Item>, x: Item, patch: nat)
    ensures Rows(items + [x], patch) == Rows(items, patch) + if x.Hidden? then 1 else patch
  {
    assert (items + [x])[..|items|] == items;
  }
}
