/** The flow-matching attention mask and positions, and why padding between a request's history
    and its latent slot is invisible.

    Rows [0, len - 1) are the history prefix (causal), row len - 1 is the last LLM hidden, rows
    [len, latentStart) are padding and rows from latentStart on are the latent patch.
 */
module FmMask {
  import opened Transformer

  /** Rows of one LLM hidden in the history: the constant hidden_patch_size of the core. */
  const HIDDEN_PATCH: nat := 1

  predicate FmSees(len: nat, latentStart: nat, i: nat, j: nat) {
    if i + HIDDEN_PATCH < len then j <= i
    else if i < len || latentStart <= i then j < len || latentStart <= j
    else i == j
  }

  function HistoryMask(len: nat, latentStart: nat): Mask {
    (i: nat, j: nat) => FmSees(len, latentStart, i, j)
  }

  /** Rotary positions: history in order, latents right after it, padding at 0. */
  function FmPositions(len: nat, gap: nat, latents: nat): (p: seq<nat>)
    ensures |p| == len + gap + latents
  {
    Positions(0, len) + seq(gap, i => 0) + Positions(len, latents)
  }

  // ---------------------------------------------------------------- the in-place builders

  /** mask[r0:r1, c0:c1] = True */
  method FillBlock(mask: array2<bool>, r0: nat, r1: nat, c0: nat, c1: nat)
    requires r0 <= r1 <= mask.Length0 && c0 <= c1 <= mask.Length1
    modifies mask
    ensures forall i, j :: 0 <= i < mask.Length0 && 0 <= j < mask.Length1 ==>
                             mask[i, j] == ((r0 <= i < r1 && c0 <= j < c1) || old(mask[i, j]))
  {
    for r := r0 to r1
      invariant forall i, j :: 0 <= i < mask.Length0 && 0 <= j < mask.Length1 ==>
                                 mask[i, j] == ((r0 <= i < r && c0 <= j < c1) || old(mask[i, j]))
    {
      for c := c0 to c1
        invariant forall i, j :: 0 <= i < mask.Length0 && 0 <= j < mask.Length1 ==>
                                   mask[i, j]
                                     == ((r0 <= i < r && c0 <= j < c1) || (i == r && c0 <= j < c) || old(mask[i, j]))
      {
        mask[r, c] := true;
      }
    }
  }

  /** Writes the whole mask of one request in place; raises (returns false) when the history is
      empty. */
  method BuildFmAttnMask(len: nat, latentPatch: nat, mask: array2<bool>) returns (ok: bool)
    requires mask.Length0 == mask.Length1
    requires len + latentPatch <= mask.Length1
    modifies mask
    ensures ok == (len > 0)
    ensures ok ==> forall i, j :: 0 <= i < mask.Length0 && 0 <= j < mask.Length1 ==>
                                    mask[i, j] == FmSees(len, mask.Length1 - latentPatch, i, j)
  {
    if len == 0 {
      return false;
    }
    var total := mask.Length1;
    var latentStart := total - latentPatch;
    forall i, j | 0 <= i < total && 0 <= j < total {
      mask[i, j] := false;
    }
    var blockStart := len - HIDDEN_PATCH;
    if blockStart > 0 {
      forall i, j | 0 <= i < blockStart && 0 <= j < blockStart {
        mask[i, j] := !(i + 1 <= j);
      }
    }
    FillBlock(mask, blockStart, len, 0, len);
    FillBlock(mask, blockStart, len, latentStart, total);
    FillBlock(mask, latentStart, total, 0, len);
    FillBlock(mask, latentStart, total, latentStart, total);
    if latentStart > len {
      forall i | len <= i < latentStart {
        mask[i, i] := true;
      }
    }
    return true;
  }

  /** Writes the rotary positions of one request in place. */
  method BuildFmPosIds(len: nat, latentPatch: nat, pos: array<nat>) returns (ok: bool)
    requires len + latentPatch <= pos.Length
    modifies pos
    ensures ok == (len > 0)
    ensures ok ==> pos[..] == FmPositions(len, pos.Length - latentPatch - len, latentPatch)
  {
    if len == 0 {
      return false;
    }
    forall i | 0 <= i < pos.Length {
      pos[i] := 0;
    }
    var latentStart := pos.Length - latentPatch;
    forall i | 0 <= i < len {
      pos[i] := i;
    }
    forall i | latentStart <= i < pos.Length {
      pos[i] := len + (i - latentStart);
    }
    return true;
  }

  // ---------------------------------------------------------------- padding is transparent

  /** The last hidden and every latent row see the whole history and the whole latent patch. */
  lemma ActiveRowSees(kv: seq<Vec>, len: nat, latentStart: nat, i: nat)
    requires 0 < len <= latentStart <= |kv|
    requires len <= i + HIDDEN_PATCH && (i < len || latentStart <= i)
    ensures Visible(kv, HistoryMask(len, latentStart), i) == kv[..len] + kv[latentStart..]
  {
    var m := HistoryMask(len, latentStart);
    VisibleTail(kv, latentStart, m, i);
    VisibleNone(kv[..latentStart], len, m, i);
    assert kv[..latentStart][..len] == kv[..len];
    VisibleAll(kv[..len], m, i);
  }

  /** `padded` is `alone` with `gap` extra rows between the first `len` rows and the rest. */
  predicate SameAround<T(==)>(padded: seq<T>, alone: seq<T>, len: nat, gap: nat) {
    && len <= |alone| && |padded| == |alone| + gap
    && padded[..len] == alone[..len]
    && padded[len + gap..] == alone[len..]
  }

  /** Padding changes no hidden row of the history or of the latent patch, at any layer, whatever
      the padding rows contain and however many there are. */
  lemma {:induction false} PaddingTransparent(s: Stack, history: seq<Vec>, pad: seq<Vec>, latents: seq<Vec>, l: nat)
    requires |history| > 0
    ensures var n := |history|;
            SameAround(Hidden(s, history + pad + latents, FmPositions(n, |pad|, |latents|), HistoryMask(n, n + |pad|),
                              l),
                       Hidden(s, history + latents, FmPositions(n, 0, |latents|), HistoryMask(n, n), l), n, |pad|)
  {
    hide Visible, Layer, LayerRow;
    var n, g, k := |history|, |pad|, |latents|;
    var xp, xa := history + pad + latents, history + latents;
    var pp, pa := FmPositions(n, g, k), FmPositions(n, 0, k);
    if l == 0 {
      assert xp[..n] == xa[..n] && xp[n + g..] == xa[n..];
      MapSameAround(s.input, xp, xa, n, g);
    } else {
      PaddingTransparent(s, history, pad, latents, l - 1);
      assert pp[..n] == pa[..n] && pp[n + g..] == pa[n..];
      PaddedLayer(s, l - 1, Hidden(s, xp, pp, HistoryMask(n, n + g), l - 1),
                  Hidden(s, xa, pa, HistoryMask(n, n), l - 1),
                  pp, pa, n, g);
    }
  }

  lemma MapSameAround(f: Vec -> Vec, xp: seq<Vec>, xa: seq<Vec>, n: nat, g: nat)
    requires SameAround(xp, xa, n, g)
    ensures SameAround(MapRows(f, xp), MapRows(f, xa), n, g)
  {
    ElementsAround(xp, xa, n, g);
    SlicesFromElements(MapRows(f, xp), MapRows(f, xa), n, g);
  }

  lemma ElementsAround<T>(p: seq<T>, a: seq<T>, n: nat, g: nat)
    requires SameAround(p, a, n, g)
    ensures forall i :: 0 <= i < n ==> p[i] == a[i]
    ensures forall i :: n <= i < |a| ==> p[i + g] == a[i]
  {
    forall i | 0 <= i < n ensures p[i] == a[i] { assert p[..n][i] == a[..n][i]; }
    forall i | n <= i < |a| ensures p[i + g] == a[i] { assert p[n + g..][i - n] == a[n..][i - n]; }
  }

  lemma SlicesFromElements<T>(p: seq<T>, a: seq<T>, n: nat, g: nat)
    requires n <= |a| && |p| == |a| + g
    requires forall i :: 0 <= i < n ==> p[i] == a[i]
    requires forall i :: n <= i < |a| ==> p[i + g] == a[i]
    ensures SameAround(p, a, n, g)
  {
    forall i | n + g <= i < |p| ensures p[i] == a[i - g] { assert p[(i - g) + g] == a[i - g]; }
    assert p[n + g..] == a[n..];
  }

  lemma PaddedLayer(s: Stack, l: nat, hp: seq<Vec>, ha: seq<Vec>, pp: seq<nat>, pa: seq<nat>, n: nat, g: nat)
    requires |hp| == |pp| && |ha| == |pa| && n > 0
    requires SameAround(hp, ha, n, g) && SameAround(pp, pa, n, g)
    ensures SameAround(Layer(s, l, hp, pp, HistoryMask(n, n + g)), Layer(s, l, ha, pa, HistoryMask(n, n)), n, g)
  {
    hide Visible, LayerRow;
    ElementsAround(hp, ha, n, g);
    ElementsAround(pp, pa, n, g);
    var kp, ka := KeyValues(s, l, hp, pp), KeyValues(s, l, ha, pa);
    SlicesFromElements(kp, ka, n, g);
    var rp, ra := Layer(s, l, hp, pp, HistoryMask(n, n + g)), Layer(s, l, ha, pa, HistoryMask(n, n));
    forall i | 0 <= i < n ensures rp[i] == ra[i] { PaddedRowSees(kp, ka, n, g, i, i); }
    forall i | n <= i < |ra| ensures rp[i + g] == ra[i] { PaddedRowSees(kp, ka, n, g, i, i + g); }
    SlicesFromElements(rp, ra, n, g);
  }

  lemma PaddedRowSees(kp: seq<Vec>, ka: seq<Vec>, n: nat, g: nat, i: nat, shifted: nat)
    requires 0 < n && i < |ka| && SameAround(kp, ka, n, g)
    requires shifted == if i < n then i else i + g
    ensures Visible(kp, HistoryMask(n, n + g), shifted) == Visible(ka, HistoryMask(n, n), i)
  {
    if i + HIDDEN_PATCH < n {
      VisiblePrefix(kp, HistoryMask(n, n + g), i);
      VisiblePrefix(ka, HistoryMask(n, n), i);
      assert kp[..i + 1] == kp[..n][..i + 1] == ka[..n][..i + 1] == ka[..i + 1];
    } else {
      ActiveRowSees(kp, n, n + g, shifted);
      ActiveRowSees(ka, n, n, i);
    }
  }

  /** The velocity rows of one evaluation: the latent slot of the full masked forward pass. */
  function FmVelocity(s: Stack, history: seq<Vec>, pad: seq<Vec>, latents: seq<Vec>): (v: seq<Vec>)
    ensures |v| == |latents|
  {
    Forward(s, history + pad + latents,
            FmPositions(|history|, |pad|, |latents|),
            HistoryMask(|history|, |history| + |pad|))[|history| + |pad|..]
  }

  lemma VelocityIgnoresPadding(s: Stack, history: seq<Vec>, pad: seq<Vec>, latents: seq<Vec>)
    requires |history| > 0
    ensures FmVelocity(s, history, pad, latents) == FmVelocity(s, history, [], latents)
  {
    hide Hidden, Visible, Layer, LayerRow, HistoryMask, FmPositions;
    var n, g, k := |history|, |pad|, |latents|;
    PaddingTransparent(s, history, pad, latents, s.depth);
    assert history + [] + latents == history + latents;
    MapSameAround(s.output,
                  Hidden(s, history + pad + latents, FmPositions(n, g, k), HistoryMask(n, n + g), s.depth),
                  Hidden(s, history + latents, FmPositions(n, 0, k), HistoryMask(n, n), s.depth), n, g);
  }
}
