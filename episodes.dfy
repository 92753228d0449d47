/** `get_episodeStart`: the range an episode may start in, widened with the
    episode index `expand_i`, and the weights that favour the newly added
    edges of that range. The random draw is a parameter. */
module EpisodeSampler {
  import opened Common

  /** `[choice_start, choice_end)` and the shortfall `extra` of the offset
      below the widening. */
  datatype Bounds = Bounds(choiceStart: int, choiceEnd: int, extra: int)

  /** The widening `expand_i * expand` on each side of the preferred start. */
  function Widening(expandI: nat, expand: nat): nat { expandI * expand }

  /** The range: centred on max(window_size, offset), widened on each side,
      with the part cut off below zero offset added at the end, clamped
      below by the state window and above by the last start that leaves a
      full episode and one more price. */
  function ChoiceBounds(windowSize: nat, offset: int, expandI: nat, expand: nat, l: int, episodeWindow: int)
    : (b: Bounds)
    ensures b.choiceStart >= windowSize && b.choiceEnd <= l - episodeWindow - 1 && b.extra >= 0
    ensures b.extra == (if offset < Widening(expandI, expand) then Widening(expandI, expand) - offset else 0)
  {
    var start := Max(windowSize, offset);
    var extra := Min(offset - expandI * expand, 0) * -1;
    var choiceStart := Max(start - expandI * expand, windowSize);
    var choiceEnd := Min(start + expandI * expand + extra, l - episodeWindow - 1);
    Bounds(choiceStart, choiceEnd, extra)
  }

  /** Neither end of the range is clamped: the condition for the edge
      weights. */
  predicate Unclamped(b: Bounds, windowSize: nat, l: int, episodeWindow: int)
  {
    b.choiceStart != windowSize && b.choiceEnd != l - episodeWindow - 1
  }

  /** A positive `extra` always pins the range to the state window, so the
      "front is not added" branch of the weights is never taken. */
  lemma {:induction false} ExtraPinsStart(windowSize: nat, offset: int, expandI: nat, expand: nat, l: int,
                                          episodeWindow: int)
    ensures var b := ChoiceBounds(windowSize, offset, expandI, expand, l, episodeWindow);
            b.extra > 0 ==> b.choiceStart == windowSize
  {
    var w := Widening(expandI, expand);
    assert Max(windowSize, offset) - w <= windowSize || offset - w >= 0;
  }

  /** A non-empty unclamped range needs a positive episode index, so the
      edge multiplier min(expand_i, 10) is at least 1. */
  lemma {:induction false} UnclampedNeedsIndex(windowSize: nat, offset: int, expandI: nat, expand: nat, l: int,
                                               episodeWindow: int)
    requires var b := ChoiceBounds(windowSize, offset, expandI, expand, l, episodeWindow);
             b.choiceStart < b.choiceEnd && Unclamped(b, windowSize, l, episodeWindow)
    ensures expandI >= 1 && Multiplier(expandI) >= 1
  {
  }

  /** Where the Python slice `[-k:]` of an array of n entries starts: with
      k = 0 it is the whole array. */
  function TailStart(n: nat, k: nat): (s: nat)
    ensures s <= n
    ensures k == 0 ==> s == 0
    ensures 0 < k <= n ==> s == n - k
  {
    if k == 0 then 0 else Max(0, n - k)
  }

  /** `p[:k] *= c`. */
  function ScaleHead(p: seq<real>, k: nat, c: real): (r: seq<real>)
    ensures |r| == |p|
    ensures forall i :: 0 <= i < |p| ==> r[i] == (if i < k then c * p[i] else p[i])
  {
    seq(|p|, i requires 0 <= i < |p| => if i < k then c * p[i] else p[i])
  }

  /** `p[-k:] *= c`. */
  function ScaleTail(p: seq<real>, k: nat, c: real): (r: seq<real>)
    ensures |r| == |p|
    ensures forall i :: 0 <= i < |p| ==> r[i] == (if i >= TailStart(|p|, k) then c * p[i] else p[i])
  {
    seq(|p|, i requires 0 <= i < |p| => if i >= TailStart(|p|, k) then c * p[i] else p[i])
  }

  /** `p /= np.sum(p)`. */
  function Normalise(p: seq<real>): (r: seq<real>)
    requires Sum(p) != 0.0
    ensures |r| == |p|
    ensures Sum(r) == 1.0
  {
    SumOfScale(p, 1.0 / Sum(p));
    Scale(p, 1.0 / Sum(p))
  }

  /** The edge multiplier min(expand_i, 10). */
  function Multiplier(expandI: nat): (m: nat)
    ensures m <= 10 && m <= expandI && (expandI >= 1 ==> m >= 1)
  {
    Min(expandI, 10)
  }

  /** The edge scaling by m: the first and last `expand` entries when
      `extra` is zero, else the last 2 * expand entries. */
  function Edges(p: seq<real>, extraZero: bool, expand: nat, m: real): (r: seq<real>)
    ensures |r| == |p|
  {
    if extraZero then ScaleTail(ScaleHead(p, expand, m), expand, m)
    else ScaleTail(p, expand * 2, m)
  }

  lemma PositiveQuotient(d: real)
    requires d > 0.0
    ensures 1.0 / d > 0.0
  {
  }

  lemma PositiveProduct(a: real, b: real)
    requires a > 0.0 && b > 0.0
    ensures a * b > 0.0
  {
  }

  /** Scaling by m >= 1 keeps every entry positive. */
  lemma {:induction false} EdgesPositive(p: seq<real>, extraZero: bool, expand: nat, m: real)
    requires m >= 1.0 && forall i :: 0 <= i < |p| ==> p[i] > 0.0
    ensures forall i :: 0 <= i < |p| ==> Edges(p, extraZero, expand, m)[i] > 0.0
  {
    var h := ScaleHead(p, expand, m);
    forall i | 0 <= i < |p|
      ensures h[i] > 0.0
    {
      PositiveProduct(m, p[i]);
    }
    var r := Edges(p, extraZero, expand, m);
    forall i | 0 <= i < |p|
      ensures r[i] > 0.0
    {
      PositiveProduct(m, h[i]);
      PositiveProduct(m, p[i]);
    }
  }

  /** The weights of a range of n starts before normalisation: 1
      everywhere, with the edges scaled by m when the range is unclamped
      (`weighted`). The source starts from 1 / (n + 2 * expand * m)
      instead of 1; the normalisation divides that common factor away
      (`NormaliseIgnoresFactor`). */
  function RawWeights(n: nat, weighted: bool, extraZero: bool, expand: nat, m: real): (p: seq<real>)
    ensures |p| == n
  {
    var uniform := Repeat(1.0, n);
    if weighted then Edges(uniform, extraZero, expand, m) else uniform
  }

  /** Every weight is positive when the multiplier is. */
  lemma {:induction false} RawWeightsPositive(n: nat, weighted: bool, extraZero: bool, expand: nat, m: real)
    requires weighted ==> m >= 1.0
    ensures forall i :: 0 <= i < n ==> RawWeights(n, weighted, extraZero, expand, m)[i] > 0.0
  {
    if weighted {
      EdgesPositive(Repeat(1.0, n), extraZero, expand, m);
    }
  }

  /** A sequence of positive entries has a positive sum. */
  lemma {:induction false} SumPositive(p: seq<real>)
    requires p != [] && forall i :: 0 <= i < |p| ==> p[i] > 0.0
    ensures Sum(p) > 0.0
  {
    if |p| > 1 {
      SumPositive(p[..|p| - 1]);
    }
  }

  /** `choice_prob` after the additional normalisation at line 1036: a
      probability for each of the n starts. */
  function ChoiceProb(n: nat, weighted: bool, extraZero: bool, expand: nat, m: real): (p: seq<real>)
    requires n > 0 && (weighted ==> m >= 1.0)
    ensures |p| == n
    ensures Sum(p) == 1.0
  {
    var raw := RawWeights(n, weighted, extraZero, expand, m);
    RawWeightsPositive(n, weighted, extraZero, expand, m);
    SumPositive(raw);
    Normalise(raw)
  }

  /** Normalising keeps the ratio of two weights. */
  lemma {:induction false} NormaliseKeepsRatio(raw: seq<real>, m: real, i: nat, j: nat)
    requires Sum(raw) != 0.0 && i < |raw| && j < |raw| && raw[i] == m * raw[j]
    ensures Normalise(raw)[i] == m * Normalise(raw)[j]
  {
    var s := 1.0 / Sum(raw);
    assert s * (m * raw[j]) == m * (s * raw[j]);
  }

  /** Normalising divides away any common positive factor. */
  lemma {:induction false} NormaliseIgnoresFactor(raw: seq<real>, c: real)
    requires Sum(raw) > 0.0 && c > 0.0
    ensures Sum(Scale(raw, c)) > 0.0 && Normalise(Scale(raw, c)) == Normalise(raw)
  {
    SumOfScale(raw, c);
    PositiveProduct(c, Sum(raw));
    var p, q := Normalise(Scale(raw, c)), Normalise(raw);
    forall i | 0 <= i < |raw|
      ensures p[i] == q[i]
    {
      CancelFactor(raw[i], c, Sum(raw));
    }
  }

  lemma CancelFactor(x: real, c: real, t: real)
    requires c > 0.0 && t > 0.0
    ensures (1.0 / (c * t)) * (c * x) == (1.0 / t) * x
  {
  }

  /** Every start has a positive probability. */
  lemma {:induction false} ChoiceProbPositive(n: nat, weighted: bool, extraZero: bool, expand: nat, m: real, k: nat)
    requires n > 0 && (weighted ==> m >= 1.0) && k < n
    ensures ChoiceProb(n, weighted, extraZero, expand, m)[k] > 0.0
  {
    var raw := RawWeights(n, weighted, extraZero, expand, m);
    RawWeightsPositive(n, weighted, extraZero, expand, m);
    SumPositive(raw);
    PositiveQuotient(Sum(raw));
    PositiveProduct(1.0 / Sum(raw), raw[k]);
  }

  /** On uniform weights with room for both edges, an edge entry is m
      times the uniform weight and an interior entry keeps it. */
  lemma {:induction false} EdgesOnUniform(u: real, n: nat, expand: nat, m: real, i: nat)
    requires 0 < expand && 2 * expand <= n && i < n
    ensures Edges(Repeat(u, n), true, expand, m)[i] == if i < expand || i >= n - expand then m * u else u
  {
    var h := ScaleHead(Repeat(u, n), expand, m);
    assert TailStart(n, expand) == n - expand;
    assert h[i] == if i < expand then m * u else u;
  }

  /** In an unclamped range with `extra` = 0 and room for both edges, each
      of the first and last `expand` entries is drawn m times as likely as
      an interior entry, and interior entries are equally likely. */
  lemma {:induction false} EdgeWeights(n: nat, expand: nat, m: real, i: nat, j: nat, k: nat)
    requires m >= 1.0 && 0 < expand && 2 * expand <= n
    requires i < n && (i < expand || i >= n - expand)
    requires expand <= j < n - expand && expand <= k < n - expand
    ensures ChoiceProb(n, true, true, expand, m)[i] == m * ChoiceProb(n, true, true, expand, m)[j]
    ensures ChoiceProb(n, true, true, expand, m)[k] == ChoiceProb(n, true, true, expand, m)[j]
  {
    var raw := RawWeights(n, true, true, expand, m);
    RawWeightsPositive(n, true, true, expand, m);
    SumPositive(raw);
    EdgesOnUniform(1.0, n, expand, m, i);
    EdgesOnUniform(1.0, n, expand, m, j);
    EdgesOnUniform(1.0, n, expand, m, k);
    NormaliseKeepsRatio(raw, m, i, j);
    NormaliseKeepsRatio(raw, 1.0, k, j);
  }

  /** With `expand` = 0 every slice `[-0:]` covers the whole array. */
  lemma {:induction false} EdgesZeroExpand(u: real, n: nat, extraZero: bool, m: real, i: nat)
    requires i < n
    ensures Edges(Repeat(u, n), extraZero, 0, m)[i] == m * u
  {
    assert TailStart(n, 0) == 0;
    assert ScaleHead(Repeat(u, n), 0, m)[i] == u;
  }

  /** With `expand` = 0 the slice `[-0:]` scales every weight alike, so
      after normalisation the weights are uniform whatever the range. */
  lemma {:induction false} ZeroExpandIsUniform(n: nat, weighted: bool, extraZero: bool, m: real, i: nat, j: nat)
    requires n > 0 && (weighted ==> m >= 1.0) && i < n && j < n
    ensures ChoiceProb(n, weighted, extraZero, 0, m)[i] == ChoiceProb(n, weighted, extraZero, 0, m)[j]
  {
    var raw := RawWeights(n, weighted, extraZero, 0, m);
    if weighted {
      EdgesZeroExpand(1.0, n, extraZero, m, i);
      EdgesZeroExpand(1.0, n, extraZero, m, j);
    }
    assert raw[i] == 1.0 * raw[j];
    RawWeightsPositive(n, weighted, extraZero, 0, m);
    SumPositive(raw);
    NormaliseKeepsRatio(raw, 1.0, i, j);
  }

  /** n ones add up to n. */
  lemma {:induction false} SumOfOnes(n: nat)
    ensures Sum(Repeat(1.0, n)) == n as real
  {
    if n > 0 {
      assert Repeat(1.0, n)[..n - 1] == Repeat(1.0, n - 1);
      SumOfOnes(n - 1);
    }
  }

  /** Without the edge weighting every one of the n starts has probability
      1 / n. */
  lemma {:induction false} UnweightedIsUniform(n: nat, extraZero: bool, expand: nat, m: real, k: nat)
    requires n > 0 && k < n
    ensures ChoiceProb(n, false, extraZero, expand, m)[k] == 1.0 / n as real
  {
    var raw := RawWeights(n, false, extraZero, expand, m);
    assert raw == Repeat(1.0, n);
    SumOfOnes(n);
    assert Normalise(raw)[k] == (1.0 / n as real) * 1.0;
  }

  /** The probabilities `get_episodeStart` draws with for the range `b`. */
  function StartProb(b: Bounds, windowSize: nat, expandI: nat, expand: nat, l: int, episodeWindow: int)
    : (p: seq<real>)
    requires b.choiceStart < b.choiceEnd
    requires Unclamped(b, windowSize, l, episodeWindow) ==> expandI >= 1
    ensures |p| == b.choiceEnd - b.choiceStart && Sum(p) == 1.0
  {
    ChoiceProb(b.choiceEnd - b.choiceStart, Unclamped(b, windowSize, l, episodeWindow), b.extra == 0, expand,
               Multiplier(expandI) as real)
  }

  /** `get_episodeStart(agent, expand_i, expand, [l, offset,
      episode_window])` with the state window size `window_size`: the
      start at index `draw` of the range, as `np.random.choice` picks it
      with the probabilities `StartProb`. An empty range, where numpy
      raises, gives None. */
  function GetEpisodeStart(windowSize: nat, offset: int, expandI: nat, expand: nat, l: int, episodeWindow: int,
                           draw: nat): (r: Option<int>)
    requires var b := ChoiceBounds(windowSize, offset, expandI, expand, l, episodeWindow);
             b.choiceStart < b.choiceEnd ==> draw < b.choiceEnd - b.choiceStart
    ensures var b := ChoiceBounds(windowSize, offset, expandI, expand, l, episodeWindow);
            r.Some? <==> b.choiceStart < b.choiceEnd
    ensures r.Some? ==> windowSize <= r.value < l - episodeWindow - 1
    ensures r.Some? ==> var b := ChoiceBounds(windowSize, offset, expandI, expand, l, episodeWindow);
                        b.choiceStart <= r.value < b.choiceEnd
  {
    var b := ChoiceBounds(windowSize, offset, expandI, expand, l, episodeWindow);
    if b.choiceStart < b.choiceEnd then Some(b.choiceStart + draw) else None
  }

  /** Every start in a non-empty range can be drawn: its probability is
      positive. */
  lemma {:induction false} EveryStartPossible(windowSize: nat, offset: int, expandI: nat, expand: nat, l: int,
                                              episodeWindow: int, k: nat)
    requires var b := ChoiceBounds(windowSize, offset, expandI, expand, l, episodeWindow);
             b.choiceStart < b.choiceEnd && k < b.choiceEnd - b.choiceStart
    ensures var b := ChoiceBounds(windowSize, offset, expandI, expand, l, episodeWindow);
            (Unclamped(b, windowSize, l, episodeWindow) ==> expandI >= 1) &&
            StartProb(b, windowSize, expandI, expand, l, episodeWindow)[k] > 0.0
  {
    var b := ChoiceBounds(windowSize, offset, expandI, expand, l, episodeWindow);
    var weighted := Unclamped(b, windowSize, l, episodeWindow);
    if weighted {
      UnclampedNeedsIndex(windowSize, offset, expandI, expand, l, episodeWindow);
    }
    ChoiceProbPositive(b.choiceEnd - b.choiceStart, weighted, b.extra == 0, expand, Multiplier(expandI) as real, k);
  }

  /** A range clamped at either end (by the state window or by the end of
      the series) gets no edge weighting: every start is equally likely. */
  lemma {:induction false} ClampedRangeIsUniform(windowSize: nat, offset: int, expandI: nat, expand: nat, l: int,
                                                 episodeWindow: int, k: nat)
    requires var b := ChoiceBounds(windowSize, offset, expandI, expand, l, episodeWindow);
             b.choiceStart < b.choiceEnd && k < b.choiceEnd - b.choiceStart &&
             !Unclamped(b, windowSize, l, episodeWindow)
    ensures var b := ChoiceBounds(windowSize, offset, expandI, expand, l, episodeWindow);
            StartProb(b, windowSize, expandI, expand, l, episodeWindow)[k] ==
              1.0 / (b.choiceEnd - b.choiceStart) as real
  {
    var b := ChoiceBounds(windowSize, offset, expandI, expand, l, episodeWindow);
    UnweightedIsUniform(b.choiceEnd - b.choiceStart, b.extra == 0, expand, Multiplier(expandI) as real, k);
  }
}
