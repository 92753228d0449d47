/** `get_state`: the observation the agent sees at step t, made of a
    squashed (and optionally masked) window of price returns followed by
    six position features. */
module StateBuilder {
  import opened Common
  import opened Portfolio

  /** The `window` prices ending at step t; before step window - 1 the
      missing prices are filled with the first price. */
  function Window(data: seq<real>, t: nat, window: nat): (w: seq<real>)
    requires t < |data|
    ensures |w| == window
  {
    if t - window >= -1 then data[t - window + 1 .. t + 1]
    else Repeat(data[0], window - t - 1) + data[..t + 1]
  }

  /** Entry j of the window is the price at step t - window + 1 + j, or
      the first price where that step is before the start. */
  lemma {:induction false} WindowEntry(data: seq<real>, t: nat, window: nat, j: nat)
    requires t < |data| && j < window
    ensures Window(data, t, window)[j] == data[Max(0, t - window + 1 + j)]
  {
    var w := Window(data, t, window);
    if t - window < -1 {
      var pad := window - t - 1;
      if j < pad {
        assert w[j] == Repeat(data[0], pad)[j];
      } else {
        assert w[j] == data[..t + 1][j - pad];
      }
    }
  }

  /** `np.diff`: successive differences, one fewer than the entries. */
  function Returns(w: seq<real>): (r: seq<real>)
    requires |w| > 0
    ensures |r| == |w| - 1
    ensures forall i :: 0 <= i < |r| ==> w[i] + r[i] == w[i + 1]
  {
    seq(|w| - 1, i requires 0 <= i < |w| - 1 => w[i + 1] - w[i])
  }

  /** `state[1:]`: the window without its first price, so that both
      variants have the same length. */
  function Drop(w: seq<real>): (r: seq<real>)
    requires |w| > 0
    ensures |r| == |w| - 1
    ensures forall i :: 0 <= i < |r| ==> r[i] == w[i + 1]
  {
    w[1..]
  }

  /** The returns of a window add up to its last price less its first. */
  lemma {:induction false} ReturnsTelescope(w: seq<real>)
    requires |w| > 0
    ensures Sum(Returns(w)) == w[|w| - 1] - w[0]
  {
    if |w| > 1 {
      var n := |w| - 1;
      var r, r' := Returns(w), Returns(w[..n]);
      assert r[..n - 1] == r';
      ReturnsTelescope(w[..n]);
    }
  }

  /** Returns taken inside the padding of an early window are zero. */
  lemma {:induction false} PaddedReturnsAreZero(data: seq<real>, t: nat, window: nat, i: nat)
    requires t < |data| && window > 0 && i + 1 <= window - 1 - t
    ensures Returns(Window(data, t, window))[i] == 0.0
  {
    WindowEntry(data, t, window, i);
    WindowEntry(data, t, window, i + 1);
  }

  /** `np.tanh(state / tanh_scale)`, with tanh passed in. */
  function Squash(s: seq<real>, scale: real, tanh: real -> real): (r: seq<real>)
    requires scale != 0.0
    ensures |r| == |s|
    ensures forall i :: 0 <= i < |r| ==> r[i] == tanh(s[i] / scale)
  {
    seq(|s|, i requires 0 <= i < |s| => tanh(s[i] / scale))
  }

  /** How many trailing entries the mask keeps: the slice
      `[min(-1, -min(n_holds, window)):]` of an array of window - 1
      entries. */
  function MaskKeep(nHolds: int, window: nat): (k: nat)
    requires window > 0
    ensures k <= window - 1
    ensures nHolds >= 1 ==> k == Min(nHolds, window - 1)
    ensures nHolds <= 1 ==> k == Min(1, window - 1)
  {
    var start := Min(-1, -Min(nHolds, window));
    Min(window - 1, -start)
  }

  /** `mask_input`: zero every entry except the last `MaskKeep` ones, so
      only the returns since the last trade (at least one) are seen. */
  function Mask(s: seq<real>, nHolds: int, window: nat): (r: seq<real>)
    requires window > 0 && |s| == window - 1
    ensures |r| == |s|
    ensures forall i :: 0 <= i < |r| && i >= |s| - MaskKeep(nHolds, window) ==> r[i] == s[i]
    ensures forall i :: 0 <= i < |r| && i < |s| - MaskKeep(nHolds, window) ==> r[i] == 0.0
  {
    var k := MaskKeep(nHolds, window);
    Repeat(0.0, |s| - k) + s[|s| - k..]
  }

  /** Python's `float(b)`. */
  function Flag(b: bool): real { if b then 1.0 else 0.0 }

  /** The six features appended to the state: whether a BUY is affordable,
      the hold count normalised by max(max_holds, 100) and capped at 1,
      the number of held units, whether closing the position now would
      profit (as buy_bool when flat, sell_bool when holding) and that
      profit relative to the price. */
  function Features(p: Portfolio, tradeCost: real, price: real, nHolds: int, maxHolds: int): (f: seq<real>)
    requires price != 0.0 && (p.inventory == [] ==> p.inventoryConj != [])
    ensures |f| == 6
    ensures f[0] == Flag(LegalBuy(p, tradeCost, price))
    ensures f[1] <= 1.0 && (nHolds >= 0 ==> 0.0 <= f[1])
    ensures f[2] == |p.inventory| as real
    ensures f[3] == 1.0 ==> p.inventory == [] && f[4] == 0.0
    ensures f[4] == 1.0 ==> p.inventory != [] && f[3] == 0.0
  {
    var balanceBool := if p.inventory == [] then Flag(p.balance - tradeCost > price) else 0.0;
    var nholdsNorm := MinReal(1.0, nHolds as real / Max(maxHolds, 100) as real);
    var holding := |p.inventory| as real;
    var (profit, buyBool, sellBool) :=
      if p.inventory == [] then
        var soldPrice := p.inventoryConj[0];
        (soldPrice - price - tradeCost, Flag(soldPrice - tradeCost > price), 0.0)
      else
        var boughtPrice := p.inventory[0];
        (price - boughtPrice - tradeCost, 0.0, Flag(boughtPrice + tradeCost < price));
    [balanceBool, nholdsNorm, holding, buyBool, sellBool, profit / price]
  }

  /** At a positive price the buy or sell flag is raised exactly when the
      normalised profit of closing now is positive, and that profit times
      the price is the profit of the matching trade. */
  lemma {:induction false} FlagsMeanProfit(p: Portfolio, tradeCost: real, price: real, nHolds: int, maxHolds: int)
    requires price > 0.0 && (p.inventory == [] ==> p.inventoryConj != [])
    ensures var f := Features(p, tradeCost, price, nHolds, maxHolds);
            (f[3] == 1.0 || f[4] == 1.0) <==> f[5] > 0.0
    ensures var f := Features(p, tradeCost, price, nHolds, maxHolds);
            f[5] * price == if p.inventory == [] then p.inventoryConj[0] - price - tradeCost
                            else price - p.inventory[0] - tradeCost
  {
    var f := Features(p, tradeCost, price, nHolds, maxHolds);
    var profit := if p.inventory == [] then p.inventoryConj[0] - price - tradeCost
                  else price - p.inventory[0] - tradeCost;
    assert f[5] == profit / price;
    DivPositive(profit, price);
  }

  lemma DivPositive(a: real, b: real)
    requires b > 0.0
    ensures a / b > 0.0 <==> a > 0.0
    ensures (a / b) * b == a
  {
  }

  /** Hold counts at or beyond max(max_holds, 100) saturate the hold
      feature at 1. */
  lemma {:induction false} HoldFeatureSaturates(p: Portfolio, tradeCost: real, price: real, nHolds: int, maxHolds: int)
    requires price != 0.0 && (p.inventory == [] ==> p.inventoryConj != [])
    requires nHolds >= Max(maxHolds, 100)
    ensures Features(p, tradeCost, price, nHolds, maxHolds)[1] == 1.0
  {
    var m := Max(maxHolds, 100) as real;
    assert nHolds as real >= m && m > 0.0;
    DivAtLeastOne(nHolds as real, m);
  }

  lemma DivAtLeastOne(a: real, b: real)
    requires b > 0.0 && a >= b
    ensures a / b >= 1.0
  {
  }

  /** `get_state(agent, data, t, window, [l, n_holds, n_trades,
      trade_cost, tanh_scale], use_rtn)`: the squashed returns (or prices
      without the first) of the window ending at t, masked when the agent
      masks its input, followed by the six features. The returned array's
      extra axes are not modelled. */
  function GetState(p: Portfolio, maskInput: bool, maxHolds: int, data: seq<real>, t: nat, window: nat,
                    nHolds: int, tradeCost: real, tanhScale: real, useRtn: bool, tanh: real -> real): (s: seq<real>)
    requires t < |data| && window > 0 && data[t] != 0.0 && tanhScale != 0.0
    requires p.inventory == [] ==> p.inventoryConj != []
    ensures |s| == window - 1 + 6
    ensures s[window - 1..] == Features(p, tradeCost, data[t], nHolds, maxHolds)
  {
    var w := Window(data, t, window);
    var moves := if useRtn then Returns(w) else Drop(w);
    var squashed := Squash(moves, tanhScale, tanh);
    var state := if maskInput then Mask(squashed, nHolds, window) else squashed;
    state + Features(p, tradeCost, data[t], nHolds, maxHolds)
  }

  /** The price part of the state: without masking, entry i is tanh of the
      i-th return (or price) over the scale; with masking, the entries
      older than the last `MaskKeep` are zero. */
  lemma {:induction false} StatePricePart(p: Portfolio, maskInput: bool, maxHolds: int, data: seq<real>, t: nat,
                                          window: nat, nHolds: int, tradeCost: real, tanhScale: real, useRtn: bool,
                                          tanh: real -> real, i: nat)
    requires t < |data| && window > 0 && data[t] != 0.0 && tanhScale != 0.0
    requires p.inventory == [] ==> p.inventoryConj != []
    requires i < window - 1
    ensures var s := GetState(p, maskInput, maxHolds, data, t, window, nHolds, tradeCost, tanhScale, useRtn, tanh);
            var w := Window(data, t, window);
            var x := if useRtn then w[i + 1] - w[i] else w[i + 1];
            (maskInput && i < window - 1 - MaskKeep(nHolds, window) ==> s[i] == 0.0) &&
            (!(maskInput && i < window - 1 - MaskKeep(nHolds, window)) ==> s[i] == tanh(x / tanhScale))
  {
    var w := Window(data, t, window);
    var moves := if useRtn then Returns(w) else Drop(w);
    assert moves[i] == if useRtn then w[i + 1] - w[i] else w[i + 1];
    var squashed := Squash(moves, tanhScale, tanh);
    var state := if maskInput then Mask(squashed, nHolds, window) else squashed;
    var s := GetState(p, maskInput, maxHolds, data, t, window, nHolds, tradeCost, tanhScale, useRtn, tanh);
    assert s[i] == state[i];
  }
}
