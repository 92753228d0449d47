/** The reward engine: eight reward variants selected by an integer id, each
    a real-valued formula over the step's profit, prices, counters and the
    agent's portfolio. `exp` and the real power `**` are left uninterpreted
    and passed in as functions. */
module RewardEngine {
  import opened Common
  import opened Portfolio

  datatype RewardKind = Type0 | Type1 | Type2 | Type3 | Type4 | Type5 | Type6 | Type7

  /** The variant `set_rewardtype` selects for an id; ids outside 0..7 select
      none (the call then fails on its unbound description). */
  function KindOf(id: int): (k: Option<RewardKind>)
    ensures k.Some? <==> 0 <= id <= 7
  {
    if id == 0 then Some(Type0)
    else if id == 1 then Some(Type1)
    else if id == 2 then Some(Type2)
    else if id == 3 then Some(Type3)
    else if id == 4 then Some(Type4)
    else if id == 5 then Some(Type5)
    else if id == 6 then Some(Type6)
    else if id == 7 then Some(Type7)
    else None
  }

  /** The id of a variant. */
  function KindId(k: RewardKind): (id: int)
    ensures 0 <= id <= 7
  {
    match k
    case Type0 => 0
    case Type1 => 1
    case Type2 => 2
    case Type3 => 3
    case Type4 => 4
    case Type5 => 5
    case Type6 => 6
    case Type7 => 7
  }

  /** Ids and variants correspond one to one. */
  lemma KindIdRoundTrip(id: int, k: RewardKind)
    ensures KindOf(KindId(k)) == Some(k)
    ensures KindOf(id).Some? ==> KindId(KindOf(id).value) == id
  {
  }

  /** The tunable scalars the agent carries for the shaped variants. */
  datatype RewardParams = RewardParams(penalty: real, holdScale: real, tradeScale: real,
                                       maxHolds: int, probPower: real)

  /** The uninterpreted transcendental operations: `np.exp` and `x ** y`. */
  datatype Numerics = Numerics(exp: real -> real, pow: (real, real) -> real)

  /** The positional `util_lst` the variants read, with named fields:
      [pt, pt1, ptn, at, at_prob, n_trades, n_holds, impossible, l, terminate]. */
  datatype RewardContext = RewardContext(price: real, prevPrice: real, horizonPrice: real,
                                         action: int, actionProb: seq<real>, nTrades: int,
                                         nHolds: int, impossible: bool, dataLength: int,
                                         terminate: bool)

  /** The policy's confidence: its largest action probability raised to
      `prob_power`. */
  function Confidence(ctx: RewardContext, params: RewardParams, num: Numerics): real
    requires |ctx.actionProb| > 0
  {
    num.pow(ctx.actionProb[ArgMax(ctx.actionProb)], params.probPower)
  }

  /** Type 0: the clamped profit. Unlike the other variants it takes no agent
      argument. */
  function Reward0(profit: real, ctx: RewardContext, last: bool): (r: real)
    ensures r >= 0.0 && r >= profit
    ensures r == profit || r == 0.0
  {
    MaxReal(profit, 0.0)
  }

  /** Type 1: the unclamped profit, whatever the portfolio, context or
      step. */
  function Reward1(p: Portfolio, profit: real, ctx: RewardContext, last: bool): (r: real)
    ensures r == profit
  {
    profit
  }

  /** `np.sum(np.array(inventory) - price)`. */
  function Closed(inventory: seq<real>, price: real): real
  {
    Sum(seq(|inventory|, i requires 0 <= i < |inventory| => inventory[i] - price))
  }

  /** Closing every held unit at `price` yields the purchase prices' total
      minus one price per unit. */
  lemma {:induction false} ClosedIsSumMinusCount(inventory: seq<real>, price: real)
    ensures Closed(inventory, price) == Sum(inventory) - |inventory| as real * price
  {
    if inventory != [] {
      var n := |inventory| - 1;
      var d := seq(|inventory|, i requires 0 <= i < |inventory| => inventory[i] - price);
      var d' := seq(n, i requires 0 <= i < n => inventory[..n][i] - price);
      assert d[..n] == d';
      ClosedIsSumMinusCount(inventory[..n], price);
    }
  }

  /** Type 2: the profit, and on the last step every still-held unit is
      closed at the current price. */
  function Reward2(p: Portfolio, profit: real, ctx: RewardContext, last: bool): (r: real)
    ensures !last ==> r == profit
    ensures last ==> r == profit + Sum(p.inventory) - |p.inventory| as real * ctx.price
  {
    ClosedIsSumMinusCount(p.inventory, ctx.price);
    if last then profit + Closed(p.inventory, ctx.price) else profit
  }

  /** Portfolio value at the end against holding the `n_budget` units. */
  function TerminalGrowth(p: Portfolio, nBudget: nat, price: real): real
  {
    p.balance + p.inventoryValue - nBudget as real * price
  }

  /** Type 3: zero until the last step; then the terminal growth, doubled
      when positive and replaced by -1000 when exactly zero. */
  function Reward3(p: Portfolio, nBudget: nat, profit: real, ctx: RewardContext, last: bool): (r: real)
    ensures !last ==> r == 0.0
    ensures last ==> var g := TerminalGrowth(p, nBudget, ctx.price);
                     (g > 0.0 ==> r == 2.0 * g) && (g == 0.0 ==> r == -1000.0) && (g < 0.0 ==> r == g)
  {
    var pt := ctx.price;
    if last then
      var g := p.balance + p.inventoryValue - nBudget as real * pt;
      if g > 0.0 then g * 2.0
      else if g == 0.0 then -1000.0
      else g
    else 0.0
  }

  /** The prices a dense term divides by are non-zero. */
  predicate DensePricesOk(ctx: RewardContext)
  {
    ctx.prevPrice != 0.0 && ctx.horizonPrice != 0.0
  }

  /** The dense per-step term of types 4 and 5, with SELL (2) read as -1. */
  function Dense(ctx: RewardContext): real
    requires DensePricesOk(ctx)
  {
    var pt, pt1, ptn := ctx.price, ctx.prevPrice, ctx.horizonPrice;
    var at := if ctx.action == 2 then -1 else ctx.action;
    (1.0 + at as real * (pt - pt1) / pt1) * (pt1 / ptn)
  }

  lemma QuotientShift(a: real, b: real, c: real)
    requires b != 0.0
    ensures c + a / b == (c * b + a) / b
  {
  }

  lemma QuotientProduct(a: real, b: real, c: real)
    requires b != 0.0 && c != 0.0
    ensures (a / b) * (b / c) == a / c
  {
  }

  /** The dense term at a trade direction d in closed form: (pt1 + d * (pt
      - pt1)) / ptn. */
  lemma {:induction false} DenseStep(d: real, pt: real, pt1: real, ptn: real)
    requires pt1 != 0.0 && ptn != 0.0
    ensures (1.0 + d * (pt - pt1) / pt1) * (pt1 / ptn) == (pt1 + d * (pt - pt1)) / ptn
  {
    var a := d * (pt - pt1);
    QuotientShift(a, pt1, 1.0);
    assert 1.0 + a / pt1 == (pt1 + a) / pt1;
    QuotientProduct(pt1 + a, pt1, ptn);
  }

  /** The dense term in closed form: a HOLD scores the previous price, a BUY
      the current price and a SELL the mirrored price 2*pt1 - pt, each
      relative to the horizon price. */
  lemma {:induction false} DenseClosedForm(ctx: RewardContext)
    requires DensePricesOk(ctx)
    ensures ctx.action == 0 ==> Dense(ctx) == ctx.prevPrice / ctx.horizonPrice
    ensures ctx.action == 1 ==> Dense(ctx) == ctx.price / ctx.horizonPrice
    ensures ctx.action == 2 ==> Dense(ctx) == (2.0 * ctx.prevPrice - ctx.price) / ctx.horizonPrice
  {
    var pt, pt1, ptn := ctx.price, ctx.prevPrice, ctx.horizonPrice;
    var at := if ctx.action == 2 then -1 else ctx.action;
    assert Dense(ctx) == (1.0 + at as real * (pt - pt1) / pt1) * (pt1 / ptn);
    DenseStep(at as real, pt, pt1, ptn);
    if ctx.action == 1 {
      assert pt1 + 1.0 * (pt - pt1) == pt;
    } else if ctx.action == 2 {
      assert pt1 + (-1.0) * (pt - pt1) == 2.0 * pt1 - pt;
    }
  }

  /** Type 4: the dense term, replaced on the last step by the terminal
      growth (not doubled), with -1000 for exactly zero. */
  function Reward4(p: Portfolio, nBudget: nat, profit: real, ctx: RewardContext, last: bool): (r: real)
    requires DensePricesOk(ctx)
    ensures !last ==> r == Dense(ctx)
    ensures last ==> var g := TerminalGrowth(p, nBudget, ctx.price);
                     r == if g == 0.0 then -1000.0 else g
  {
    var dense := Dense(ctx);
    if last then
      var g := p.balance + p.inventoryValue - nBudget as real * ctx.price;
      if g == 0.0 then -1000.0 else g
    else dense
  }

  /** Type 5: the dense term only, on every step including the last; a
      HOLD scores pt1/ptn, a BUY pt/ptn and a SELL (2*pt1 - pt)/ptn. */
  function Reward5(p: Portfolio, profit: real, ctx: RewardContext, last: bool): (r: real)
    requires DensePricesOk(ctx)
    ensures r == Dense(ctx)
    ensures ctx.action == 0 ==> r == ctx.prevPrice / ctx.horizonPrice
    ensures ctx.action == 1 ==> r == ctx.price / ctx.horizonPrice
    ensures ctx.action == 2 ==> r == (2.0 * ctx.prevPrice - ctx.price) / ctx.horizonPrice
  {
    DenseClosedForm(ctx);
    Dense(ctx)
  }

  /** Types 3, 4 and 5 agree where their descriptions say they do: type 4 is
      type 5 before the last step and type 3 without the doubling on it. */
  lemma {:induction false} TerminalVariantsAgree(p: Portfolio, nBudget: nat, profit: real,
                                                  ctx: RewardContext, last: bool)
    requires DensePricesOk(ctx)
    ensures !last ==> Reward4(p, nBudget, profit, ctx, last) == Reward5(p, profit, ctx, last)
    ensures !last ==> Reward3(p, nBudget, profit, ctx, last) == 0.0
    ensures last && TerminalGrowth(p, nBudget, ctx.price) > 0.0 ==>
              Reward3(p, nBudget, profit, ctx, last) == 2.0 * Reward4(p, nBudget, profit, ctx, last)
    ensures last && TerminalGrowth(p, nBudget, ctx.price) <= 0.0 ==>
              Reward3(p, nBudget, profit, ctx, last) == Reward4(p, nBudget, profit, ctx, last)
  {
  }

  /** Type 6: on BUY or SELL the clamped profit scaled by the policy's
      confidence, nothing on other actions; then divided by 1000. */
  function Reward6(p: Portfolio, profit: real, ctx: RewardContext, last: bool,
                   params: RewardParams, num: Numerics): (r: real)
    requires |ctx.actionProb| > 0
    ensures ctx.action != 1 && ctx.action != 2 ==> r == 0.0
    ensures ctx.action == 1 || ctx.action == 2 ==>
              r == MaxReal(profit, 0.0) * Confidence(ctx, params, num) / 1000.0
  {
    var prob := Confidence(ctx, params, num);
    var reward := if ctx.action == 1 || ctx.action == 2 then MaxReal(profit, 0.0) * prob else 0.0;
    reward / 1000.0
  }

  /** Series length type 7 uses; fixed rather than read from the context. */
  const HoldLength: real := 754.0

  /** The exponent of type 7's hold penalty: holds beyond `max_holds`, per
      series length, scaled by `hold_scale`. */
  function HoldExponent(ctx: RewardContext, params: RewardParams): real
  {
    (ctx.nHolds - params.maxHolds) as real / HoldLength * params.holdScale
  }

  /** The hold-duration penalty of type 7: 1 - exp(HoldExponent). */
  function HoldPenalty(ctx: RewardContext, params: RewardParams, num: Numerics): real
  {
    -num.exp(HoldExponent(ctx, params)) + 1.0
  }

  /** Type 7's reward for a HOLD outcome: unrealised growth while holding, a
      signed opportunity term while flat, each with the hold penalty and
      scaled by confidence. */
  function HoldReward7(p: Portfolio, ctx: RewardContext, params: RewardParams, num: Numerics): real
    requires |ctx.actionProb| > 0
  {
    var prob := Confidence(ctx, params, num);
    var nInvent := |p.inventory|;
    var holdPenalty := HoldPenalty(ctx, params, num);
    if nInvent != 0 then ((ctx.horizonPrice - ctx.price) * nInvent as real + holdPenalty) * prob
    else (-1.0 * (ctx.horizonPrice - ctx.price) + holdPenalty) * prob
  }

  /** Type 7 before damping and clipping, branch for branch as written
      (the penalty branches under BUY and SELL included). */
  function Raw7(p: Portfolio, profit: real, ctx: RewardContext, params: RewardParams, num: Numerics): real
    requires |ctx.actionProb| > 0
  {
    var prob := Confidence(ctx, params, num);
    if ctx.action == 0 || ctx.impossible then HoldReward7(p, ctx, params, num)
    else if ctx.action == 1 then (if ctx.impossible then params.penalty * prob else profit * prob)
    else if ctx.action == 2 then (if ctx.impossible then params.penalty * prob else profit * prob)
    else 0.0
  }

  /** Illegal-action damping: positive rewards x0.1, then negative ones x1.1. */
  function Damp(reward: real, impossible: bool): real
  {
    var r1 := if impossible && reward > 0.0 then reward * 0.1 else reward;
    if impossible && r1 < 0.0 then r1 * 1.1 else r1
  }

  /** Type 7: -100 when the episode is flagged terminated; otherwise the raw
      reward, damped for illegal actions, floored at -50000 and divided by
      1000. */
  function Reward7(p: Portfolio, profit: real, ctx: RewardContext, last: bool,
                   params: RewardParams, num: Numerics): (r: real)
    requires |ctx.actionProb| > 0
    ensures ctx.terminate ==> r == -100.0
    ensures !ctx.terminate ==> r >= -50.0
    ensures !ctx.terminate ==> r == MaxReal(Damp(Raw7(p, profit, ctx, params, num), ctx.impossible), -50000.0) / 1000.0
  {
    if !ctx.terminate then
      var reward := Damp(Raw7(p, profit, ctx, params, num), ctx.impossible);
      MaxReal(reward, -50000.0) / 1000.0
    else -100000.0 / 1000.0
  }

  /** An illegal action always takes type 7's hold branch, so the penalty
      branches under BUY and SELL are never reached; its damping and the
      floor apply in that order. */
  lemma {:induction false} Reward7Illegal(p: Portfolio, profit: real, ctx: RewardContext, last: bool,
                                          params: RewardParams, num: Numerics)
    requires |ctx.actionProb| > 0 && ctx.impossible && !ctx.terminate
    ensures Raw7(p, profit, ctx, params, num) == HoldReward7(p, ctx, params, num)
    ensures var raw := HoldReward7(p, ctx, params, num);
            (raw > 0.0 ==> Reward7(p, profit, ctx, last, params, num) == raw * 0.1 / 1000.0) &&
            (raw < 0.0 ==> Reward7(p, profit, ctx, last, params, num) == MaxReal(raw * 1.1, -50000.0) / 1000.0) &&
            (raw == 0.0 ==> Reward7(p, profit, ctx, last, params, num) == 0.0)
  {
  }

  /** A legal BUY or SELL under type 7 earns the confidence-scaled profit,
      floored at -50000, divided by 1000. */
  lemma {:induction false} Reward7LegalTrade(p: Portfolio, profit: real, ctx: RewardContext, last: bool,
                                             params: RewardParams, num: Numerics)
    requires |ctx.actionProb| > 0 && !ctx.impossible && !ctx.terminate
    requires ctx.action == 1 || ctx.action == 2
    ensures Reward7(p, profit, ctx, last, params, num) ==
              MaxReal(profit * Confidence(ctx, params, num), -50000.0) / 1000.0
  {
    assert Raw7(p, profit, ctx, params, num) == profit * Confidence(ctx, params, num);
    assert Damp(profit * Confidence(ctx, params, num), false) == profit * Confidence(ctx, params, num);
  }

  lemma HoldRewardIgnoresPenalty(p: Portfolio, ctx: RewardContext, params: RewardParams, num: Numerics,
                                 otherPenalty: real)
    requires |ctx.actionProb| > 0
    ensures Confidence(ctx, params, num) == Confidence(ctx, params.(penalty := otherPenalty), num)
    ensures HoldReward7(p, ctx, params, num) == HoldReward7(p, ctx, params.(penalty := otherPenalty), num)
  {
    var params' := params.(penalty := otherPenalty);
    assert HoldExponent(ctx, params) == HoldExponent(ctx, params');
    assert HoldPenalty(ctx, params, num) == HoldPenalty(ctx, params', num);
  }

  /** The `penalty` parameter never influences type 7. */
  lemma {:induction false} Reward7IgnoresPenalty(p: Portfolio, profit: real, ctx: RewardContext, last: bool,
                                                 params: RewardParams, num: Numerics, otherPenalty: real)
    requires |ctx.actionProb| > 0
    ensures Reward7(p, profit, ctx, last, params, num) ==
              Reward7(p, profit, ctx, last, params.(penalty := otherPenalty), num)
  {
    var params' := params.(penalty := otherPenalty);
    HoldRewardIgnoresPenalty(p, ctx, params, num, otherPenalty);
    assert Raw7(p, profit, ctx, params, num) == Raw7(p, profit, ctx, params', num);
  }

  /** What a variant needs of its context: non-zero divisor prices for the
      dense variants and a probability vector for the confidence-scaled ones. */
  predicate Computable(kind: RewardKind, ctx: RewardContext)
  {
    (kind == Type4 || kind == Type5 ==> DensePricesOk(ctx)) &&
    (kind == Type6 || kind == Type7 ==> |ctx.actionProb| > 0)
  }

  /** `get_reward`: the selected variant applied to the step. Only types
      2, 3 and 4 look at `last`; only 6 and 7 at the policy's confidence;
      type 7 is bounded below. */
  function Reward(kind: RewardKind, p: Portfolio, nBudget: nat, profit: real, ctx: RewardContext,
                  last: bool, params: RewardParams, num: Numerics): (r: real)
    requires Computable(kind, ctx)
    ensures kind == Type0 ==> r == MaxReal(profit, 0.0)
    ensures kind == Type1 ==> r == profit
    ensures kind == Type2 && !last ==> r == profit
    ensures kind == Type3 && !last ==> r == 0.0
    ensures (kind == Type4 && !last) || kind == Type5 ==> r == Dense(ctx)
    ensures kind == Type6 && ctx.action != 1 && ctx.action != 2 ==> r == 0.0
    ensures kind == Type7 && ctx.terminate ==> r == -100.0
    ensures kind == Type7 && !ctx.terminate ==> r >= -50.0
  {
    match kind
    case Type0 => Reward0(profit, ctx, last)
    case Type1 => Reward1(p, profit, ctx, last)
    case Type2 => Reward2(p, profit, ctx, last)
    case Type3 => Reward3(p, nBudget, profit, ctx, last)
    case Type4 => Reward4(p, nBudget, profit, ctx, last)
    case Type5 => Reward5(p, profit, ctx, last)
    case Type6 => Reward6(p, profit, ctx, last, params, num)
    case Type7 => Reward7(p, profit, ctx, last, params, num)
  }

  /** Types 0 and 1 differ exactly by the clamp, and type 2 equals type 1
      before the last step. */
  lemma {:induction false} ProfitVariantsAgree(p: Portfolio, nBudget: nat, profit: real, ctx: RewardContext,
                                               last: bool, params: RewardParams, num: Numerics)
    ensures Reward(Type0, p, nBudget, profit, ctx, last, params, num) ==
              MaxReal(Reward(Type1, p, nBudget, profit, ctx, last, params, num), 0.0)
    ensures !last ==> Reward(Type2, p, nBudget, profit, ctx, last, params, num) ==
                        Reward(Type1, p, nBudget, profit, ctx, last, params, num)
  {
  }
}
