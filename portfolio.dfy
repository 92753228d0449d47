/** The agent's portfolio as a value, with the rules that decide which trades
    are legal, how the 2-logit decision becomes a trade, and when an episode
    is abandoned early. The `Agent` class keeps these attributes as fields. */
module Portfolio {
  import opened Common

  /** The attributes `reset` assigns: cash, the purchase prices of the held
      units (`inventory`, a FIFO queue), the prices at which units were sold
      (`inventory_conj`, a FIFO queue), the marked value of the held units,
      the normalising budget, the reward scratch vector and the override flag. */
  datatype Portfolio = Portfolio(balance: real, inventory: seq<real>, inventoryConj: seq<real>,
                                 inventoryValue: real, budget: real, rUtil: seq<real>,
                                 overrideReward: bool)

  /** Held units plus records of sold units. */
  function Units(p: Portfolio): nat { |p.inventory| + |p.inventoryConj| }

  /** The portfolio invariant: every one of the `n_budget` units is either held
      or recorded as sold. It is what makes `inventory_conj.pop(0)` on a legal
      BUY and `inventory_conj[0]` in the observation safe. */
  ghost predicate Consistent(p: Portfolio, nBudget: nat)
  {
    nBudget > 0 && Units(p) == nBudget
  }

  /** Consistency guarantees a sale record whenever nothing is held. */
  lemma ConsistentFlatHasSale(p: Portfolio, nBudget: nat)
    requires Consistent(p, nBudget) && p.inventory == []
    ensures |p.inventoryConj| == nBudget && p.inventoryConj != []
  {
  }

  /** `Agent.reset(start_price)`: all `n_budget` units held at the start
      price, nothing sold, no cash; the budget equals the marked value. */
  function ResetPortfolio(nBudget: nat, startPrice: real): (p: Portfolio)
    ensures Units(p) == nBudget && p.inventoryConj == [] && |p.inventory| == nBudget
    ensures forall i :: 0 <= i < |p.inventory| ==> p.inventory[i] == startPrice
    ensures p.balance == 0.0 && p.inventoryValue == p.budget
    ensures p.rUtil == Repeat(0.0, 10) && !p.overrideReward
  {
    Portfolio(0.0, Repeat(startPrice, nBudget), [], startPrice * nBudget as real,
              nBudget as real * startPrice, Repeat(0.0, 10), false)
  }

  /** Cash plus marked holdings, measured against the budget. */
  function NetGrowth(p: Portfolio): real
  {
    p.balance + p.inventoryValue - p.budget
  }

  /** `validation_extraCash`: the injected cash replaces the balance and is
      added to the budget. */
  function WithExtraCash(p: Portfolio, extraCash: real): (q: Portfolio)
    ensures q.balance == extraCash && q.budget == p.budget + extraCash
    ensures q.inventory == p.inventory && q.inventoryConj == p.inventoryConj
    ensures q.inventoryValue == p.inventoryValue
  {
    p.(balance := extraCash, budget := p.budget + extraCash)
  }

  /** A fresh portfolio shows no growth, and a cash injection right after the
      reset leaves it at no growth: the injection is not counted as profit. */
  lemma {:induction false} ExtraCashIsNotProfit(nBudget: nat, startPrice: real, extraCash: real)
    ensures NetGrowth(ResetPortfolio(nBudget, startPrice)) == 0.0
    ensures NetGrowth(WithExtraCash(ResetPortfolio(nBudget, startPrice), extraCash)) == 0.0
  {
    var p := ResetPortfolio(nBudget, startPrice);
    assert p.inventoryValue == p.budget;
  }

  /** BUY is legal with nothing held and enough cash left after the trade cost. */
  predicate LegalBuy(p: Portfolio, tradeCost: real, price: real)
  {
    p.balance - tradeCost > price && p.inventory == []
  }

  /** SELL is legal when a unit is held. */
  predicate LegalSell(p: Portfolio)
  {
    p.inventory != []
  }

  /** The binary-to-three-action mapping of `take_action`: logit 1 means BUY
      when nothing is held and SELL otherwise; 0 stays HOLD. */
  function MapAction(raw: int, p: Portfolio): (a: int)
    ensures a == 2 <==> (raw == 1 && p.inventory != []) || raw == 2
    ensures a == 1 <==> raw == 1 && p.inventory == []
    ensures raw != 1 ==> a == raw
  {
    if raw == 1 then (if p.inventory == [] then 1 else 2) else raw
  }

  /** A mapped decision never asks to sell without a holding nor to buy with
      one: the only way it can be refused is a BUY the cash cannot cover. */
  lemma {:induction false} MappedActionRespectsPosition(raw: int, p: Portfolio, tradeCost: real, price: real)
    requires raw == 0 || raw == 1
    ensures MapAction(raw, p) in {0, 1, 2}
    ensures MapAction(raw, p) == 2 ==> LegalSell(p)
    ensures MapAction(raw, p) == 1 ==>
              p.inventory == [] && (LegalBuy(p, tradeCost, price) <==> p.balance - tradeCost > price)
  {
  }

  /** The raw logit choice: arg-max (the first largest probability, so a
      tie goes to HOLD) when evaluating, the categorical draw (given here
      as `draw`) when training. */
  function ChooseRaw(isEval: bool, probs: seq<real>, draw: nat): (raw: nat)
    requires isEval ==> |probs| > 0
    ensures isEval ==> raw < |probs| && forall j :: 0 <= j < |probs| ==> probs[j] <= probs[raw]
    ensures isEval ==> forall j :: 0 <= j < raw ==> probs[j] < probs[raw]
    ensures !isEval ==> raw == draw
  {
    if isEval then ArgMax(probs) else draw
  }

  /** `check_threshold`: with the check switched on, too many impossible
      actions end the episode first; otherwise an empty inventory whose cash
      can never again cover the cheapest future price does. */
  function Threshold(on: bool, nImpossible: int, threshold: int, p: Portfolio,
                     tradeCost: real, minFuturePrice: real): (r: (bool, string))
    ensures !on ==> r == (false, "n/a")
    ensures r.0 <==> on && (nImpossible >= threshold ||
                            (p.inventory == [] && p.balance - tradeCost < minFuturePrice))
    ensures r.0 && nImpossible >= threshold ==> r.1 == "too many impossibles"
    ensures r.0 && nImpossible < threshold ==> r.1 == "too low balance for rest of trial"
    ensures !r.0 ==> r.1 == "n/a"
  {
    if on then
      if nImpossible >= threshold then (true, "too many impossibles")
      else if p.inventory == [] && p.balance - tradeCost < minFuturePrice then
        (true, "too low balance for rest of trial")
      else (false, "n/a")
    else (false, "n/a")
  }

  /** The write `check_threshold` makes: a non-terminal check with the
      function on clears `override_reward`. */
  function AfterThreshold(p: Portfolio, on: bool, terminal: bool): Portfolio
  {
    if on && !terminal then p.(overrideReward := false) else p
  }
}
