/** One trading step: `handle_action`, which executes HOLD, BUY or SELL on the
    agent's portfolio and the statistics counters, and `break_deadlock`,
    which may replace a HOLD by a legal exploratory trade. */
module Trading {
  import opened Common
  import opened Portfolio
  import opened AgentModel
  import opened Stats

  /** The state after the action branch of `handle_action`: portfolio,
      counters, profit, the pending balance change and whether the action
      was impossible. */
  datatype Exec = Exec(p: Portfolio, c: Tally, profit: real, change: real, impossible: bool)

  /** What `handle_action` leaves behind before its termination check. */
  datatype Outcome = Outcome(portfolio: Portfolio, tally: Tally, profit: real, impossible: bool)

  /** What a BUY needs that the source does not check: a sale record to
      pop. Consistent portfolios always have one. */
  predicate CanPop(p: Portfolio, tradeCost: real, action: int, price: real)
  {
    action == 1 && LegalBuy(p, tradeCost, price) ==> p.inventoryConj != []
  }

  /** An illegal BUY or SELL: counted as impossible and as a hold. */
  function Refuse(p: Portfolio, c: Tally, t: int): (e: Exec)
  {
    Exec(p, c.(nImpossible := c.nImpossible + 1, impInd := c.impInd + [t], nHolds := c.nHolds + 1),
         0.0, 0.0, true)
  }

  /** The action branch: HOLD counts a hold; a legal BUY moves the oldest
      sale record's price into the profit and holds a unit bought at
      `price`; a legal SELL closes the oldest holding at `price`; illegal
      trades are refused. Any other action changes nothing. */
  function Execute(p: Portfolio, c: Tally, tradeCost: real, action: int, price: real, t: int): (e: Exec)
    requires CanPop(p, tradeCost, action, price)
    ensures e.impossible ==> e.c.impInd == c.impInd + [t] && e.p == p
  {
    if action == 0 then
      Exec(p, c.(nHolds := c.nHolds + 1), 0.0, 0.0, false)
    else if action == 1 then
      var c1 := c.(n1or2 := c.n1or2 + 1);
      if p.balance - tradeCost > price && p.inventory == [] then
        var soldPrice := p.inventoryConj[0];
        Exec(p.(inventory := p.inventory + [price], inventoryConj := p.inventoryConj[1..]),
             c1.(buyInd := c1.buyInd + [t], nTrades := c1.nTrades + 1, nHolds := 0),
             soldPrice - price - tradeCost, -price - tradeCost, false)
      else Refuse(p, c1, t)
    else if action == 2 then
      var c1 := c.(n1or2 := c.n1or2 + 1);
      if p.inventory != [] then
        var boughtPrice := p.inventory[0];
        Exec(p.(inventory := p.inventory[1..], inventoryConj := p.inventoryConj + [price]),
             c1.(sellInd := c1.sellInd + [t], nTrades := c1.nTrades + 1, nHolds := 0),
             price - boughtPrice - tradeCost, price - tradeCost, false)
      else Refuse(p, c1, t)
    else
      Exec(p, c, 0.0, 0.0, false)
  }

  /** The validation-only correction applies to an impossible action, taken
      while flat and short of cash, when the policy preferred to trade. */
  predicate NeedsCorrection(e: Exec, tradeCost: real, price: real, argmax: int, training: bool)
  {
    !training && e.p.balance - tradeCost < price && e.p.inventory == [] && argmax == 1 && e.impossible
  }

  /** The cash recorded for a correction as `handle_action` writes it:
      price - balance - trade cost. */
  function ShortfallAsWritten(balance: real, tradeCost: real, price: real): real
  {
    price - balance - tradeCost
  }

  /** The cash a BUY at `price` lacks: what brings balance - cost up to the
      price. It is positive exactly when the correction's cash condition
      holds. */
  function Shortfall(balance: real, tradeCost: real, price: real): (x: real)
    ensures x > 0.0 <==> balance - tradeCost < price
    ensures balance + x - tradeCost == price
  {
    price + tradeCost - balance
  }

  /** The recorded amount misses the trade cost twice: with a balance of
      100, a cost of 5 and a price of 98 the BUY is refused and corrected,
      yet -7 is recorded where 3 is missing. */
  lemma {:induction false} ShortfallAsWrittenMissesCost(balance: real, tradeCost: real, price: real)
    ensures ShortfallAsWritten(balance, tradeCost, price) == Shortfall(balance, tradeCost, price) - 2.0 * tradeCost
    ensures !(100.0 - 5.0 > 98.0) && 100.0 - 5.0 < 98.0
    ensures ShortfallAsWritten(100.0, 5.0, 98.0) == -7.0 && Shortfall(100.0, 5.0, 98.0) == 3.0
  {
  }

  /** A correction recording `cash` as injected: add it and the step,
      turn the impossible entry into a cash-injection entry, reset the
      portfolio at `price` and count a trade. */
  function CorrectWith(e: Exec, nBudget: nat, price: real, t: int, cash: real): (r: Exec)
    requires e.c.impInd != []
  {
    var c := e.c.(extraCash := e.c.extraCash + cash,
                  xtrInd := e.c.xtrInd + [t], impInd := e.c.impInd[..|e.c.impInd| - 1]);
    Exec(ResetPortfolio(nBudget, price), c.(nTrades := c.nTrades + 1, nHolds := 0), 0.0, e.change, e.impossible)
  }

  /** The correction as `handle_action` performs it, recording
      `ShortfallAsWritten`. */
  function Correct(e: Exec, nBudget: nat, tradeCost: real, price: real, t: int): (r: Exec)
    requires e.c.impInd != []
  {
    CorrectWith(e, nBudget, price, t, ShortfallAsWritten(e.p.balance, tradeCost, price))
  }

  /** The correction as evidently intended, recording the `Shortfall`. */
  function CorrectIntended(e: Exec, nBudget: nat, tradeCost: real, price: real, t: int): (r: Exec)
    requires e.c.impInd != []
  {
    CorrectWith(e, nBudget, price, t, Shortfall(e.p.balance, tradeCost, price))
  }

  /** The intended correction always injects a positive amount, the cash
      that brings balance - cost up to the price, and otherwise does what
      the written one does. */
  lemma {:induction false} IntendedCorrectionAddsCash(e: Exec, nBudget: nat, tradeCost: real, price: real,
                                                      argmax: int, training: bool, t: int)
    requires e.c.impInd != [] && NeedsCorrection(e, tradeCost, price, argmax, training)
    ensures var r := CorrectIntended(e, nBudget, tradeCost, price, t);
            && r.c.extraCash > e.c.extraCash
            && e.p.balance + (r.c.extraCash - e.c.extraCash) - tradeCost == price
            && r.p == Correct(e, nBudget, tradeCost, price, t).p
            && r.c == Correct(e, nBudget, tradeCost, price, t).c.(extraCash := r.c.extraCash)
  {
  }

  /** Count a positive profit, apply the balance change and mark the held
      units at `price`. */
  function Settle(e: Exec, price: real): (o: Outcome)
  {
    var c := if e.profit > 0.0 then e.c.(nPosiProfits := e.c.nPosiProfits + 1) else e.c;
    var p := e.p.(balance := e.p.balance + e.change);
    Outcome(p.(inventoryValue := |p.inventory| as real * price), c, e.profit, e.impossible)
  }

  /** `handle_action` up to its termination check. */
  function Handle(p: Portfolio, c: Tally, nBudget: nat, tradeCost: real, action: int, price: real,
                  t: int, actionProb: seq<real>, training: bool): (o: Outcome)
    requires CanPop(p, tradeCost, action, price) && |actionProb| > 0
    ensures o.tally.nPosiProfits == c.nPosiProfits + (if o.profit > 0.0 then 1 else 0)
    ensures o.portfolio.inventoryValue == |o.portfolio.inventory| as real * price
  {
    var e := Execute(p, c, tradeCost, action, price, t);
    var e' := if NeedsCorrection(e, tradeCost, price, ArgMax(actionProb), training)
              then Correct(e, nBudget, tradeCost, price, t) else e;
    Settle(e', price)
  }

  /** The portfolio invariant survives every step: a unit is either held or
      recorded as sold. */
  lemma {:induction false} HandlePreservesUnits(p: Portfolio, c: Tally, nBudget: nat, tradeCost: real, action: int,
                                                price: real, t: int, actionProb: seq<real>, training: bool)
    requires Consistent(p, nBudget) && |actionProb| > 0
    ensures CanPop(p, tradeCost, action, price)
    ensures Consistent(Handle(p, c, nBudget, tradeCost, action, price, t, actionProb, training).portfolio, nBudget)
  {
    if p.inventory == [] {
      ConsistentFlatHasSale(p, nBudget);
    }
  }

  /** A legal BUY: the oldest sale record becomes a holding bought at
      `price`, with profit sold - price - cost and cash down by price +
      cost; one trade, holds reset. */
  lemma {:induction false} LegalBuyEffect(p: Portfolio, c: Tally, nBudget: nat, tradeCost: real,
                                          price: real, t: int, actionProb: seq<real>, training: bool)
    requires LegalBuy(p, tradeCost, price) && p.inventoryConj != [] && |actionProb| > 0
    ensures var o := Handle(p, c, nBudget, tradeCost, 1, price, t, actionProb, training);
            && o.portfolio.inventory == p.inventory + [price] && o.portfolio.inventoryConj == p.inventoryConj[1..]
            && o.profit == p.inventoryConj[0] - price - tradeCost
            && o.portfolio.balance == p.balance - price - tradeCost
            && !o.impossible && o.tally.nTrades == c.nTrades + 1 && o.tally.nHolds == 0
            && o.tally.buyInd == c.buyInd + [t] && o.tally.nImpossible == c.nImpossible
  {
  }

  /** A legal SELL: the oldest holding is closed at `price`, with profit
      price - bought - cost and cash up by price - cost; one trade, holds
      reset. */
  lemma {:induction false} LegalSellEffect(p: Portfolio, c: Tally, nBudget: nat, tradeCost: real,
                                           price: real, t: int, actionProb: seq<real>, training: bool)
    requires LegalSell(p) && |actionProb| > 0
    ensures var o := Handle(p, c, nBudget, tradeCost, 2, price, t, actionProb, training);
            && o.portfolio.inventory == p.inventory[1..] && o.portfolio.inventoryConj == p.inventoryConj + [price]
            && o.profit == price - p.inventory[0] - tradeCost
            && o.portfolio.balance == p.balance + price - tradeCost
            && !o.impossible && o.tally.nTrades == c.nTrades + 1 && o.tally.nHolds == 0
            && o.tally.sellInd == c.sellInd + [t] && o.tally.nImpossible == c.nImpossible
  {
  }

  /** A HOLD, or a refused trade that is not corrected, leaves cash and
      positions alone with no profit and counts one more hold; a refused
      trade is impossible and counted once as such. */
  lemma {:induction false} HoldOrRefusedEffect(p: Portfolio, c: Tally, nBudget: nat, tradeCost: real, action: int,
                                               price: real, t: int, actionProb: seq<real>, training: bool)
    requires CanPop(p, tradeCost, action, price) && |actionProb| > 0
    requires action == 0 || (action == 1 && !LegalBuy(p, tradeCost, price)) || (action == 2 && !LegalSell(p))
    requires !NeedsCorrection(Execute(p, c, tradeCost, action, price, t), tradeCost, price, ArgMax(actionProb), training)
    ensures var o := Handle(p, c, nBudget, tradeCost, action, price, t, actionProb, training);
            && o.portfolio.balance == p.balance && o.portfolio.inventory == p.inventory
            && o.portfolio.inventoryConj == p.inventoryConj && o.profit == 0.0
            && o.tally.nHolds == c.nHolds + 1 && o.tally.nTrades == c.nTrades
            && (o.impossible <==> action != 0)
            && o.tally.nImpossible == c.nImpossible + (if action == 0 then 0 else 1)
            && o.tally.nPosiProfits == c.nPosiProfits
  {
  }

  /** The correction happens only in validation, and leaves a fresh
      portfolio at `price`, price - balance - cost recorded as injected
      cash, the step moved from the impossible list to the cash-injection
      list and one more trade counted. */
  lemma {:induction false} CorrectionEffect(p: Portfolio, c: Tally, nBudget: nat, tradeCost: real, action: int,
                                            price: real, t: int, actionProb: seq<real>, training: bool)
    requires CanPop(p, tradeCost, action, price) && |actionProb| > 0
    requires NeedsCorrection(Execute(p, c, tradeCost, action, price, t), tradeCost, price, ArgMax(actionProb), training)
    ensures !training && action in {1, 2}
    ensures var o := Handle(p, c, nBudget, tradeCost, action, price, t, actionProb, training);
            && o.portfolio == ResetPortfolio(nBudget, price).(inventoryValue := nBudget as real * price)
            && o.tally.extraCash == c.extraCash + ShortfallAsWritten(p.balance, tradeCost, price)
            && o.tally.impInd == c.impInd && o.tally.xtrInd == c.xtrInd + [t]
            && o.tally.nTrades == c.nTrades + 1 && o.tally.nHolds == 0 && o.profit == 0.0
            && o.impossible && o.tally.nImpossible == c.nImpossible + 1
  {
    var e := Execute(p, c, tradeCost, action, price, t);
    assert e.p == p && e.c.impInd[..|e.c.impInd| - 1] == c.impInd;
    var o := Settle(Correct(e, nBudget, tradeCost, price, t), price);
    assert o == Handle(p, c, nBudget, tradeCost, action, price, t, actionProb, training);
    assert o.portfolio == ResetPortfolio(nBudget, price).(inventoryValue := nBudget as real * price);
  }

  /** The written correction can record negative injected cash: flat with
      a balance of 100, a cost of 5 and a price of 98, a preferred BUY is
      refused and corrected in validation, and the injected cash falls by 7
      where 3 was missing. */
  lemma {:induction false} CorrectionRecordsNegativeCash(c: Tally, nBudget: nat, soldPrice: real, t: int)
    requires nBudget > 0
    ensures var p := Portfolio(100.0, [], Repeat(soldPrice, nBudget), 0.0, 100.0, Repeat(0.0, 10), false);
            var o := Handle(p, c, nBudget, 5.0, 1, 98.0, t, [0.2, 0.8], false);
            && o.impossible && o.tally.xtrInd == c.xtrInd + [t]
            && o.tally.extraCash == c.extraCash - 7.0
            && Shortfall(100.0, 5.0, 98.0) == 3.0
  {
    var p := Portfolio(100.0, [], Repeat(soldPrice, nBudget), 0.0, 100.0, Repeat(0.0, 10), false);
    var probs: seq<real> := [0.2, 0.8];
    assert ArgMax(probs) == 1;
    var e := Execute(p, c, 5.0, 1, 98.0, t);
    assert e.impossible && e.p == p;
    assert NeedsCorrection(e, 5.0, 98.0, ArgMax(probs), false);
  }

  /** With a single unit the portfolio is either flat with one sale record
      or holding one unit with none. */
  lemma {:induction false} SingleUnitPositions(p: Portfolio)
    requires Consistent(p, 1)
    ensures (p.inventory == [] && |p.inventoryConj| == 1) || (|p.inventory| == 1 && p.inventoryConj == [])
  {
  }

  /** `break_deadlock`: when switched on and the policy chose HOLD, draw
      HOLD, BUY or SELL (`draw`) and keep the drawn trade only if it is
      legal. */
  function BreakDeadlock(p: Portfolio, action: int, on: bool, draw: int, price: real, tradeCost: real): (a: int)
    requires draw in {0, 1, 2}
    ensures !(on && action == 0) ==> a == action
    ensures on && action == 0 ==> a in {0, draw}
    ensures on && action == 0 && a == 1 ==> LegalBuy(p, tradeCost, price)
    ensures on && action == 0 && a == 2 ==> LegalSell(p)
    ensures on && action == 0 && draw == 1 && LegalBuy(p, tradeCost, price) ==> a == 1
    ensures on && action == 0 && draw == 2 && LegalSell(p) ==> a == 2
  {
    if on && action == 0 then
      if draw == 1 then
        (if |p.inventory| == 0 && p.balance - tradeCost > price then 1 else 0)
      else if draw == 2 then
        (if |p.inventory| > 0 then 2 else 0)
      else draw
    else action
  }

  /** A replaced HOLD is never refused by `handle_action` at the same price
      and cost. */
  lemma {:induction false} DeadlockTradeIsLegal(p: Portfolio, c: Tally, nBudget: nat, draw: int, price: real,
                                                tradeCost: real, t: int, actionProb: seq<real>, training: bool)
    requires draw in {0, 1, 2} && Consistent(p, nBudget) && |actionProb| > 0
    ensures var a := BreakDeadlock(p, 0, true, draw, price, tradeCost);
            CanPop(p, tradeCost, a, price) &&
            !Handle(p, c, nBudget, tradeCost, a, price, t, actionProb, training).impossible
  {
    if p.inventory == [] {
      ConsistentFlatHasSale(p, nBudget);
    }
  }

  /** The action branch of `handle_action` on the agent and statistics
      objects. */
  method ExecuteAction(agent: Agent, stats: Statistics, action: int, price: real, t: nat)
    returns (profit: real, change: real, impossible: bool)
    requires CanPop(agent.View(), agent.tradeCost, action, price)
    modifies agent`inventory, agent`inventoryConj, stats`tally
    ensures var e := Execute(old(agent.View()), old(stats.tally), agent.tradeCost, action, price, t);
            agent.View() == e.p && stats.tally == e.c &&
            profit == e.profit && change == e.change && impossible == e.impossible
  {
    profit := 0.0;
    change := 0.0;
    impossible := false;
    if action == 0 {
      stats.tally := stats.tally.(nHolds := stats.tally.nHolds + 1);
    } else if action == 1 {
      stats.tally := stats.tally.(n1or2 := stats.tally.n1or2 + 1);
      if agent.balance - agent.tradeCost > price && agent.inventory == [] {
        agent.inventory := agent.inventory + [price];
        var soldPrice := agent.inventoryConj[0];
        agent.inventoryConj := agent.inventoryConj[1..];
        profit := soldPrice - price - agent.tradeCost;
        change := -price - agent.tradeCost;
        stats.tally := stats.tally.(buyInd := stats.tally.buyInd + [t]);
        stats.tally := stats.tally.(nTrades := stats.tally.nTrades + 1);
        stats.tally := stats.tally.(nHolds := 0);
      } else {
        impossible := true;
        stats.tally := stats.tally.(nImpossible := stats.tally.nImpossible + 1);
        stats.tally := stats.tally.(impInd := stats.tally.impInd + [t]);
        stats.tally := stats.tally.(nHolds := stats.tally.nHolds + 1);
      }
    } else if action == 2 {
      stats.tally := stats.tally.(n1or2 := stats.tally.n1or2 + 1);
      if agent.inventory != [] {
        var boughtPrice := agent.inventory[0];
        agent.inventory := agent.inventory[1..];
        agent.inventoryConj := agent.inventoryConj + [price];
        profit := price - boughtPrice - agent.tradeCost;
        change := price - agent.tradeCost;
        stats.tally := stats.tally.(sellInd := stats.tally.sellInd + [t]);
        stats.tally := stats.tally.(nTrades := stats.tally.nTrades + 1);
        stats.tally := stats.tally.(nHolds := 0);
      } else {
        impossible := true;
        stats.tally := stats.tally.(nImpossible := stats.tally.nImpossible + 1);
        stats.tally := stats.tally.(impInd := stats.tally.impInd + [t]);
        stats.tally := stats.tally.(nHolds := stats.tally.nHolds + 1);
      }
    }
  }

  /** The validation cash correction of `handle_action`, applied when
      `NeedsCorrection` holds. */
  method CorrectForValidation(agent: Agent, stats: Statistics, price: real, t: nat)
    requires stats.tally.impInd != []
    modifies agent`balance, agent`inventory, agent`inventoryConj, agent`inventoryValue
    modifies agent`budget, agent`rUtil, agent`overrideReward, stats`tally
    ensures var e := Correct(Exec(old(agent.View()), old(stats.tally), 0.0, 0.0, true),
                             agent.nBudget, agent.tradeCost, price, t);
            agent.View() == e.p && stats.tally == e.c
  {
    stats.tally := stats.tally.(extraCash := stats.tally.extraCash + ShortfallAsWritten(agent.balance, agent.tradeCost, price));
    stats.tally := stats.tally.(xtrInd := stats.tally.xtrInd + [t]);
    stats.tally := stats.tally.(impInd := stats.tally.impInd[..|stats.tally.impInd| - 1]);
    agent.Reset(price);
    stats.tally := stats.tally.(nTrades := stats.tally.nTrades + 1);
    stats.tally := stats.tally.(nHolds := 0);
  }

  /** The tail of `handle_action` before its termination check: count a
      positive profit, apply the balance change and mark the held units. */
  method SettleStep(agent: Agent, stats: Statistics, profit: real, change: real, impossible: bool, price: real)
    modifies agent`balance, agent`inventoryValue, stats`tally
    ensures var o := Settle(Exec(old(agent.View()), old(stats.tally), profit, change, impossible), price);
            agent.View() == o.portfolio && stats.tally == o.tally
  {
    if profit > 0.0 {
      stats.tally := stats.tally.(nPosiProfits := stats.tally.nPosiProfits + 1);
    }
    agent.UpdateBalance(change);
    agent.UpdateInventory(price);
  }

  /** `handle_action(agent, stats, action, data, t, [use_terminate,
      terminate_on], [action_prob], training)` on the agent and statistics
      objects. The termination check runs only when both the check and
      training are on, over the prices after t. */
  method HandleAction(agent: Agent, stats: Statistics, action: int, data: seq<real>, t: nat,
                      useTerminateFunc: bool, terminateFuncOn: bool, actionProb: seq<real>, training: bool)
    returns (actionOut: int, profit: real, impossible: bool, terminate: bool, termMsg: string)
    requires t < |data| && |actionProb| > 0
    requires CanPop(agent.View(), agent.tradeCost, action, data[t])
    requires useTerminateFunc && training ==> t + 1 < |data|
    modifies agent`balance, agent`inventory, agent`inventoryConj, agent`inventoryValue
    modifies agent`budget, agent`rUtil, agent`overrideReward, stats`tally
    ensures actionOut == action
    ensures var o := Handle(old(agent.View()), old(stats.tally), agent.nBudget, agent.tradeCost,
                            action, data[t], t, actionProb, training);
            && profit == o.profit && impossible == o.impossible && stats.tally == o.tally
            && (useTerminateFunc && training ==>
                  (terminate, termMsg) == Threshold(terminateFuncOn, o.tally.nImpossible, agent.isTerminalThreshold,
                                                    o.portfolio, agent.tradeCost, MinOf(data[t + 1..]))
                  && agent.View() == AfterThreshold(o.portfolio, terminateFuncOn, terminate))
            && (!(useTerminateFunc && training) ==>
                  !terminate && termMsg == "" && agent.View() == o.portfolio)
  {
    var price := data[t];
    var actionArgmax := ArgMax(actionProb);
    var change;
    profit, change, impossible := ExecuteAction(agent, stats, action, price, t);
    ghost var e := Execute(old(agent.View()), old(stats.tally), agent.tradeCost, action, price, t);

    if !training && agent.balance - agent.tradeCost < price && agent.inventory == [] && actionArgmax == 1 && impossible {
      CorrectForValidation(agent, stats, price, t);
      profit := 0.0;
    }
    ghost var e' := if NeedsCorrection(e, agent.tradeCost, price, actionArgmax, training)
                    then Correct(e, agent.nBudget, agent.tradeCost, price, t) else e;
    assert agent.View() == e'.p && stats.tally == e'.c && profit == e'.profit && change == e'.change;

    SettleStep(agent, stats, profit, change, impossible, price);

    if useTerminateFunc && training {
      terminate, termMsg := agent.CheckThreshold(stats.tally.nImpossible, MinOf(data[t + 1..]), terminateFuncOn);
    } else {
      terminate := false;
      termMsg := "";
    }
    actionOut := action;
  }
}
