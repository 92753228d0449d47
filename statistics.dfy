/** The per-episode statistics container: trade counters, index lists and
    the per-step series recorded for plotting. */
module Stats {
  import opened Common
  import opened Portfolio
  import opened AgentModel

  /** The counters and index lists `handle_action` updates. */
  datatype Tally = Tally(nTrades: int, nPosiProfits: int, nImpossible: int, nHolds: int,
                         n1or2: int, extraCash: real, buyInd: seq<int>, sellInd: seq<int>,
                         xtrInd: seq<int>, impInd: seq<int>)

  /** The counters as `reset_episode` leaves them; `n_1or2` starts at 1 so
      that it can divide. */
  function FreshTally(): (c: Tally)
    ensures c.nTrades == 0 && c.nPosiProfits == 0 && c.nImpossible == 0 && c.nHolds == 0
    ensures c.n1or2 == 1 && c.n1or2 != 0 && c.extraCash == 0.0
    ensures c.buyInd == [] && c.sellInd == [] && c.xtrInd == [] && c.impInd == []
  {
    Tally(0, 0, 0, 0, 1, 0.0, [], [], [], [])
  }

  /** The growth recorded by `collect_iteration`: portfolio value over the
      budget, less twice the injected cash and the actual cost of every
      trade. */
  function Growth(p: Portfolio, budget: real, extraCash: real, tradeCostActual: real, nTrades: int): real
  {
    p.balance + p.inventoryValue - budget - 2.0 * extraCash - tradeCostActual * nTrades as real
  }

  /** At the start of an episode (a fresh portfolio whose value is the
      budget, no injected cash, no trades) the growth is zero; every trade
      then costs its actual cost. */
  lemma {:induction false} GrowthAtStart(nBudget: nat, startPrice: real, tradeCostActual: real, nTrades: int)
    ensures Growth(ResetPortfolio(nBudget, startPrice), nBudget as real * startPrice, 0.0, tradeCostActual, 0) == 0.0
    ensures Growth(ResetPortfolio(nBudget, startPrice), nBudget as real * startPrice, 0.0, tradeCostActual, nTrades)
              == -tradeCostActual * nTrades as real
  {
    var p := ResetPortfolio(nBudget, startPrice);
    assert p.inventoryValue == nBudget as real * startPrice;
  }

  /** `np.pad(s, (0, n), constant_values=x)`. */
  function PadWith<T>(s: seq<T>, n: nat, x: T): (r: seq<T>)
    ensures |r| == |s| + n
    ensures r[..|s|] == s
    ensures forall i :: |s| <= i < |r| ==> r[i] == x
  {
    s + Repeat(x, n)
  }

  /** Carrying the last value forward fills a series of t + 1 entries out
      to the series length l, ending on the value held at step t. */
  lemma {:induction false} CarryForwardFills(s: seq<real>, l: int, t: nat)
    requires |s| == t + 1 && l - t - 1 >= 0
    ensures |PadWith(s, l - t - 1, s[|s| - 1])| == l
    ensures PadWith(s, l - t - 1, s[|s| - 1])[l - 1] == s[t]
  {
    var r := PadWith(s, l - t - 1, s[|s| - 1]);
    if l - 1 == t {
      assert r[l - 1] == r[..|s|][t];
    }
  }

  class Statistics {
    const training: bool
    var budget: real
    var growthBuyhold: seq<real>

    var totalReward: real
    /** `n_trades`, `n_posiProfits`, `n_impossible`, `n_holds`, `n_1or2`,
        `extraCash` and the four index lists. */
    var tally: Tally

    var profits: seq<real>
    var balances: seq<real>
    var rewards: seq<real>
    var inventories: seq<real>
    var actorLocalLosses: seq<real>
    var growth: seq<real>
    var compete: seq<real>
    var tradesList: seq<int>
    var actions: seq<int>

    /** The six series `pad_on_terminate` extends have one entry per step. */
    ghost predicate Aligned()
      reads this
    {
      |inventories| == |balances| && |profits| == |balances| && |rewards| == |balances| &&
      |actorLocalLosses| == |balances| && |actions| == |balances|
    }

    /** `growth` and `compete` have one entry per step as well. */
    ghost predicate GrowthAligned()
      reads this
    {
      |growth| == |balances| && |compete| == |balances|
    }

    /** `__init__` followed by `reset_all(budget, growth_buyhold)`. */
    constructor (training: bool, budget: real, growthBuyhold: seq<real>)
      ensures this.training == training && this.budget == budget && this.growthBuyhold == growthBuyhold
      ensures tally == FreshTally() && totalReward == 0.0
      ensures balances == [] && Aligned() && GrowthAligned()
    {
      this.training := training;
      this.budget := budget;
      this.growthBuyhold := growthBuyhold;
      totalReward := 0.0;
      tally := FreshTally();
      profits, balances, rewards, inventories, actorLocalLosses := [], [], [], [], [];
      growth, compete, tradesList, actions := [], [], [], [];
    }

    /** `reset_episode`: zero every counter (`n_1or2` to 1) and empty every
        list. */
    method ResetEpisode()
      modifies this`totalReward, this`tally, this`profits, this`balances, this`rewards
      modifies this`inventories, this`actorLocalLosses, this`growth, this`compete
      modifies this`tradesList, this`actions
      ensures tally == FreshTally() && totalReward == 0.0
      ensures profits == [] && balances == [] && rewards == [] && inventories == []
      ensures actorLocalLosses == [] && growth == [] && compete == [] && tradesList == [] && actions == []
      ensures Aligned() && GrowthAligned()
    {
      totalReward := 0.0;
      tally := FreshTally();
      profits, balances, rewards, inventories, actorLocalLosses := [], [], [], [], [];
      growth, compete, tradesList, actions := [], [], [], [];
    }

    /** `collect_iteration(agent, [profit, reward, loss, action, t])`: one
        entry per series, with the growth measured against this container's
        budget and compared with the buy-and-hold growth at t. */
    method CollectIteration(agent: AgentModel.Agent, profit: real, reward: real, actorLocalLoss: real,
                            action: int, t: nat)
      requires t < |growthBuyhold|
      modifies this`balances, this`inventories, this`profits, this`rewards, this`actorLocalLosses
      modifies this`actions, this`growth, this`compete
      ensures balances == old(balances) + [agent.balance]
      ensures inventories == old(inventories) + [agent.inventoryValue]
      ensures profits == old(profits) + [profit] && rewards == old(rewards) + [reward]
      ensures actorLocalLosses == old(actorLocalLosses) + [actorLocalLoss]
      ensures actions == old(actions) + [action]
      ensures growth == old(growth) + [Growth(agent.View(), budget, tally.extraCash, agent.tradeCostActual, tally.nTrades)]
      ensures compete == old(compete) + [growth[|growth| - 1] - growthBuyhold[t]]
      ensures old(Aligned()) ==> Aligned()
      ensures old(GrowthAligned()) ==> GrowthAligned()
    {
      balances := balances + [agent.balance];
      inventories := inventories + [agent.inventoryValue];
      profits := profits + [profit];
      rewards := rewards + [reward];
      actorLocalLosses := actorLocalLosses + [actorLocalLoss];
      actions := actions + [action];
      var g := Growth(agent.View(), budget, tally.extraCash, agent.tradeCostActual, tally.nTrades);
      growth := growth + [g];
      compete := compete + [g - growthBuyhold[t]];
    }

    /** `pad_on_terminate([l, t])`: extend balances, inventory values and
        losses with their last entry, profits and rewards with zeros and
        actions with -1, each by l - t - 1 entries; growth and compete are
        not padded. */
    method PadOnTerminate(l: int, t: int)
      requires balances != [] && inventories != [] && actorLocalLosses != []
      requires l - t - 1 >= 0
      modifies this`balances, this`inventories, this`profits, this`rewards, this`actorLocalLosses
      modifies this`actions
      ensures balances == PadWith(old(balances), l - t - 1, old(balances)[|old(balances)| - 1])
      ensures inventories == PadWith(old(inventories), l - t - 1, old(inventories)[|old(inventories)| - 1])
      ensures actorLocalLosses ==
                PadWith(old(actorLocalLosses), l - t - 1, old(actorLocalLosses)[|old(actorLocalLosses)| - 1])
      ensures profits == PadWith(old(profits), l - t - 1, 0.0)
      ensures rewards == PadWith(old(rewards), l - t - 1, 0.0)
      ensures actions == PadWith(old(actions), l - t - 1, -1)
      ensures old(Aligned()) ==> Aligned()
      ensures old(Aligned()) && old(|balances|) == t + 1 ==> |balances| == l
    {
      var n := l - t - 1;
      balances := PadWith(balances, n, balances[|balances| - 1]);
      inventories := PadWith(inventories, n, inventories[|inventories| - 1]);
      profits := PadWith(profits, n, 0.0);
      rewards := PadWith(rewards, n, 0.0);
      actorLocalLosses := PadWith(actorLocalLosses, n, actorLocalLosses[|actorLocalLosses| - 1]);
      actions := PadWith(actions, n, -1);
    }
  }
}
