/** The DDPG trading agent: its configuration, the portfolio attributes it
    updates in place, the selected reward variant, its replay memory and the
    weights of its four networks. */
module AgentModel {
  import opened Common
  import opened Replay
  import opened Portfolio
  import opened RewardEngine
  import opened Learning

  /** The attributes the constructor copies from its parameter dictionaries. */
  datatype AgentConfig = AgentConfig(nBudget: nat, tradeCost: real, tradeCostActual: real,
                                     isTerminalThreshold: int, gamma: real, tau: real,
                                     batchSize: nat, bufferSize: nat, stateTsSize: nat,
                                     stateUtSize: nat, maskInput: bool, rewardType: int,
                                     params: RewardParams)

  /** The number of actor outputs: HOLD and "trade". */
  const ActionSize: nat := 2

  /** Every actor output row has one probability per action. */
  ghost predicate ActorOutputsPairs(nets: Networks)
  {
    forall w, s, i :: 0 <= i < |nets.actorPredict(w, s)| ==> |nets.actorPredict(w, s)[i]| == ActionSize
  }

  /** Replay memory's gate: learning runs once more transitions have been
      added than a batch holds, and then there is always a slot to draw. */
  lemma {:induction false} LearningGateAllowsSampling(memorySize: nat, counter: nat, batchSize: nat)
    requires memorySize > 0 && batchSize < counter
    ensures Min(memorySize, counter) > 0
  {
  }

  class Agent {
    const nBudget: nat
    const tradeCost: real
    const tradeCostActual: real
    const isTerminalThreshold: int
    const gamma: real
    const tau: real
    const batchSize: nat
    const stateSize: nat
    const params: RewardParams
    const maskInput: bool
    const isEval: bool
    const memory: ReplayBuffer

    var balance: real
    var inventory: seq<real>
    var inventoryConj: seq<real>
    var inventoryValue: real
    var budget: real
    var rUtil: seq<real>
    var overrideReward: bool

    var rewardType: int
    var rewardKind: RewardKind

    var lastState: seq<real>
    var actorLocalLoss: real
    var weights: Weights

    /** The portfolio attributes as one value. */
    function View(): Portfolio
      reads this
    {
      Portfolio(balance, inventory, inventoryConj, inventoryValue, budget, rUtil, overrideReward)
    }

    ghost predicate Valid()
      reads this, memory, memory.Repr()
    {
      && memory.Valid()
      && memory.stateSize == stateSize && memory.actionSize == ActionSize
      && memory.batchSize == batchSize
      && Paired(weights)
    }

    /** `__init__`: copy the configuration, reset the portfolio, select the
        reward variant (an id outside 0..7 makes this fail), create an empty
        replay memory and start each target network as a copy of its local
        network. */
    constructor (config: AgentConfig, startPrice: real, isEval: bool,
                 actorWeights: seq<real>, criticWeights: seq<real>)
      requires config.bufferSize > 0 && KindOf(config.rewardType).Some?
      ensures Valid() && fresh(memory) && fresh(memory.Repr())
      ensures View() == ResetPortfolio(config.nBudget, startPrice)
      ensures rewardType == config.rewardType && rewardKind == KindOf(config.rewardType).value
      ensures weights == Weights(actorWeights, actorWeights, criticWeights, criticWeights)
      ensures actorLocalLoss == 1.0 && this.isEval == isEval
      ensures memory.history == [] && memory.memorySize == config.bufferSize
      ensures nBudget == config.nBudget && tradeCost == config.tradeCost && params == config.params
      ensures tradeCostActual == config.tradeCostActual && maskInput == config.maskInput
      ensures isTerminalThreshold == config.isTerminalThreshold && batchSize == config.batchSize
      ensures gamma == config.gamma && tau == config.tau
      ensures stateSize == config.stateTsSize + config.stateUtSize
    {
      nBudget := config.nBudget;
      tradeCost := config.tradeCost;
      tradeCostActual := config.tradeCostActual;
      maskInput := config.maskInput;
      isTerminalThreshold := config.isTerminalThreshold;
      gamma := config.gamma;
      tau := config.tau;
      batchSize := config.batchSize;
      stateSize := config.stateTsSize + config.stateUtSize;
      params := config.params;
      this.isEval := isEval;
      rewardType := config.rewardType;
      actorLocalLoss := 1.0;
      var p := ResetPortfolio(config.nBudget, startPrice);
      balance, inventory, inventoryConj := p.balance, p.inventory, p.inventoryConj;
      inventoryValue, budget, rUtil, overrideReward := p.inventoryValue, p.budget, p.rUtil, p.overrideReward;
      rewardKind := KindOf(config.rewardType).value;
      lastState := [];
      memory := new ReplayBuffer(config.stateTsSize + config.stateUtSize, ActionSize,
                                 config.bufferSize, config.batchSize);
      weights := Weights(actorWeights, actorWeights, criticWeights, criticWeights);
    }

    /** `reset(start_price)`. */
    method Reset(startPrice: real)
      modifies this`balance, this`inventory, this`inventoryConj, this`inventoryValue
      modifies this`budget, this`rUtil, this`overrideReward
      ensures View() == ResetPortfolio(nBudget, startPrice)
    {
      var p := ResetPortfolio(nBudget, startPrice);
      balance, inventory, inventoryConj := p.balance, p.inventory, p.inventoryConj;
      inventoryValue, budget, rUtil, overrideReward := p.inventoryValue, p.budget, p.rUtil, p.overrideReward;
    }

    /** `update_balance(change)`. */
    method UpdateBalance(change: real)
      modifies this`balance
      ensures balance == old(balance) + change
    {
      balance := balance + change;
    }

    /** `update_inventory(cur_price)`: the held units marked at the price;
        the stored purchase prices are left alone. */
    method UpdateInventory(curPrice: real)
      modifies this`inventoryValue
      ensures inventoryValue == |inventory| as real * curPrice
    {
      inventoryValue := |inventory| as real * curPrice;
    }

    /** `validation_extraCash(extraCash)`. */
    method ValidationExtraCash(extraCash: real)
      modifies this`balance, this`budget
      ensures View() == WithExtraCash(old(View()), extraCash)
    {
      balance := extraCash;
      budget := budget + extraCash;
    }

    /** `check_threshold([n_impossible, min_future_price], on)`. */
    method CheckThreshold(nImpossible: int, minFuturePrice: real, on: bool)
      returns (isTerminal: bool, message: string)
      modifies this`overrideReward
      ensures (isTerminal, message) ==
                Threshold(on, nImpossible, isTerminalThreshold, old(View()), tradeCost, minFuturePrice)
      ensures View() == AfterThreshold(old(View()), on, isTerminal)
    {
      isTerminal := false;
      message := "n/a";
      if on {
        if nImpossible >= isTerminalThreshold {
          isTerminal := true;
          message := "too many impossibles";
        } else if inventory == [] && balance - tradeCost < minFuturePrice {
          isTerminal := true;
          message := "too low balance for rest of trial";
        } else {
          overrideReward := false;
        }
      }
    }

    /** `set_rewardtype(id)`: the reward scratch vector is cleared first; an
        id in 0..7 then selects its variant, any other id fails (`ok` is
        false) with the variant unchanged. The configured `rewardType` is
        not touched here. */
    method SetRewardType(id: int) returns (ok: bool)
      modifies this`rUtil, this`rewardKind
      ensures rUtil == Repeat(0.0, 10)
      ensures ok <==> 0 <= id <= 7
      ensures ok ==> rewardKind == KindOf(id).value && KindId(rewardKind) == id
      ensures !ok ==> rewardKind == old(rewardKind)
    {
      rUtil := Repeat(0.0, 10);
      var k := KindOf(id);
      ok := k.Some?;
      if ok {
        rewardKind := k.value;
        KindIdRoundTrip(id, k.value);
      }
    }

    /** `switch_rewardType(switch, switch_episode, episode)`: only in the
        switch episode, select the new variant and record its id. */
    method SwitchRewardType(switch: int, switchEpisode: int, episode: int) returns (ok: bool)
      modifies this`rUtil, this`rewardKind, this`rewardType
      ensures episode != switchEpisode ==>
                ok && rUtil == old(rUtil) && rewardKind == old(rewardKind) && rewardType == old(rewardType)
      ensures episode == switchEpisode ==> (ok <==> 0 <= switch <= 7)
      ensures episode == switchEpisode && ok ==>
                rewardType == switch && rewardKind == KindOf(switch).value && rUtil == Repeat(0.0, 10)
    {
      ok := true;
      if episode == switchEpisode {
        ok := SetRewardType(switch);
        if ok {
          rewardType := switch;
        }
      }
    }

    /** `get_reward`: the variant selected by the last successful
        `SetRewardType`, on the current portfolio. Type 0 clamps the
        profit, type 1 passes it on, type 3 pays nothing before the last
        step and type 7 gives -100 on termination and at least -50
        otherwise. */
    function GetReward(profit: real, ctx: RewardContext, last: bool, num: Numerics): (r: real)
      reads this
      requires Computable(rewardKind, ctx)
      ensures r == Reward(rewardKind, View(), nBudget, profit, ctx, last, params, num)
      ensures KindId(rewardKind) == 0 ==> r == MaxReal(profit, 0.0)
      ensures KindId(rewardKind) == 1 ==> r == profit
      ensures KindId(rewardKind) == 3 && !last ==> r == 0.0
      ensures KindId(rewardKind) == 7 && ctx.terminate ==> r == -100.0
      ensures KindId(rewardKind) == 7 && !ctx.terminate ==> r >= -50.0
    {
      Reward(rewardKind, View(), nBudget, profit, ctx, last, params, num)
    }

    /** `take_action(state, use_local)`: query the local or target actor,
        remember the state, pick the logit (arg-max when evaluating, the
        categorical draw `draw` otherwise) and map it to HOLD, BUY or SELL
        by the current position. */
    method TakeAction(state: seq<real>, useLocal: bool, nets: Networks, draw: nat)
      returns (action: int, actionsProb: seq<real>)
      requires PreservesShapes(nets) && ActorOutputsPairs(nets)
      requires !isEval ==> draw < ActionSize
      modifies this`lastState
      ensures lastState == state
      ensures actionsProb ==
                nets.actorPredict(if useLocal then weights.actorLocal else weights.actorTarget, [state])[0]
      ensures |actionsProb| == ActionSize
      ensures action == MapAction(ChooseRaw(isEval, actionsProb, draw), View())
      ensures action in {0, 1, 2}
      ensures action == 2 ==> LegalSell(View())
    {
      var w := if useLocal then weights.actorLocal else weights.actorTarget;
      var probs := nets.actorPredict(w, [state]);
      actionsProb := probs[0];
      lastState := state;
      var raw := ChooseRaw(isEval, actionsProb, draw);
      action := MapAction(raw, View());
      MappedActionRespectsPosition(raw, View(), tradeCost, 0.0);
    }

    /** `learn_replayed(transitions)`. */
    method LearnReplayed(b: Batch, nets: Networks)
      requires Paired(weights) && WellFormedBatch(b) && PreservesShapes(nets)
      modifies this`weights, this`actorLocalLoss
      ensures (weights, actorLocalLoss) == Learn(old(weights), b, gamma, tau, nets)
      ensures Paired(weights)
    {
      var r := Learn(weights, b, gamma, tau, nets);
      weights := r.0;
      actorLocalLoss := r.1;
    }

    /** `take_step(action, reward, next_state, done)`: store the transition
        from the remembered state (the action is broadcast over the action
        columns); once more transitions have been added than a batch holds,
        sample a batch with the draws `draws`, learn from it and remember
        the next state. Returns the actor's latest loss. */
    method TakeStep(action: int, reward: real, nextState: seq<real>, done: bool,
                    nets: Networks, draws: seq<nat>) returns (loss: real)
      requires Valid() && PreservesShapes(nets)
      requires |lastState| == stateSize && |nextState| == stateSize
      requires |draws| == batchSize
      requires batchSize < memory.memoryCounter + 1 ==> DrawsFit(draws, memory.memorySize, memory.memoryCounter + 1)
      modifies this`lastState, this`weights, this`actorLocalLoss
      modifies memory`memoryCounter, memory`history
      modifies memory.memoryState, memory.memoryNextState, memory.memoryAction
      modifies memory.memoryReward, memory.memoryDones
      ensures Valid()
      ensures memory.history ==
                old(memory.history) + [Transition(old(lastState), Repeat(action as real, ActionSize),
                                                  reward, nextState, done)]
      ensures batchSize < |memory.history| ==>
                (weights, actorLocalLoss) ==
                  Learn(old(weights), BatchFrom(memory.history, memory.memorySize, draws), gamma, tau, nets) &&
                lastState == nextState
      ensures batchSize >= |memory.history| ==>
                weights == old(weights) && actorLocalLoss == old(actorLocalLoss) && lastState == old(lastState)
      ensures loss == actorLocalLoss
    {
      memory.AddSample(lastState, Repeat(action as real, ActionSize), reward, nextState, done);
      if batchSize < memory.Len() {
        LearningGateAllowsSampling(memory.memorySize, memory.memoryCounter, batchSize);
        var transitions := memory.SampleBatch(batchSize, draws);
        LearnReplayed(transitions.value, nets);
        lastState := nextState;
      }
      loss := actorLocalLoss;
    }
  }
}
