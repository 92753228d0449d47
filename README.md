# DDPG portfolio agent: a Dafny model of its trading core

The repository trains a deep deterministic policy gradient (DDPG) agent that
trades a single stock. The agent has a two-output actor: HOLD or "trade".
Its budget is `n_budget` units bought at the start price. Everything around
the Keras networks lives in `utility.py`. This project models that core:

- the replay memory, a fixed-capacity ring of transitions in five parallel
  arrays (`replay.dfy`);
- the agent's portfolio as a value, with the legality rules, the
  two-logit-to-three-action mapping and the early-termination check
  (`portfolio.dfy`);
- the agent object itself: constructor, reset, balance and inventory
  updates, the validation cash injection, reward selection and switching,
  action selection, the replay-gated learning step (`agent.dfy`);
- the learning arithmetic: TD targets, the soft target update and the order
  of one replay learning step, with the networks as opaque functions
  (`learning.dfy`);
- the eight reward variants and their dispatch (`rewards.dfy`);
- `handle_action` on the agent and the statistics counters, and
  `break_deadlock` (`trading.dfy`);
- the per-episode statistics container (`statistics.dfy`);
- the observation `get_state` (`state_builder.dfy`);
- the episode-start sampler `get_episodeStart` (`episodes.dfy`).

Code that updates objects in place is modelled as classes with `modifies`
clauses: `ReplayBuffer`, `Agent`, `Statistics`, and `handle_action` acting on
an agent and a statistics object. Each such method is proved against a pure
function of the old state (`Execute`, `Handle`, `Threshold`, `Learn`,
`BatchFrom`, ...). The facts the source relies on are proved about those
functions.

The central invariant is that every one of the `n_budget` units is either
held (`inventory`) or recorded as sold (`inventory_conj`). `reset`
establishes it and every branch of `handle_action` keeps it. It is what
makes `inventory_conj.pop(0)` on a legal BUY and `inventory_conj[0]` in the
observation safe. The code keeps this count at `n_budget` rather than at
most one position, and the model follows the code.

Randomness is passed in. The numpy batch draws, the categorical action
draw, the deadlock draw and the episode-start index are parameters, and each
contract says what holds for every such parameter. `tanh`, `exp`, the real
power `**` and the Keras networks are parameters of function type.

## Model

| member | source | states |
|---|---|---|
| Common.ArgMax | utility.py:392 | `np.argmax`: the result indexes a largest entry, and no earlier entry is as large (the first maximum) |
| Common.MinOf | utility.py:974 | `np.min` of a non-empty array: an entry of the array that no entry is below |
| Replay.LatestInsert | utility.py:215-224 | for a written slot, the most recent insertion that landed there lies within the last `memory_size` insertions and maps to that slot |
| Replay.DistinctSlots | utility.py:216 | two insertions less than a capacity apart write different slots, so no live transition is overwritten early |
| Replay.FilledSlotIsRecent | utility.py:226-228 | every slot below `min(memory_size, memory_counter)` has been written, by one of the last `memory_size` insertions |
| Replay.BatchFrom | utility.py:226-236 | a batch read through draws has one row per draw, five aligned columns, and row i is the transition last written to slot draws[i], done cast to 1.0/0.0 |
| Replay.BatchRowIsRecent | utility.py:226-236 | every sampled row is one of the last `memory_size` transitions ever added |
| Replay.ReplayBuffer.constructor | utility.py:200-212 | five zero-filled arrays of the capacity, counter 0, empty history, ring invariant established |
| Replay.ReplayBuffer.AddSample | utility.py:215-224 | writes slot `counter % memory_size` in all five arrays, leaves every other slot unchanged, increments the counter, appends to the history and keeps the ring invariant |
| Replay.ReplayBuffer.SampleBatch | utility.py:226-236 | fails exactly when nothing can be drawn and a non-empty batch is asked for; otherwise returns `BatchFrom` of the history for the draws |
| Replay.ReplayBuffer.Len | utility.py:238-240 | `len` is the number of insertions ever made, not the filled slots; sampling draws below min(capacity, len) |
| Portfolio.ResetPortfolio | utility.py:337-349 | `reset`: all `n_budget` units held at the start price, nothing sold, no cash, value equal to the budget, reward scratch zeroed, override off |
| Portfolio.ConsistentFlatHasSale | utility.py:825 | under the unit invariant, a flat portfolio has `n_budget` sale records, so `inventory_conj[0]` exists |
| Portfolio.WithExtraCash | utility.py:351-361 | the injected cash becomes the balance and is added to the budget; positions and marked value unchanged |
| Portfolio.ExtraCashIsNotProfit | utility.py:351-361 | after a reset, growth over the budget is zero with or without a cash injection: injected cash is not profit |
| Portfolio.MapAction | utility.py:395-404 | logit 1 becomes BUY exactly when flat and SELL exactly when holding; other logits pass through |
| Portfolio.MappedActionRespectsPosition | utility.py:395-404 | a mapped decision is HOLD, BUY or SELL, never sells without a holding, and a BUY is refused only for lack of cash |
| Portfolio.ChooseRaw | utility.py:386-392 | when evaluating, the first largest-probability logit, so a tie goes to HOLD; when training, the drawn logit |
| Portfolio.Threshold | utility.py:316-335 | terminal exactly when the check is on and either impossibles reach the threshold or a flat portfolio's cash after cost is below the lowest future price; impossibles are tested first; the messages match; off gives (False, "n/a") |
| RewardEngine.KindOf | utility.py:516-543 | ids 0..7 and only those select a variant |
| RewardEngine.KindIdRoundTrip | utility.py:516-543 | ids and variants correspond one to one |
| RewardEngine.Reward0 | utility.py:556-562 | type 0 is non-negative, at least the profit, and equals either the profit or 0 |
| RewardEngine.Reward1 | utility.py:564-570 | type 1 is the unclamped profit whatever the portfolio, context or step; `ProfitVariantsAgree` relates it to types 0 and 2 |
| RewardEngine.ClosedIsSumMinusCount | utility.py:581 | closing all held units at a price yields the purchase prices' total minus one price per unit |
| RewardEngine.Reward2 | utility.py:572-583 | type 2 is the profit before the last step; on it, the profit plus every held unit closed at the current price |
| RewardEngine.Reward3 | utility.py:585-598 | type 3 is 0 before the last step; on it, the terminal growth against holding the budget, doubled when positive, -1000 when exactly 0 |
| RewardEngine.DenseClosedForm | utility.py:613 | the dense term scores a HOLD by pt1/ptn, a BUY by pt/ptn and a SELL by (2·pt1 − pt)/ptn |
| RewardEngine.Reward4 | utility.py:600-619 | type 4 is the dense term before the last step; on it, the terminal growth, -1000 when exactly 0 |
| RewardEngine.Reward5 | utility.py:621-641 | type 5 is the dense term on every step, the last included: pt1/ptn for HOLD, pt/ptn for BUY, (2·pt1 − pt)/ptn for SELL; `TerminalVariantsAgree` relates it to type 4 |
| RewardEngine.TerminalVariantsAgree | utility.py:585-641 | type 4 equals type 5 before the last step; on it, type 3 is twice type 4 for positive growth and equal otherwise |
| RewardEngine.Reward6 | utility.py:644-680 | type 6 is 0 unless the action is BUY or SELL, then the clamped profit times the confidence, all over 1000 |
| RewardEngine.Reward7 | utility.py:683-748 | type 7 is exactly -100 on termination, otherwise the damped raw reward floored at -50000 over 1000, hence at least -50 |
| RewardEngine.Reward7Illegal | utility.py:709-744 | an illegal action always takes the hold branch, so the penalty branches are unreachable; a positive raw reward is scaled by 0.1, a negative one by 1.1 before the floor |
| RewardEngine.Reward7LegalTrade | utility.py:721-738 | a legal BUY or SELL under type 7 earns the confidence-scaled profit, floored and over 1000 |
| RewardEngine.Reward7IgnoresPenalty | utility.py:699-748 | the `penalty` parameter never changes type 7's value |
| RewardEngine.ProfitVariantsAgree | utility.py:556-583 | type 0 is type 1 clamped at 0, and type 2 equals type 1 before the last step |
| RewardEngine.Reward | utility.py:556-748 | the dispatch: type 0 clamps the profit, type 1 passes it on, types 2 and 3 are the profit and 0 before the last step, types 4 (before the last step) and 5 are the dense term, type 6 is 0 off BUY and SELL, type 7 is -100 on termination and at least -50 otherwise |
| Learning.SoftUpdate | utility.py:443-450 | each updated target weight's gap to the local weight is the old gap times (1 − tau) |
| Learning.SoftUpdateEndpoints | utility.py:449 | tau = 0 keeps the target, tau = 1 copies the local weights, a target equal to its local stays put |
| Learning.SoftUpdateBetween | utility.py:449 | for tau in [0, 1] every updated weight lies between the old target weight and the local weight |
| Learning.TrackClosedForm | utility.py:449 | after k updates toward fixed local weights the gap is the original gap times (1 − tau)^k |
| Learning.TdTargets | utility.py:435 | a done row's target is its reward; a live row's is reward + gamma·Q' |
| Learning.QTargets | utility.py:429-435 | the Q targets as written: the target critic sees the next states and the target actor's actions on the current states; terminal rows get their reward |
| Learning.TerminalRowTarget | utility.py:435 | a sampled row whose stored transition ended an episode is trained toward its stored reward alone |
| Learning.Learn | utility.py:422-441 | one learning step in source order: critic trained on the Q targets, action gradients from the trained critic, actor trained on them, both targets soft-updated toward the new local weights; target and local shapes stay paired |
| Learning.LearnTargetEndpoints | utility.py:440-449 | with tau = 1 a learning step leaves each target equal to its new local network; with tau = 0 the targets never move |
| AgentModel.LearningGateAllowsSampling | utility.py:415-416 | once more transitions were added than a batch holds, there is a filled slot to draw |
| AgentModel.Agent.constructor | utility.py:252-301 | configuration copied, portfolio reset at the start price, the configured reward variant selected, an empty replay memory of the configured capacity, each target network a copy of its local network, loss 1 |
| AgentModel.Agent.Reset | utility.py:337-349 | the portfolio becomes `ResetPortfolio(n_budget, start_price)` |
| AgentModel.Agent.UpdateBalance | utility.py:309-310 | the balance moves by the change |
| AgentModel.Agent.UpdateInventory | utility.py:312-313 | the marked value is the number of held units times the price |
| AgentModel.Agent.ValidationExtraCash | utility.py:351-361 | the portfolio becomes `WithExtraCash` of the old one |
| AgentModel.Agent.CheckThreshold | utility.py:316-335 | returns `Threshold` of the old portfolio; a non-terminal check with the function on clears `override_reward`, nothing else changes |
| AgentModel.Agent.SetRewardType | utility.py:516-544 | clears the reward scratch vector; succeeds exactly for ids 0..7 and then selects the variant whose id is the argument; otherwise the variant is unchanged |
| AgentModel.Agent.SwitchRewardType | utility.py:546-554 | outside the switch episode nothing changes; in it, the variant and the recorded id become the switch id when it is valid |
| AgentModel.Agent.GetReward | utility.py:516-748 | the variant the last successful `SetRewardType` selected, on the current portfolio: type 0 clamps the profit, type 1 passes it on, type 3 pays nothing before the last step, type 7 is -100 on termination and at least -50 otherwise |
| AgentModel.Agent.TakeAction | utility.py:366-405 | remembers the state, returns the chosen actor's probability pair and maps the chosen logit by the current position; the action is HOLD, BUY or SELL and SELL only with a holding |
| AgentModel.Agent.LearnReplayed | utility.py:422-441 | weights and actor loss become `Learn` of the old weights on the batch; target and local shapes stay paired |
| AgentModel.Agent.TakeStep | utility.py:407-419 | stores the transition from the remembered state; learns from `BatchFrom` and remembers the next state exactly when more transitions were added than a batch holds, else leaves weights, loss and state alone; returns the current actor loss; the memory invariant is kept |
| Stats.FreshTally | utility.py:1061-1081 | all counters zero except `n_1or2` = 1 (so it can divide), no extra cash, empty index lists |
| Stats.GrowthAtStart | utility.py:1136 | at an episode start the recorded growth is zero, and each trade costs its actual trade cost |
| Stats.PadWith | utility.py:1113-1117 | `np.pad` at the end: the original prefix followed by the given number of copies of the value |
| Stats.CarryForwardFills | utility.py:1113 | carrying the last value forward fills a series of t + 1 entries to length l, ending on the value at t |
| Stats.Statistics.constructor | utility.py:1053-1101 | stores the mode, budget and buy-and-hold growth; counters fresh and every series empty |
| Stats.Statistics.ResetEpisode | utility.py:1057-1081 | every counter back to `FreshTally`, total reward 0 and every series empty |
| Stats.Statistics.CollectIteration | utility.py:1121-1138 | appends one entry to each series: balance, marked value, profit, reward, loss, action, the growth net of twice the injected cash and the actual trade costs, and that growth less the buy-and-hold growth at t; series stay aligned |
| Stats.Statistics.PadOnTerminate | utility.py:1104-1118 | pads balances, marked values and losses with their last entry, profits and rewards with 0 and actions with -1, each by l − t − 1; a series of t + 1 entries then has length l |
| Trading.Shortfall | utility.py:946-955 | the cash a BUY lacks, as evidently intended: positive exactly when the correction's cash condition holds, and it brings balance − cost up to the price |
| Trading.ShortfallAsWrittenMissesCost | utility.py:955 | the amount recorded as written is the shortfall less twice the trade cost; with balance 100, cost 5 and price 98 it is -7 where 3 is missing |
| Trading.IntendedCorrectionAddsCash | utility.py:946-963 | the correction with the intended amount injects positive cash, exactly what brings balance − cost up to the price, and otherwise does what the written correction does |
| Trading.Handle | utility.py:883-972 | `handle_action` as a function, with the correction recording price − balance − cost as written: positive-profit trades counted exactly once, holdings marked at the price |
| Trading.HandlePreservesUnits | utility.py:896-972 | every step keeps each of the `n_budget` units either held or recorded as sold, and a legal BUY always has a sale record to pop |
| Trading.LegalBuyEffect | utility.py:900-972 | a legal BUY moves the oldest sale record's place to a holding bought at the price, profit sold − price − cost, cash down by price + cost, one more trade, holds reset, step recorded |
| Trading.LegalSellEffect | utility.py:923-972 | a legal SELL closes the oldest holding, records the sale price, profit price − bought − cost, cash up by price − cost, one more trade, holds reset, step recorded |
| Trading.HoldOrRefusedEffect | utility.py:896-972 | a HOLD or an uncorrected refused trade leaves cash and positions unchanged with profit 0 and one more hold; exactly the refused trades are impossible and counted once; no positive profit counted |
| Trading.CorrectionEffect | utility.py:946-963 | the correction happens only in validation after a refused trade; the portfolio is reset at the price, price − balance − cost is recorded as injected cash, the step moves from the impossible list to the cash list, one more trade, holds reset, profit 0 |
| Trading.CorrectionRecordsNegativeCash | utility.py:946-963 | with balance 100, cost 5 and price 98 a preferred BUY is refused and corrected in validation, and the recorded injected cash falls by 7 although 3 was missing |
| Trading.SingleUnitPositions | utility.py:337-346 | with a budget of one unit the portfolio is either flat with one sale record or holding one unit with none |
| Trading.BreakDeadlock | utility.py:846-880 | a non-HOLD action, or the function off, passes through; otherwise the result is HOLD or the drawn trade, the drawn trade exactly when it is legal |
| Trading.DeadlockTradeIsLegal | utility.py:862-880 | a trade substituted for HOLD is never refused by `handle_action` at the same price and cost |
| Trading.ExecuteAction | utility.py:891-944 | the action branch on the agent and statistics objects equals `Execute` of the old portfolio and counters |
| Trading.CorrectForValidation | utility.py:955-963 | the correction on the objects, recording price − balance − cost as written, equals `Correct` of the old portfolio and counters |
| Trading.SettleStep | utility.py:965-972 | counting a positive profit, applying the balance change and marking the holdings equal `Settle` |
| Trading.HandleAction | utility.py:883-980 | the counters, profit and impossibility are those of `Handle`; the action is returned unchanged; with the check active the termination flag and message are `Threshold` over the lowest later price and override is cleared as `check_threshold` does; otherwise terminate is False, the message empty and the portfolio that of `Handle` |
| StateBuilder.WindowEntry | utility.py:788-791 | entry j of the window is the price at step t − window + 1 + j, or the first price where that step is before the series |
| StateBuilder.Returns | utility.py:793-795 | `np.diff`: one fewer entry, and each price plus its return is the next price |
| StateBuilder.ReturnsTelescope | utility.py:795 | a window's returns add up to its last price less its first |
| StateBuilder.PaddedReturnsAreZero | utility.py:791-795 | returns inside the left padding of an early window are zero |
| StateBuilder.MaskKeep | utility.py:807 | the mask keeps min(n_holds, window − 1) trailing entries, and at least one when the window allows |
| StateBuilder.Mask | utility.py:805-808 | entries older than the kept tail are zero, the kept tail is unchanged |
| StateBuilder.Features | utility.py:815-839 | six features: the buy flag is exactly BUY legality, the hold feature is at most 1 (and non-negative for non-negative holds), the holding count, buy and sell flags exclusive and tied to the position |
| StateBuilder.FlagsMeanProfit | utility.py:822-837 | at a positive price the buy or sell flag is raised exactly when the normalised profit of closing now is positive, and that feature times the price is the trade's profit |
| StateBuilder.HoldFeatureSaturates | utility.py:820 | hold counts at or past max(max_holds, 100) give a hold feature of exactly 1 |
| StateBuilder.GetState | utility.py:778-843 | the state has window − 1 price entries followed by exactly the six features |
| StateBuilder.StatePricePart | utility.py:788-808 | price entry i is tanh of the i-th return (or price) over the scale, or 0 where the mask hides it |
| EpisodeSampler.ChoiceBounds | utility.py:1020-1025 | the range starts at or after the state window and ends at or before the last start leaving a full episode and one more price; `extra` is the widening's overshoot below zero offset |
| EpisodeSampler.ExtraPinsStart | utility.py:1021-1035 | a positive `extra` pins the range start to the state window, so the "front is not added" weighting is never used |
| EpisodeSampler.UnclampedNeedsIndex | utility.py:1023-1031 | a non-empty unclamped range needs a positive episode index, so the edge multiplier is at least 1 |
| EpisodeSampler.TailStart | utility.py:1032 | the Python slice `[-k:]` starts at n − k, and at 0 (the whole array) when k = 0 |
| EpisodeSampler.Normalise | utility.py:1036 | dividing by the sum gives weights that add up to 1 |
| EpisodeSampler.Multiplier | utility.py:1031 | `min(expand_i, 10)` is at most 10 and at least 1 for a positive index |
| EpisodeSampler.ChoiceProb | utility.py:1028-1036 | one probability per start, adding up to 1 |
| EpisodeSampler.NormaliseIgnoresFactor | utility.py:1028-1036 | the source's common factor 1/(n + 2·expand·m) cancels in the normalisation |
| EpisodeSampler.ChoiceProbPositive | utility.py:1028-1036 | every start has a positive probability |
| EpisodeSampler.EdgeWeights | utility.py:1029-1036 | in an unclamped range with `extra` = 0, each of the first and last `expand` starts is m times as likely as an interior start, and interior starts are equally likely |
| EpisodeSampler.ZeroExpandIsUniform | utility.py:1031-1036 | with `expand` = 0 the slice `[-0:]` scales every weight alike, so all starts are equally likely |
| EpisodeSampler.UnweightedIsUniform | utility.py:1028-1036 | without edge weighting each of the n starts has probability 1/n |
| EpisodeSampler.ClampedRangeIsUniform | utility.py:1028-1040 | a range clamped at either end gets no edge weighting: every start has probability 1/(choice_end − choice_start) |
| EpisodeSampler.StartProb | utility.py:1028-1040 | the probabilities the draw uses: one per start of the range, adding up to 1 |
| EpisodeSampler.GetEpisodeStart | utility.py:1010-1042 | a start exists exactly when the range is non-empty; it lies in the range, at or after the state window and before the last start leaving a full episode |
| EpisodeSampler.EveryStartPossible | utility.py:1028-1040 | every start of a non-empty range has a positive probability of being drawn |

## Left out

- Keras networks: actor and critic construction, prediction, training, gradients and weight access (utility.py:16-186). They are function-typed parameters over one flattened weight vector per network. The split of a state into its time-series and utility parts before each call is not modelled.
- Weight arithmetic: the soft update (utility.py:443-450) is modelled over that flattened vector, not the per-layer list of arrays.
- Numbers: float32 casts, NaN, infinities and rounding are not modelled; prices and rewards are exact reals.
- Randomness: the four numpy draws (utility.py:228, 388, 867, 1038) are parameters, and their distributions are not modelled beyond `StartProb`.
- I/O: checkpoint directories, saving and loading of models, attributes and statistics, `get_data`, plotting and `print`.
- Dynamic configuration: `setattr` from the parameter dictionaries is replaced by the `AgentConfig` record.
- Statistics: `collect_episode` (utility.py:1141-1159) only copies finished series into per-episode dictionaries, and the episode dictionaries that `reset_all` creates are not modelled either. The counters `handle_action` touches are grouped into one `Tally` value.
- Dead writes: the `terminate = True` assignments for impossible actions (utility.py:919-921, 942-944) are not modelled, because the function always overwrites them before returning.
- Stored actions: the agent stores its integer action in the two-column action array by broadcasting, modelled as two copies of the action.
- Observation shape: the extra axes `get_state` adds with `np.expand_dims` are not modelled.
- RewardEngine.Reward4: requires non-zero previous and horizon prices. The source divides by them and would produce an infinity or NaN. Reward5 and Dense have the same requirement.
- RewardEngine.Reward6: requires a non-empty probability vector (`np.argmax` raises otherwise). Reward7 has the same requirement.
- AgentModel.Agent.constructor: requires a reward id in 0..7, where the source raises on the unbound message. It also requires a buffer capacity above 0.
- AgentModel.Agent.SetRewardType: an id outside 0..7 is reported through `ok` = false, where the source raises. The scratch vector is cleared first either way, as in the source.
- AgentModel.Agent.TakeAction: requires that the actor returns a probability pair per row, and when training a draw below 2.
- AgentModel.Agent.TakeStep: requires states of the configured size and draws that fit the filled slots, which numpy guarantees.
- Replay.ReplayBuffer.constructor: requires a capacity above 0, because `add_sample` takes the counter modulo the capacity.
- Replay.ReplayBuffer.SampleBatch: requires draws below min(capacity, counter), which is what numpy draws. An empty memory, where numpy raises, gives None.
- Trading.HandleAction: requires a sale record to pop on a legal BUY (`CanPop`), which `HandlePreservesUnits` shows holds for every consistent portfolio. It also requires a non-empty probability vector, and a later price when the termination check runs, because `np.min` of an empty slice raises.
- Trading.BreakDeadlock: requires the draw to be 0, 1 or 2, the values numpy can draw.
- Stats.Statistics.constructor: models `__init__` followed by `reset_all`. The checkpoint directory is not kept.
- Stats.Statistics.CollectIteration: requires t within the buy-and-hold series, which the source indexes.
- Stats.Statistics.PadOnTerminate: requires non-empty series and l − t − 1 ≥ 0, where numpy raises otherwise. Growth and compete are not padded, as in the source.
- StateBuilder.GetState: requires a window of at least one price, a non-zero current price and tanh scale, and a sale record when flat (which the unit invariant guarantees). The source would divide by zero or index an empty list otherwise.
- StateBuilder.Features: requires a non-zero price, for the same reason.
- EpisodeSampler.RawWeights: omits the source's common factor 1/(n + 2·expand·min(expand_i, 10)). `NormaliseIgnoresFactor` shows the normalisation at utility.py:1036 divides it away.
- EpisodeSampler.GetEpisodeStart: the draw is an index into the range. An empty range, where numpy raises, gives None. The window size is passed in rather than read from the agent.

## Findings

| source | as written | input that shows it | evidently intended | confidence | as-written member | corrected member |
|---|---|---|---|---|---|---|
| utility.py:955 | the injected cash recorded for a validation correction is price − balance − trade cost | balance 100, trade cost 5, price 98: the BUY is refused and corrected, yet −7 is recorded where 3 is missing | price + trade cost − balance, the cash that brings balance − cost up to the price, which is positive whenever the correction applies | medium, not executed | Trading.CorrectionRecordsNegativeCash | Trading.IntendedCorrectionAddsCash |

`handle_action` is modelled with the amount as written (`Trading.Correct`, used by `Trading.Handle` and `Trading.HandleAction`). The intended amount is `Trading.Shortfall`, and `Trading.CorrectIntended` is the correction using it.
