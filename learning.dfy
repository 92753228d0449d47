/** The learning arithmetic of the DDPG agent: the temporal-difference
    targets, the soft update of target networks and the order of one replay
    learning step. The networks themselves are opaque and passed in as
    functions over flattened weight vectors. */
module Learning {
  import opened Common
  import opened Replay

  /** `update_weights`: every target weight moves to (1 - tau) * target +
      tau * local, so its gap to the local weight shrinks by the factor
      (1 - tau). */
  function SoftUpdate(target: seq<real>, local: seq<real>, tau: real): (r: seq<real>)
    requires |target| == |local|
    ensures |r| == |target|
    ensures forall i :: 0 <= i < |r| ==> r[i] - local[i] == (1.0 - tau) * (target[i] - local[i])
  {
    seq(|target|, i requires 0 <= i < |target| => (1.0 - tau) * target[i] + tau * local[i])
  }

  /** tau = 0 keeps the target, tau = 1 copies the local network, and a
      target equal to its local network stays put whatever tau is. */
  lemma {:induction false} SoftUpdateEndpoints(target: seq<real>, local: seq<real>, tau: real)
    requires |target| == |local|
    ensures tau == 0.0 ==> SoftUpdate(target, local, tau) == target
    ensures tau == 1.0 ==> SoftUpdate(target, local, tau) == local
    ensures target == local ==> SoftUpdate(target, local, tau) == local
  {
    var r := SoftUpdate(target, local, tau);
    if tau == 0.0 {
      assert forall i :: 0 <= i < |r| ==> r[i] == target[i];
    }
    if tau == 1.0 {
      assert forall i :: 0 <= i < |r| ==> r[i] == local[i];
    }
    if target == local {
      assert forall i :: 0 <= i < |r| ==> r[i] == local[i];
    }
  }

  /** For 0 <= tau <= 1 each updated weight lies between the old target
      weight and the local weight. */
  lemma {:induction false} SoftUpdateBetween(target: seq<real>, local: seq<real>, tau: real, i: nat)
    requires |target| == |local| && 0.0 <= tau <= 1.0 && i < |target|
    ensures MinReal(target[i], local[i]) <= SoftUpdate(target, local, tau)[i] <= MaxReal(target[i], local[i])
  {
    var r := SoftUpdate(target, local, tau);
    var g := target[i] - local[i];
    assert r[i] == local[i] + (1.0 - tau) * g;
    ProductNonneg(1.0 - tau, if g >= 0.0 then g else -g);
    ProductNonneg(tau, if g >= 0.0 then g else -g);
    assert (1.0 - tau) * g == g - tau * g;
  }

  lemma ProductNonneg(a: real, b: real)
    requires a >= 0.0 && b >= 0.0
    ensures a * b >= 0.0
  {
  }

  function Pow(x: real, k: nat): real
  {
    if k == 0 then 1.0 else x * Pow(x, k - 1)
  }

  /** k soft updates of a target toward a fixed local network. */
  function Track(target: seq<real>, local: seq<real>, tau: real, k: nat): (r: seq<real>)
    requires |target| == |local|
    ensures |r| == |target|
  {
    if k == 0 then target else SoftUpdate(Track(target, local, tau, k - 1), local, tau)
  }

  /** After k updates toward a fixed local network the gap is the original
      one times (1 - tau)^k. */
  lemma {:induction false} TrackClosedForm(target: seq<real>, local: seq<real>, tau: real, k: nat, i: nat)
    requires |target| == |local| && i < |target|
    ensures Track(target, local, tau, k)[i] - local[i] == Pow(1.0 - tau, k) * (target[i] - local[i])
  {
    if k > 0 {
      TrackClosedForm(target, local, tau, k - 1, i);
      var prev := Track(target, local, tau, k - 1);
      assert Track(target, local, tau, k)[i] - local[i] == (1.0 - tau) * (prev[i] - local[i]);
    }
  }

  /** The temporal-difference targets r + gamma * (1 - done) * Q'. */
  function TdTargets(rewards: seq<real>, dones: seq<real>, nextQ: seq<real>, gamma: real): (q: seq<real>)
    requires |dones| == |rewards| && |nextQ| == |rewards|
    ensures |q| == |rewards|
    ensures forall i :: 0 <= i < |q| && dones[i] == 1.0 ==> q[i] == rewards[i]
    ensures forall i :: 0 <= i < |q| && dones[i] == 0.0 ==> q[i] == rewards[i] + gamma * nextQ[i]
  {
    seq(|rewards|, i requires 0 <= i < |rewards| => rewards[i] + gamma * (1.0 - dones[i]) * nextQ[i])
  }

  /** The opaque Keras calls, each over a flattened weight vector:
      prediction of the actor (action probabilities per state row) and of
      the critic (a Q value per row), a critic training step on targets,
      the critic's action gradients, and an actor training step returning
      its new weights and loss. */
  datatype Networks = Networks(
    actorPredict: (seq<real>, seq<seq<real>>) -> seq<seq<real>>,
    criticPredict: (seq<real>, seq<seq<real>>, seq<seq<real>>) -> seq<real>,
    criticTrain: (seq<real>, seq<seq<real>>, seq<seq<real>>, seq<real>) -> seq<real>,
    actionGradients: (seq<real>, seq<seq<real>>, seq<seq<real>>) -> seq<seq<real>>,
    actorTrain: (seq<real>, seq<seq<real>>, seq<seq<real>>) -> (seq<real>, real))

  /** Shapes Keras guarantees: one output per input row and training steps
      that keep the number of weights. */
  ghost predicate PreservesShapes(nets: Networks)
  {
    && (forall w, s :: |nets.actorPredict(w, s)| == |s|)
    && (forall w, s, a :: |nets.criticPredict(w, s, a)| == |s|)
    && (forall w, s, a, y :: |nets.criticTrain(w, s, a, y)| == |w|)
    && (forall w, s, g :: |nets.actorTrain(w, s, g).0| == |w|)
  }

  /** The four weight vectors of the agent's networks. */
  datatype Weights = Weights(actorLocal: seq<real>, actorTarget: seq<real>,
                             criticLocal: seq<real>, criticTarget: seq<real>)

  /** Each target network has the shape of its local network. */
  predicate Paired(w: Weights)
  {
    |w.actorTarget| == |w.actorLocal| && |w.criticTarget| == |w.criticLocal|
  }

  /** The Q targets of `learn_replayed`. As written the target actor is fed
      the batch's current states, not its next states; the target critic
      does see the next states. A terminal row's target is its reward. */
  function QTargets(w: Weights, b: Batch, gamma: real, nets: Networks): (q: seq<real>)
    requires WellFormedBatch(b) && PreservesShapes(nets)
    ensures |q| == BatchSize(b)
    ensures forall i :: 0 <= i < |q| && b.dones[i] == 1.0 ==> q[i] == b.rewards[i]
    ensures forall i :: 0 <= i < |q| && b.dones[i] == 0.0 ==>
              q[i] == b.rewards[i] + gamma *
                      nets.criticPredict(w.criticTarget, b.nextStates, nets.actorPredict(w.actorTarget, b.states))[i]
  {
    var nextActions := nets.actorPredict(w.actorTarget, b.states);
    var nextQ := nets.criticPredict(w.criticTarget, b.nextStates, nextActions);
    TdTargets(b.rewards, b.dones, nextQ, gamma)
  }

  /** A sampled row whose stored transition ended an episode is trained
      toward its stored reward alone. */
  lemma {:induction false} TerminalRowTarget(history: seq<Transition>, capacity: nat, draws: seq<nat>,
                                             w: Weights, gamma: real, nets: Networks, i: nat)
    requires capacity > 0 && DrawsFit(draws, capacity, |history|) && i < |draws| && PreservesShapes(nets)
    requires history[LatestInsert(draws[i], |history|, capacity)].done
    ensures QTargets(w, BatchFrom(history, capacity, draws), gamma, nets)[i] ==
              history[LatestInsert(draws[i], |history|, capacity)].reward
  {
    var b := BatchFrom(history, capacity, draws);
    assert RowHolds(b, i, history[LatestInsert(draws[i], |history|, capacity)]);
  }

  /** One `learn_replayed` step: train the critic on the Q targets, take the
      action gradients from the critic just trained, train the actor on
      them, then soft-update both targets toward the new local weights.
      Returns the new weights and the actor's loss. */
  function Learn(w: Weights, b: Batch, gamma: real, tau: real, nets: Networks): (r: (Weights, real))
    requires WellFormedBatch(b) && Paired(w) && PreservesShapes(nets)
    ensures Paired(r.0)
    ensures r.0.criticLocal == nets.criticTrain(w.criticLocal, b.states, b.actions, QTargets(w, b, gamma, nets))
    ensures (r.0.actorLocal, r.1) ==
              nets.actorTrain(w.actorLocal, b.states, nets.actionGradients(r.0.criticLocal, b.states, b.actions))
    ensures r.0.actorTarget == SoftUpdate(w.actorTarget, r.0.actorLocal, tau)
    ensures r.0.criticTarget == SoftUpdate(w.criticTarget, r.0.criticLocal, tau)
  {
    var q := QTargets(w, b, gamma, nets);
    var criticLocal := nets.criticTrain(w.criticLocal, b.states, b.actions, q);
    var grads := nets.actionGradients(criticLocal, b.states, b.actions);
    var (actorLocal, loss) := nets.actorTrain(w.actorLocal, b.states, grads);
    (Weights(actorLocal, SoftUpdate(w.actorTarget, actorLocal, tau),
             criticLocal, SoftUpdate(w.criticTarget, criticLocal, tau)), loss)
  }

  /** With tau = 1 a learning step leaves each target equal to its freshly
      trained local network; with tau = 0 the targets never move. */
  lemma {:induction false} LearnTargetEndpoints(w: Weights, b: Batch, gamma: real, tau: real, nets: Networks)
    requires WellFormedBatch(b) && Paired(w) && PreservesShapes(nets)
    ensures tau == 1.0 ==> Learn(w, b, gamma, tau, nets).0.actorTarget == Learn(w, b, gamma, tau, nets).0.actorLocal
    ensures tau == 1.0 ==> Learn(w, b, gamma, tau, nets).0.criticTarget == Learn(w, b, gamma, tau, nets).0.criticLocal
    ensures tau == 0.0 ==> Learn(w, b, gamma, tau, nets).0.actorTarget == w.actorTarget
    ensures tau == 0.0 ==> Learn(w, b, gamma, tau, nets).0.criticTarget == w.criticTarget
  {
    var r := Learn(w, b, gamma, tau, nets).0;
    SoftUpdateEndpoints(w.actorTarget, r.actorLocal, tau);
    SoftUpdateEndpoints(w.criticTarget, r.criticLocal, tau);
  }
}
