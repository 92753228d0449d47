/** The experience replay memory: a fixed-capacity ring of transitions kept in
    five parallel arrays, written at `counter % capacity`. */
module Replay {
  import opened Common

  /** One stored experience. */
  datatype Transition = Transition(state: seq<real>, action: seq<real>, reward: real,
                                   nextState: seq<real>, done: bool)

  /** What `sample_batch` hands back: five columns aligned row by row. The
      done flags come back as floats (1.0 or 0.0), as after `astype(np.float32)`. */
  datatype Batch = Batch(states: seq<seq<real>>, actions: seq<seq<real>>, rewards: seq<real>,
                         nextStates: seq<seq<real>>, dones: seq<real>)

  function DoneAsReal(d: bool): real { if d then 1.0 else 0.0 }

  function BatchSize(b: Batch): nat { |b.states| }

  ghost predicate WellFormedBatch(b: Batch)
  {
    |b.actions| == |b.states| && |b.rewards| == |b.states| &&
    |b.nextStates| == |b.states| && |b.dones| == |b.states|
  }

  lemma MulAwayFromZero(d: int, c: int)
    requires c > 0
    ensures d >= 1 ==> d * c >= c
    ensures d <= -1 ==> d * c <= -c
  {
  }

  /** Euclidean division is unique. */
  lemma DivModUnique(x: int, q: int, r: int, c: int)
    requires c > 0 && 0 <= r < c && x == q * c + r
    ensures x / c == q && x % c == r
  {
    var q0, r0 := x / c, x % c;
    assert (q - q0) * c == q * c - q0 * c;
    MulAwayFromZero(q - q0, c);
  }

  /** Two insertion indices less than a capacity apart use different slots. */
  lemma {:induction false} DistinctSlots(k: nat, n: nat, c: nat)
    requires c > 0 && k < n < k + c
    ensures k % c != n % c
  {
    var d := n / c - k / c;
    assert d * c == (n / c) * c - (k / c) * c;
    assert n - k == d * c + (n % c - k % c);
    MulAwayFromZero(d, c);
  }

  /** The most recent insertion index (below `count`) that landed in `slot`:
      it lies within the last `capacity` insertions. */
  function LatestInsert(slot: nat, count: nat, capacity: nat): (k: nat)
    requires 0 < capacity && slot < capacity && slot < count
    ensures k < count && count <= k + capacity
    ensures k % capacity == slot
  {
    var q := (count - 1 - slot) / capacity;
    var r := (count - 1 - slot) % capacity;
    assert count - 1 - slot == q * capacity + r;
    assert q >= 0;
    DivModUnique(slot + q * capacity, q, slot, capacity);
    slot + q * capacity
  }

  /** Every slot below min(capacity, count) has been written at least once,
      and it was last written by an insertion among the last `capacity`. */
  lemma {:induction false} FilledSlotIsRecent(slot: nat, count: nat, capacity: nat)
    requires 0 < capacity && slot < Min(capacity, count)
    ensures exists k :: count - capacity <= k < count && k >= 0 && k % capacity == slot
  {
    var k := LatestInsert(slot, count, capacity);
    assert count - capacity <= k < count && k % capacity == slot;
  }

  /** Every draw names a slot that has been written: numpy draws below
      `min(memory_size, memory_counter)`. */
  ghost predicate DrawsFit(draws: seq<nat>, capacity: nat, count: nat)
  {
    forall i :: 0 <= i < |draws| ==> draws[i] < capacity && draws[i] < count
  }

  /** Row i of batch b carries transition tr. */
  ghost predicate RowHolds(b: Batch, i: nat, tr: Transition)
    requires WellFormedBatch(b) && i < BatchSize(b)
  {
    b.states[i] == tr.state && b.actions[i] == tr.action && b.rewards[i] == tr.reward &&
    b.nextStates[i] == tr.nextState && b.dones[i] == DoneAsReal(tr.done)
  }

  /** A batch read from the ring, for draws below min(capacity, |history|):
      row i is the transition last written to slot draws[i]. */
  function BatchFrom(history: seq<Transition>, capacity: nat, draws: seq<nat>): (b: Batch)
    requires capacity > 0 && DrawsFit(draws, capacity, |history|)
    ensures WellFormedBatch(b) && BatchSize(b) == |draws|
    ensures forall i :: 0 <= i < |draws| ==>
              RowHolds(b, i, history[LatestInsert(draws[i], |history|, capacity)])
  {
    var rows := seq(|draws|, i requires 0 <= i < |draws| =>
                      history[LatestInsert(draws[i], |history|, capacity)]);
    Batch(seq(|draws|, i requires 0 <= i < |draws| => rows[i].state),
          seq(|draws|, i requires 0 <= i < |draws| => rows[i].action),
          seq(|draws|, i requires 0 <= i < |draws| => rows[i].reward),
          seq(|draws|, i requires 0 <= i < |draws| => rows[i].nextState),
          seq(|draws|, i requires 0 <= i < |draws| => DoneAsReal(rows[i].done)))
  }

  /** Sampling only ever returns one of the last `capacity` transitions added:
      older ones have been overwritten. */
  lemma BatchRowIsRecent(history: seq<Transition>, capacity: nat, draws: seq<nat>, i: nat)
    requires capacity > 0 && DrawsFit(draws, capacity, |history|) && i < |draws|
    ensures exists k :: 0 <= k < |history| && |history| - capacity <= k &&
              RowHolds(BatchFrom(history, capacity, draws), i, history[k])
  {
    var k := LatestInsert(draws[i], |history|, capacity);
    assert RowHolds(BatchFrom(history, capacity, draws), i, history[k]);
  }

  class ReplayBuffer {
    const memorySize: nat
    const batchSize: nat
    const stateSize: nat
    const actionSize: nat
    var memoryCounter: nat

    const memoryState: array<seq<real>>
    const memoryNextState: array<seq<real>>
    const memoryAction: array<seq<real>>
    const memoryReward: array<real>
    const memoryDones: array<bool>

    /** Every transition ever added, oldest first. */
    ghost var history: seq<Transition>

    ghost function Repr(): set<object>
    {
      {this, memoryState, memoryNextState, memoryAction, memoryReward, memoryDones}
    }

    /** The transition currently held in slot i of the five arrays. */
    ghost function Slot(i: nat): Transition
      reads memoryState, memoryNextState, memoryAction, memoryReward, memoryDones
      requires i < memoryState.Length && i < memoryNextState.Length && i < memoryAction.Length
      requires i < memoryReward.Length && i < memoryDones.Length
    {
      Transition(memoryState[i], memoryAction[i], memoryReward[i], memoryNextState[i], memoryDones[i])
    }

    /** The ring invariant: slot `k % memorySize` holds transition k for each
        of the last `memorySize` insertions. */
    ghost predicate Valid()
      reads Repr()
    {
      && memorySize > 0
      && memoryState.Length == memorySize && memoryNextState.Length == memorySize
      && memoryAction.Length == memorySize && memoryReward.Length == memorySize
      && memoryDones.Length == memorySize
      && memoryState != memoryNextState && memoryState != memoryAction
      && memoryNextState != memoryAction
      && memoryCounter == |history|
      && forall k :: 0 <= k < |history| && |history| - memorySize <= k ==>
           Slot(k % memorySize) == history[k]
    }

    /** Number of slots sampling draws from: `min(memory_size, memory_counter)`. */
    function MaxChoice(): nat
      reads this
    {
      Min(memorySize, memoryCounter)
    }

    constructor (stateSize: nat, actionSize: nat, bufferSize: nat, batchSize: nat)
      requires bufferSize > 0
      ensures Valid() && fresh(Repr() - {this})
      ensures history == [] && memoryCounter == 0
      ensures this.memorySize == bufferSize && this.batchSize == batchSize
      ensures this.stateSize == stateSize && this.actionSize == actionSize
      ensures forall i :: 0 <= i < bufferSize ==>
                Slot(i) == Transition(Repeat(0.0, stateSize), Repeat(0.0, actionSize), 0.0,
                                      Repeat(0.0, stateSize), false)
    {
      this.memorySize := bufferSize;
      this.batchSize := batchSize;
      this.stateSize := stateSize;
      this.actionSize := actionSize;
      memoryCounter := 0;
      memoryState := new seq<real>[bufferSize](_ => Repeat(0.0, stateSize));
      memoryNextState := new seq<real>[bufferSize](_ => Repeat(0.0, stateSize));
      memoryAction := new seq<real>[bufferSize](_ => Repeat(0.0, actionSize));
      memoryReward := new real[bufferSize](_ => 0.0);
      memoryDones := new bool[bufferSize](_ => false);
      history := [];
    }

    /** `add_sample`: overwrite slot `memory_counter % memory_size` in all five
        arrays, leave every other slot alone and count the insertion. */
    method AddSample(state: seq<real>, action: seq<real>, reward: real, nextState: seq<real>, done: bool)
      requires Valid()
      requires |state| == stateSize && |nextState| == stateSize && |action| == actionSize
      modifies this`memoryCounter, this`history
      modifies memoryState, memoryNextState, memoryAction, memoryReward, memoryDones
      ensures Valid()
      ensures history == old(history) + [Transition(state, action, reward, nextState, done)]
      ensures memoryCounter == old(memoryCounter) + 1
      ensures Slot(old(memoryCounter) % memorySize) == Transition(state, action, reward, nextState, done)
      ensures forall i :: 0 <= i < memorySize && i != old(memoryCounter) % memorySize ==>
                Slot(i) == old(Slot(i))
    {
      var ind := memoryCounter % memorySize;
      memoryState[ind] := state;
      memoryNextState[ind] := nextState;
      memoryAction[ind] := action;
      memoryReward[ind] := reward;
      memoryDones[ind] := done;
      history := history + [Transition(state, action, reward, nextState, done)];
      memoryCounter := memoryCounter + 1;
      forall k | 0 <= k < |history| && |history| - memorySize <= k
        ensures Slot(k % memorySize) == history[k]
      {
        if k < |history| - 1 {
          DistinctSlots(k, |history| - 1, memorySize);
        }
      }
    }

    /** `sample_batch`, with numpy's uniform draws given as `draws`. It fails
        (numpy raises) when there is nothing to draw from and a non-empty batch
        is asked for; otherwise row i is the most recent transition written to
        slot draws[i]. */
    method SampleBatch(batchSize: nat, draws: seq<nat>) returns (r: Option<Batch>)
      requires Valid()
      requires |draws| == batchSize
      requires MaxChoice() > 0 ==> DrawsFit(draws, memorySize, memoryCounter)
      ensures r.None? <==> MaxChoice() == 0 && batchSize > 0
      ensures r.Some? ==> r.value == BatchFrom(history, memorySize, draws)
    {
      if MaxChoice() == 0 && batchSize > 0 {
        return None;
      }
      var states, actions, rewards, nextStates, dones := [], [], [], [], [];
      var i := 0;
      while i < |draws|
        invariant 0 <= i <= |draws|
        invariant |states| == i && |actions| == i && |rewards| == i && |nextStates| == i && |dones| == i
        invariant forall j :: 0 <= j < i ==>
                    var k := LatestInsert(draws[j], |history|, memorySize);
                    states[j] == history[k].state && actions[j] == history[k].action &&
                    rewards[j] == history[k].reward && nextStates[j] == history[k].nextState &&
                    dones[j] == DoneAsReal(history[k].done)
      {
        var slot := draws[i];
        ghost var k := LatestInsert(slot, |history|, memorySize);
        assert Slot(slot) == history[k];
        states := states + [memoryState[slot]];
        actions := actions + [memoryAction[slot]];
        rewards := rewards + [memoryReward[slot]];
        nextStates := nextStates + [memoryNextState[slot]];
        dones := dones + [if memoryDones[slot] then 1.0 else 0.0];
        i := i + 1;
      }
      r := Some(Batch(states, actions, rewards, nextStates, dones));
    }

    /** `__len__`: the number of insertions ever made, which keeps growing
        past the capacity; it is not the number of filled slots. */
    function Len(): (n: nat)
      reads Repr()
      requires Valid()
      ensures n == |history|
      ensures MaxChoice() == Min(memorySize, n)
    {
      memoryCounter
    }
  }
}
