/** The TD3 learner: live and target actor and critic parameters, and the
    training call that runs `iterations` update rounds on batches sampled
    from the replay buffer. Network forward passes and optimiser steps are
    opaque functions; only the rules that combine their results are modelled. */
module Td3Learner {
  import opened Td3Rules
  import Replay

  /** Every parameter of a network, flattened into one vector. */
  datatype Nets = Nets(actor: seq<real>, critic: seq<real>, actorTarget: seq<real>, criticTarget: seq<real>)

  /** Target networks have the shape of their live networks. */
  predicate Shaped(n: Nets)
  {
    |n.actor| == |n.actorTarget| && |n.critic| == |n.criticTarget|
  }

  /** The networks and optimisers, left abstract. A forward pass works row by
      row; an optimiser step yields the new value of parameter `j`. */
  datatype Ops = Ops(
    actorForward: (seq<real>, seq<real>) -> seq<real>,
    q1: (seq<real>, seq<real>, seq<real>) -> real,
    q2: (seq<real>, seq<real>, seq<real>) -> real,
    criticStep: (seq<real>, Replay.Batch, seq<real>, nat) -> real,
    actorStep: (seq<real>, seq<real>, seq<seq<real>>, nat) -> real)

  /** The hyper-parameters of `train` that enter the model. */
  datatype Hyper = Hyper(discount: real, tau: real, noiseClip: real, freq: int)

  /** `noise(it, i, j)`: the Gaussian draw for round `it`, batch row `i`, action component `j`. */
  type Noise = (nat, nat, nat) -> real

  /** A batch the learner can use: split from at least one experience. */
  predicate BatchOk(b: Replay.Batch)
  {
    Replay.WellFormed(b) && |b.states| > 0
  }

  // ---------------------------------------------------------------------------
  // One round, as values

  function NoiseRow(noise: Noise, it: nat, i: nat, n: nat): seq<real>
  {
    seq(n, j requires 0 <= j < n => noise(it, i, j))
  }

  /** The target actor's next actions, smoothed by clipped noise and clamped. */
  function SmoothedNext(n: Nets, it: nat, b: Replay.Batch, h: Hyper, maxAction: real, ops: Ops, noise: Noise): (a: seq<seq<real>>)
    ensures |a| == |b.nextStates|
  {
    seq(|b.nextStates|, i requires 0 <= i < |b.nextStates| =>
      var next := ops.actorForward(n.actorTarget, b.nextStates[i]);
      SmoothedAction(next, NoiseRow(noise, it, i, |next|), h.noiseClip, maxAction))
  }

  /** The pessimistic next-state value: the minimum of the target critic's heads. */
  function MinTargetQ(n: Nets, it: nat, b: Replay.Batch, h: Hyper, maxAction: real, ops: Ops, noise: Noise): (m: seq<real>)
    ensures |m| == |b.nextStates|
  {
    var a := SmoothedNext(n, it, b, h, maxAction, ops, noise);
    MinHeads(
      seq(|a|, i requires 0 <= i < |a| => ops.q1(n.criticTarget, b.nextStates[i], a[i])),
      seq(|a|, i requires 0 <= i < |a| => ops.q2(n.criticTarget, b.nextStates[i], a[i])))
  }

  /** The Bellman targets of the round. */
  function TargetQ(n: Nets, it: nat, b: Replay.Batch, h: Hyper, maxAction: real, ops: Ops, noise: Noise): (y: seq<real>)
    requires BatchOk(b)
    ensures |y| == |b.states|
  {
    Targets(b.rewards, b.terminals, h.discount, MinTargetQ(n, it, b, h, maxAction, ops, noise))
  }

  /** The critic loss: the sum of both live heads' mean squared errors. */
  function Loss(n: Nets, b: Replay.Batch, y: seq<real>, ops: Ops): (l: real)
    requires BatchOk(b) && |y| == |b.states|
    ensures l >= 0.0
  {
    var c1 := seq(|y|, i requires 0 <= i < |y| => ops.q1(n.critic, b.states[i], b.actions[i]));
    var c2 := seq(|y|, i requires 0 <= i < |y| => ops.q2(n.critic, b.states[i], b.actions[i]));
    MseNonNegative(c1, y);
    MseNonNegative(c2, y);
    Mse(c1, y) + Mse(c2, y)
  }

  /** The critic parameters after its optimiser step. */
  function CriticStepped(n: Nets, b: Replay.Batch, y: seq<real>, ops: Ops): (c: seq<real>)
    ensures |c| == |n.critic|
  {
    seq(|n.critic|, j requires 0 <= j < |n.critic| => ops.criticStep(n.critic, b, y, j))
  }

  /** The actor parameters after its optimiser step, against the stepped critic. */
  function ActorStepped(actor: seq<real>, critic: seq<real>, b: Replay.Batch, ops: Ops): (a: seq<real>)
    ensures |a| == |actor|
  {
    seq(|actor|, j requires 0 <= j < |actor| => ops.actorStep(actor, critic, b.states, j))
  }

  /** The networks after round `it`: the critic steps every round; the actor
      steps and both targets are soft-updated only on gated rounds. */
  function Round(n: Nets, it: nat, b: Replay.Batch, h: Hyper, maxAction: real, ops: Ops, noise: Noise): (r: Nets)
    requires Shaped(n) && BatchOk(b) && h.freq != 0
    ensures Shaped(r)
  {
    var critic := CriticStepped(n, b, TargetQ(n, it, b, h, maxAction, ops, noise), ops);
    if Gated(it, h.freq) then
      var actor := ActorStepped(n.actor, critic, b, ops);
      Nets(actor, critic, Blend(h.tau, actor, n.actorTarget), Blend(h.tau, critic, n.criticTarget))
    else
      Nets(n.actor, critic, n.actorTarget, n.criticTarget)
  }

  /** What round `it` did: the networks before and after, its batch, the
      pessimistic values of the batch and the critic loss. */
  datatype Rec = Rec(before: Nets, batch: Replay.Batch, minQ: seq<real>, loss: real, after: Nets)

  /** The record is what round `it` computes from its networks and its batch. */
  predicate RecOk(r: Rec, it: nat, h: Hyper, maxAction: real, ops: Ops, noise: Noise)
  {
    && Shaped(r.before) && BatchOk(r.batch) && h.freq != 0
    && r.minQ == MinTargetQ(r.before, it, r.batch, h, maxAction, ops, noise)
    && r.loss == Loss(r.before, r.batch, TargetQ(r.before, it, r.batch, h, maxAction, ops, noise), ops)
    && r.after == Round(r.before, it, r.batch, h, maxAction, ops, noise)
  }

  /** Every record is what its round computes, the k-th record being round k. */
  predicate Faithful(t: seq<Rec>, h: Hyper, maxAction: real, ops: Ops, noise: Noise)
  {
    t == [] || (Faithful(t[..|t| - 1], h, maxAction, ops, noise) && RecOk(t[|t| - 1], |t| - 1, h, maxAction, ops, noise))
  }

  /** The networks after the rounds of `t`, started from `start`. */
  function Final(start: Nets, t: seq<Rec>): Nets
  {
    if t == [] then start else t[|t| - 1].after
  }

  /** Each round starts from the networks the previous one left. */
  predicate Chained(start: Nets, t: seq<Rec>)
  {
    t == [] || (Chained(start, t[..|t| - 1]) && t[|t| - 1].before == Final(start, t[..|t| - 1]))
  }

  /** Every round saw a batch with at least one value. */
  predicate NonEmptyValues(t: seq<Rec>)
  {
    forall k :: 0 <= k < |t| ==> |t[k].minQ| > 0
  }

  /** The k-th record of a faithful trace is round k. */
  lemma {:induction false} FaithfulAt(t: seq<Rec>, k: nat, h: Hyper, maxAction: real, ops: Ops, noise: Noise)
    requires Faithful(t, h, maxAction, ops, noise) && k < |t|
    ensures RecOk(t[k], k, h, maxAction, ops, noise)
  {
    var n := |t| - 1;
    if k < n {
      FaithfulAt(t[..n], k, h, maxAction, ops, noise);
      assert t[..n][k] == t[k];
    }
  }

  /** In a chained trace the first round starts from `start` and every later
      round from the networks its predecessor left. */
  lemma {:induction false} ChainedAt(start: Nets, t: seq<Rec>, k: nat)
    requires Chained(start, t) && k < |t|
    ensures k == 0 ==> t[k].before == start
    ensures k > 0 ==> t[k].before == t[k - 1].after
  {
    var n := |t| - 1;
    if k < n {
      ChainedAt(start, t[..n], k);
      assert t[..n][k] == t[k];
      if k > 0 {
        assert t[..n][k - 1] == t[k - 1];
      }
    } else if n > 0 {
      assert t[..n][n - 1] == t[n - 1];
    }
  }

  /** `max_Q_value` after the rounds of `t`, from minus infinity. */
  function MaxOver(t: seq<Rec>): (m: ExtReal)
    requires NonEmptyValues(t)
    ensures t != [] ==> m.Fin?
    ensures t == [] ==> m == NegInf
  {
    if t == [] then NegInf else MaxExt(MaxOver(t[..|t| - 1]), MaxSeq(t[|t| - 1].minQ))
  }

  /** `average_Q_value` before the division: the sum of the batch means. */
  function SumMeans(t: seq<Rec>): real
    requires NonEmptyValues(t)
  {
    if t == [] then 0.0 else SumMeans(t[..|t| - 1]) + Mean(t[|t| - 1].minQ)
  }

  /** `average_loss` before the division: the sum of the losses. */
  function SumLoss(t: seq<Rec>): real
  {
    if t == [] then 0.0 else SumLoss(t[..|t| - 1]) + t[|t| - 1].loss
  }

  /** The three accumulators of `train` after the rounds of `t`. */
  predicate Folded(t: seq<Rec>, sumQ: real, maxQ: ExtReal, sumLoss: real)
  {
    NonEmptyValues(t) && sumQ == SumMeans(t) && maxQ == MaxOver(t) && sumLoss == SumLoss(t)
  }

  /** Appending the record of a round that starts where the trace ended keeps
      the trace chained and moves its end to that round's result. */
  lemma ExtendChained(start: Nets, t: seq<Rec>, r: Rec)
    requires Chained(start, t) && r.before == Final(start, t)
    ensures Chained(start, t + [r]) && Final(start, t + [r]) == r.after
  {
    assert (t + [r])[..|t|] == t;
  }

  /** Appending a record of the next round keeps every record faithful. */
  lemma ExtendFaithful(t: seq<Rec>, r: Rec, h: Hyper, maxAction: real, ops: Ops, noise: Noise)
    requires Faithful(t, h, maxAction, ops, noise)
    requires RecOk(r, |t|, h, maxAction, ops, noise)
    ensures Faithful(t + [r], h, maxAction, ops, noise)
  {
    assert (t + [r])[..|t|] == t;
  }

  /** The accumulators extended by one round's mean, maximum and loss are those
      of the extended trace. */
  lemma ExtendFolded(t: seq<Rec>, r: Rec, sumQ: real, maxQ: ExtReal, sumLoss: real,
                     sumQ': real, maxQ': ExtReal, sumLoss': real)
    requires Folded(t, sumQ, maxQ, sumLoss) && |r.minQ| > 0
    requires sumQ' == sumQ + Mean(r.minQ) && maxQ' == MaxExt(maxQ, MaxSeq(r.minQ)) && sumLoss' == sumLoss + r.loss
    ensures Folded(t + [r], sumQ', maxQ', sumLoss')
  {
    assert (t + [r])[..|t|] == t;
  }

  // ---------------------------------------------------------------------------
  // Properties of a round and of a call

  /** The critic changes by its optimiser step on every round; the actor and
      both targets change exactly on gated rounds, the targets by soft update
      toward the freshly stepped live networks. */
  lemma RoundSchedule(n: Nets, it: nat, b: Replay.Batch, h: Hyper, maxAction: real, ops: Ops, noise: Noise)
    requires Shaped(n) && BatchOk(b) && h.freq != 0
    ensures
      var after := Round(n, it, b, h, maxAction, ops, noise);
      && after.critic == CriticStepped(n, b, TargetQ(n, it, b, h, maxAction, ops, noise), ops)
      && (Gated(it, h.freq) ==>
            && after.actor == ActorStepped(n.actor, after.critic, b, ops)
            && after.actorTarget == Blend(h.tau, after.actor, n.actorTarget)
            && after.criticTarget == Blend(h.tau, after.critic, n.criticTarget))
      && (!Gated(it, h.freq) ==>
            after.actor == n.actor && after.actorTarget == n.actorTarget
            && after.criticTarget == n.criticTarget)
  {
  }

  /** Between two gated rounds the actor and both targets stay as they are:
      if no round after `i` up to `j` passes the gate, round `j` leaves the
      actor and the targets that round `i` left. */
  lemma {:induction false} HeldBetweenGates(start: Nets, t: seq<Rec>, h: Hyper, maxAction: real, ops: Ops, noise: Noise,
                                            i: nat, j: nat)
    requires Chained(start, t) && Faithful(t, h, maxAction, ops, noise)
    requires h.freq != 0 && i <= j < |t|
    requires forall k: nat :: i < k <= j ==> !Gated(k, h.freq)
    ensures t[j].after.actor == t[i].after.actor
    ensures t[j].after.actorTarget == t[i].after.actorTarget
    ensures t[j].after.criticTarget == t[i].after.criticTarget
  {
    if i < j {
      HeldBetweenGates(start, t, h, maxAction, ops, noise, i, j - 1);
      ChainedAt(start, t, j);
      FaithfulAt(t, j, h, maxAction, ops, noise);
      RoundSchedule(t[j].before, j, t[j].batch, h, maxAction, ops, noise);
    }
  }

  /** The Bellman targets of a round are built from the minimum of the target
      heads; with a terminal flag in [0, 1] and a non-negative discount none
      exceeds the target computed off either head alone. */
  lemma RoundTargetsPessimistic(n: Nets, it: nat, b: Replay.Batch, h: Hyper, maxAction: real, ops: Ops, noise: Noise, i: nat)
    requires BatchOk(b) && i < |b.states|
    requires h.discount >= 0.0 && 0 <= b.terminals[i][0] <= 1
    ensures
      var a := SmoothedNext(n, it, b, h, maxAction, ops, noise);
      var d := b.terminals[i][0] as real;
      var y := TargetQ(n, it, b, h, maxAction, ops, noise)[i];
      && y <= Bellman(b.rewards[i][0], d, h.discount, ops.q1(n.criticTarget, b.nextStates[i], a[i]))
      && y <= Bellman(b.rewards[i][0], d, h.discount, ops.q2(n.criticTarget, b.nextStates[i], a[i]))
  {
    var a := SmoothedNext(n, it, b, h, maxAction, ops, noise);
    var q1 := ops.q1(n.criticTarget, b.nextStates[i], a[i]);
    var q2 := ops.q2(n.criticTarget, b.nextStates[i], a[i]);
    assert MinTargetQ(n, it, b, h, maxAction, ops, noise)[i] == Min(q1, q2);
    PessimisticBound(b.rewards[i][0], b.terminals[i][0] as real, h.discount, q1, q2);
  }

  /** Every smoothed next action of a round lies in `[-maxAction, maxAction]`. */
  lemma SmoothedInRange(n: Nets, it: nat, b: Replay.Batch, h: Hyper, maxAction: real, ops: Ops, noise: Noise, i: nat, j: nat)
    requires maxAction >= 0.0 && i < |b.nextStates|
    requires j < |SmoothedNext(n, it, b, h, maxAction, ops, noise)[i]|
    ensures -maxAction <= SmoothedNext(n, it, b, h, maxAction, ops, noise)[i][j] <= maxAction
  {
    var next := ops.actorForward(n.actorTarget, b.nextStates[i]);
    assert SmoothedNext(n, it, b, h, maxAction, ops, noise)[i]
      == SmoothedAction(next, NoiseRow(noise, it, i, |next|), h.noiseClip, maxAction);
  }

  /** The running maximum bounds every round's largest pessimistic value. */
  lemma {:induction false} MaxOverBound(t: seq<Rec>, k: nat)
    requires NonEmptyValues(t) && k < |t|
    ensures MaxOver(t).Fin? && MaxSeq(t[k].minQ) <= MaxOver(t).v
  {
    var n := |t| - 1;
    if k < n {
      MaxOverBound(t[..n], k);
      assert t[..n][k] == t[k];
    }
  }

  /** The running maximum is one of the rounds' maxima. */
  lemma {:induction false} MaxOverAttained(t: seq<Rec>)
    requires NonEmptyValues(t) && t != []
    ensures exists k :: 0 <= k < |t| && MaxOver(t) == Fin(MaxSeq(t[k].minQ))
  {
    var n := |t| - 1;
    assert MaxOver(t) == MaxExt(MaxOver(t[..n]), MaxSeq(t[n].minQ));
    if MaxOver(t) == Fin(MaxSeq(t[n].minQ)) {
    } else {
      assert t[..n] != [];
      MaxOverAttained(t[..n]);
      var k :| 0 <= k < n && MaxOver(t[..n]) == Fin(MaxSeq(t[..n][k].minQ));
      assert t[..n][k] == t[k];
    }
  }

  /** The critic loss of every round, and so their sum, is never negative. */
  lemma {:induction false} SumLossNonNegative(t: seq<Rec>, h: Hyper, maxAction: real, ops: Ops, noise: Noise)
    requires Faithful(t, h, maxAction, ops, noise)
    ensures SumLoss(t) >= 0.0
  {
    if t != [] {
      var n := |t| - 1;
      SumLossNonNegative(t[..n], h, maxAction, ops, noise);
    }
  }

  /** With `tau = 0` the target networks never move. */
  lemma {:induction false} FrozenTargets(start: Nets, t: seq<Rec>, h: Hyper, maxAction: real, ops: Ops, noise: Noise)
    requires Chained(start, t) && h.tau == 0.0
    requires Faithful(t, h, maxAction, ops, noise)
    ensures Final(start, t).actorTarget == start.actorTarget
    ensures Final(start, t).criticTarget == start.criticTarget
  {
    if t != [] {
      var n := |t| - 1;
      var r := t[n];
      FrozenTargets(start, t[..n], h, maxAction, ops, noise);
      assert r.before == Final(start, t[..n]);
      RoundSchedule(r.before, n, r.batch, h, maxAction, ops, noise);
      if Gated(n, h.freq) {
        BlendZero(r.after.actor, r.before.actorTarget);
        BlendZero(r.after.critic, r.before.criticTarget);
      }
    }
  }

  /** With `tau = 1` a gated round leaves each target equal to its live network. */
  lemma CopiedTargets(r: Rec, it: nat, h: Hyper, maxAction: real, ops: Ops, noise: Noise)
    requires RecOk(r, it, h, maxAction, ops, noise) && h.tau == 1.0 && Gated(it, h.freq)
    ensures r.after.actorTarget == r.after.actor && r.after.criticTarget == r.after.critic
  {
    RoundSchedule(r.before, it, r.batch, h, maxAction, ops, noise);
    BlendOne(r.after.actor, r.before.actorTarget);
    BlendOne(r.after.critic, r.before.criticTarget);
  }

  /** The batch was drawn from the buffer contents `buf` by `sample_batch`. */
  ghost predicate SampledFrom(b: Replay.Batch, buf: seq<Replay.Experience>, batchSize: int)
  {
    exists p :: Replay.IsDraw(p, |buf|, Replay.Min(batchSize, |buf|)) && b == Replay.Split(Replay.Gather(buf, p))
  }

  /** Every round's batch was drawn from `buf`. */
  ghost predicate AllSampled(t: seq<Rec>, buf: seq<Replay.Experience>, batchSize: int)
  {
    t == [] || (AllSampled(t[..|t| - 1], buf, batchSize) && SampledFrom(t[|t| - 1].batch, buf, batchSize))
  }

  /** A sampled batch holds `min(batchSize, |buf|)` rows, and each row, read
      back across the five sequences, is an experience the buffer holds. */
  lemma SampledRowsStored(b: Replay.Batch, buf: seq<Replay.Experience>, batchSize: int, i: nat)
    requires SampledFrom(b, buf, batchSize)
    ensures Replay.WellFormed(b) && |b.states| == Replay.Min(batchSize, |buf|)
    ensures i < |b.states| ==> Replay.Zip(b)[i] in buf
  {
    var p :| Replay.IsDraw(p, |buf|, Replay.Min(batchSize, |buf|)) && b == Replay.Split(Replay.Gather(buf, p));
    Replay.ZipSplit(Replay.Gather(buf, p));
    if i < |b.states| {
      Replay.SampledAreStored(buf, p, i);
    }
  }

  /** Every batch of an all-sampled trace was drawn from `buf`. */
  lemma {:induction false} SampledAt(t: seq<Rec>, buf: seq<Replay.Experience>, batchSize: int, k: nat)
    requires AllSampled(t, buf, batchSize) && k < |t|
    ensures SampledFrom(t[k].batch, buf, batchSize)
  {
    var n := |t| - 1;
    if k < n {
      SampledAt(t[..n], buf, batchSize, k);
      assert t[..n][k] == t[k];
    }
  }

  lemma ExtendSampled(t: seq<Rec>, r: Rec, buf: seq<Replay.Experience>, batchSize: int)
    requires AllSampled(t, buf, batchSize) && SampledFrom(r.batch, buf, batchSize)
    ensures AllSampled(t + [r], buf, batchSize)
  {
    assert (t + [r])[..|t|] == t;
  }

  /** The records of the rounds of `train` so far, started from `start`, and
      its accumulators. */
  ghost predicate Progress(start: Nets, t: seq<Rec>, buf: seq<Replay.Experience>, batchSize: int, h: Hyper,
                           maxAction: real, ops: Ops, noise: Noise, sumQ: real, maxQ: ExtReal, sumLoss: real)
  {
    && Chained(start, t) && Faithful(t, h, maxAction, ops, noise) && AllSampled(t, buf, batchSize)
    && Folded(t, sumQ, maxQ, sumLoss)
  }

  /** The record of the next round, sampled from the buffer and run on the
      networks the previous rounds left, extends the progress by one round. */
  lemma Advance(start: Nets, t: seq<Rec>, r: Rec, buf: seq<Replay.Experience>, batchSize: int, h: Hyper,
                maxAction: real, ops: Ops, noise: Noise, sumQ: real, maxQ: ExtReal, sumLoss: real,
                sumQ': real, maxQ': ExtReal, sumLoss': real)
    requires Progress(start, t, buf, batchSize, h, maxAction, ops, noise, sumQ, maxQ, sumLoss)
    requires r.before == Final(start, t) && RecOk(r, |t|, h, maxAction, ops, noise)
    requires SampledFrom(r.batch, buf, batchSize)
    requires sumQ' == sumQ + Mean(r.minQ) && maxQ' == MaxExt(maxQ, MaxSeq(r.minQ)) && sumLoss' == sumLoss + r.loss
    ensures Final(start, t + [r]) == r.after
    ensures Progress(start, t + [r], buf, batchSize, h, maxAction, ops, noise, sumQ', maxQ', sumLoss')
  {
    ExtendChained(start, t, r);
    ExtendFaithful(t, r, h, maxAction, ops, noise);
    ExtendSampled(t, r, buf, batchSize);
    ExtendFolded(t, r, sumQ, maxQ, sumLoss, sumQ', maxQ', sumLoss');
  }

  // ---------------------------------------------------------------------------
  // The in-place soft update

  /** The soft update done in place: each target parameter is overwritten by
      its blend with the matching live parameter, front to back. */
  method SoftUpdate(tau: real, live: array<real>, target: array<real>)
    requires live != target && live.Length == target.Length
    modifies target
    ensures target[..] == Blend(tau, live[..], old(target[..]))
  {
    var j := 0;
    while j < target.Length
      invariant 0 <= j <= target.Length
      invariant forall i :: 0 <= i < j ==> target[i] == Lerp(tau, live[i], old(target[i]))
      invariant forall i :: j <= i < target.Length ==> target[i] == old(target[i])
    {
      target[j] := tau * live[j] + (1.0 - tau) * target[j];
      j := j + 1;
    }
  }

  // ---------------------------------------------------------------------------
  // The learner

  class Learner {
    const actor: array<real>
    const critic: array<real>
    const actorTarget: array<real>
    const criticTarget: array<real>
    const maxAction: real
    var iterCount: nat

    ghost predicate Valid()
      reads this
    {
      && actor != critic && actor != actorTarget && actor != criticTarget
      && critic != actorTarget && critic != criticTarget && actorTarget != criticTarget
      && actor.Length == actorTarget.Length && critic.Length == criticTarget.Length
    }

    function Snapshot(): (n: Nets)
      reads this, actor, critic, actorTarget, criticTarget
      ensures Valid() ==> Shaped(n)
    {
      Nets(actor[..], critic[..], actorTarget[..], criticTarget[..])
    }

    /** The live networks start from the given parameters, and each target is
        loaded with exactly its live network's parameters. */
    constructor (actorInit: seq<real>, criticInit: seq<real>, maxAction: real)
      ensures Valid()
      ensures Snapshot() == Nets(actorInit, criticInit, actorInit, criticInit)
      ensures this.maxAction == maxAction && iterCount == 0
      ensures fresh(actor) && fresh(critic) && fresh(actorTarget) && fresh(criticTarget)
    {
      actor := new real[|actorInit|](i requires 0 <= i < |actorInit| => actorInit[i]);
      actorTarget := new real[|actorInit|](i requires 0 <= i < |actorInit| => actorInit[i]);
      critic := new real[|criticInit|](i requires 0 <= i < |criticInit| => criticInit[i]);
      criticTarget := new real[|criticInit|](i requires 0 <= i < |criticInit| => criticInit[i]);
      this.maxAction := maxAction;
      iterCount := 0;
    }

    /** One round of the loop in `train`: sample, compute the targets and the
        loss, step the critic, and on gated rounds step the actor and
        soft-update both targets in place. */
    method TrainRound(buffer: Replay.ReplayBuffer, it: nat, batchSize: int, h: Hyper, ops: Ops, noise: Noise)
      returns (m: seq<real>, loss: real, b: Replay.Batch)
      requires Valid() && buffer.Valid()
      requires buffer.count > 0 && batchSize > 0 && h.freq != 0
      modifies actor, critic, actorTarget, criticTarget
      ensures SampledFrom(b, buffer.buffer, batchSize) && |m| > 0
      ensures RecOk(Rec(old(Snapshot()), b, m, loss, Snapshot()), it, h, maxAction, ops, noise)
    {
      var r, positions := buffer.SampleBatch(batchSize);
      b := r.value;
      assert SampledFrom(b, buffer.buffer, batchSize);
      var before := Snapshot();
      m := MinTargetQ(before, it, b, h, maxAction, ops, noise);
      var y := TargetQ(before, it, b, h, maxAction, ops, noise);
      loss := Loss(before, b, y, ops);
      StepCritic(b, y, ops);
      if it % h.freq == 0 {
        StepActor(b, ops);
        SoftUpdate(h.tau, actor, actorTarget);
        SoftUpdate(h.tau, critic, criticTarget);
      }
    }

    /** The critic's optimiser step, in place. */
    method StepCritic(b: Replay.Batch, y: seq<real>, ops: Ops)
      requires Valid()
      modifies critic
      ensures critic[..] == CriticStepped(old(Snapshot()), b, y, ops)
    {
      var critic0 := critic[..];
      forall j | 0 <= j < critic.Length {
        critic[j] := ops.criticStep(critic0, b, y, j);
      }
    }

    /** The actor's optimiser step against the current critic, in place. */
    method StepActor(b: Replay.Batch, ops: Ops)
      requires Valid()
      modifies actor
      ensures actor[..] == ActorStepped(old(actor[..]), critic[..], b, ops)
    {
      var actor0 := actor[..];
      var critic0 := critic[..];
      forall j | 0 <= j < actor.Length {
        actor[j] := ops.actorStep(actor0, critic0, b.states, j);
      }
      assert actor[..] == ActorStepped(actor0, critic0, b, ops);
      assert critic[..] == critic0;
      assert old(actor[..]) == actor0;
    }

    /** One pass through the loop of `train`: a round, its record, and the
        accumulators updated with its values and its loss. */
    method RecordRound(buffer: Replay.ReplayBuffer, it: nat, batchSize: int, h: Hyper, ops: Ops, noise: Noise,
                       ghost start: Nets, ghost trace: seq<Rec>, sumQ: real, maxQ: ExtReal, sumLoss: real)
      returns (sumQ': real, maxQ': ExtReal, sumLoss': real, ghost trace': seq<Rec>)
      requires Valid() && buffer.Valid()
      requires buffer.count > 0 && batchSize > 0 && h.freq != 0 && |trace| == it
      requires Snapshot() == Final(start, trace)
      requires Progress(start, trace, buffer.buffer, batchSize, h, maxAction, ops, noise, sumQ, maxQ, sumLoss)
      modifies actor, critic, actorTarget, criticTarget
      ensures |trace'| == it + 1 && Snapshot() == Final(start, trace')
      ensures Progress(start, trace', buffer.buffer, batchSize, h, maxAction, ops, noise, sumQ', maxQ', sumLoss')
    {
      ghost var before := Snapshot();
      var m, loss, b := TrainRound(buffer, it, batchSize, h, ops, noise);
      ghost var rec := Rec(before, b, m, loss, Snapshot());
      sumQ' := sumQ + Mean(m);
      maxQ' := MaxExt(maxQ, MaxSeq(m));
      sumLoss' := sumLoss + loss;
      trace' := trace + [rec];
      Advance(start, trace, rec, buffer.buffer, batchSize, h, maxAction, ops, noise, sumQ, maxQ, sumLoss, sumQ', maxQ', sumLoss');
    }

    /** `iterations` rounds on batches sampled from `buffer`. Returns the
        records of the rounds and the three accumulators the source writes to
        tensorboard: the sum of the batch means of the pessimistic values, their
        maximum and the sum of the losses. The source fails on an empty batch,
        already in the target actor's forward pass, and on a zero update
        frequency, at the gate of round 0 after its critic step. */
    method Train(buffer: Replay.ReplayBuffer, iterations: nat, batchSize: int, h: Hyper, ops: Ops, noise: Noise)
      returns (sumQ: real, maxQ: ExtReal, sumLoss: real, ghost trace: seq<Rec>)
      requires Valid() && buffer.Valid()
      requires iterations > 0 ==> buffer.count > 0 && batchSize > 0 && h.freq != 0
      modifies this, actor, critic, actorTarget, criticTarget
      ensures Valid()
      ensures iterCount == old(iterCount) + 1
      ensures |trace| == iterations && Chained(old(Snapshot()), trace) && Snapshot() == Final(old(Snapshot()), trace)
      ensures Faithful(trace, h, maxAction, ops, noise) && AllSampled(trace, buffer.buffer, batchSize)
      ensures Folded(trace, sumQ, maxQ, sumLoss)
    {
      ghost var start := Snapshot();
      sumQ, maxQ, sumLoss := 0.0, NegInf, 0.0;
      trace := [];
      var it := 0;
      while it < iterations
        invariant 0 <= it <= iterations && |trace| == it
        invariant Snapshot() == Final(start, trace)
        invariant Progress(start, trace, buffer.buffer, batchSize, h, maxAction, ops, noise, sumQ, maxQ, sumLoss)
        modifies actor, critic, actorTarget, criticTarget
      {
        sumQ, maxQ, sumLoss, trace := RecordRound(buffer, it, batchSize, h, ops, noise, start, trace, sumQ, maxQ, sumLoss);
        it := it + 1;
      }
      iterCount := iterCount + 1;
    }
  }

  /** The training script's own flow: build a learner and run one training
      call on a buffer filled by the episode loop. The new learner's targets
      start as copies, and the run is chained from those initial networks. */
  method CreateAndTrain(actorInit: seq<real>, criticInit: seq<real>, maxAction: real,
                        buffer: Replay.ReplayBuffer, iterations: nat, batchSize: int,
                        h: Hyper, ops: Ops, noise: Noise)
    returns (l: Learner, sumQ: real, maxQ: ExtReal, sumLoss: real, ghost trace: seq<Rec>)
    requires buffer.Valid()
    requires iterations > 0 ==> buffer.count > 0 && batchSize > 0 && h.freq != 0
    ensures fresh(l) && l.Valid() && l.iterCount == 1 && l.maxAction == maxAction
    ensures |trace| == iterations
    ensures Chained(Nets(actorInit, criticInit, actorInit, criticInit), trace)
    ensures l.Snapshot() == Final(Nets(actorInit, criticInit, actorInit, criticInit), trace)
    ensures Faithful(trace, h, maxAction, ops, noise) && AllSampled(trace, buffer.buffer, batchSize)
    ensures Folded(trace, sumQ, maxQ, sumLoss)
  {
    l := new Learner(actorInit, criticInit, maxAction);
    sumQ, maxQ, sumLoss, trace := l.Train(buffer, iterations, batchSize, h, ops, noise);
  }
}
