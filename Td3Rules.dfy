/** The scalar and elementwise update rules of one TD3 training round, and
    the terminal-flag rule of the training loop, over real numbers. */
module Td3Rules {

  function Min(x: real, y: real): real { if x <= y then x else y }
  function Max(x: real, y: real): real { if x >= y then x else y }
  function Abs(x: real): real { if x >= 0.0 then x else -x }

  // ---------------------------------------------------------------------------
  // Target-policy smoothing

  /** `torch.clamp(x, lo, hi)`, that is `min(max(x, lo), hi)`; when `lo > hi`
      every value becomes `hi`, as in torch. */
  function Clamp(x: real, lo: real, hi: real): (r: real)
    ensures r <= hi
    ensures lo <= hi ==> lo <= r
    ensures lo <= x <= hi ==> r == x
    ensures x <= lo <= hi ==> r == lo
    ensures lo <= hi <= x ==> r == hi
    ensures hi < lo ==> r == hi
  {
    Min(Max(x, lo), hi)
  }

  function ClampVec(v: seq<real>, lo: real, hi: real): seq<real>
  {
    seq(|v|, j requires 0 <= j < |v| => Clamp(v[j], lo, hi))
  }

  function AddVec(u: seq<real>, v: seq<real>): seq<real>
    requires |u| == |v|
  {
    seq(|u|, j requires 0 <= j < |u| => u[j] + v[j])
  }

  /** The smoothed next action: the target actor's action plus the noise clamped
      to `[-noiseClip, noiseClip]`, the sum clamped to `[-maxAction, maxAction]`. */
  function SmoothedAction(next: seq<real>, noise: seq<real>, noiseClip: real, maxAction: real): (r: seq<real>)
    requires |noise| == |next|
    ensures |r| == |next|
    ensures maxAction >= 0.0 ==> forall j :: 0 <= j < |r| ==> -maxAction <= r[j] <= maxAction
    ensures noiseClip >= 0.0 ==> forall j :: 0 <= j < |r| && -maxAction <= next[j] <= maxAction ==>
      Abs(r[j] - next[j]) <= noiseClip
  {
    ClampVec(AddVec(next, ClampVec(noise, -noiseClip, noiseClip)), -maxAction, maxAction)
  }

  // ---------------------------------------------------------------------------
  // Twin heads and the Bellman target

  /** `torch.min` of the two target heads, elementwise. */
  function MinHeads(q1: seq<real>, q2: seq<real>): (m: seq<real>)
    requires |q1| == |q2|
    ensures |m| == |q1|
    ensures forall i :: 0 <= i < |m| ==> m[i] <= q1[i] && m[i] <= q2[i]
    ensures forall i :: 0 <= i < |m| ==> m[i] == q1[i] || m[i] == q2[i]
  {
    seq(|q1|, i requires 0 <= i < |q1| => Min(q1[i], q2[i]))
  }

  /** One Bellman target: `reward + (1 - done) * discount * q`. */
  function Bellman(reward: real, done: real, discount: real, q: real): (y: real)
    ensures done == 1.0 ==> y == reward
    ensures done == 0.0 ==> y == reward + discount * q
  {
    reward + (1.0 - done) * discount * q
  }

  /** The Bellman targets of a batch, from its reward and terminal columns. */
  function Targets(rewards: seq<seq<real>>, dones: seq<seq<int>>, discount: real, q: seq<real>): (y: seq<real>)
    requires |rewards| == |q| && |dones| == |q|
    requires forall i :: 0 <= i < |q| ==> |rewards[i]| == 1 && |dones[i]| == 1
    ensures |y| == |q|
  {
    seq(|q|, i requires 0 <= i < |q| => Bellman(rewards[i][0], dones[i][0] as real, discount, q[i]))
  }

  /** A terminal row bootstraps nothing: its target is its reward. */
  lemma TerminalTarget(rewards: seq<seq<real>>, dones: seq<seq<int>>, discount: real, q: seq<real>, i: nat)
    requires |rewards| == |q| && |dones| == |q|
    requires forall i :: 0 <= i < |q| ==> |rewards[i]| == 1 && |dones[i]| == 1
    requires i < |q| && dones[i][0] == 1
    ensures Targets(rewards, dones, discount, q)[i] == rewards[i][0]
  {
  }

  /** A non-terminal row adds the discounted next value. */
  lemma NonTerminalTarget(rewards: seq<seq<real>>, dones: seq<seq<int>>, discount: real, q: seq<real>, i: nat)
    requires |rewards| == |q| && |dones| == |q|
    requires forall i :: 0 <= i < |q| ==> |rewards[i]| == 1 && |dones[i]| == 1
    requires i < |q| && dones[i][0] == 0
    ensures Targets(rewards, dones, discount, q)[i] == rewards[i][0] + discount * q[i]
  {
  }

  /** The target built from the minimum never exceeds the target built from
      either head (for a terminal flag in [0, 1] and a non-negative discount). */
  lemma PessimisticBound(reward: real, done: real, discount: real, q1: real, q2: real)
    requires 0.0 <= done <= 1.0 && discount >= 0.0
    ensures Bellman(reward, done, discount, Min(q1, q2)) <= Bellman(reward, done, discount, q1)
    ensures Bellman(reward, done, discount, Min(q1, q2)) <= Bellman(reward, done, discount, q2)
  {
    var w := (1.0 - done) * discount;
    assert w >= 0.0 by {
      assert 1.0 - done >= 0.0;
    }
    assert (1.0 - done) * discount * Min(q1, q2) == w * Min(q1, q2);
    assert (1.0 - done) * discount * q1 == w * q1;
    assert (1.0 - done) * discount * q2 == w * q2;
    MulMonotone(w, Min(q1, q2), q1);
    MulMonotone(w, Min(q1, q2), q2);
  }

  lemma MulMonotone(w: real, x: real, y: real)
    requires w >= 0.0 && x <= y
    ensures w * x <= w * y
  {
    assert w * y - w * x == w * (y - x);
  }

  /** When head 2 lies below head 1 on every row, the batch target is the
      Bellman expression computed off head 2, never head 1. */
  lemma {:induction false} TargetFollowsLowerHead(rewards: seq<seq<real>>, dones: seq<seq<int>>, discount: real,
                                                  q1: seq<real>, q2: seq<real>)
    requires |q1| == |q2| && |rewards| == |q1| && |dones| == |q1|
    requires forall i :: 0 <= i < |q1| ==> |rewards[i]| == 1 && |dones[i]| == 1
    requires forall i :: 0 <= i < |q1| ==> q2[i] <= q1[i]
    ensures Targets(rewards, dones, discount, MinHeads(q1, q2)) == Targets(rewards, dones, discount, q2)
  {
    var m := MinHeads(q1, q2);
    assert m == q2 by {
      forall i | 0 <= i < |m| ensures m[i] == q2[i] {
        assert m[i] == Min(q1[i], q2[i]);
      }
    }
  }

  // ---------------------------------------------------------------------------
  // Soft update of target parameters

  /** One soft-updated parameter: `tau * live + (1 - tau) * target`. */
  function Lerp(tau: real, live: real, target: real): (r: real)
    ensures tau == 1.0 ==> r == live
    ensures tau == 0.0 ==> r == target
    ensures 0.0 <= tau <= 1.0 ==> Min(live, target) <= r <= Max(live, target)
  {
    LerpBetween(tau, live, target);
    tau * live + (1.0 - tau) * target
  }

  lemma LerpBetween(tau: real, live: real, target: real)
    ensures 0.0 <= tau <= 1.0 ==>
      Min(live, target) <= tau * live + (1.0 - tau) * target <= Max(live, target)
  {
    if 0.0 <= tau <= 1.0 {
      var r := tau * live + (1.0 - tau) * target;
      if target <= live {
        Between(target, live - target, tau, r);
      } else {
        Between(live, target - live, 1.0 - tau, r);
      }
    }
  }

  /** `base + d * f` lies between `base` and `base + d` for `d >= 0` and `f` in [0, 1]. */
  lemma Between(base: real, d: real, f: real, r: real)
    requires 0.0 <= f <= 1.0 && 0.0 <= d && r == base + d * f
    ensures base <= r <= base + d
  {
    MulMonotone(d, 0.0, f);
    MulMonotone(d, f, 1.0);
    assert d * 0.0 == 0.0 && d * 1.0 == d;
  }

  /** The soft update applied elementwise to a parameter vector. */
  function Blend(tau: real, live: seq<real>, target: seq<real>): (r: seq<real>)
    requires |live| == |target|
    ensures |r| == |live|
  {
    seq(|live|, j requires 0 <= j < |live| => Lerp(tau, live[j], target[j]))
  }

  /** `tau = 1` copies the live parameters. */
  lemma BlendOne(live: seq<real>, target: seq<real>)
    requires |live| == |target|
    ensures Blend(1.0, live, target) == live
  {
    var r := Blend(1.0, live, target);
    forall j | 0 <= j < |live| ensures r[j] == live[j] {
      assert r[j] == 1.0 * live[j] + 0.0 * target[j];
    }
  }

  /** `tau = 0` leaves the target unchanged. */
  lemma BlendZero(live: seq<real>, target: seq<real>)
    requires |live| == |target|
    ensures Blend(0.0, live, target) == target
  {
    var r := Blend(0.0, live, target);
    forall j | 0 <= j < |live| ensures r[j] == target[j] {
      assert r[j] == 0.0 * live[j] + 1.0 * target[j];
    }
  }

  /** One soft update scales the distance to the live value by exactly |1 - tau|. */
  lemma LerpDistance(tau: real, live: real, target: real)
    ensures Abs(Lerp(tau, live, target) - live) == Abs(1.0 - tau) * Abs(target - live)
  {
    assert Lerp(tau, live, target) - live == (1.0 - tau) * (target - live);
    AbsMul(1.0 - tau, target - live);
  }

  /** The same, for every parameter of a vector. */
  lemma BlendDistance(tau: real, live: seq<real>, target: seq<real>, j: nat)
    requires |live| == |target| && j < |live|
    ensures Abs(Blend(tau, live, target)[j] - live[j]) == Abs(1.0 - tau) * Abs(target[j] - live[j])
  {
    LerpDistance(tau, live[j], target[j]);
  }

  lemma AbsMul(x: real, y: real)
    ensures Abs(x * y) == Abs(x) * Abs(y)
  {
    if x >= 0.0 && y >= 0.0 {
      assert x * y >= 0.0;
    } else if x >= 0.0 {
      assert x * (-y) >= 0.0;
    } else if y >= 0.0 {
      assert (-x) * y >= 0.0;
    } else {
      assert (-x) * (-y) >= 0.0;
    }
  }

  /** For `0 < tau < 1` an unequal parameter strictly approaches the live one. */
  lemma LerpApproaches(tau: real, live: real, target: real)
    requires 0.0 < tau < 1.0 && target != live
    ensures Abs(Lerp(tau, live, target) - live) < Abs(target - live)
  {
    LerpDistance(tau, live, target);
    var a := Abs(target - live);
    var c := 1.0 - tau;
    assert Abs(c) == c;
    assert c * a == a - tau * a;
    MulPositive(tau, a);
  }

  lemma BlendApproaches(tau: real, live: seq<real>, target: seq<real>, j: nat)
    requires |live| == |target| && j < |live|
    requires 0.0 < tau < 1.0 && target[j] != live[j]
    ensures Abs(Blend(tau, live, target)[j] - live[j]) < Abs(target[j] - live[j])
  {
    LerpApproaches(tau, live[j], target[j]);
  }

  lemma MulPositive(x: real, y: real)
    requires x > 0.0 && y > 0.0
    ensures x * y > 0.0
  {
  }

  // ---------------------------------------------------------------------------
  // The delayed policy update schedule

  /** The actor and both targets are updated on round `it` exactly when
      `it % policyUpdateFreq == 0`. Dafny's `%` is zero exactly when Python's
      is, also for a negative divisor. */
  predicate Gated(it: nat, freq: int): (g: bool)
    requires freq != 0
    ensures g <==> it % IAbs(freq) == 0
  {
    ModZeroAbs(it, freq);
    it % freq == 0
  }

  /** The number of gated rounds among rounds 0 .. n-1. */
  function GatedCount(n: nat, freq: int): nat
    requires freq != 0
  {
    if n == 0 then 0 else GatedCount(n - 1, freq) + (if Gated(n - 1, freq) then 1 else 0)
  }

  function IAbs(x: int): nat { if x >= 0 then x else -x }

  /** Integer division is determined by quotient and remainder. */
  lemma DivUnique(a: int, f: int, q: int, r: int)
    requires f > 0 && a == q * f + r && 0 <= r < f
    ensures a / f == q && a % f == r
  {
    var q' := a / f;
    var r' := a % f;
    assert a == q' * f + r';
    assert (q' - q) * f == r - r';
    SmallMultipleIsZero(q' - q, f);
  }

  lemma SmallMultipleIsZero(x: int, f: int)
    requires f > 0 && -f < x * f < f
    ensures x == 0
  {
    if x >= 1 {
      MulAtLeast(x, f);
      assert false;
    } else if x <= -1 {
      MulAtMost(x, f);
      assert false;
    }
  }

  lemma {:induction false} MulAtLeast(x: int, f: int)
    requires x >= 1 && f > 0
    ensures x * f >= f
  {
    if x > 1 {
      MulAtLeast(x - 1, f);
      assert x * f == (x - 1) * f + f;
    }
  }

  lemma MulAtMost(x: int, f: int)
    requires x <= -1 && f > 0
    ensures x * f <= -f
  {
    MulAtLeast(-x, f);
    assert (-x) * f == -(x * f);
  }

  /** The remainder by `f` is zero exactly when the remainder by `|f|` is. */
  lemma ModZeroAbs(n: nat, f: int)
    requires f != 0
    ensures (n % f == 0) <==> (n % IAbs(f) == 0)
  {
    if f < 0 {
      var q := n / f;
      assert n == q * f + n % f;
      assert n == (-q) * (-f) + n % f;
      DivUnique(n, -f, -q, n % f);
    }
  }

  /** Stepping from `m` to `m + 1` rounds raises ceil(m / f) exactly when `m` is
      a multiple of `f`. */
  lemma CeilStep(m: nat, f: int)
    requires f > 0
    ensures (m + f) / f == (m + f - 1) / f + (if m % f == 0 then 1 else 0)
  {
    var q := m / f;
    var r := m % f;
    assert m == q * f + r;
    MulSucc(q, f);
    if r == 0 {
      DivUnique(m + f - 1, f, q, f - 1);
      DivUnique(m + f, f, q + 1, 0);
    } else {
      DivUnique(m + f - 1, f, q + 1, r - 1);
      DivUnique(m + f, f, q + 1, r);
    }
  }

  lemma MulSucc(q: int, f: int)
    ensures (q + 1) * f == q * f + f
  {
  }

  /** One call of `train` with `n` rounds updates the actor ceil(n / |freq|)
      times: rounds 0, f, 2f, ... */
  lemma {:induction false} GatedCountIsCeiling(n: nat, freq: int)
    requires freq != 0
    ensures GatedCount(n, freq) == (n + IAbs(freq) - 1) / IAbs(freq)
  {
    if n > 0 {
      var m := n - 1;
      GatedCountIsCeiling(m, freq);
      ModZeroAbs(m, freq);
      CeilStep(m, IAbs(freq));
    }
  }

  // ---------------------------------------------------------------------------
  // Terminal flags of the training loop

  /** The flag stored in the buffer (`doneBool`) and the flag that ends the
      episode (`done`) after a step taken with `episodeTimesteps` steps done. */
  datatype StepFlags = StepFlags(doneBool: int, done: int)

  function B2I(b: bool): int { if b then 1 else 0 }

  /** On the `maxEp`-th step the stored flag is 0 (a time limit is not a terminal
      state) while the episode is ended; otherwise both follow the environment. */
  function Flags(episodeTimesteps: nat, envDone: bool, maxEp: int): (f: StepFlags)
    ensures 0 <= f.doneBool <= 1 && 0 <= f.done <= 1
    ensures f.doneBool == 1 ==> f.done == 1
    ensures f.done == 1 <==> (envDone || episodeTimesteps + 1 == maxEp)
    ensures f.doneBool == 1 <==> (envDone && episodeTimesteps + 1 != maxEp)
  {
    if episodeTimesteps + 1 == maxEp then StepFlags(0, 1)
    else StepFlags(B2I(envDone), B2I(envDone))
  }

  /** The number of steps an episode runs, starting from `t` steps done, when the
      environment reports `envDones` step by step (at most `|envDones|`). */
  function EpisodeSteps(envDones: seq<bool>, t: nat, maxEp: int): (n: nat)
    ensures n <= |envDones|
    ensures envDones != [] ==> n >= 1
  {
    if envDones == [] then 0
    else if Flags(t, envDones[0], maxEp).done == 1 then 1
    else 1 + EpisodeSteps(envDones[1..], t + 1, maxEp)
  }

  /** No episode runs longer than `maxEp` steps, whatever the environment reports. */
  lemma {:induction false} EpisodeBounded(envDones: seq<bool>, t: nat, maxEp: int)
    requires t < maxEp
    ensures EpisodeSteps(envDones, t, maxEp) <= maxEp - t
  {
    if envDones != [] && Flags(t, envDones[0], maxEp).done != 1 {
      EpisodeBounded(envDones[1..], t + 1, maxEp);
    }
  }

  // ---------------------------------------------------------------------------
  // Statistics of a round

  /** A real number or minus infinity, the start value of `max_Q_value`. */
  datatype ExtReal = NegInf | Fin(v: real)

  predicate LeExt(x: ExtReal, y: ExtReal)
  {
    x.NegInf? || (y.Fin? && x.v <= y.v)
  }

  function MaxExt(x: ExtReal, y: real): (m: ExtReal)
    ensures m.Fin? && y <= m.v && LeExt(x, m)
    ensures m == x || m == Fin(y)
  {
    if x.Fin? && x.v >= y then x else Fin(y)
  }

  /** `torch.max` of a non-empty column. */
  function MaxSeq(s: seq<real>): (m: real)
    requires |s| > 0
    ensures forall i :: 0 <= i < |s| ==> s[i] <= m
    ensures exists i :: 0 <= i < |s| && s[i] == m
  {
    if |s| == 1 then s[0]
    else
      var rest := MaxSeq(s[1..]);
      assert forall i :: 1 <= i < |s| ==> s[i] == s[1..][i - 1];
      Max(s[0], rest)
  }

  function Sum(s: seq<real>): real
  {
    if s == [] then 0.0 else Sum(s[..|s| - 1]) + s[|s| - 1]
  }

  function Mean(s: seq<real>): real
    requires |s| > 0
  {
    Sum(s) / (|s| as real)
  }

  /** `F.mse_loss`: the mean of the squared differences. */
  function Mse(x: seq<real>, y: seq<real>): real
    requires |x| == |y| && |x| > 0
  {
    Mean(seq(|x|, i requires 0 <= i < |x| => (x[i] - y[i]) * (x[i] - y[i])))
  }

  lemma {:induction false} SumNonNegative(s: seq<real>)
    requires forall i :: 0 <= i < |s| ==> s[i] >= 0.0
    ensures Sum(s) >= 0.0
  {
    if s != [] {
      SumNonNegative(s[..|s| - 1]);
    }
  }

  /** The critic loss is never negative. */
  lemma MseNonNegative(x: seq<real>, y: seq<real>)
    requires |x| == |y| && |x| > 0
    ensures Mse(x, y) >= 0.0
  {
    var sq := seq(|x|, i requires 0 <= i < |x| => (x[i] - y[i]) * (x[i] - y[i]));
    forall i | 0 <= i < |sq| ensures sq[i] >= 0.0 {
      var d := x[i] - y[i];
      assert sq[i] == d * d;
      if d < 0.0 { assert d * d == (-d) * (-d); }
    }
    SumNonNegative(sq);
  }
}
