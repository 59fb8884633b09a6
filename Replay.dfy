/** The experience replay buffer: a bounded FIFO store of transitions
    (s, a, r, t, s2) with uniform sampling without replacement. */
module Replay {

  /** One transition. The terminal flag is the 0/1 integer the training loop stores. */
  datatype Experience = Experience(s: seq<real>, a: seq<real>, r: real, t: int, s2: seq<real>)

  /** A sampled batch split into five parallel sequences; rewards and terminals
      are column vectors, one single-element row per sampled experience. */
  datatype Batch = Batch(
    states: seq<seq<real>>,
    actions: seq<seq<real>>,
    rewards: seq<seq<real>>,
    terminals: seq<seq<int>>,
    nextStates: seq<seq<real>>)

  datatype Result<T> = Success(value: T) | Failure(error: string)

  function Min(x: int, y: int): int { if x <= y then x else y }

  /** The number of experiences a buffer of capacity `cap` can hold
      (a non-positive capacity holds nothing). */
  function Capacity(cap: int): nat { if cap > 0 then cap else 0 }

  // ---------------------------------------------------------------------------
  // Specification of insertion

  /** The contents after one `add`: append while below capacity, otherwise drop
      the leftmost (oldest) entry and append. `None` is the failing `popleft` on an
      empty deque, reached only when the capacity is not positive. */
  function Pushed(buf: seq<Experience>, cap: int, e: Experience): (r: Option<seq<Experience>>)
    ensures r.None? <==> buf == [] && cap <= 0
    ensures r.Some? ==> |r.value| == (if |buf| < cap then |buf| + 1 else |buf|)
    ensures r.Some? ==> r.value[|r.value| - 1] == e
  {
    if |buf| < cap then Some(buf + [e])
    else if buf == [] then None
    else Some(buf[1..] + [e])
  }

  datatype Option<T> = None | Some(value: T)

  /** The contents after adding `es` one by one to an empty buffer. */
  function AddAll(cap: int, es: seq<Experience>): (r: Option<seq<Experience>>)
    ensures cap > 0 ==> r.Some?
    ensures r.Some? ==> |r.value| <= |es|
  {
    if es == [] then Some([])
    else match AddAll(cap, es[..|es| - 1])
      case None => None
      case Some(buf) => Pushed(buf, cap, es[|es| - 1])
  }

  /** The last `n` elements of `s` (all of `s` when it is shorter). */
  function LastN(s: seq<Experience>, n: nat): seq<Experience>
  {
    s[|s| - Min(n, |s|)..]
  }

  /** FIFO: adding `es` to an empty buffer of positive capacity leaves exactly the
      last `cap` of them, in insertion order, the newest on the right. */
  lemma {:induction false} FifoWindow(cap: int, es: seq<Experience>)
    requires cap > 0
    ensures AddAll(cap, es) == Some(LastN(es, cap))
  {
    if es != [] {
      var init := es[..|es| - 1];
      var last := es[|es| - 1];
      FifoWindow(cap, init);
      var buf := LastN(init, cap);
      assert AddAll(cap, es) == Pushed(buf, cap, last);
      if |init| < cap {
        assert buf == init;
        assert init + [last] == es;
        assert LastN(es, cap) == es;
      } else {
        assert |buf| == cap;
        assert Pushed(buf, cap, last) == Some(buf[1..] + [last]);
        assert buf[1..] == es[|es| - cap..|es| - 1];
        assert es[|es| - cap..] == es[|es| - cap..|es| - 1] + [last];
        assert LastN(es, cap) == es[|es| - cap..];
      }
    }
  }

  /** The occupancy never exceeds the capacity, and reaches it once `cap` adds happened. */
  lemma SizeAfterAdds(cap: int, es: seq<Experience>)
    requires cap > 0
    ensures AddAll(cap, es).Some?
    ensures |AddAll(cap, es).value| == Min(cap, |es|)
  {
    FifoWindow(cap, es);
  }

  /** With a non-positive capacity the very first add fails, and so does every
      sequence of adds that is not empty. */
  lemma {:induction false} NonPositiveCapacityFails(cap: int, es: seq<Experience>)
    requires cap <= 0 && es != []
    ensures AddAll(cap, es) == None
  {
    var init := es[..|es| - 1];
    if init != [] {
      NonPositiveCapacityFails(cap, init);
    }
  }

  // ---------------------------------------------------------------------------
  // Specification of sampling

  /** `p` is what `random.sample` may return for `k` draws from `n` positions:
      `k` positions, each in range, no position twice. */
  predicate IsDraw(p: seq<nat>, n: nat, k: int)
  {
    && |p| == k
    && (forall i :: 0 <= i < |p| ==> p[i] < n)
    && (forall i, j :: 0 <= i < j < |p| ==> p[i] != p[j])
  }

  /** The experiences at the drawn positions, in draw order. */
  function Gather(buf: seq<Experience>, p: seq<nat>): (r: seq<Experience>)
    requires forall i :: 0 <= i < |p| ==> p[i] < |buf|
  {
    seq(|p|, i requires 0 <= i < |p| => buf[p[i]])
  }

  /** Split experiences into the five parallel sequences of a batch. */
  function Split(rows: seq<Experience>): (b: Batch)
    ensures WellFormed(b) && |b.states| == |rows|
    ensures forall i :: 0 <= i < |rows| ==>
      && b.states[i] == rows[i].s && b.actions[i] == rows[i].a
      && b.rewards[i] == [rows[i].r] && b.terminals[i] == [rows[i].t]
      && b.nextStates[i] == rows[i].s2
  {
    Batch(
      seq(|rows|, i requires 0 <= i < |rows| => rows[i].s),
      seq(|rows|, i requires 0 <= i < |rows| => rows[i].a),
      seq(|rows|, i requires 0 <= i < |rows| => [rows[i].r]),
      seq(|rows|, i requires 0 <= i < |rows| => [rows[i].t]),
      seq(|rows|, i requires 0 <= i < |rows| => rows[i].s2))
  }

  /** The five sequences have one row each per experience; rewards and terminals
      are columns. */
  predicate WellFormed(b: Batch)
  {
    && |b.actions| == |b.states| && |b.rewards| == |b.states|
    && |b.terminals| == |b.states| && |b.nextStates| == |b.states|
    && (forall i :: 0 <= i < |b.rewards| ==> |b.rewards[i]| == 1)
    && (forall i :: 0 <= i < |b.terminals| ==> |b.terminals[i]| == 1)
  }

  /** Reassemble the i-th row of every sequence into one experience. */
  function Zip(b: Batch): (rows: seq<Experience>)
    requires WellFormed(b)
  {
    seq(|b.states|, i requires 0 <= i < |b.states| =>
      Experience(b.states[i], b.actions[i], b.rewards[i][0], b.terminals[i][0], b.nextStates[i]))
  }

  /** Splitting loses nothing: the i-th elements of the five sequences come from
      the same experience. */
  lemma ZipSplit(rows: seq<Experience>)
    ensures Zip(Split(rows)) == rows
  {
    var b := Split(rows);
    forall i | 0 <= i < |rows| ensures Zip(b)[i] == rows[i] {
    }
  }

  /** A batch is taken without replacement: as a multiset it is contained in
      the buffer. */
  lemma {:induction false} GatherSubMultiset(buf: seq<Experience>, p: seq<nat>)
    requires IsDraw(p, |buf|, |p|)
    ensures multiset(Gather(buf, p)) <= multiset(buf)
  {
    if p != [] {
      var n := |p| - 1;
      var last := p[n];
      var rest := buf[..last] + buf[last + 1..];
      var q := Reindex(p[..n], last);
      ReindexGather(buf, p, last, rest, q);
      GatherSubMultiset(rest, q);
      RemoveAt(buf, last, rest);
      assert Gather(buf, p) == Gather(rest, q) + [buf[last]];
    }
  }

  /** Positions after `last` move down by one once `last` is removed. */
  function Reindex(p: seq<nat>, last: nat): (q: seq<nat>)
    ensures |q| == |p|
  {
    seq(|p|, i requires 0 <= i < |p| => if p[i] < last then p[i] else if p[i] == 0 then 0 else p[i] - 1)
  }

  lemma ReindexGather(buf: seq<Experience>, p: seq<nat>, last: nat, rest: seq<Experience>, q: seq<nat>)
    requires IsDraw(p, |buf|, |p|) && p != [] && last == p[|p| - 1]
    requires rest == buf[..last] + buf[last + 1..] && q == Reindex(p[..|p| - 1], last)
    ensures IsDraw(q, |rest|, |q|)
    ensures forall i :: 0 <= i < |q| ==> rest[q[i]] == buf[p[i]]
  {
    forall i | 0 <= i < |q| ensures q[i] < |rest| && rest[q[i]] == buf[p[i]] {
      assert p[i] != last;
    }
    forall i, j | 0 <= i < j < |q| ensures q[i] != q[j] {
      assert p[i] != p[j] && p[i] != last && p[j] != last;
    }
  }

  lemma RemoveAt(buf: seq<Experience>, last: nat, rest: seq<Experience>)
    requires last < |buf| && rest == buf[..last] + buf[last + 1..]
    ensures multiset(buf) == multiset(rest) + multiset{buf[last]}
  {
    assert buf == buf[..last] + [buf[last]] + buf[last + 1..];
  }

  /** Every sampled experience is one the buffer holds. */
  lemma SampledAreStored(buf: seq<Experience>, p: seq<nat>, i: nat)
    requires IsDraw(p, |buf|, |p|) && i < |p|
    ensures Gather(buf, p)[i] in buf
  {
  }

  // ---------------------------------------------------------------------------
  // The buffer itself

  class ReplayBuffer {
    /** The maximum number of experiences (`buffer_size`). */
    const bufferSize: int
    /** The deque; the right end holds the most recent experience. */
    var buffer: seq<Experience>
    var count: nat

    ghost predicate Valid()
      reads this
    {
      count == |buffer| && count <= Capacity(bufferSize)
    }

    /** The seed of the source's random generator is not modelled: sampling is a
        nondeterministic choice. */
    constructor (bufferSize: int)
      ensures Valid()
      ensures this.bufferSize == bufferSize && buffer == [] && count == 0
    {
      this.bufferSize := bufferSize;
      buffer := [];
      count := 0;
    }

    /** Insert one experience. `ok` is false exactly when the source's `popleft`
        fails on an empty deque (capacity not positive); the state is then unchanged. */
    method Add(e: Experience) returns (ok: bool)
      requires Valid()
      modifies this
      ensures Valid()
      ensures ok <==> Pushed(old(buffer), bufferSize, e).Some?
      ensures ok ==> Pushed(old(buffer), bufferSize, e) == Some(buffer)
      ensures old(count) < bufferSize ==> ok && buffer == old(buffer) + [e] && count == old(count) + 1
      ensures old(count) >= bufferSize && old(count) > 0 ==>
        ok && buffer == old(buffer)[1..] + [e] && count == old(count) && count == bufferSize
      ensures !ok ==> bufferSize <= 0 && buffer == old(buffer) && count == old(count)
    {
      if count < bufferSize {
        buffer := buffer + [e];
        count := count + 1;
        ok := true;
      } else if buffer == [] {
        ok := false;
      } else {
        buffer := buffer[1..];
        buffer := buffer + [e];
        ok := true;
      }
    }

    /** Draw `min(batchSize, count)` distinct positions and split the experiences
        found there. A negative `batchSize` makes `random.sample` fail. */
    method SampleBatch(batchSize: int) returns (r: Result<Batch>, positions: seq<nat>)
      requires Valid()
      ensures r.Failure? <==> batchSize < 0
      ensures r.Success? ==> IsDraw(positions, count, Min(batchSize, count))
      ensures r.Success? ==> r.value == Split(Gather(buffer, positions))
    {
      if batchSize < 0 {
        return Failure("sample larger than population or is negative"), [];
      }
      var k := Min(batchSize, count);
      assert IsDraw(seq(k, i => i), count, k);
      positions :| IsDraw(positions, count, k);
      assert IsDraw(positions, count, k);
      assert count == |buffer|;
      assert forall i :: 0 <= i < |positions| ==> positions[i] < count;
      r := Success(Split(Gather(buffer, positions)));
    }

    method Size() returns (n: nat)
      requires Valid()
      ensures n == count && n == |buffer|
    {
      n := count;
    }

    /** Empty the buffer; the capacity is a constant and stays as it is. */
    method Clear()
      requires Valid()
      modifies this
      ensures Valid()
      ensures buffer == [] && count == 0
    {
      buffer := [];
      count := 0;
    }
  }

  /** A client: after `Clear`, the next add appends again. */
  method ClearThenAdd(rb: ReplayBuffer, e: Experience) returns (ok: bool)
    requires rb.Valid() && rb.bufferSize > 0
    modifies rb
    ensures rb.Valid() && ok && rb.buffer == [e] && rb.count == 1
  {
    rb.Clear();
    ok := rb.Add(e);
  }
}
