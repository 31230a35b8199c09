/**
 The pool of I/O loops and its round-robin choice.
 */
module LoopPool {

  type LoopId = nat

  /** How often loop `i` of `k` is chosen in the first `n` choices of a strict rotation. */
  function Share(k: nat, i: nat, n: nat): nat
    requires i < k
  {
    if n == 0 then 0 else Share(k, i, n - 1) + if (n - 1) % k == i then 1 else 0
  }

  /** Turn `t` of the rotation is in round `t / k`; the next turn starts a new round exactly after loop `k - 1`. */
  lemma NextTurn(t: nat, k: nat)
    requires k > 0
    ensures (t + 1) % k == if t % k + 1 < k then t % k + 1 else 0
    ensures (t + 1) / k == if t % k + 1 < k then t / k else t / k + 1
  {
    var q, r := t / k, t % k;
    assert t == q * k + r;
    if r + 1 < k {
      DivMod(t + 1, q, r + 1, k);
    } else {
      DivMod(t + 1, q + 1, 0, k);
    }
  }

  lemma DivMod(x: nat, q: nat, r: nat, k: nat)
    requires k > 0 && r < k && x == q * k + r
    ensures x / k == q && x % k == r
  {
    var d := x / k - q;
    assert x == x / k * k + x % k;
    assert d * k == r - x % k;
    AtLeastOnce(d, k);
  }

  lemma AtLeastOnce(d: int, k: int)
    requires k > 0
    ensures d > 0 ==> d * k >= k
    ensures d < 0 ==> d * k <= -k
  {
  }

  /** Every loop gets its fair share: the floor or the ceiling of n / k. */
  lemma {:induction false} FairShare(k: nat, i: nat, n: nat)
    requires i < k
    ensures Share(k, i, n) == n / k + if i < n % k then 1 else 0
  {
    if n > 0 {
      FairShare(k, i, n - 1);
      NextTurn(n - 1, k);
    }
  }

  function Times(chosen: seq<LoopId>, id: LoopId, n: nat): nat
    requires n <= |chosen|
  {
    if n == 0 then 0 else Times(chosen, id, n - 1) + if chosen[n - 1] == id then 1 else 0
  }

  predicate Distinct(loops: seq<LoopId>) { forall i, j :: 0 <= i < j < |loops| ==> loops[i] != loops[j] }

  lemma {:induction false} TimesIsShare(loops: seq<LoopId>, chosen: seq<LoopId>, i: nat, n: nat)
    requires i < |loops| && n <= |chosen| && Distinct(loops)
    requires forall t :: 0 <= t < |chosen| ==> chosen[t] == loops[t % |loops|]
    ensures Times(chosen, loops[i], n) == Share(|loops|, i, n)
  {
    if n > 0 {
      TimesIsShare(loops, chosen, i, n - 1);
      var r := (n - 1) % |loops|;
      assert chosen[n - 1] == loops[r];
    }
  }

  class EventLoopThreadPool {
    const baseLoop: LoopId
    var loops: seq<LoopId>
    var next: nat
    ghost var chosen: seq<LoopId>

    /** Every choice so far was the next of the rotation. */
    ghost predicate Valid()
      reads this
    {
      if loops == [] then next == 0 && forall t :: 0 <= t < |chosen| ==> chosen[t] == baseLoop
      else next == |chosen| % |loops| && forall t :: 0 <= t < |chosen| ==> chosen[t] == loops[t % |loops|]
    }

    constructor (base: LoopId)
      ensures Valid() && loops == [] && chosen == [] && baseLoop == base
    {
      baseLoop, loops, next, chosen := base, [], 0, [];
    }

    /** `start`: one loop per thread, as they come up. */
    method Start(started: seq<LoopId>)
      requires Valid() && loops == [] && chosen == []
      modifies this`loops
      ensures Valid() && loops == started
    {
      for i := 0 to |started|
        invariant loops == started[..i]
      {
        loops := loops + [started[i]];
      }
    }

    method GetNextLoop() returns (loop: LoopId)
      requires Valid()
      modifies this`next, this`chosen
      ensures Valid() && chosen == old(chosen) + [loop]
    {
      loop := baseLoop;
      if loops != [] {
        loop := loops[next];
        NextTurn(|chosen|, |loops|);
        next := next + 1;
        if next >= |loops| {
          next := 0;
        }
      }
      chosen := chosen + [loop];
    }

    /** After any number of calls every I/O loop was chosen the floor or the ceiling of calls / loops times. */
    lemma {:induction false} Balanced(i: nat)
      requires Valid() && Distinct(loops) && i < |loops|
      ensures Times(chosen, loops[i], |chosen|) == |chosen| / |loops| + if i < |chosen| % |loops| then 1 else 0
    {
      TimesIsShare(loops, chosen, i, |chosen|);
      FairShare(|loops|, i, |chosen|);
    }
  }
}
