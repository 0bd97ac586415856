/** The pool of carriers of a tunnel and its round-robin choice (vendored-from-bore/pool.rs:66-118,
    crates/rb-transport/src/pool.rs).

    A carrier is a number; which of them are alive is told to each pick. */
module CarrierPool {
  import opened Common

  type Carrier = nat

  /** The counter is a `usize` and wraps. */
  const WRAP: nat := 0x1_0000_0000_0000_0000

  function Living(carriers: seq<Carrier>, alive: set<Carrier>): (living: seq<Carrier>)
    ensures |living| <= |carriers|
    ensures forall c :: c in living <==> c in carriers && c in alive
  {
    if |carriers| == 0 then []
    else
      var rest := Living(carriers[..|carriers| - 1], alive);
      if carriers[|carriers| - 1] in alive then rest + [carriers[|carriers| - 1]] else rest
  }

  lemma {:induction false} AllLiving(carriers: seq<Carrier>, alive: set<Carrier>)
    requires forall c :: c in carriers ==> c in alive
    ensures Living(carriers, alive) == carriers
  {
    if |carriers| > 0 {
      assert carriers == carriers[..|carriers| - 1] + [carriers[|carriers| - 1]];
      AllLiving(carriers[..|carriers| - 1], alive);
    }
  }

  lemma NoWrap(next: nat)
    requires next + 1 < WRAP
    ensures (next + 1) % WRAP == next + 1
  {
  }

  // ---------------------------------------------------------------------------------- fairness

  /** The position of the pick after `i` others. */
  function Turn(start: nat, i: nat, n: nat): nat
    requires n > 0
  {
    (start + i) % n
  }

  /** The positions of `k` picks in a pool of `n`. */
  function Turns(start: nat, k: nat, n: nat): (turns: seq<nat>)
    requires n > 0
    ensures |turns| == k
  {
    if k == 0 then [] else Turns(start, k - 1, n) + [Turn(start, k - 1, n)]
  }

  lemma {:induction false} TurnsAt(start: nat, k: nat, n: nat, i: nat)
    requires n > 0 && i < k
    ensures Turns(start, k, n)[i] == Turn(start, i, n)
  {
    if i < k - 1 {
      TurnsAt(start, k - 1, n, i);
    }
  }

  lemma TurnIsPosition(start: nat, i: nat, n: nat)
    requires n > 0
    ensures Turn(start, i, n) < n
  {
  }

  function Count(turns: seq<nat>, j: nat): nat {
    if |turns| == 0 then 0 else Count(turns[..|turns| - 1], j) + if turns[|turns| - 1] == j then 1 else 0
  }

  lemma TurnsOneMore(start: nat, k: nat, n: nat, j: nat)
    requires n > 0
    ensures Count(Turns(start, k + 1, n), j) == Count(Turns(start, k, n), j) + if Turn(start, k, n) == j then 1 else 0
  {
    assert Turns(start, k + 1, n)[..k] == Turns(start, k, n);
  }

  lemma {:induction false} Apart(n: int, a: int, b: int)
    requires n > 0
    ensures a < b ==> n * a + n <= n * b
    decreases b - a
  {
    if a + 1 < b {
      Apart(n, a + 1, b);
    }
    assert n * (a + 1) == n * a + n;
  }

  lemma DivModUnique(x: int, n: int, q: int, r: int)
    requires n > 0 && x == n * q + r && 0 <= r < n
    ensures x / n == q && x % n == r
  {
    var q', r' := x / n, x % n;
    assert x == n * q' + r';
    Apart(n, q, q');
    Apart(n, q', q);
  }

  /** Among `n` consecutive turns, `i` is the first at which position `j` is picked. */
  function FirstTurn(start: nat, n: nat, j: nat): (i: nat)
    requires j < n
    ensures i < n
  {
    var a := start % n;
    if j >= a then j - a else j + n - a
  }

  lemma TurnHits(start: nat, n: nat, j: nat, i: nat)
    requires j < n && i < n
    ensures Turn(start, i, n) == j <==> i == FirstTurn(start, n, j)
  {
    var q, a := start / n, start % n;
    assert start == n * q + a;
    if a + i < n {
      DivModUnique(start + i, n, q, a + i);
    } else {
      assert n * (q + 1) == n * q + n;
      DivModUnique(start + i, n, q + 1, a + i - n);
    }
  }

  /** In a window of at most `n` turns, a position is picked once or not at all. */
  lemma {:induction false} ShortWindow(start: nat, k: nat, n: nat, j: nat)
    requires j < n && k <= n
    ensures Count(Turns(start, k, n), j) == if FirstTurn(start, n, j) < k then 1 else 0
  {
    if k > 0 {
      ShortWindow(start, k - 1, n, j);
      TurnsOneMore(start, k - 1, n, j);
      TurnHits(start, n, j, k - 1);
    }
  }

  lemma {:induction false} CountsAdd(a: seq<nat>, b: seq<nat>, j: nat)
    ensures Count(a + b, j) == Count(a, j) + Count(b, j)
  {
    if |b| == 0 {
      assert a + b == a;
    } else {
      assert (a + b)[..|a + b| - 1] == a + b[..|b| - 1];
      CountsAdd(a, b[..|b| - 1], j);
    }
  }

  /** Some turns, and then some more. */
  lemma WindowsAdd(start: nat, k: nat, m: nat, n: nat, j: nat)
    requires j < n
    ensures Count(Turns(start, k + m, n), j) == Count(Turns(start, k, n), j) + Count(Turns(start + k, m, n), j)
  {
    var all, a, b := Turns(start, k + m, n), Turns(start, k, n), Turns(start + k, m, n);
    forall i | 0 <= i < k + m ensures all[i] == (a + b)[i] {
      TurnsAt(start, k + m, n, i);
      if i < k {
        TurnsAt(start, k, n, i);
      } else {
        TurnsAt(start + k, m, n, i - k);
        SameTurn(start, k, i - k, n);
      }
    }
    CountsAdd(a, b, j);
    assert all == a + b;
  }

  lemma SameTurn(start: nat, k: nat, i: nat, n: nat)
    requires n > 0
    ensures Turn(start, k + i, n) == Turn(start + k, i, n)
  {
    assert start + (k + i) == (start + k) + i;
  }

  predicate FairShare(count: nat, k: nat, n: nat)
    requires n > 0
  {
    k / n <= count <= (k + n - 1) / n
  }

  /** Round robin is fair: of `k` picks, each of `n` carriers gets the `n`-th part, rounded down or
      up, wherever the counter starts. */
  lemma {:induction false} PicksAreFair(start: nat, k: nat, n: nat, j: nat)
    requires j < n
    ensures FairShare(Count(Turns(start, k, n), j), k, n)
    decreases k
  {
    if k < n {
      ShortWindow(start, k, n, j);
      SmallParts(k, n);
    } else {
      PicksAreFair(start, k - n, n, j);
      OneRoundMore(start, k - n, n, j);
      FairShareGrows(Count(Turns(start, k - n, n), j), k - n, n);
    }
  }

  lemma OneRoundMore(start: nat, m: nat, n: nat, j: nat)
    requires j < n
    ensures Count(Turns(start, m + n, n), j) == Count(Turns(start, m, n), j) + 1
  {
    WindowsAdd(start, m, n, n, j);
    ShortWindow(start + m, n, n, j);
  }

  lemma FairShareGrows(count: nat, m: nat, n: nat)
    requires n > 0 && FairShare(count, m, n)
    ensures FairShare(count + 1, m + n, n)
  {
    OnePartMore(m, n);
    OnePartMore(m + n - 1, n);
  }

  lemma SmallParts(k: nat, n: nat)
    requires k < n
    ensures k / n == 0 && (k + n - 1) / n == if k > 0 then 1 else 0
  {
    DivModUnique(k, n, 0, k);
    DivModUnique(k + n - 1, n, if k > 0 then 1 else 0, if k > 0 then k - 1 else n - 1);
  }

  lemma OnePartMore(x: nat, n: nat)
    requires n > 0
    ensures (x + n) / n == x / n + 1
  {
    assert x + n == n * (x / n + 1) + x % n;
    DivModUnique(x + n, n, x / n + 1, x % n);
  }

  predicate Distinct(carriers: seq<Carrier>) {
    forall i, j :: 0 <= i < j < |carriers| ==> carriers[i] != carriers[j]
  }

  /** A carrier is picked as often as its position. */
  lemma {:induction false} PicksAreTurns(carriers: seq<Carrier>, turns: seq<nat>, picks: seq<Carrier>, j: nat)
    requires Distinct(carriers) && j < |carriers| && |picks| == |turns|
    requires forall i :: 0 <= i < |turns| ==> turns[i] < |carriers| && picks[i] == carriers[turns[i]]
    ensures Count(picks, carriers[j]) == Count(turns, j)
  {
    if |turns| > 0 {
      PicksAreTurns(carriers, turns[..|turns| - 1], picks[..|turns| - 1], j);
    }
  }

  predicate PickedInTurn(carriers: seq<Carrier>, start: nat, picks: seq<Carrier>, i: nat)
    requires |carriers| > 0 && i < |picks|
  {
    TurnIsPosition(start, i, |carriers|);
    picks[i] == carriers[Turn(start, i, |carriers|)]
  }

  lemma EachGetsItsShare(carriers: seq<Carrier>, start: nat, picks: seq<Carrier>)
    requires |carriers| > 0
    requires forall i :: 0 <= i < |picks| ==> PickedInTurn(carriers, start, picks, i)
    ensures Distinct(carriers) ==>
              forall j :: 0 <= j < |carriers| ==> FairShare(Count(picks, carriers[j]), |picks|, |carriers|)
  {
    if Distinct(carriers) {
      forall j | 0 <= j < |carriers|
        ensures FairShare(Count(picks, carriers[j]), |picks|, |carriers|)
      {
        forall i | 0 <= i < |picks|
          ensures Turns(start, |picks|, |carriers|)[i] < |carriers|
          ensures picks[i] == carriers[Turns(start, |picks|, |carriers|)[i]]
        {
          TurnsAt(start, |picks|, |carriers|, i);
          assert PickedInTurn(carriers, start, picks, i);
        }
        PicksAreTurns(carriers, Turns(start, |picks|, |carriers|), picks, j);
        PicksAreFair(start, |picks|, |carriers|, j);
      }
    }
  }

  // ---------------------------------------------------------------------------------- the pool

  class Pool {
    var carriers: seq<Carrier>
    var next: nat

    constructor (first: Carrier)
      ensures carriers == [first] && next == 0
    {
      carriers, next := [first], 0;
    }

    /** A full pool stays as it is. */
    method Push(carrier: Carrier, max: nat) returns (added: bool)
      modifies this`carriers
      ensures added <==> |old(carriers)| < max
      ensures carriers == if added then old(carriers) + [carrier] else old(carriers)
      ensures |carriers| <= max || carriers == old(carriers)
    {
      if |carriers| >= max {
        return false;
      }
      carriers := carriers + [carrier];
      return true;
    }

    /** `retain`, in place. */
    method Prune(alive: set<Carrier>)
      modifies this`carriers
      ensures carriers == Living(old(carriers), alive)
    {
      var kept: seq<Carrier> := [];
      for k := 0 to |carriers|
        invariant carriers == old(carriers) && kept == Living(carriers[..k], alive)
      {
        assert carriers[..k + 1][..k] == carriers[..k];
        if carriers[k] in alive {
          kept := kept + [carriers[k]];
        }
      }
      assert carriers[..|carriers|] == carriers;
      carriers := kept;
    }

    /** A live carrier whenever the pool has one; the dead ones are gone. */
    method Pick(alive: set<Carrier>) returns (picked: Option<Carrier>)
      modifies this
      ensures carriers == Living(old(carriers), alive)
      ensures picked.Some? <==> exists c :: c in old(carriers) && c in alive
      ensures picked.Some? ==> picked.value in old(carriers) && picked.value in alive
      ensures picked.Some? ==> picked.value == carriers[old(next) % |carriers|] && next == (old(next) + 1) % WRAP
      ensures picked.None? ==> carriers == [] && next == old(next)
    {
      Prune(alive);
      if |carriers| == 0 {
        return None;
      }
      var index := next % |carriers|;
      next := (next + 1) % WRAP;
      assert carriers[index] in carriers;
      return Some(carriers[index]);
    }

    /** `k` picks while nobody dies or joins: the carriers at the positions of `Turn`, so each carrier
        gets its fair share. */
    method PickMany(alive: set<Carrier>, k: nat) returns (picks: seq<Carrier>)
      requires |carriers| > 0 && (forall c :: c in carriers ==> c in alive) && next + k < WRAP
      modifies this
      ensures carriers == old(carriers) && |picks| == k
      ensures forall i :: 0 <= i < k ==> PickedInTurn(carriers, old(next), picks, i)
      ensures Distinct(carriers) ==> forall j :: 0 <= j < |carriers| ==> FairShare(Count(picks, carriers[j]), k, |carriers|)
    {
      picks := [];
      AllLiving(carriers, alive);
      for i := 0 to k
        invariant carriers == old(carriers) && next == old(next) + i && |picks| == i
        invariant forall h :: 0 <= h < i ==> PickedInTurn(carriers, old(next), picks, h)
      {
        NoWrap(next);
        assert carriers[0] in carriers;
        var picked := Pick(alive);
        ghost var before := picks;
        picks := picks + [picked.value];
        assert PickedInTurn(carriers, old(next), picks, i);
        assert forall h :: 0 <= h < i ==> PickedInTurn(carriers, old(next), before, h) && picks[h] == before[h];
      }
      EachGetsItsShare(carriers, old(next), picks);
    }
  }
}
