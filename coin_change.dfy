/**
 * The minimum-count change-making problem over whole-cent denominations,
 * stated two ways: as the recurrence the bottom-up table of
 * ChangeCalculatorService.CalculateChange fills (Fewest), and as "the
 * smallest collection of denominations that adds up to the amount"
 * (IsFewest). FewestCorrect proves the two agree.
 */
module CoinChange {
  import opened Wrappers

  /** Sum of a collection of coins and bills, in cents. */
  function Sum(coins: seq<int>): int
  {
    if coins == [] then 0 else coins[0] + Sum(coins[1..])
  }

  predicate NonNegative(denominations: seq<int>)
  {
    forall i :: 0 <= i < |denominations| ==> 0 <= denominations[i]
  }

  /** `coins` uses only the given denominations (each as often as needed) and adds up to `amount`. */
  ghost predicate MakesChange(denominations: seq<int>, coins: seq<int>, amount: int)
  {
    (forall i :: 0 <= i < |coins| ==> coins[i] in denominations) && Sum(coins) == amount
  }

  ghost predicate Reachable(denominations: seq<int>, amount: int)
  {
    exists coins :: MakesChange(denominations, coins, amount)
  }

  /** `count` pieces can make up `amount`, and no fewer can. */
  ghost predicate IsFewest(denominations: seq<int>, amount: int, count: nat)
  {
    (exists coins :: |coins| == count && MakesChange(denominations, coins, amount)) &&
    forall coins :: MakesChange(denominations, coins, amount) ==> count <= |coins|
  }

  /**
   * The value the table holds for `amount` once it is filled: Some(count),
   * or None where the source stores the sentinel int.MaxValue.
   */
  function Fewest(denominations: seq<int>, amount: nat): (r: Option<nat>)
    ensures r.Some? ==> r.value <= amount
    ensures r.Some? && 0 < amount ==> 1 <= r.value
    decreases amount, |denominations| + 1
  {
    if amount == 0 then Some(0) else FewestUsing(denominations, |denominations|, amount)
  }

  /**
   * The entry for `amount` after the inner loop has looked at the first
   * `t` denominations: the best of `1 + Fewest(amount - d)` over those `d`
   * with `0 < d <= amount` whose remainder is reachable.
   */
  function FewestUsing(denominations: seq<int>, t: nat, amount: nat): (r: Option<nat>)
    requires t <= |denominations|
    ensures r.Some? ==> 1 <= r.value <= amount
    decreases amount, t
  {
    if t == 0 then None
    else
      var before := FewestUsing(denominations, t - 1, amount);
      var d := denominations[t - 1];
      if 0 < d <= amount && Fewest(denominations, amount - d).Some? then
        var candidate := 1 + Fewest(denominations, amount - d).value;
        if before.Some? && before.value <= candidate then before else Some(candidate)
      else before
  }

  lemma {:induction false} SumAppend(d: int, coins: seq<int>)
    ensures Sum([d] + coins) == d + Sum(coins)
  {
    assert ([d] + coins)[1..] == coins;
  }

  lemma {:induction false} SumNonNegative(denominations: seq<int>, coins: seq<int>)
    requires NonNegative(denominations)
    requires forall i :: 0 <= i < |coins| ==> coins[i] in denominations
    ensures 0 <= Sum(coins)
    decreases |coins|
  {
    if coins != [] {
      SumNonNegative(denominations, coins[1..]);
    }
  }

  /** Soundness: a count the recurrence gives is achieved by some collection of pieces. */
  lemma {:induction false} FewestWitness(denominations: seq<int>, amount: nat) returns (coins: seq<int>)
    requires Fewest(denominations, amount).Some?
    ensures |coins| == Fewest(denominations, amount).value
    ensures MakesChange(denominations, coins, amount)
    decreases amount, |denominations| + 1
  {
    if amount == 0 {
      coins := [];
    } else {
      coins := FewestUsingWitness(denominations, |denominations|, amount);
    }
  }

  lemma {:induction false} FewestUsingWitness(denominations: seq<int>, t: nat, amount: nat) returns (coins: seq<int>)
    requires t <= |denominations|
    requires FewestUsing(denominations, t, amount).Some?
    ensures |coins| == FewestUsing(denominations, t, amount).value
    ensures MakesChange(denominations, coins, amount)
    decreases amount, t
  {
    var before := FewestUsing(denominations, t - 1, amount);
    var d := denominations[t - 1];
    if 0 < d <= amount && Fewest(denominations, amount - d).Some?
       && !(before.Some? && before.value <= 1 + Fewest(denominations, amount - d).value)
    {
      var rest := FewestWitness(denominations, amount - d);
      coins := [d] + rest;
      SumAppend(d, rest);
    } else {
      coins := FewestUsingWitness(denominations, t - 1, amount);
    }
  }

  /** Once denomination `j` has been looked at, the entry is no worse than using it. */
  lemma {:induction false} FewestUsingNoWorse(denominations: seq<int>, t: nat, j: nat, amount: nat)
    requires j < t <= |denominations|
    requires 0 < denominations[j] <= amount
    requires Fewest(denominations, amount - denominations[j]).Some?
    ensures FewestUsing(denominations, t, amount).Some?
    ensures FewestUsing(denominations, t, amount).value <= 1 + Fewest(denominations, amount - denominations[j]).value
    decreases t
  {
    if j < t - 1 {
      FewestUsingNoWorse(denominations, t - 1, j, amount);
    }
  }

  /** Optimality: no collection of pieces making up the amount is smaller than the count. */
  lemma {:induction false} FewestIsOptimal(denominations: seq<int>, coins: seq<int>, amount: nat)
    requires NonNegative(denominations)
    requires MakesChange(denominations, coins, amount)
    ensures Fewest(denominations, amount).Some?
    ensures Fewest(denominations, amount).value <= |coins|
    decreases |coins|
  {
    if amount > 0 {
      var d, rest := coins[0], coins[1..];
      assert coins == [d] + rest;
      SumAppend(d, rest);
      SumNonNegative(denominations, rest);
      if d == 0 {
        FewestIsOptimal(denominations, rest, amount);
      } else {
        FewestIsOptimal(denominations, rest, amount - d);
        var j :| 0 <= j < |denominations| && denominations[j] == d;
        FewestUsingNoWorse(denominations, |denominations|, j, amount);
      }
    }
  }

  /**
   * The recurrence is right: it gives a count exactly when the amount can be
   * made up, and then the count is the fewest pieces that make it up.
   */
  lemma FewestCorrect(denominations: seq<int>, amount: nat)
    requires NonNegative(denominations)
    ensures Fewest(denominations, amount).Some? <==> Reachable(denominations, amount)
    ensures Fewest(denominations, amount).Some? ==> IsFewest(denominations, amount, Fewest(denominations, amount).value)
  {
    if Fewest(denominations, amount).Some? {
      var smallest := FewestWitness(denominations, amount);
      forall coins | MakesChange(denominations, coins, amount)
        ensures Fewest(denominations, amount).value <= |coins|
      {
        FewestIsOptimal(denominations, coins, amount);
      }
    }
    if Reachable(denominations, amount) {
      var coins :| MakesChange(denominations, coins, amount);
      FewestIsOptimal(denominations, coins, amount);
    }
  }

  /**
   * The fewest count is unique: a collection that makes up the amount and
   * that no other collection undercuts pins down the recurrence's value.
   */
  lemma FewestFromBound(denominations: seq<int>, amount: nat, coins: seq<int>)
    requires NonNegative(denominations)
    requires MakesChange(denominations, coins, amount)
    requires forall other :: MakesChange(denominations, other, amount) ==> |coins| <= |other|
    ensures Fewest(denominations, amount) == Some(|coins|)
  {
    FewestIsOptimal(denominations, coins, amount);
    var best := FewestWitness(denominations, amount);
  }

  /** No change owed needs no pieces, whatever the denominations. */
  lemma ZeroNeedsNoPieces(denominations: seq<int>)
    ensures Fewest(denominations, 0) == Some(0)
    ensures IsFewest(denominations, 0, 0)
  {
    assert MakesChange(denominations, [], 0);
  }
}
