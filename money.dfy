/**
 * Exact decimal money: C# `decimal` is modelled as `real`, which is exact as
 * well. Covers the two LINQ totals and the truncating `(int)(x * 100)` casts
 * of ChangeCalculatorService.CalculateChange.
 */
module Money {

  /** `int.MaxValue` of C#, also the DP table's "unreachable" sentinel. */
  const Int32Max: int := 0x7fff_ffff

  /** `k` is the smallest of `keys`. */
  predicate IsLeastKey(keys: set<real>, k: real)
  {
    k in keys && forall k' :: k' in keys ==> k <= k'
  }

  lemma LeastKeyOfSingleton(x: real)
    ensures IsLeastKey({x}, x)
  {
  }

  lemma LeastKeyOfInsert(rest: set<real>, k: real, x: real)
    requires IsLeastKey(rest, k)
    ensures IsLeastKey(rest + {x}, if x <= k then x else k)
  {
  }

  lemma EmptyOrHasKey(keys: set<real>)
    ensures keys == {} || exists k :: k in keys
  {
    if forall k :: k !in keys {
      assert keys == {};
    }
  }

  lemma {:induction false} LeastKeyExists(keys: set<real>)
    requires keys != {}
    ensures exists k :: IsLeastKey(keys, k)
    decreases |keys|
  {
    EmptyOrHasKey(keys);
    var x :| x in keys;
    var rest := keys - {x};
    if rest == {} {
      assert keys == {x};
      LeastKeyOfSingleton(x);
    } else {
      LeastKeyExists(rest);
      var k :| IsLeastKey(rest, k);
      assert keys == rest + {x};
      LeastKeyOfInsert(rest, k, x);
    }
  }

  /** The smallest key; there is exactly one. */
  function LeastKey(keys: set<real>): (k: real)
    requires keys != {}
    ensures IsLeastKey(keys, k)
  {
    LeastKeyExists(keys);
    var k :| IsLeastKey(keys, k);
    k
  }

  /**
   * The exact sum of key * value over a price (or denomination) to quantity
   * dictionary, as `Sum(x => x.Key * x.Value)`. The least key is taken first
   * so that the sum is a function; TotalRemove shows that any key may be
   * taken first, so the dictionary's enumeration order does not matter.
   */
  function Total(lines: map<real, int>): (r: real)
    ensures (forall k :: k in lines ==> 0.0 <= k && 0 <= lines[k]) ==> 0.0 <= r
    decreases |lines|
  {
    if lines == map[] then 0.0
    else
      var k := LeastKey(lines.Keys);
      k * lines[k] as real + Total(lines - {k})
  }

  lemma TotalOfLeast(lines: map<real, int>, k: real)
    requires IsLeastKey(lines.Keys, k)
    ensures Total(lines) == k * lines[k] as real + Total(lines - {k})
  {
    var least := LeastKey(lines.Keys);
    assert least <= k && k <= least;
  }

  /** Order independence: the line of any key can be added last. */
  lemma {:induction false} TotalRemove(lines: map<real, int>, k: real)
    requires k in lines
    ensures Total(lines) == k * lines[k] as real + Total(lines - {k})
    decreases |lines|
  {
    var k0 := LeastKey(lines.Keys);
    TotalOfLeast(lines, k0);
    if k != k0 {
      var without0 := lines - {k0};
      var withoutK := lines - {k};
      assert k in without0;
      TotalRemove(without0, k);
      assert IsLeastKey(withoutK.Keys, k0);
      TotalOfLeast(withoutK, k0);
      assert without0 - {k} == withoutK - {k0};
    }
  }

  /** The C# cast from `decimal` to `int`: truncation toward zero. */
  function TruncateTowardZero(x: real): (r: int)
    ensures 0.0 <= x ==> 0 <= r && r as real <= x < r as real + 1.0
    ensures x < 0.0 ==> r <= 0 && r as real - 1.0 < x <= r as real
  {
    if 0.0 <= x then x.Floor else -((-x).Floor)
  }

  /**
   * An amount in whole cents, as `(int)(x * 100)`: the fraction of a cent
   * is dropped, toward zero.
   */
  function Cents(amount: real): (r: int)
    ensures 0.0 <= amount ==> 0 <= r && r as real <= amount * 100.0 < r as real + 1.0
    ensures amount < 0.0 ==> r <= 0 && amount * 100.0 <= r as real < amount * 100.0 + 1.0
  {
    TruncateTowardZero(amount * 100.0)
  }

  /** Each amount in whole cents, as `Select(x => (int)(x * 100))`. */
  function CentsOfEach(amounts: seq<real>): (r: seq<int>)
    ensures |r| == |amounts|
    ensures forall i :: 0 <= i < |amounts| ==> r[i] == Cents(amounts[i])
    ensures (forall i :: 0 <= i < |amounts| ==> 0.0 <= amounts[i]) ==> forall i :: 0 <= i < |r| ==> 0 <= r[i]
  {
    seq(|amounts|, i requires 0 <= i < |amounts| => Cents(amounts[i]))
  }

  /** The conversion is exact for amounts that are a whole number of cents. */
  lemma CentsOfWholeCents(amount: real, n: int)
    requires amount * 100.0 == n as real
    ensures Cents(amount) == n
  {
  }
}
