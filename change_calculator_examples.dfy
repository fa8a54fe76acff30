/**
 * The unit-test scenarios of the change calculator, stated as lemmas about
 * ChangeOutcome, and run through the service operation CalculateChange by
 * the methods at the end of the module.
 */
module ChangeCalculatorExamples {
  import opened Wrappers
  import opened Money
  import opened CoinChange
  import opened ChangeCalculatorModels
  import opened ChangeCalculatorService

  lemma TotalOfTwoLines(a: real, qa: int, b: real, qb: int)
    requires a != b
    ensures Total(map[a := qa, b := qb]) == a * qa as real + b * qb as real
  {
    var lines := map[a := qa, b := qb];
    TotalRemove(lines, a);
    var rest := lines - {a};
    assert rest == map[b := qb];
    TotalRemove(rest, b);
    assert rest - {b} == map[];
  }

  /** Purchase {10: 1, 0.5: 3} and payment {20: 1, 10: 2} leave 28.50 of change. */
  lemma ChangeOfTheSuccessCase(request: CalculateChangeRequest)
    requires request == CalculateChangeRequest(map[10.0 := 1, 0.5 := 3], map[20.0 := 1, 10.0 := 2])
    ensures TotalPurchased(request) == 11.5
    ensures TotalProvided(request) == 40.0
    ensures Cents(TotalProvided(request) - TotalPurchased(request)) == 2850
  {
    TotalOfTwoLines(10.0, 1, 0.5, 3);
    TotalOfTwoLines(20.0, 1, 10.0, 2);
  }

  /** Purchase {0.5: 1, 100: 2} (200.50) against payment {1: 1, 10: 2} (21): underpaid, settings never looked at. */
  lemma UnderpaymentExample(settings: CustomSettings)
    ensures ChangeOutcome(CalculateChangeRequest(map[0.5 := 1, 100.0 := 2], map[1.0 := 1, 10.0 := 2]), settings)
            == Failure(InsufficientPayment)
  {
    TotalOfTwoLines(0.5, 1, 100.0, 2);
    TotalOfTwoLines(1.0, 1, 10.0, 2);
  }

  /** The request used for the three missing-setting scenarios: 20.50 bought, 21 paid. */
  function PaidEnoughRequest(): CalculateChangeRequest
  {
    CalculateChangeRequest(map[0.5 := 1, 10.0 := 2], map[1.0 := 1, 10.0 := 2])
  }

  lemma PaidEnough()
    ensures TotalPurchased(PaidEnoughRequest()) <= TotalProvided(PaidEnoughRequest())
  {
    TotalOfTwoLines(0.5, 1, 10.0, 2);
    TotalOfTwoLines(1.0, 1, 10.0, 2);
  }

  lemma CurrencyUnsetExample()
    ensures ChangeOutcome(PaidEnoughRequest(), CustomSettings(None, None)) == Failure(SettingNotProvided)
  {
    PaidEnough();
  }

  lemma DenominationsUnsetExample()
    ensures ChangeOutcome(PaidEnoughRequest(), CustomSettings(Some("USD"), None)) == Failure(SettingNotProvided)
  {
    PaidEnough();
  }

  lemma DenominationsOfOtherCurrencyOnlyExample()
    ensures ChangeOutcome(PaidEnoughRequest(), CustomSettings(Some("USD"), Some(map["MXN" := Some([])])))
            == Failure(SettingNotProvided)
  {
    PaidEnough();
    assert "USD" != "MXN";
  }

  lemma {:induction false} SumOfWholeUnits(denominations: seq<int>, coins: seq<int>)
    requires forall i :: 0 <= i < |denominations| ==> denominations[i] % 100 == 0
    requires forall i :: 0 <= i < |coins| ==> coins[i] in denominations
    ensures Sum(coins) % 100 == 0
    decreases |coins|
  {
    if coins != [] {
      SumOfWholeUnits(denominations, coins[1..]);
    }
  }

  lemma NoWayToTwentyEightFifty(denominations: seq<int>, amount: nat)
    requires denominations == [100, 200, 300] && amount == 2850
    ensures Fewest(denominations, amount) == None
  {
    if Fewest(denominations, amount).Some? {
      var coins := FewestWitness(denominations, amount);
      SumOfWholeUnits(denominations, coins);
    }
  }

  /** With denominations {1, 2, 3} the 28.50 of change cannot be made up. */
  lemma NoOptimumExample()
    ensures ChangeOutcome(
              CalculateChangeRequest(map[10.0 := 1, 0.5 := 3], map[20.0 := 1, 10.0 := 2]),
              CustomSettings(Some("USD"), Some(map["USD" := Some([1.0, 2.0, 3.0])])))
            == Failure(NoOptimumBillsAndCoins)
  {
    ChangeOfTheSuccessCase(CalculateChangeRequest(map[10.0 := 1, 0.5 := 3], map[20.0 := 1, 10.0 := 2]));
    assert CentsOfEach([1.0, 2.0, 3.0]) == [100, 200, 300];
    NoWayToTwentyEightFifty([100, 200, 300], 2850);
  }

  /** A sum of pieces of 0.50, 1, 2 and 3 is at most 3 per piece, and at least 2.50 less when it is not whole. */
  lemma {:induction false} SumOfPiecesBound(coins: seq<int>)
    requires forall i :: 0 <= i < |coins| ==> coins[i] in [50, 100, 200, 300]
    ensures Sum(coins) <= 300 * |coins|
    ensures Sum(coins) % 100 != 0 ==> Sum(coins) <= 300 * |coins| - 250
    decreases |coins|
  {
    if coins != [] {
      SumOfPiecesBound(coins[1..]);
    }
  }

  function Repeat(d: int, n: nat): seq<int>
  {
    if n == 0 then [] else [d] + Repeat(d, n - 1)
  }

  lemma {:induction false} SumOfRepeat(d: int, n: nat, tail: seq<int>)
    ensures Sum(Repeat(d, n) + tail) == n * d + Sum(tail)
  {
    if n > 0 {
      var rest := Repeat(d, n - 1) + tail;
      assert Repeat(d, n) + tail == [d] + rest;
      SumAppend(d, rest);
      SumOfRepeat(d, n - 1, tail);
      assert Sum(Repeat(d, n) + tail) == d + ((n - 1) * d + Sum(tail));
      assert d + (n - 1) * d == n * d;
    } else {
      assert Repeat(d, n) + tail == tail;
    }
  }

  /** Nine 3s, a 1 and a 0.50, in cents. */
  function ElevenPieces(): seq<int>
  {
    Repeat(300, 9) + [100, 50]
  }

  lemma {:induction false} RepeatUses(d: int, n: nat, denominations: seq<int>)
    requires d in denominations
    ensures |Repeat(d, n)| == n
    ensures forall i :: 0 <= i < n ==> Repeat(d, n)[i] in denominations
  {
    if n > 0 {
      RepeatUses(d, n - 1, denominations);
    }
  }

  lemma ElevenPiecesMakeChange(denominations: seq<int>, amount: nat)
    requires denominations == [50, 100, 200, 300] && amount == 2850
    ensures exists pieces :: |pieces| == 11 && MakesChange(denominations, pieces, amount)
  {
    var pieces := ElevenPieces();
    SumOfRepeat(300, 9, [100, 50]);
    SumAppend(100, [50]);
    SumAppend(50, []);
    assert [100] + [50] == [100, 50];
    RepeatUses(300, 9, [50, 100, 200, 300]);
    assert |pieces| == 11 && MakesChange(denominations, pieces, amount);
  }

  lemma AtLeastElevenPieces(denominations: seq<int>, amount: nat)
    requires denominations == [50, 100, 200, 300] && amount == 2850
    ensures forall coins :: MakesChange(denominations, coins, amount) ==> 11 <= |coins|
  {
    forall coins | MakesChange(denominations, coins, amount)
      ensures 11 <= |coins|
    {
      SumOfPiecesBound(coins);
    }
  }

  lemma FewestForTwentyEightFifty(denominations: seq<int>, amount: nat)
    requires denominations == [50, 100, 200, 300] && amount == 2850
    ensures Fewest(denominations, amount) == Some(11)
  {
    ElevenPiecesMakeChange(denominations, amount);
    var pieces :| |pieces| == 11 && MakesChange(denominations, pieces, amount);
    AtLeastElevenPieces(denominations, amount);
    assert NonNegative(denominations);
    FewestFromBound(denominations, amount, pieces);
  }

  /** With denominations {0.5, 1, 2, 3} the 28.50 of change takes 11 pieces (nine 3s, a 1 and a 0.50). */
  lemma OptimumExample()
    ensures ChangeOutcome(
              CalculateChangeRequest(map[10.0 := 1, 0.5 := 3], map[20.0 := 1, 10.0 := 2]),
              CustomSettings(Some("USD"), Some(map["USD" := Some([0.5, 1.0, 2.0, 3.0])])))
            == Success(CalculateChangeResponse(28.5, 11))
  {
    ChangeOfTheSuccessCase(CalculateChangeRequest(map[10.0 := 1, 0.5 := 3], map[20.0 := 1, 10.0 := 2]));
    assert CentsOfEach([0.5, 1.0, 2.0, 3.0]) == [50, 100, 200, 300];
    FewestForTwentyEightFifty([50, 100, 200, 300], 2850);
  }

  // Each scenario run through CalculateChange itself: the method establishes
  // FitsTable for its inputs, calls the service and states the outcome the
  // test asserts, with the exception type the test expects.

  method CalculateChangeUnderpaid(settings: CustomSettings) returns (outcome: Result<CalculateChangeResponse, ChangeError>)
    ensures outcome == Failure(InsufficientPayment) && outcome.error.IsInvalidOperation()
  {
    var request := CalculateChangeRequest(map[0.5 := 1, 100.0 := 2], map[1.0 := 1, 10.0 := 2]);
    UnderpaymentExample(settings);
    outcome := CalculateChange(request, settings);
  }

  method CalculateChangeCurrencyUnset() returns (outcome: Result<CalculateChangeResponse, ChangeError>)
    ensures outcome == Failure(SettingNotProvided) && !outcome.error.IsInvalidOperation()
  {
    CurrencyUnsetExample();
    outcome := CalculateChange(PaidEnoughRequest(), CustomSettings(None, None));
  }

  method CalculateChangeDenominationsUnset() returns (outcome: Result<CalculateChangeResponse, ChangeError>)
    ensures outcome == Failure(SettingNotProvided) && !outcome.error.IsInvalidOperation()
  {
    DenominationsUnsetExample();
    outcome := CalculateChange(PaidEnoughRequest(), CustomSettings(Some("USD"), None));
  }

  method CalculateChangeOtherCurrencyOnly() returns (outcome: Result<CalculateChangeResponse, ChangeError>)
    ensures outcome == Failure(SettingNotProvided) && !outcome.error.IsInvalidOperation()
  {
    DenominationsOfOtherCurrencyOnlyExample();
    outcome := CalculateChange(PaidEnoughRequest(), CustomSettings(Some("USD"), Some(map["MXN" := Some([])])));
  }

  method CalculateChangeNoOptimum() returns (outcome: Result<CalculateChangeResponse, ChangeError>)
    ensures outcome == Failure(NoOptimumBillsAndCoins) && outcome.error.IsInvalidOperation()
  {
    var request := CalculateChangeRequest(map[10.0 := 1, 0.5 := 3], map[20.0 := 1, 10.0 := 2]);
    var settings := CustomSettings(Some("USD"), Some(map["USD" := Some([1.0, 2.0, 3.0])]));
    ChangeOfTheSuccessCase(request);
    assert CentsOfEach([1.0, 2.0, 3.0]) == [100, 200, 300];
    assert FitsTable(request, settings);
    NoOptimumExample();
    outcome := CalculateChange(request, settings);
  }

  method CalculateChangeOptimum() returns (outcome: Result<CalculateChangeResponse, ChangeError>)
    ensures outcome == Success(CalculateChangeResponse(28.5, 11))
  {
    var request := CalculateChangeRequest(map[10.0 := 1, 0.5 := 3], map[20.0 := 1, 10.0 := 2]);
    var settings := CustomSettings(Some("USD"), Some(map["USD" := Some([0.5, 1.0, 2.0, 3.0])]));
    ChangeOfTheSuccessCase(request);
    assert CentsOfEach([0.5, 1.0, 2.0, 3.0]) == [50, 100, 200, 300];
    assert FitsTable(request, settings);
    OptimumExample();
    outcome := CalculateChange(request, settings);
  }
}
