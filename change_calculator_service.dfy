/**
 * ChangeCalculatorService.CalculateChange: totals, validation in the
 * source's order, conversion to whole cents, the bottom-up `memo` table,
 * and the outcome. The settings the C# service receives by injection are a
 * parameter here.
 */
module ChangeCalculatorService {
  import opened Wrappers
  import opened Money
  import opened CoinChange
  import opened ChangeCalculatorModels

  /** `CurrenciesDenominations?.GetValueOrDefault(Currency)`: None when anything on the way is null or missing. */
  function ActiveDenominations(settings: CustomSettings): (r: Option<seq<real>>)
    ensures r.Some? <==>
      settings.currency.Some? && settings.currenciesDenominations.Some? &&
      settings.currency.value in settings.currenciesDenominations.value &&
      settings.currenciesDenominations.value[settings.currency.value].Some?
    ensures r.Some? ==> r == settings.currenciesDenominations.value[settings.currency.value]
  {
    match settings.currency
    case None => None
    case Some(currency) =>
      match settings.currenciesDenominations
      case None => None
      case Some(denominations) =>
        if currency in denominations then denominations[currency] else None
  }

  function TotalPurchased(request: CalculateChangeRequest): real
  {
    Total(request.itemsPricesAndAmounts)
  }

  function TotalProvided(request: CalculateChangeRequest): real
  {
    Total(request.paymentProvidedDenominationsAndAmounts)
  }

  /** The table entry for an Option count: the count itself, or the sentinel int.MaxValue. */
  function MemoEntry(count: Option<nat>): int
  {
    match count
    case None => Int32Max
    case Some(k) => k
  }

  /** The outcome CalculateChange produces: a response, or the error it throws. */
  function ChangeOutcome(request: CalculateChangeRequest, settings: CustomSettings): (r: Result<CalculateChangeResponse, ChangeError>)
    ensures r.Success? ==>
      r.value.changeDue == TotalProvided(request) - TotalPurchased(request) && 0.0 <= r.value.changeDue
    ensures r.Success? ==> 0 <= r.value.optimumBillsAndCoins <= Cents(r.value.changeDue)
    ensures r.Failure? && r.error == SettingNotProvided ==> ActiveDenominations(settings).None?
  {
    var totalPurchased := TotalPurchased(request);
    var totalProvided := TotalProvided(request);
    if totalProvided < totalPurchased then Failure(InsufficientPayment)
    else if settings.currency.None? then Failure(SettingNotProvided)
    else if ActiveDenominations(settings).None? then Failure(SettingNotProvided)
    else
      var changeDue := totalProvided - totalPurchased;
      match Fewest(CentsOfEach(ActiveDenominations(settings).value), Cents(changeDue))
      case None => Failure(NoOptimumBillsAndCoins)
      case Some(count) => Success(CalculateChangeResponse(changeDue, count))
  }

  /**
   * What CalculateChange needs so that no C# cast overflows and no index
   * leaves the table: once it reaches the table, the change in cents plus
   * one fits an int and every denomination in cents is a non-negative int.
   */
  predicate FitsTable(request: CalculateChangeRequest, settings: CustomSettings)
  {
    var changeDue := TotalProvided(request) - TotalPurchased(request);
    0.0 <= changeDue && ActiveDenominations(settings).Some? ==>
      Cents(changeDue) < Int32Max &&
      forall i :: 0 <= i < |ActiveDenominations(settings).value| ==>
        0 <= Cents(ActiveDenominations(settings).value[i]) <= Int32Max
  }

  /**
   * The bottom-up table: `memo[j]` becomes the fewest pieces making up `j`
   * cents, or int.MaxValue when none do; returns `memo[changeDueAsInt]`.
   */
  method OptimumBillsAndCoins(denominationsAsInts: seq<int>, changeDueAsInt: nat) returns (best: int)
    requires NonNegative(denominationsAsInts)
    requires changeDueAsInt < Int32Max
    ensures best == MemoEntry(Fewest(denominationsAsInts, changeDueAsInt))
  {
    var memo := new int[changeDueAsInt + 1](_ => Int32Max);
    memo[0] := 0;
    for i := 1 to changeDueAsInt + 1
      invariant forall j :: 0 <= j < i ==> memo[j] == MemoEntry(Fewest(denominationsAsInts, j))
      invariant forall j :: i <= j <= changeDueAsInt ==> memo[j] == Int32Max
    {
      for t := 0 to |denominationsAsInts|
        invariant memo[i] == MemoEntry(FewestUsing(denominationsAsInts, t, i))
        invariant forall j :: 0 <= j < i ==> memo[j] == MemoEntry(Fewest(denominationsAsInts, j))
        invariant forall j :: i < j <= changeDueAsInt ==> memo[j] == Int32Max
      {
        var denominationAsInt := denominationsAsInts[t];
        if i - denominationAsInt >= 0 && memo[i - denominationAsInt] != Int32Max {
          assert 1 + memo[i - denominationAsInt] <= Int32Max;
          memo[i] := if memo[i] <= 1 + memo[i - denominationAsInt] then memo[i] else 1 + memo[i - denominationAsInt];
        }
      }
    }
    best := memo[changeDueAsInt];
  }

  /** The service operation, in the source's order of checks. */
  method CalculateChange(request: CalculateChangeRequest, settings: CustomSettings)
    returns (outcome: Result<CalculateChangeResponse, ChangeError>)
    requires FitsTable(request, settings)
    ensures outcome == ChangeOutcome(request, settings)
  {
    var totalPurchased := Total(request.itemsPricesAndAmounts);
    var totalProvided := Total(request.paymentProvidedDenominationsAndAmounts);
    if totalProvided < totalPurchased {
      return Failure(InsufficientPayment);
    }
    if settings.currency.None? {
      return Failure(SettingNotProvided);
    }
    var denominations := ActiveDenominations(settings);
    if denominations.None? {
      return Failure(SettingNotProvided);
    }
    var changeDue := totalProvided - totalPurchased;
    var changeDueAsInt := Cents(changeDue);
    var denominationsAsInts := CentsOfEach(denominations.value);
    var best := OptimumBillsAndCoins(denominationsAsInts, changeDueAsInt);
    if best == Int32Max {
      return Failure(NoOptimumBillsAndCoins);
    }
    outcome := Success(CalculateChangeResponse(changeDue, best));
  }

  /** An underpayment is reported first, whatever the settings are. */
  lemma InsufficientPaymentComesFirst(request: CalculateChangeRequest, settings: CustomSettings)
    ensures ChangeOutcome(request, settings) == Failure(InsufficientPayment)
            <==> TotalProvided(request) < TotalPurchased(request)
  {
  }

  /** Enough payment but no currency set: SettingNotProvided. */
  lemma CurrencyUnsetFails(request: CalculateChangeRequest, settings: CustomSettings)
    requires TotalPurchased(request) <= TotalProvided(request)
    requires settings.currency.None?
    ensures ChangeOutcome(request, settings) == Failure(SettingNotProvided)
  {
  }

  /**
   * Enough payment and a currency, but no dictionary, no entry for that
   * currency (other currencies may have one), or a null entry: SettingNotProvided.
   */
  lemma DenominationsUnsetFails(request: CalculateChangeRequest, settings: CustomSettings)
    requires TotalPurchased(request) <= TotalProvided(request)
    requires settings.currency.Some?
    requires settings.currenciesDenominations.None?
             || settings.currency.value !in settings.currenciesDenominations.value
             || settings.currenciesDenominations.value[settings.currency.value].None?
    ensures ChangeOutcome(request, settings) == Failure(SettingNotProvided)
  {
  }

  /** SettingNotProvided is reported exactly when payment suffices and the active denominations are unset. */
  lemma SettingNotProvidedExactly(request: CalculateChangeRequest, settings: CustomSettings)
    ensures ChangeOutcome(request, settings) == Failure(SettingNotProvided)
            <==> TotalPurchased(request) <= TotalProvided(request) && ActiveDenominations(settings).None?
  {
  }

  /**
   * An empty denomination array is not a missing setting: the table runs,
   * and only zero change can be made up (with no pieces).
   */
  lemma EmptyDenominationsAreNotMissing(request: CalculateChangeRequest, settings: CustomSettings)
    requires TotalPurchased(request) <= TotalProvided(request)
    requires ActiveDenominations(settings) == Some([])
    ensures var changeDue := TotalProvided(request) - TotalPurchased(request);
            ChangeOutcome(request, settings) ==
              if Cents(changeDue) == 0 then Success(CalculateChangeResponse(changeDue, 0))
              else Failure(NoOptimumBillsAndCoins)
  {
    assert settings.currency.Some?;
    var changeDue := TotalProvided(request) - TotalPurchased(request);
    assert CentsOfEach([]) == [];
    assert Cents(changeDue) != 0 ==> Fewest([], Cents(changeDue)) == None;
  }

  /** When payment matches the purchase exactly and settings are present, no pieces are returned. */
  lemma ExactPaymentNeedsNoPieces(request: CalculateChangeRequest, settings: CustomSettings)
    requires TotalPurchased(request) == TotalProvided(request)
    requires ActiveDenominations(settings).Some?
    ensures ChangeOutcome(request, settings) == Success(CalculateChangeResponse(0.0, 0))
  {
  }

  lemma NonNegativeCents(request: CalculateChangeRequest, settings: CustomSettings)
    requires FitsTable(request, settings)
    requires TotalPurchased(request) <= TotalProvided(request)
    requires ActiveDenominations(settings).Some?
    ensures NonNegative(CentsOfEach(ActiveDenominations(settings).value))
  {
  }

  /**
   * A response carries the exact, non-negative decimal change (not its
   * cent truncation) and the fewest pieces making up the change in cents.
   */
  lemma SuccessIsExactChangeInFewestPieces(request: CalculateChangeRequest, settings: CustomSettings)
    requires FitsTable(request, settings)
    ensures ChangeOutcome(request, settings).Success? ==>
      var response := ChangeOutcome(request, settings).value;
      response.changeDue == TotalProvided(request) - TotalPurchased(request) &&
      0.0 <= response.changeDue &&
      IsFewest(CentsOfEach(ActiveDenominations(settings).value), Cents(response.changeDue), response.optimumBillsAndCoins)
  {
    if ChangeOutcome(request, settings).Success? {
      NonNegativeCents(request, settings);
      var changeDue := TotalProvided(request) - TotalPurchased(request);
      FewestCorrect(CentsOfEach(ActiveDenominations(settings).value), Cents(changeDue));
    }
  }

  /**
   * NoOptimumBillsAndCoins is reported exactly when payment suffices, the
   * denominations are set, and no collection of them makes up the change in cents.
   */
  lemma NoOptimumExactlyWhenUnreachable(request: CalculateChangeRequest, settings: CustomSettings)
    requires FitsTable(request, settings)
    ensures ChangeOutcome(request, settings) == Failure(NoOptimumBillsAndCoins) <==>
      TotalPurchased(request) <= TotalProvided(request) &&
      ActiveDenominations(settings).Some? &&
      !Reachable(CentsOfEach(ActiveDenominations(settings).value), Cents(TotalProvided(request) - TotalPurchased(request)))
  {
    if TotalPurchased(request) <= TotalProvided(request) && ActiveDenominations(settings).Some? {
      NonNegativeCents(request, settings);
      var changeDue := TotalProvided(request) - TotalPurchased(request);
      FewestCorrect(CentsOfEach(ActiveDenominations(settings).value), Cents(changeDue));
    }
  }
}
