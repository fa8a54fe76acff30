/**
 * The request, response and settings shapes of the change calculator, and
 * its three failure kinds (thrown as exceptions by the C# service).
 */
module ChangeCalculatorModels {
  import opened Wrappers

  /** Two dictionaries: item price to amount bought, and denomination tendered to amount tendered. */
  datatype CalculateChangeRequest = CalculateChangeRequest(
    itemsPricesAndAmounts: map<real, int>,
    paymentProvidedDenominationsAndAmounts: map<real, int>)

  datatype CalculateChangeResponse = CalculateChangeResponse(
    changeDue: real,
    optimumBillsAndCoins: int)

  /**
   * The injected settings. `None` stands for a C# null: an unset currency,
   * an unset dictionary, or a dictionary entry holding a null array.
   */
  datatype CustomSettings = CustomSettings(
    currency: Option<string>,
    currenciesDenominations: Option<map<string, Option<seq<real>>>>)

  datatype ChangeError =
    | InsufficientPayment       // InvalidOperationException: money provided below the purchase
    | SettingNotProvided        // SettingNotProvidedException: currency or its denominations unset
    | NoOptimumBillsAndCoins    // InvalidOperationException: the change cannot be made up
  {
    /** The two kinds the C# service signals with InvalidOperationException. */
    predicate IsInvalidOperation()
    {
      !SettingNotProvided?
    }
  }
}
