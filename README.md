# Change calculator: a verified model

This project models `ChangeCalculatorService.CalculateChange` of RoutineDemo in Dafny.
The service takes a purchase and a payment. Each is a dictionary from price (or
denomination) to quantity. It reports the change due and the fewest bills and coins
of the configured currency that make up that change, or it throws. The model
follows the source's steps in order:

1. Both totals are exact decimal sums of key × value (`Money.Total`).
2. An underpayment is rejected (`InsufficientPayment`; an `InvalidOperationException` in C#).
3. An unset currency, an unset denomination dictionary, a missing entry for the
   currency, or a null entry is rejected (`SettingNotProvided`).
4. The change and each denomination are converted to whole cents by the truncating
   C# cast (`Money.Cents`).
5. A bottom-up table `memo` with `int.MaxValue` as the "unreachable" sentinel is filled
   in place (`ChangeCalculatorService.OptimumBillsAndCoins`).
6. Either the exact decimal change and the count are returned, or
   `NoOptimumBillsAndCoins` is reported (an `InvalidOperationException` in C#).

C# `decimal` is modelled as `real`, which is exact too. The dictionaries are
`map<real, int>`. A C# null in the settings is `None`.

The table fill is an imperative method over an `array<int>`. It is proved against a
pure recurrence, `CoinChange.Fewest`. That recurrence is then proved to give a count
exactly when some collection of denominations (each usable any number of times) adds
up to the amount, and that this count is the smallest such collection
(`CoinChange.FewestCorrect`). The service method `CalculateChange` is proved equal to
the pure outcome `ChangeCalculatorService.ChangeOutcome`. The lemmas about that
outcome give the error order, the exact change, and optimality. The unit-test
scenarios are lemmas in `ChangeCalculatorExamples`.

The setting check at ChangeCalculatorService.cs:50 only tests for null. With an
empty denomination array the table still runs, so change under one cent succeeds
with no pieces and any positive change fails with `NoOptimumBillsAndCoins`
(`EmptyDenominationsAreNotMissing`).

The source reports two of the error kinds with the same exception type,
`InvalidOperationException`. `ChangeError.IsInvalidOperation` records which kinds
those are, and the scenario methods state it for the outcomes whose tests expect
that exception. The model keeps the kinds distinct.

The minimum count is not monotonic in the amount, and the model does not claim it
is. For example, with pieces of 1 and 5, four needs four pieces but five needs one.

Each unit-test scenario is a lemma about `ChangeOutcome` and also a method that
calls `CalculateChange` itself, establishes its precondition, and states the
outcome the test asserts.

## Model

| member | source | states |
|---|---|---|
| Money.Total | RoutineDemo/Services/ChangeCalculatorService.cs:45-46 | the exact sum of key × value, taking keys in increasing order; it is non-negative when every key and quantity is; TotalRemove shows any order gives the same sum |
| Money.TotalRemove | RoutineDemo/Services/ChangeCalculatorService.cs:45-46 | a total is the line of any one key plus the total of the rest, so the exact sum of key × value does not depend on the dictionary's enumeration order |
| Money.LeastKey | RoutineDemo/Services/ChangeCalculatorService.cs:45-46 | every non-empty key set has a least key; the total takes lines in that order |
| Money.TruncateTowardZero | RoutineDemo/Services/ChangeCalculatorService.cs:54-55 | the `decimal` to `int` cast keeps the sign and drops the fraction toward zero: for x ≥ 0, r ≤ x < r + 1; for x < 0, r − 1 < x ≤ r |
| Money.Cents | RoutineDemo/Services/ChangeCalculatorService.cs:54 | `(int)(x * 100)` is within one cent of x × 100, toward zero, and is non-negative for non-negative x |
| Money.CentsOfEach | RoutineDemo/Services/ChangeCalculatorService.cs:55 | `Select(x => (int)(x * 100))` keeps the length, converts each denomination as `Cents` does, and gives non-negative cents for non-negative denominations |
| Money.CentsOfWholeCents | RoutineDemo/Services/ChangeCalculatorService.cs:52-55 | an amount that is a whole number of cents converts exactly |
| CoinChange.Fewest | RoutineDemo/Services/ChangeCalculatorService.cs:58-70 | the table entry for an amount once filled: a reachable count is at most the amount in cents, so `1 + memo[i - d]` cannot overflow and a count never equals the sentinel, and a positive amount needs at least one piece |
| CoinChange.FewestUsing | RoutineDemo/Services/ChangeCalculatorService.cs:62-67 | an entry part-way through the denominations: when it holds a count, that count is between 1 and the amount in cents |
| CoinChange.FewestWitness | RoutineDemo/Services/ChangeCalculatorService.cs:58-70 | soundness: when the table holds a count, some collection of exactly that many configured denominations adds up to the amount |
| CoinChange.FewestUsingWitness | RoutineDemo/Services/ChangeCalculatorService.cs:62-67 | the same for an entry part-way through the denominations |
| CoinChange.FewestUsingNoWorse | RoutineDemo/Services/ChangeCalculatorService.cs:62-67 | once a denomination d has been looked at, `Math.Min` keeps the entry at or below 1 + the count for amount − d |
| CoinChange.FewestIsOptimal | RoutineDemo/Services/ChangeCalculatorService.cs:58-70 | optimality: any collection of non-negative denominations that adds up to the amount has at least the table's count of pieces, and the table has a count |
| CoinChange.FewestCorrect | RoutineDemo/Services/ChangeCalculatorService.cs:58-73 | the table holds a count iff the amount can be made up, and then the count is the fewest pieces that make it up |
| CoinChange.FewestFromBound | RoutineDemo/Services/ChangeCalculatorService.cs:58-70 | a collection that makes up the amount and that no other undercuts fixes the table's value at its size |
| CoinChange.ZeroNeedsNoPieces | RoutineDemo/Services/ChangeCalculatorService.cs:59 | `memo[0] = 0`: zero change is always made up, by no pieces, whatever the denominations |
| ChangeCalculatorService.ActiveDenominations | RoutineDemo/Services/ChangeCalculatorService.cs:49-50 | `CurrenciesDenominations?.GetValueOrDefault(Currency)` gives denominations iff the currency is set, the dictionary is set, it has that currency, and its entry is not null; then it gives that entry |
| ChangeCalculatorService.ChangeOutcome | RoutineDemo/Services/ChangeCalculatorService.cs:42-76 | the result or error of the service: a response carries the untruncated, non-negative change provided − purchased and a count no larger than the change in cents; SettingNotProvided only when the active denominations are unset |
| ChangeCalculatorService.OptimumBillsAndCoins | RoutineDemo/Services/ChangeCalculatorService.cs:58-70 | after the nested loops, `memo[changeDueAsInt]` is the recurrence's count for the change, or `int.MaxValue` when it is unreachable; the loop invariants are that every entry below i is final and every entry above i is still the sentinel |
| ChangeCalculatorService.CalculateChange | RoutineDemo/Services/ChangeCalculatorService.cs:42-76 | the service's result or error is exactly ChangeOutcome of the request and settings |
| ChangeCalculatorService.InsufficientPaymentComesFirst | RoutineDemo/Services/ChangeCalculatorService.cs:45-47 | the outcome is InsufficientPayment iff the total provided is below the total purchased, whatever the settings |
| ChangeCalculatorService.CurrencyUnsetFails | RoutineDemo/Services/ChangeCalculatorService.cs:49 | with enough payment and no currency set, the outcome is SettingNotProvided |
| ChangeCalculatorService.DenominationsUnsetFails | RoutineDemo/Services/ChangeCalculatorService.cs:50 | with enough payment and a currency, a null dictionary, a dictionary without that currency (even if others are present), or a null entry gives SettingNotProvided |
| ChangeCalculatorService.SettingNotProvidedExactly | RoutineDemo/Services/ChangeCalculatorService.cs:49-50 | the outcome is SettingNotProvided iff payment suffices and the active denominations are unset |
| ChangeCalculatorService.EmptyDenominationsAreNotMissing | RoutineDemo/Services/ChangeCalculatorService.cs:50-74 | an empty denomination array passes the setting check; zero change then succeeds with 0 pieces and positive change fails with NoOptimumBillsAndCoins |
| ChangeCalculatorService.ExactPaymentNeedsNoPieces | RoutineDemo/Services/ChangeCalculatorService.cs:53-74 | paying exactly the purchase, with settings present, returns change 0 and 0 pieces |
| ChangeCalculatorService.SuccessIsExactChangeInFewestPieces | RoutineDemo/Services/ChangeCalculatorService.cs:53-74 | a response carries the untruncated change, total provided − total purchased, which is non-negative, and the fewest pieces of the configured denominations (in cents) that make up the change in cents |
| ChangeCalculatorService.NoOptimumExactlyWhenUnreachable | RoutineDemo/Services/ChangeCalculatorService.cs:60-73 | the outcome is NoOptimumBillsAndCoins iff payment suffices, the denominations are set, and no collection of them makes up the change in cents |
| ChangeCalculatorExamples.UnderpaymentExample | Tests/Services/ChangeCalculatorTests.cs:26-42 | buying {0.5: 1, 100: 2} with {1: 1, 10: 2} is InsufficientPayment under any settings |
| ChangeCalculatorExamples.CurrencyUnsetExample | Tests/Services/ChangeCalculatorTests.cs:44-62 | enough payment with empty settings is SettingNotProvided |
| ChangeCalculatorExamples.DenominationsUnsetExample | Tests/Services/ChangeCalculatorTests.cs:64-82 | enough payment with currency USD and no dictionary is SettingNotProvided |
| ChangeCalculatorExamples.DenominationsOfOtherCurrencyOnlyExample | Tests/Services/ChangeCalculatorTests.cs:84-105 | enough payment with currency USD and only MXN configured is SettingNotProvided |
| ChangeCalculatorExamples.ChangeOfTheSuccessCase | Tests/Services/ChangeCalculatorTests.cs:141-153 | purchase {10: 1, 0.5: 3} totals 11.50, payment {20: 1, 10: 2} totals 40, and the change is 2850 cents |
| ChangeCalculatorExamples.NoWayToTwentyEightFifty | Tests/Services/ChangeCalculatorTests.cs:107-129 | no collection of 100, 200 and 300 cents makes up 2850 cents |
| ChangeCalculatorExamples.NoOptimumExample | Tests/Services/ChangeCalculatorTests.cs:107-129 | change of 28.50 with USD denominations {1, 2, 3} is NoOptimumBillsAndCoins |
| ChangeCalculatorExamples.FewestForTwentyEightFifty | Tests/Services/ChangeCalculatorTests.cs:131-155 | the fewest pieces of 50, 100, 200 and 300 cents making up 2850 cents is 11 |
| ChangeCalculatorExamples.OptimumExample | Tests/Services/ChangeCalculatorTests.cs:131-155 | change of 28.50 with USD denominations {0.5, 1, 2, 3} is returned as 28.5 in 11 pieces |
| ChangeCalculatorExamples.CalculateChangeUnderpaid | Tests/Services/ChangeCalculatorTests.cs:26-42 | CalculateChange on the underpayment request fails with InsufficientPayment, an InvalidOperationException kind, under any settings |
| ChangeCalculatorExamples.CalculateChangeCurrencyUnset | Tests/Services/ChangeCalculatorTests.cs:44-62 | CalculateChange with empty settings fails with SettingNotProvided, not an InvalidOperationException kind |
| ChangeCalculatorExamples.CalculateChangeDenominationsUnset | Tests/Services/ChangeCalculatorTests.cs:64-82 | CalculateChange with currency USD and no dictionary fails with SettingNotProvided |
| ChangeCalculatorExamples.CalculateChangeOtherCurrencyOnly | Tests/Services/ChangeCalculatorTests.cs:84-105 | CalculateChange with currency USD and only MXN configured fails with SettingNotProvided |
| ChangeCalculatorExamples.CalculateChangeNoOptimum | Tests/Services/ChangeCalculatorTests.cs:107-129 | CalculateChange on 28.50 of change with USD denominations {1, 2, 3} fails with NoOptimumBillsAndCoins, an InvalidOperationException kind |
| ChangeCalculatorExamples.CalculateChangeOptimum | Tests/Services/ChangeCalculatorTests.cs:131-155 | CalculateChange on 28.50 of change with USD denominations {0.5, 1, 2, 3} returns 28.5 and 11 pieces |

## Left out

- Console input, host and dependency-injection set-up, and logging (RoutineDemo/Program.cs) are I/O plumbing and are not modelled.
- The unused `IConfiguration`, the `ILogger` and the `IOptions` wrapper are not modelled. The settings are a plain parameter of `CalculateChange`.
- Exception types and their message strings are not modelled. The errors are the constructors of `ChangeError`. `SettingNotProvidedException` and the service interface carry no logic.
- ChangeCalculatorService.CalculateChange: requires `FitsTable`. Once the table is reached, the change in cents must be below `int.MaxValue` and every denomination in cents must lie in [0, `int.MaxValue`]. The model therefore does not cover the C# overflows: the `OverflowException` of the `(int)` casts and the wrap of `changeDueAsInt + 1` into a negative array size. It also does not cover the `IndexOutOfRangeException` that a negative denomination can cause through `i - d > i`. Nor does it cover the case where that does not crash: with a negative denomination and change under one cent, the loop at line 60 never runs and the source returns the change with 0 pieces.
- The range and precision of `decimal` are not modelled (`real` is unbounded and exact). Totals beyond about 7.9 × 10^28, and products that `decimal` would round, behave differently in the source.
- Null request dictionaries, which make LINQ `Sum` throw, are not modelled. A request always holds both maps.
- Memory exhaustion from allocating `memo` for a large change is not modelled.
- The table fill is a separate method, `OptimumBillsAndCoins`, which `CalculateChange` calls. In the source it sits inline. The steps and the array updates are the same.
