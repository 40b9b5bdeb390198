# Irish income tax engine of rainlo, modelled in Dafny

rainlo is a personal-finance web application. Its tax calculator works out what an
employee in Ireland owes for 2025 and serves the results over a JSON API. This project
models that calculator and proves properties of the model:

- **Rate table** (`tax_rates.dfy`, module `TaxRates`). This is the 2025 table:
  - income-tax rates and standard-rate bands;
  - USC bands (Universal Social Charge);
  - the PRSI rate (Pay Related Social Insurance);
  - tax credits and the year.
  The module also models the nested array that `TaxRates::asArray` returns and decodes
  it back, so one can prove the array form loses nothing.
- **Engine** (`tax_calculator_service.dfy`, module `TaxEngine`). It models:
  - income tax on the standard-rate band for each marital status;
  - USC charged band by band; `calculateUSC`'s loop is a method proved against a sum of per-band charges;
  - PRSI and tax credits;
  - net tax floored at zero, net income, and the effective and marginal rates, each rounded to the cent as PHP's `round($x, 2)` does;
  - the monthly projection.
  The engine takes the rate table as a parameter. The service's own private constants
  are `TaxEngine.ServiceRates`, which is proved equal to the shared 2025 table.
- **Controller** (`tax_calculator_controller.dfy`, module `TaxController`). It models three endpoints:
  - `calculate`, which pairs the annual calculation with its monthly projection;
  - `marginalRate`, which compares net tax at an income and at that income plus EUR 1,000;
  - `compareScenarios`, which builds the numbered and labelled results list.
- **Request validation** (`tax_calculation_request.dfy`, module `TaxRequests`). It models:
  - `prepareForValidation`, which normalises `has_children` to a boolean and an empty `spouse_income` to null;
  - the four attribute rules, with the custom messages;
  - the `withValidator` after-hook.
  The request and the validator's message bag are classes whose methods update their state in place.
- **Transaction type** (`transaction_type.dfy`, module `TransactionTypes`). The enum's
  backing values, labels, colours and icons, and the case-insensitive `fromString`.
- **Worked cases** (`tax_scenarios.dfy`, module `TaxScenarios`). The calculations the project's
  own test suites check, computed on the 2025 table.

Support modules:
- `Wrappers`: `Option` and `Result`.
- `Money`: exact cent rounding.
- `Text`: ASCII lower-casing and decimal rendering of naturals.

Amounts are exact reals, not IEEE doubles. Marital status stays a string because the
engine's `switch` has a default branch, and the scenario path reaches it with statuses
that were never validated.

The effective rate at `app/Services/TaxCalculatorService.php:69` divides by the income
without a guard. Yet the request rule `min:0` (`app/Http/Requests/Tax/TaxCalculationRequest.php:20`)
accepts an income of 0, and `test_zero_income_scenario`
(`tests/Unit/Services/TaxCalculatorServiceTest.php:102`) expects such a calculation to succeed.
`TaxEngine.EffectiveRateAsWritten` models the division as written; it fails at income 0.
Everything built on it (`TaxEngine.CalculateTax` and the three controller actions) uses
the corrected rate instead, which is 0 at income 0; "Findings" records the difference and
"Left out" names those members.

## Model

| member | source | states |
|---|---|---|
| TaxRates.Table2025WellFormed | app/Domain/Tax/TaxRates.php:7-36 | The 2025 table is usable: exactly the last USC band is unbounded, limits are positive and ascending, and no rate, band or credit is negative. |
| TaxRates.Table2025Constants | app/Domain/Tax/TaxRates.php:7-36 | The 2025 constants are ordered: standard rate < higher rate; single band < single-parent band < married band; USC limits are 12012, 27382 and 70044; the year is 2025. |
| TaxRates.ExactlyOneUnbounded | app/Domain/Tax/TaxRates.php:20-25 | In well-formed USC bands, the last band is the only one with a null limit. |
| TaxRates.BandsRoundTrip | app/Domain/Tax/TaxRates.php:20-25 | Decoding the array form of any USC band list gives back that list. |
| TaxRates.AsArrayRoundTrip | app/Domain/Tax/TaxRates.php:38-54 | Decoding the `asArray` structure of any rate table gives back that table, so the array form loses nothing. |
| TaxRates.AsArrayShape | app/Domain/Tax/TaxRates.php:38-54 | `asArray` has the top-level keys income_tax, usc, prsi, tax_credits and year, in that order. income_tax holds rates and bands, usc holds bands, prsi holds rate, and year is the table's year. |
| TaxRates.AsArray | app/Domain/Tax/TaxRates.php:38-54 | The array's top-level keys are income_tax, usc, prsi, tax_credits and year, in that order. |
| TaxRates.AsArrayLookups | app/Domain/Tax/TaxRates.php:40-53 | income_tax holds the rates and bands arrays, usc the list of band arrays, prsi the rate, tax_credits the credits array, and year the table's year. |
| TaxEngine.ServiceRatesAgree | app/Services/TaxCalculatorService.php:8-35 | The service's private constants equal the shared 2025 table. |
| TaxEngine.GetTaxRatesAndBands | app/Services/TaxCalculatorService.php:234-250 | The service's reference array is the shared table's `asArray` form, and it decodes to the service's own rates. |
| TaxEngine.MarriedBandBounds | app/Services/TaxCalculatorService.php:175-182 | A married person's standard-rate band lies between the one-income band and the two-income base plus the maximum increase. |
| TaxEngine.MarriedBandMonotone | app/Services/TaxCalculatorService.php:175-182 | A higher spouse income never shrinks a married person's standard-rate band. |
| TaxEngine.StandardRateBand | app/Services/TaxCalculatorService.php:166-187 | single_parent gets its own band and every other unmarried status, known or not, the single band. A married person without a positive spouse income gets the one-income band. Otherwise the two-income base is raised by the lower of the maximum increase and the spouse income. |
| TaxEngine.IncomeTax | app/Services/TaxCalculatorService.php:77-86 | Income up to the standard-rate band is taxed entirely at the standard rate. Above it, the band is taxed at the standard rate and the excess at the higher rate. |
| TaxEngine.Prsi | app/Services/TaxCalculatorService.php:132-136 | PRSI is 0 on no income and never negative for a non-negative income and rate. |
| TaxEngine.PrsiUncapped | app/Services/TaxCalculatorService.php:132-136 | PRSI has no ceiling: every further euro of income, at any income, costs exactly the PRSI rate. |
| TaxEngine.EffectiveRateAsWritten | app/Services/TaxCalculatorService.php:69 | The unguarded division fails exactly at income 0. Otherwise it is whole cents within half a cent of net tax as a percentage of income. |
| TaxEngine.IncomeTaxStep | app/Services/TaxCalculatorService.php:77-86 | Extra income earned wholly above the band is taxed at the higher rate. Extra income that stays within the band is taxed at the standard rate. |
| TaxEngine.IncomeTaxMonotone | app/Services/TaxCalculatorService.php:77-86 | Income tax never decreases as income rises, given non-negative rates. |
| TaxEngine.CalculateUsc | app/Services/TaxCalculatorService.php:91-127 | The loop with early exits, over the bands, returns the sum of the per-band charges. A band charges its rate on the part of the income above the previous limit and below its own limit. |
| TaxEngine.UscSumNonNegative | app/Services/TaxCalculatorService.php:91-127 | USC is never negative on well-formed bands. |
| TaxEngine.UscSumMonotone | app/Services/TaxCalculatorService.php:91-127 | USC never decreases as income rises. |
| TaxEngine.UscLinearInBand | app/Services/TaxCalculatorService.php:108-115 | Between two incomes inside one band, USC grows by exactly that band's rate per euro. |
| TaxEngine.Usc2025 | app/Services/TaxCalculatorService.php:21-26 | On the 2025 bands, USC has a closed form that is piecewise linear, with offsets of 60.06, 367.46 and 1647.32. |
| TaxEngine.CalculateMarginalTaxRate | app/Services/TaxCalculatorService.php:192-229 | The loop returns round((income-tax rate + USC band rate + PRSI) * 100, 2). The income-tax rate is the higher rate from the band upwards (`>=`). The USC rate is that of the first band with previous limit < income <= limit, and 0 when no band matches. |
| TaxEngine.PositiveIncomeHasOneBand | app/Services/TaxCalculatorService.php:205-223 | Any positive income lies in exactly one USC band, taking the band's lower edge as exclusive and its upper edge as inclusive. |
| TaxEngine.UscMarginalIsLastEuroRate | app/Services/TaxCalculatorService.php:205-223 | The USC marginal rate is the rate charged on the last euros already earned: USC(x) - USC(y) equals (x - y) * rate for every y between the band's lower limit and x. |
| TaxEngine.UscMarginalRate2025 | app/Services/TaxCalculatorService.php:205-223 | On the 2025 bands, the USC marginal rate is 0, 0.5%, 2%, 3% or 8%, with each band's upper limit inclusive. |
| TaxEngine.CalculateTaxCredits | app/Services/TaxCalculatorService.php:141-161 | The accumulating method returns the closed-form credits due: personal credit (married or single), plus the child carer credit for an unmarried person with children, plus the PAYE credit. |
| TaxEngine.Credits2025 | app/Services/TaxCalculatorService.php:30-35 | The 2025 credits are EUR 6,000 when married, EUR 5,900 for an unmarried person with children, and EUR 4,000 otherwise. |
| TaxEngine.EffectiveTaxRate | app/Services/TaxCalculatorService.php:69 | The rate is 0 at income 0 and otherwise agrees with the unguarded division. |
| TaxEngine.CalculateTax | app/Services/TaxCalculatorService.php:40-72 | Returns the full calculation (inputs, rounded breakdown, net income, effective and marginal rates) proved equal to the specification `TaxCalculation`, whose properties are the lemmas below. |
| TaxEngine.ComponentsNonNegative | app/Services/TaxCalculatorService.php:46-48 | On a usable table and a non-negative income, income tax, USC and PRSI are all non-negative. |
| TaxEngine.GrossTaxMonotone | app/Services/TaxCalculatorService.php:51 | Gross tax never decreases as income rises. |
| TaxEngine.NetTaxMonotone | app/Services/TaxCalculatorService.php:51-52 | The rounded net tax never decreases as income rises. |
| TaxEngine.RoundedFieldsConsistent | app/Services/TaxCalculatorService.php:51-68 | Every rounded amount is whole cents. Gross tax is within 2 cents of the sum of its rounded parts. Net income is within 1 cent of income less net tax. Net tax is never negative, and it is 0 when the credits cover the gross tax. |
| TaxEngine.ZeroIncome | app/Services/TaxCalculatorService.php:40-72 | At income 0, every tax amount, the net income and the guarded effective rate are 0. |
| TaxEngine.CalculateMonthlyBreakdown | app/Services/TaxCalculatorService.php:255-267 | The loop over the breakdown returns each entry divided by 12 and rounded, in key order, and also the monthly gross and net incomes. |
| TaxEngine.MonthlyMatchesAnnual | app/Services/TaxCalculatorService.php:255-267 | The monthly breakdown keeps the six keys in order, and twelve times each monthly figure is within 6 cents of the annual figure. |
| TaxController.ServiceRatesWellFormed | app/Http/Controllers/Tax/TaxCalculatorController.php:15-20 | Taking the injection of the service to succeed, the table it calculates with is usable, so every endpoint's precondition holds for it. |
| TaxController.Calculate | app/Http/Controllers/Tax/TaxCalculatorController.php:22-42 | The annual part is the engine's calculation with has_children defaulting to false. The monthly part is the projection of that same calculation. |
| TaxController.CalculateResponseConsistent | app/Http/Controllers/Tax/TaxCalculatorController.php:25-37 | In a calculate response, twelve times each monthly figure is within 6 cents of the annual figure, with the breakdown keys preserved. |
| TaxController.MarginalRate | app/Http/Controllers/Tax/TaxCalculatorController.php:60-92 | Two calculations, at the income and at income + 1000, both without children. The report carries the first calculation's marginal rate, and the rounded extra net tax, effective marginal rate and net from the next 1000. |
| TaxController.NextThousandSplits | app/Http/Controllers/Tax/TaxCalculatorController.php:76-84 | The tax on the next 1000 is exactly the difference in rounded net tax. It and the net from the next 1000 add to 1000 exactly. The effective marginal rate times 10 is within 5 cents of it. |
| TaxController.ExtraNetTaxNonNegative | app/Http/Controllers/Tax/TaxCalculatorController.php:76 | On a usable table, earning 1000 more never lowers net tax. |
| TaxController.BandMarginalRate | app/Http/Controllers/Tax/TaxCalculatorController.php:81 | Inside USC band k, the reported marginal rate is round((income-tax rate + band k's rate + PRSI) * 100, 2). |
| TaxController.ExtraTaxAtBandRate | app/Http/Controllers/Tax/TaxCalculatorController.php:63-84 | Suppose the next 1000 stays inside one USC band and one side of the income-tax band, and the credits do not exceed the gross tax. Then the extra net tax is within 1 cent of 1000 times the combined marginal rate, which is the rate the report states. |
| TaxController.DefaultLabel | app/Http/Controllers/Tax/TaxCalculatorController.php:109 | A default label is "Scenario " followed by the decimal digits of the scenario number. |
| TaxController.CompareScenarios | app/Http/Controllers/Tax/TaxCalculatorController.php:94-112 | Succeeds exactly when every scenario has an income and a status; a missing one fails the call, through the error handler. On success, result i is numbered i + 1, keeps its own label or gets the default one, and holds the engine's calculation with has_children defaulting to false. That calculation uses the corrected effective rate, so a zero income succeeds here where the source divides by zero. |
| TaxController.DefaultLabelsDistinct | app/Http/Controllers/Tax/TaxCalculatorController.php:107-111 | Two different unlabelled scenarios get different default labels. |
| TaxRequests.ErrorBag.Add | app/Http/Requests/Tax/TaxCalculationRequest.php:87 | As Laravel's message bag does, appends the message to that attribute's list unless the list already holds it, in which case nothing changes. Every other attribute is left as it was. |
| TaxRequests.AddMessageTwice | app/Http/Requests/Tax/TaxCalculationRequest.php:87 | Adding the same message twice under one key leaves it there once. |
| TaxRequests.AddEachAt | app/Http/Requests/Tax/TaxCalculationRequest.php:84-94 | When each message is not yet under its key at the moment it is added, adding messages one by one appends under each key exactly that key's messages, in order. |
| TaxRequests.HookMessagesNew | app/Http/Requests/Tax/TaxCalculationRequest.php:86-93 | The after-hook's messages never repeat a rule message under the same key, so the bag drops none of them. |
| TaxRequests.TaxCalculationRequest.PrepareForValidation | app/Http/Requests/Tax/TaxCalculationRequest.php:73-79 | Merges has_children as its boolean reading (default false), and spouse_income as null when it is absent or "". |
| TaxRequests.TaxCalculationRequest.AfterHook | app/Http/Requests/Tax/TaxCalculationRequest.php:82-95 | Adds the spouse-income message when the status is married and spouse income is null. Adds the children message when the status is single_parent and has_children is falsy. Nothing else is changed. |
| TaxRequests.TaxCalculationRequest.ValidateResolved | app/Http/Requests/Tax/TaxCalculationRequest.php:14-95 | Prepares the input, then collects the rule messages and then the after-hook messages into a new bag. |
| TaxRequests.ValidationAt | app/Http/Requests/Tax/TaxCalculationRequest.php:14-95 | For each attribute, its messages are its rule messages followed by its hook messages, and it appears in the bag exactly when there is one. |
| TaxRequests.PreparedShape | app/Http/Requests/Tax/TaxCalculationRequest.php:73-79 | After preparation, has_children is a boolean and spouse_income is present and never "". spouse_income is null exactly when it was absent, null or "". Every other key is left as it was. |
| TaxRequests.PrepareIdempotent | app/Http/Requests/Tax/TaxCalculationRequest.php:73-79 | Preparing twice gives the same payload as preparing once. |
| TaxRequests.HasChildrenRuleSilent | app/Http/Requests/Tax/TaxCalculationRequest.php:28-31 | Once prepared, the `boolean` rule on has_children can never fail. |
| TaxRequests.ValidationAcceptsExactly | app/Http/Requests/Tax/TaxCalculationRequest.php:14-95 | The validation reports no error exactly when all of these hold: income is a number in [0, 10 000 000]; status is one of the three; spouse income is null or such a number; a married person has a spouse income; a single parent has children. |
| TaxRequests.AcceptedArguments | app/Http/Requests/Tax/TaxCalculationRequest.php:14-41 | A request that passes validation has a numeric income in range and one of the three statuses. Its spouse income, if any, is in range, and it is present when the person is married. A single parent has children. |
| TaxRequests.NegativeIncomeRejected | app/Http/Requests/Tax/TaxCalculationRequest.php:20 | A negative income gets exactly the message "Annual income cannot be negative.". |
| TaxRequests.MarriedNeedsSpouseIncome | app/Http/Requests/Tax/TaxCalculationRequest.php:38 | A married request without a spouse income gets the required_if message and then the after-hook's message, both under spouse_income. |
| TaxRequests.SingleParentNeedsChildren | app/Http/Requests/Tax/TaxCalculationRequest.php:91-93 | A single parent without children gets exactly the after-hook's message under has_children. |
| TaxRequests.InvalidIncomeAndStatus | app/Http/Requests/Tax/TaxCalculationRequest.php:17-27 | A negative income together with an unknown status is reported under both keys. |
| TaxRequests.ZeroIncomeAccepted | app/Http/Requests/Tax/TaxCalculationRequest.php:20 | An income of 0 with status single passes validation. |
| TransactionTypes.FromString | app/Domain/Transaction/TransactionType.php:34-41 | A successful parse returns the case whose value is the lower-cased input. A failure carries "Invalid transaction type: " followed by the original text. |
| TransactionTypes.FromStringAccepts | app/Domain/Transaction/TransactionType.php:34-41 | Parsing succeeds exactly when the lower-cased input is some case's backing value. |
| TransactionTypes.FromStringValue | app/Domain/Transaction/TransactionType.php:7-8 | Every case parses back from its backing value. |
| TransactionTypes.TransactionType.Label | app/Domain/Transaction/TransactionType.php:10-16 | The label is the backing value with its first letter capitalised. |
| TransactionTypes.TransactionType.Color | app/Domain/Transaction/TransactionType.php:18-24 | Income is green and an expense is red. |
| TransactionTypes.TransactionType.Icon | app/Domain/Transaction/TransactionType.php:26-32 | Income is arrow-up and an expense is arrow-down. |
| TransactionTypes.FromStringLabel | app/Domain/Transaction/TransactionType.php:10-16 | Every case parses back from its display label. |
| TransactionTypes.FromStringIgnoresCase | app/Domain/Transaction/TransactionType.php:36 | Lower-casing the input first changes neither whether parsing succeeds nor its result. |
| TransactionTypes.FromStringUpperCase | app/Domain/Transaction/TransactionType.php:34-41 | "INCOME", in capitals, parses to the income case. |
| TransactionTypes.FromStringCapitalised | app/Domain/Transaction/TransactionType.php:34-41 | "Expense", capitalised, parses to the expense case. |
| TransactionTypes.FromStringRejects | app/Domain/Transaction/TransactionType.php:39 | "transfer" is rejected with the message naming it. |
| TransactionTypes.PresentationInjective | app/Domain/Transaction/TransactionType.php:10-32 | Label, colour and icon each tell the two cases apart. |
| Money.Round2 | app/Services/TaxCalculatorService.php:61-69 | Rounding to 2 places yields whole cents within half a cent of the input. The half-cent tie goes away from zero. |
| Money.RoundMonotone | app/Services/TaxCalculatorService.php:61-69 | Rounding preserves order. |
| Text.NatToStringInjective | app/Http/Controllers/Tax/TaxCalculatorController.php:109 | Different scenario numbers render as different decimal strings. |
| TaxScenarios.Single30000 | app/Services/TaxCalculatorService.php:40-72 | EUR 30,000 single: the whole breakdown (income tax 6000, USC 446, PRSI 1260, gross 7706, credits 4000, net 3706), net income 26294, effective rate 12.35 and marginal rate 27.2. |
| TaxScenarios.Single60000 | app/Services/TaxCalculatorService.php:77-86 | EUR 60,000 single: income tax 15200 and marginal rate 47.2. |
| TaxScenarios.Single44000 | app/Services/TaxCalculatorService.php:77-86 | Exactly at the single band, income tax is 44000 * 0.20. |
| TaxScenarios.Single80000 | app/Services/TaxCalculatorService.php:77-86 | EUR 80,000 single: income tax is 8800 + 14400. |
| TaxScenarios.MarriedOneIncome60000 | app/Services/TaxCalculatorService.php:175-177 | Married with a spouse income of 0: income tax 13400 and credits 6000. |
| TaxScenarios.MarriedTwoIncomes60000 | app/Services/TaxCalculatorService.php:178-181 | Married with a spouse income of 25000: the band is 78000 and income tax is 12000. |
| TaxScenarios.SingleWithChildren40000 | app/Services/TaxCalculatorService.php:141-161 | Single with children: credits are 5900. |
| TaxScenarios.Usc50000 | app/Services/TaxCalculatorService.php:91-127 | USC on EUR 50,000 is round(12012*0.005 + 15370*0.02 + 22618*0.03, 2). |
| TaxScenarios.Single500000 | app/Services/TaxCalculatorService.php:40-72 | EUR 500,000: net tax above 100000, net income below 500000, and effective rate above 30. |
| TaxScenarios.ZeroIncome2025 | app/Services/TaxCalculatorService.php:192-229 | At income 0 the marginal rate is 24.2: the standard rate, no USC, and PRSI. |
| TaxScenarios.MonthlyGross | app/Services/TaxCalculatorService.php:263 | EUR 36,000 is EUR 3,000 a month, and EUR 50,000 is EUR 4,166.67. |
| TaxScenarios.UscBoundary12012 | app/Services/TaxCalculatorService.php:197-217 | At exactly 12012, the reported USC rate is 0.5% but the next euro costs 2%. At exactly 44000, the reported income-tax rate is 40% while the last euro cost 20%. |
| TaxScenarios.Marginal45000 | app/Http/Controllers/Tax/TaxCalculatorController.php:60-92 | EUR 45,000 single: marginal rate 47.2, effective marginal rate 47.2, 472 on the next 1000, and 528 kept. |
| TaxEngine.ZeroIncomeDividesByZero | app/Services/TaxCalculatorService.php:69 | As written, the effective rate at income 0 is a division by zero, for every status and table. |

## Left out

- TaxEngine.CalculateTax: uses the corrected effective rate from "Findings". At income 0 it returns a result where `TaxCalculatorService.php:69` throws DivisionByZeroError.
- TaxController.Calculate: uses the corrected effective rate from "Findings", so an income of 0 yields a response where the source divides by zero and answers through the error handler.
- TaxController.MarginalRate: uses the corrected effective rate from "Findings". An income of 0, or of -1000 for the second calculation, yields a report where the source divides by zero.
- TaxController.CompareScenarios: uses the corrected effective rate from "Findings". A scenario with income 0 yields a result where the source divides by zero.
- `generateComparisonSummary` (called at `TaxCalculatorController.php:116`): the calculator interface (`app/Domain/Tax/Contracts/TaxCalculatorInterface.php:16-29`) declares only `calculateTax` and `calculateMonthlyBreakdown`, and the service defines no such method. The call would therefore fail as an undefined method, and `compareScenarios` would always answer through its error handler. The model stops at the results list built before that call.
- Service wiring: `app/Services/TaxCalculatorService.php:5` declares `class TaxCalculatorService` without `implements TaxCalculatorInterface`. So the object bound at `app/Providers/AppServiceProvider.php:13` fails the typed constructor parameter and property at `TaxCalculatorController.php:15-17`. The same happens for the typed property filled in the unit test's `setUp` (`tests/Unit/Services/TaxCalculatorServiceTest.php:10,15`). As written, PHP throws a TypeError while building the controller, and none of `calculate`, `marginalRate` or `compareScenarios` runs. The model assumes that the injection succeeds, and models what the actions compute once it has.
- `getRates` (controller lines 44-58): the cache and the response metadata are left out. Its content is `TaxRates::asArray`, which is modelled.
- The validation of `MarginalRateRequest` and `ScenarioRequest`: those request classes are not part of this model. `MarginalRate` and `CompareScenarios` take their inputs already typed.
- The JSON envelope, `executeWithErrorHandling`, authentication and the `now()` timestamps: these are I/O and clock, so they are left out.
- Floating point: amounts are exact reals, so a PHP result that differs from the exact one by IEEE rounding is not captured.
- Numeric strings: a `Str` input is never `numeric` in the model. Laravel would accept a string such as "30000".
- Whitespace: the trimming that Laravel's `required` and PHP's `filter_var` apply is not modelled.
- Non-numeric values: the `min`/`max` length checks that Laravel applies to strings are not modelled. Only numbers are compared.
- Arrays and nested values are not among the modelled inputs. Payload keys other than the four validated attributes are not modelled either.
- Message order: the order of keys in the message bag is not modelled, since the bag is a map. The order of messages under one key is kept.
- The `string` rule's message on `marital_status` is Laravel's default text, because the request defines no custom message for it.
- Laravel's `ConvertEmptyStringsToNull` middleware is not modelled. `prepareForValidation` handles "" itself.

## Findings

| source | as written | input that shows it | evidently intended | confidence | as-written member | corrected member |
|---|---|---|---|---|---|---|
| app/Services/TaxCalculatorService.php:69 | `effective_tax_rate` divides net tax by the annual income with no guard | annual_income 0, status single, which the request rules accept (`min:0`) and a unit test exercises | at zero income the effective rate is 0 | not executed | TaxEngine.ZeroIncomeDividesByZero | TaxEngine.EffectiveTaxRate |

`TaxEngine.EffectiveRateAsWritten` is the division as written. It returns a `Result` that
fails at income 0, which PHP 8 reports as a `DivisionByZeroError`. The unit test cited in
the row reaches the service through the same injection that "## Left out" describes under
service wiring. What it shows is that a zero income is meant to succeed.
`TaxRequests.ZeroIncomeAccepted` shows that validation lets such a request through.
`TaxEngine.ZeroIncome` proves the corrected rate and every other amount at income 0.

There is a further observation, which is not claimed as a bug. At a band edge, the marginal
rate mixes two conventions:
- the income-tax part is the rate on the next euro (`income >= band`);
- the USC part is the rate on the last euro, because `income <= limit` keeps an income of
  exactly 12012 in the 0.5% band.

`TaxScenarios.UscBoundary12012` states both facts.
