# Property advisor: metrics engine and contract-review shaping

A Dafny model of the two pieces of the property-advisor service that carry
logic of their own.

**The property-metrics engine** (`calculate_property_metrics`). From a
purchase price, rental and other income, a vacancy rate and ten categories
of operating expense, it computes the following:

- gross income, vacancy loss and effective gross income;
- the ten resolved expense categories and their total;
- net operating income (NOI) and the capitalization (cap) rate, as a percentage.

Every figure is rounded to two decimal places. Four categories are
*estimable*: property taxes, insurance, property management and
maintenance. When one of them is omitted (`None`), it is estimated from a
rate. Taxes and insurance are estimated from the purchase price. Management
and maintenance are estimated from the effective gross income. A supplied
zero is a real zero and is not estimated. The cap-rate division is done
only when the price is positive; otherwise the cap rate is 0.

**The contract-review tool.** It has three parts:

- the prompt record sent to the language model: fixed instructions, and the
  contract text between a fixed prefix and a fixed suffix;
- the tool's registration record;
- the shaping of the model's answer. A decoded JSON object gains each of
  the four required fields (`summary`, `highlights`, `warnings`,
  `suggestions`) that it lacks, as an empty list. An answer that does not
  decode is replaced by a fixed five-field fallback that carries the raw
  answer.

Modules and files:

- `Wrappers` (wrappers.dfy): `Option`, which stands for Python's `Optional`.
- `Rounding` (rounding.dfy): `Round2`, the model of `round(x, 2)`.
- `Calculations` (calculations.dfy): the engine. Python floats are exact
  `real`s. `ExactMetrics` computes the figures before rounding. The ghost
  predicate `MeetsInvariants` states the engine's relations independently:
  income and vacancy, supplied-or-estimated resolution, total as the sum of
  the ten categories, NOI and the guarded cap rate.
  `CalculatePropertyMetrics` applies `Round2` to every field.
  `DefaultInput` is a call with every optional argument at its declared
  default.
- `ContractReviewer` (contract_reviewer.dfy): the prompt record, the
  registration record, and `FormatContractReviewResponse`. That method fills
  in the fields with a `for` loop over the required names, like the source,
  on a decoded object that is passed in. JSON decoding is a parameter,
  `Decoded(object) | DecodeError`.

A worked scenario: price 450000, rent 30000, other income 1200, utilities
600 and defaults elsewhere. For it the engine gives taxes 6750, insurance
1350, management 2371.20, maintenance 2964, a total expense of 14035.20, an
NOI of 15604.80 and a cap rate of 3.47. `WorkedExample` proves it.

## Model

| member | source | states |
|---|---|---|
| `Rounding.Round2` | app/services/calculations.py:100-118 | `round(x, 2)`: the result is a whole number of hundredths and lies within 0.005 of `x` |
| `Rounding.Round2OfCents` | app/services/calculations.py:100-118 | a value that already is a whole number of hundredths comes back unchanged from rounding |
| `Rounding.Round2Idempotent` | app/services/calculations.py:100-118 | rounding a rounded value changes nothing |
| `Rounding.Round2Monotone` | app/services/calculations.py:100-118 | rounding keeps the order of two values |
| `Rounding.Round2Tie` | app/services/calculations.py:100-118 | for every integer k, a value exactly half-way between the hundredths k and k + 1 rounds to whichever of the two is even, for positive and negative values alike |
| `Rounding.Round2TiesToEven` | app/services/calculations.py:100-118 | instances of the tie rule: 0.125 goes to 0.12, 0.135 to 0.14 and −0.125 to −0.12 |
| `Calculations.SumOfValues` | app/services/calculations.py:81-92 | the total of the ten breakdown categories is exactly the engine's ten-term addition |
| `Calculations.ExactMetrics` | app/services/calculations.py:62-98 | the figures before rounding satisfy every engine relation. Gross = rent + other income. Vacancy loss = gross × vacancy rate. EGI = gross − vacancy loss. Each estimable expense is its supplied value, or else price × rate for taxes and insurance and EGI × rate for management and maintenance. The six other categories pass through. Total = sum of the ten. NOI = EGI − total. Cap rate = NOI / price × 100 when price > 0, else 0 |
| `Calculations.InvariantsDetermineMetrics` | app/services/calculations.py:62-98 | those relations pin the result down: any record satisfying them is the engine's record |
| `Calculations.CalculatePropertyMetrics` | app/services/calculations.py:3-119 | the engine is total (no numeric input makes it fail). Every field, top-level and in the breakdown, is `Round2` of the exact figure. Every field is whole hundredths and within 0.005 of the exact figure. The cap rate is 0 when the price is ≤ 0 |
| `Calculations.DefaultsEstimateAllFour` | app/services/calculations.py:3-29 | with every optional argument at its default, EGI is 95% of rent. Taxes are 1.5% and insurance 0.3% of price. Management is 8% and maintenance 10% of EGI. The other six categories are 0 |
| `Calculations.GrossIncomeDependsOnlyOnIncome` | app/services/calculations.py:63 | gross income is rent plus other income. Two inputs with the same income have the same gross income, before and after rounding, whatever their price, expenses and rates |
| `Calculations.VacancyRateNotClamped` | app/services/calculations.py:64-65 | the vacancy rate is not clamped when gross income is positive. A rate above 1 makes EGI negative. A rate below 0 makes EGI exceed gross income |
| `Calculations.ExplicitZeroIsNotOmitted` | app/services/calculations.py:68-69 | a supplied 0 for taxes stays 0. An omitted value is estimated, and the estimate is non-zero whenever price × rate is |
| `Calculations.ManagementIgnoresPrice` | app/services/calculations.py:74-78 | management and maintenance are based on the effective gross income: two inputs that differ only in purchase price resolve them to the same values |
| `Calculations.TaxesIgnoreIncome` | app/services/calculations.py:68-72 | taxes and insurance are based on the purchase price: two inputs that differ only in rent and other income resolve them to the same values |
| `Calculations.RatesIrrelevantWhenAllSupplied` | app/services/calculations.py:68-78 | when all four estimable expenses are supplied, the reported record does not depend on the estimation rates |
| `Calculations.CapRateGuard` | app/services/calculations.py:98 | the reported cap rate is `Round2(NOI / price × 100)` when the price is positive, and 0 otherwise |
| `Calculations.RoundedTotalNearSumOfBreakdown` | app/services/calculations.py:106-118 | the reported total differs from the sum of the ten reported categories by at most 0.055 |
| `Calculations.RoundedNoiNearDifference` | app/services/calculations.py:102-106 | the reported NOI differs from reported EGI minus reported total by at most 0.015 |
| `Calculations.WorkedExampleExact` | app/services/calculations.py:62-98 | the scenario before rounding: gross 31200, vacancy 1560, EGI 29640. Taxes 6750, insurance 1350, management 2371.20, maintenance 2964, utilities 600. Total 14035.20, NOI 15604.80, cap rate 19506/5625 |
| `Calculations.ExampleRounding` | app/services/calculations.py:100-118 | rounding the scenario's exact figures changes only the cap rate, to 3.47 |
| `Calculations.WorkedExample` | app/services/calculations.py:3-119 | the engine reports the scenario's record, with a cap rate of 3.47 |
| `ContractReviewer.GetContractReviewSystemPrompt` | app/ai/tools/contract_reviewer.py:4-33 | the fixed instructions are a non-empty constant text |
| `ContractReviewer.ReviewContractTool` | app/ai/tools/contract_reviewer.py:35-59 | the tool name is `contract_reviewer`. The system prompt is the fixed instructions. The user prompt is the fixed prefix, then the contract text verbatim at a known offset, then the fixed suffix |
| `ContractReviewer.ContractTextRoundTrip` | app/ai/tools/contract_reviewer.py:47-52 | the contract text can be read back exactly from the user prompt built for it |
| `ContractReviewer.ContractTextOfInverse` | app/ai/tools/contract_reviewer.py:47-52 | any text with the prompt's shape is the user prompt of the contract text read back from it |
| `ContractReviewer.UserPromptInjective` | app/ai/tools/contract_reviewer.py:47-52 | different contracts give different user prompts |
| `ContractReviewer.FillMissing` | app/ai/tools/contract_reviewer.py:77-79 | the keys are the object's keys plus the listed fields. Existing keys keep their values. Every added key holds an empty list |
| `ContractReviewer.WithRequiredFields` | app/ai/tools/contract_reviewer.py:76-81 | all four required fields are present. Existing keys keep their values. The only keys added are missing required fields, each an empty list, `summary` included |
| `ContractReviewer.FillMissingStep` | app/ai/tools/contract_reviewer.py:77-79 | one loop step adds the field as an empty list if it is absent, and otherwise leaves the object as it is |
| `ContractReviewer.FallbackReview` | app/ai/tools/contract_reviewer.py:83-91 | the fallback has exactly the four required fields plus `raw_response`, and `raw_response` is the raw answer exactly |
| `ContractReviewer.FormatContractReviewResponse` | app/ai/tools/contract_reviewer.py:61-91 | a decoded object becomes `WithRequiredFields` of it. A decode error gives the fallback. Either way all four required fields are present |
| `ContractReviewer.WithRequiredFieldsIdempotent` | app/ai/tools/contract_reviewer.py:77-81 | filling an already filled object changes nothing |
| `ContractReviewer.CompleteObjectUnchanged` | app/ai/tools/contract_reviewer.py:77-81 | an object that already has the four required fields is returned unchanged |
| `ContractReviewer.ContractReviewToolConfig` | app/ai/tools/contract_reviewer.py:94-107 | the registration's name is the tool name, and `file_content` is its one required, declared parameter |
| `ContractReviewer.ToolConfigMatchesTool` | app/ai/tools/contract_reviewer.py:94-107 | the registration's name equals the name in the tool's prompt record. Its handler is the tool. Its only declared and required parameter is `file_content`, of type string |

## Left out

- Floating point. Amounts are exact reals. The source's binary doubles and
  their rounding errors in `+`, `*` and `/` are not modelled.
- Round2: it rounds the exact decimal value, with ties going to the even
  hundredth. Python's `round(x, 2)` rounds the nearest binary double, so it
  can differ on values such as 2.675, which no double represents exactly.
- Determinism needs no lemma. Dafny functions always give equal results for
  equal arguments.
- JSON decoding is not modelled. It is a parameter of
  `FormatContractReviewResponse`. An answer that decodes to something other
  than an object (a list, a number, a string) is not modelled: in the source
  that takes a different path (list membership, or an uncaught `TypeError`).
- The order of keys in the Python dictionaries is not modelled. Maps carry
  no order.
- GetContractReviewSystemPrompt: the exact wording of the instructions is
  not modelled. A short constant stands for it, and the contract states
  only that it is non-empty and fixed.
- The filled `summary` is an empty list, not a string. The model reproduces
  this as the code has it. What the HTTP response schema then does with it
  is outside the model.
- The HTTP layer (app/routes/http_server.py) is not part of this model. Its
  call to the engine turns each monthly estimable expense of `0.0` into
  `None`, because the test is truthiness. A zero monthly figure is
  therefore estimated, not kept as zero.
- These are not part of this model: the property-data provider (a stub
  returning fixed data), the language-model client (network calls and an
  exception catch-all), the web scraper (network and HTML parsing) and the
  application wiring.
