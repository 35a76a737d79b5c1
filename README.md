# Fund property aggregator — a verified model of `summarizeFunction`

The tool reads a portfolio (CSV rows of `fund` and `amount`) and a fund
property configuration (fund → property type → property name →
percentage). It then reports how the portfolio's money is spread over the
configured properties. All of that work is done by `summarizeFunction` in
`app/index.js`, in two passes:

1. **Consolidation.** The records are folded into `portfolioSummary`, which
   maps each fund to the running sum of its parsed amounts. Funds keep the
   order in which they first appear, and records without a fund are skipped.
2. **Weighting.** The summary is walked in that order:
   - every amount is added into `total`;
   - a fund with a configuration entry adds `percentage * amount` into
     `result[propertyType][propertyName]`, creating both levels on demand
     with 0 as the start value;
   - a fund without one is pushed onto `noFundDataList`.

The model is imperative where the source is. `Consolidation.Consolidate`,
`Weighting.Weigh`, `Weighting.SpreadFund` and `Weighting.SpreadType` are
methods whose loops mirror the source loops one for one. Each is proved
equal to a recursive specification function: `Consolidated`, `Weighed`,
`CreditFund` and `CreditNames`. The properties the program promises are
then proved about those functions, against independent reference
definitions: `Funds`, `AmountsOf`, `Sum`, `Exposure`, `ConfiguredTypes`,
`ConfiguredNames` and `Unconfigured`. The key order of `result` and of each
`result[t]`, which `displayResults` prints (lines 25 and 28), is proved to be
the order in which the pass first meets each type and name (`Extend` of the
sequences `TypesMet` and `NamesMet`). The module `Conservation` also proves
that the weighting pass loses nothing: the sum of all entries of `result` is
the sum of every weighted percentage of every matched fund (`Mass`).

Modelling choices:

- **Numbers.** A JavaScript number is `Num = NaN | Val(real)`. `Add` is `+`,
  so a NaN operand makes the sum NaN.
- **`parseFloat`.** It is `ParseFloat(parse, x)`. Its string-prefix parser is
  the parameter `parse`, a missing field gives NaN, and a JSON number parses
  to itself.
- **Objects.** `portfolioSummary`, `result` and each `result[t]` are
  insertion-ordered maps: `OMap`, a key sequence plus a `map`. `Put` is
  `obj[k] = v`, and `Entries` is `Object.entries`.
- **Configuration.** The configuration is a map from fund to its
  `Object.entries` lists: property types, and under each type its
  (name, percentage) pairs.
- **Missing files.** The existence checks on the two files (lines 43 and 60)
  become `Option` inputs of `Summarizer.Summarize`.

## Model

| member | source | states |
|---|---|---|
| Values.ParseFloat | app/index.js:51 | a missing amount parses to NaN and a JSON number to itself |
| Values.Add | app/index.js:53 | `+` is NaN exactly when an operand is NaN, and otherwise the sum of the values |
| Values.Sum | app/index.js:50-54 | a running sum is NaN exactly when one of its summands is NaN |
| Values.SumOfNumbers | app/index.js:50-54 | without a NaN, the running sum is the ordinary sum of the values |
| Values.SumSnoc | app/index.js:53 | one more `+=` adds one more summand to the running sum |
| OrderedMaps.OMap.Put | app/index.js:51 | `obj[k] = v` stores `v` under `k`; an existing key keeps its place, a new key goes last, and keys stay distinct |
| OrderedMaps.OMap.Entries | app/index.js:63 | `Object.entries` lists each key once with its value, in key order |
| OrderedMaps.PutKeys | app/index.js:70-71 | `obj[k] = v` appends `k` to the key order exactly when it is new |
| OrderedMaps.ExtendAppend | app/index.js:70-77 | assigning two runs of keys one after the other orders the keys as assigning both runs in one does |
| OrderedMaps.ExtendElements | app/index.js:70-77 | after a run of assignments the keys are the old keys and the assigned ones |
| OrderedMaps.ExtendDistinct | app/index.js:70-77 | a run of assignments lists no key twice |
| OrderedMaps.ExtendOrder | app/index.js:70-77 | starting from `{}`, a key listed before another was assigned before it: every assignment of the later key comes after one of the earlier key |
| OrderedMaps.Empty | app/index.js:37-39 | a fresh object has no keys |
| Consolidation.Absorb | app/index.js:49-55 | the loop body on one record; it has no contract of its own and is described through `Consolidated` by ConsolidatedKeys, ConsolidatedOrder, ConsolidatedAmounts and UndefinedFundsIgnored |
| Consolidation.Consolidated | app/index.js:48-56 | the summary lists each fund at most once and holds exactly the listed funds |
| Consolidation.ConsolidatedKeys | app/index.js:49-51 | the summary's keys are exactly the funds some record names |
| Consolidation.KeysStep | app/index.js:50-51 | a record adds its fund at the end when it is new, and otherwise leaves the key order alone |
| Consolidation.OrderAt | app/index.js:50-51 | a later key's records all come after some record of an earlier key |
| Consolidation.ConsolidatedOrder | app/index.js:50-51 | the funds are listed in order of first appearance |
| Consolidation.NoAmounts | app/index.js:49 | a fund no record names has no amounts |
| Consolidation.ConsolidatedAmounts | app/index.js:50-54 | each fund's value is the running sum of the parsed amounts of all its records, in record order |
| Consolidation.AmountsNaN | app/index.js:51-53 | a fund's amounts include NaN exactly when one of its records' amounts parses to NaN |
| Consolidation.NaNPoisonsFund | app/index.js:51-53 | a fund's value is NaN exactly when one of its amounts parses to NaN; otherwise it is the real sum of its amounts |
| Consolidation.UndefinedFundsIgnored | app/index.js:49 | dropping every record without a fund leaves the summary unchanged |
| Consolidation.Consolidate | app/index.js:48-56 | the loop builds exactly `Consolidated(records)` |
| Weighting.Credit | app/index.js:74-81 | one innermost iteration creates no property type |
| Weighting.CreditNames | app/index.js:74-82 | the loop over one type's names creates no property type |
| Weighting.WithType | app/index.js:70-72 | `result[t] = {}` on demand adds exactly the type `t` |
| Weighting.CreditFund | app/index.js:67-83 | the loop over one fund's types; it has no contract of its own and is described by CreditFundTypes, CreditFundNames, CreditFundLookup, CreditFundKeys, CreditFundNameKeys and CreditFundGrand |
| Weighting.Weighed | app/index.js:63-87 | the outer loop; it has no contract of its own and is described by WeighedTypes, WeighedNames, WeighedLookup, WeighedTotal, WeighedUnmatched, WeighedTypeOrder, WeighedNameOrder and WeighedGrand |
| Weighting.Weight | app/index.js:79-80 | a NaN percentage or amount contributes nothing |
| Weighting.WeightIsProduct | app/index.js:80 | when both are numbers, a percentage and an amount contribute their product |
| Weighting.Unconfigured | app/index.js:66-86 | a fund is listed exactly when it has no configuration and some entry names it |
| Weighting.PutLookup | app/index.js:76-80 | setting `result[t][n]` changes that entry and no other |
| Weighting.PutWellFormed | app/index.js:76-80 | setting `result[t][n]` keeps both levels well-formed ordered maps |
| Weighting.CreditWellFormed | app/index.js:74-81 | an innermost iteration keeps the result set well-formed |
| Weighting.CreditNames1 | app/index.js:75-77 | an innermost iteration adds its name under its type and no other name |
| Weighting.CreditLookup | app/index.js:75-81 | an innermost iteration adds the weight to its entry (0 if absent) and leaves every other entry alone |
| Weighting.CreditNamesWellFormed | app/index.js:74-82 | the loop over a type's names keeps the result set well-formed |
| Weighting.CreditNamesNames | app/index.js:74-77 | the loop over a type's names adds exactly those names under that type |
| Weighting.CreditNamesLookup | app/index.js:74-81 | the loop over a type's names credits each name with its exposure and nothing else |
| Weighting.WithTypeLookup | app/index.js:70-72 | creating a type's entry changes no value |
| Weighting.CreditFundTypes | app/index.js:67-72 | a matched fund adds exactly its configured types |
| Weighting.CreditFundWellFormed | app/index.js:67-83 | a matched fund keeps the result set well-formed |
| Weighting.CreditFundNames | app/index.js:67-77 | a matched fund adds exactly the names it configures under each type |
| Weighting.CreditFundStep | app/index.js:67-82 | one type of a matched fund credits `result[t][n]` with that type's exposure to it |
| Weighting.CreditFundLookup | app/index.js:67-82 | a matched fund credits every entry with its exposure to it |
| Weighting.WeighedWellFormed | app/index.js:63-87 | the result set and all its inner objects are well-formed ordered maps |
| Weighting.WeighedTypes | app/index.js:66-72 | the result set's types are exactly those configured for some matched fund |
| Weighting.WeighedNames | app/index.js:66-77 | under each type are exactly the names configured under it for a matched fund, numeric or not |
| Weighting.WeighedLookup | app/index.js:74-81 | each `result[t][n]` is the sum of `percentage * amount` over matched funds whose percentage and amount are both numbers |
| Weighting.WeighedResult | app/index.js:63-87 | result keys, names and values as above, and no entry is NaN |
| Weighting.WeighedTotal | app/index.js:63-64 | `total` is the running sum of every amount in the summary, matched or not |
| Weighting.WeighedUnmatched | app/index.js:66-86 | `noFundDataList` is exactly the unconfigured funds, in summary order |
| Weighting.CreditKeys | app/index.js:75-77 | an innermost iteration keeps the type order and assigns its name under its type |
| Weighting.CreditNamesKeys | app/index.js:74-82 | the loop over a type's names keeps the type order and assigns those names under that type, in order |
| Weighting.WithTypeKeys | app/index.js:70-72 | `result[t] = {}` on demand assigns `t` and leaves every name order alone |
| Weighting.CreditFundKeys | app/index.js:67-83 | a matched fund assigns its property types, in configuration order |
| Weighting.CreditFundNameStep | app/index.js:67-82 | one type of a matched fund assigns its names under that type, in order |
| Weighting.CreditFundNameKeys | app/index.js:67-83 | a matched fund assigns under each type the names it lists for that type, in order |
| Weighting.WeighedTypeOrder | app/index.js:63-87 | `result` lists its types in the order the pass first meets them: matched funds in summary order, then each fund's types in order |
| Weighting.WeighedNameOrder | app/index.js:63-87 | each `result[t]` lists its names in the order the pass first meets them under `t` |
| Weighting.WeighedTypesFirstMet | app/index.js:63-87 | `result` lists each type met once, and a type listed before another was met before it |
| Weighting.WeighedNamesFirstMet | app/index.js:63-87 | each `result[t]` lists each name met under `t` once, and a name listed before another was met before it |
| Weighting.UnconfiguredDistinct | app/index.js:84-86 | each unmatched fund is listed once |
| Weighting.UnmatchedIgnored | app/index.js:66-86 | funds without configuration never contribute to `result` |
| Weighting.WeightNonNegative | app/index.js:79-80 | a non-negative percentage times a non-negative amount is not negative |
| Weighting.NameExposureNonNegative | app/index.js:74-81 | non-negative inputs give a non-negative exposure to one name |
| Weighting.FundExposureNonNegative | app/index.js:67-82 | non-negative inputs give a non-negative exposure from one fund |
| Weighting.ExposureNonNegative | app/index.js:63-87 | non-negative inputs give a non-negative exposure over all funds |
| Weighting.WeighedNonNegative | app/index.js:74-81 | with non-negative amounts and percentages, every entry is a non-negative number |
| Weighting.Weigh | app/index.js:63-87 | the outer loop yields exactly `Weighed(entries)`: result, total and unmatched list |
| Weighting.SpreadFund | app/index.js:67-83 | the loop over a fund's types yields exactly `CreditFund` |
| Weighting.SpreadType | app/index.js:74-82 | the loop over a type's names yields exactly `CreditNames` |
| Conservation.GrandPut | app/index.js:76-80 | setting `result[t][n]` replaces that entry's share of the sum of all entries by the new value |
| Conservation.CreditGrand | app/index.js:75-81 | an innermost iteration adds exactly its weight to the sum of all entries |
| Conservation.CreditNamesGrand | app/index.js:74-82 | the loop over a type's names adds exactly that type's weights to the sum of all entries |
| Conservation.WithTypeGrand | app/index.js:70-72 | creating a type's entry leaves the sum of all entries unchanged |
| Conservation.CreditFundGrand | app/index.js:67-83 | a matched fund adds exactly all its weights to the sum of all entries |
| Conservation.WeighedGrand | app/index.js:63-87 | the entries of `result` add up to every configured `percentage * amount` of every matched fund: nothing is lost or counted twice |
| Conservation.WeightScales | app/index.js:79-80 | a weight is the percentage times the amount, a NaN operand counting 0 |
| Conservation.DataMassScales | app/index.js:74-81 | one type distributes the amount times the sum of its numeric percentages |
| Conservation.FundMassScales | app/index.js:67-82 | one fund distributes the amount times the sum of all its numeric percentages |
| Conservation.SingleGrand | app/index.js:63-87 | for a portfolio of one matched fund, the entries add up to that fund's weights |
| Conservation.WeightsSumScaled | app/index.js:63-87 | the same one-fund sum, stated with `Times` |
| Conservation.WeightsSum | app/index.js:63-87 | for one matched fund of amount `v`, the entries add up to `v` times the sum of its numeric percentages, whether or not those sum to 1 |
| Summarizer.Summarized | app/index.js:34-94 | the whole function on its two optional inputs; it has no contract of its own and is described by Summarize, TotalPoisoned, SummarizedUnmatched and WorkedExample |
| Summarizer.Summarize | app/index.js:34-94 | the whole function yields `Summarized`; a missing portfolio or configuration gives an empty result, a total of 0 and no unmatched funds |
| Summarizer.TotalPoisoned | app/index.js:48-64 | `total` is NaN exactly when some record with a fund has an amount that parses to NaN |
| Summarizer.SummarizedUnmatched | app/index.js:48-86 | `noFundDataList` holds exactly the portfolio's unconfigured funds, each once, in order of first appearance |
| Summarizer.ExampleSummary | app/index.js:48-56 | two records of fund A (100 and 50) consolidate to the single entry A: 150 |
| Summarizer.ExampleWeighedShape | app/index.js:63-87 | that entry against the example configuration gives a total of 150, the single type Class and no unmatched fund |
| Summarizer.ExampleWeighedEntries | app/index.js:74-81 | with weights of 0.6 and 0.4, Class/Equity is 90 and Class/Bond is 60 |
| Summarizer.WorkedExample | app/index.js:34-94 | the whole example end to end |

## Left out

- Command-line wiring with `commander` is not modelled (app/index.js:96-104). This includes the `--filter` option, which is declared but never read.
- The file operations are replaced by inputs: the existence checks, the file reads and `require` of the configuration (app/index.js:35-36, 43-45, 60-61). A missing file is `None`, and an existing one is its parsed contents. A malformed CSV or JSON file makes `csvparse` (line 45) or `require` (line 61) throw, which aborts the run; the model has no such input.
- CSV parsing by `csv-parse` is not modelled. The parsed records are the input.
- `displayResults`, `displayErrors` and `getFormattedPercentage` (app/index.js:10-32, 90-93) are not modelled. They are console output plus IEEE division and `toFixed` rounding.
- Values.ParseFloat: the string-prefix grammar of `parseFloat` is the abstract parameter `parse`. A JSON number is taken to parse to itself, including `parseFloat(amount)` on an already-parsed amount at lines 64 and 79-80.
- Numbers are modelled as reals or NaN. IEEE rounding, infinities, `-0` and overflow are not represented.
- JavaScript object quirks are not modelled:
  - `Object.entries` lists integer-like keys first, in numeric order, and `portfolioSummary` is an array (line 37);
  - inherited keys such as `constructor` or `length` would be found by `typeof(obj[k])`;
  - configuration values that are not objects. A `null` under a fund or a type makes `Object.entries` throw a TypeError at line 67 or 74, which aborts the run. A string is walked character by character, its indices as keys. A number or a boolean has no entries and adds nothing. The model's configuration type admits only objects of objects.

  All keys are plain strings kept in insertion order.
- Determinism is not stated as a lemma. Every operation is a function of its inputs.
