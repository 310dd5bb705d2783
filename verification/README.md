# Business valuation tool — Dafny model

This project models the core of a small web tool that estimates what a small business is worth. It has two parts:

- **The valuation engine.** It takes the figures collected by the form: revenue, costs, owner add-backs, depreciation, assets, liabilities, the industry and, for SaaS businesses, annual recurring revenue (ARR). From these it computes:
  - Seller's Discretionary Earnings (SDE), EBITDA and the asset value;
  - the SDE, EBITDA and revenue valuations, using a fixed table of nine industry multiples;
  - a primary and a secondary valuation, chosen by a size rule (revenue below 5,000,000 is valued on SDE, otherwise on EBITDA);
  - a SaaS override, which values the business on ARR when ARR is given and positive;
  - a low/high estimate range: the smaller valuation × 0.8 and the larger × 1.2.
- **The four-step wizard.** The steps are business information, financial information, assets and liabilities, and results. Its Next buttons are guarded, its Back buttons move between steps, the Calculate button produces the results, and a progress bar shows how far along the user is.

Modules:

- `Wrappers` (`wrappers.dfy`): `Option`, used for form fields that can be empty.
- `Industries` (`industries.dfy`): the industry enumeration, the selector keys, the multiples table and the lookup with its `general` fallback.
- `Formulas` (`formulas.dfy`): the SDE, EBITDA and asset-value formulas.
- `Range` (`range.dfy`): the estimate range as written, and the outward-widened range that was evidently intended.
- `Valuation` (`valuation.dfy`): the engine `Evaluate`, a total function from an `Input` record to a `Result` record.
- `Wizard` (`wizard.dfy`): the form, the user events, the transition function `Step`, and the invariant `Valid` that every step preserves.

All amounts are exact `real`s.

Three behaviours of the code are worth noting. The model follows the code in each:

- **The range is not always ordered.** One would expect low ≤ high for every result. The code guarantees it only when the larger valuation is non-negative. When both valuations are negative the range can be inverted; see Findings.
- **SDE ignores cost of goods sold.** SDE is computed as (revenue − operating expenses) + add-backs, with no COGS term, exactly as the code does. EBITDA does subtract COGS. `Formulas.SdeEbitdaGap` states the exact difference between the two.
- **The SaaS override condition.** The code tests `ARR × revenueMultiple > 0`. Because every multiple is positive, this is stated as `ARR > 0` (`Valuation.ArrApplies`).

## Model

| member | source | states |
|---|---|---|
| Industries.FromKey | business-valuation-tool/src/App.jsx:239-247 | any industry decoded from a selector string has that string as its key |
| Industries.FromKeyOfKey | business-valuation-tool/src/App.jsx:29-39 | each of the nine table keys decodes back to its own industry, so no two industries share a key |
| Industries.MultiplesOf | business-valuation-tool/src/App.jsx:29-39 | every table entry has positive SDE, EBITDA and revenue multiples |
| Industries.Lookup | business-valuation-tool/src/App.jsx:99-100 | a raw form value has a table entry exactly when it is empty or one of the nine keys; empty resolves to the general entry 2.5 / 5.0 / 1.0; a key resolves to its industry's entry |
| Industries.Resolve | business-valuation-tool/src/App.jsx:99 | a chosen industry is used as is; an unchosen one (the empty string) falls back to general |
| Industries.LookupSelected | business-valuation-tool/src/App.jsx:99-100 | looking up the form's stored string agrees with the enum table after the fallback of an unselected industry to general |
| Formulas.Sde | business-valuation-tool/src/App.jsx:15-18 | SDE exceeds net income (revenue − expenses) by exactly the owner's salary, benefits and discretionary expenses; cost of goods sold is not an input |
| Formulas.Ebitda | business-valuation-tool/src/App.jsx:20-22 | EBITDA plus COGS plus operating expenses equals revenue plus depreciation; with non-negative costs it never exceeds revenue plus depreciation |
| Formulas.AssetValue | business-valuation-tool/src/App.jsx:24-26 | the asset value plus the liabilities equals tangible plus intangible assets |
| Formulas.SdeOfPlaceholders | business-valuation-tool/src/App.jsx:15-18 | the form's placeholder figures (1,000,000; 750,000; 100,000; 25,000; 15,000) give an SDE of 390,000 |
| Formulas.SdeEbitdaGap | business-valuation-tool/src/App.jsx:15-22 | SDE minus EBITDA is exactly COGS plus the owner add-backs minus depreciation, for inputs of any sign; COGS only ever lowers EBITDA |
| Formulas.EarningsMoveWithRevenue | business-valuation-tool/src/App.jsx:15-22 | SDE and EBITDA both move one-for-one with revenue and against operating expenses, and EBITDA also against COGS |
| Range.Low | business-valuation-tool/src/App.jsx:141 | the low estimate lies at or below 0.8 times each valuation |
| Range.High | business-valuation-tool/src/App.jsx:142 | the high estimate lies at or above 1.2 times each valuation |
| Range.BoundsAreScaledValuations | business-valuation-tool/src/App.jsx:141-142 | each bound is attained: low is 0.8 times one of the two valuations and high is 1.2 times one of them |
| Range.OrderedExactly | business-valuation-tool/src/App.jsx:141-142 | low ≤ high holds exactly when the larger valuation is ≥ 0, or the smaller is at most 1.5 times the larger |
| Range.OrderedWhenMaxNonNegative | business-valuation-tool/src/App.jsx:141-142 | low ≤ high whenever max(primary, secondary) ≥ 0 |
| Range.BracketsWhenNonNegative | business-valuation-tool/src/App.jsx:141-142 | with both valuations ≥ 0, each of them lies between low and high |
| Range.InvertedWhenBothNegative | business-valuation-tool/src/App.jsx:141-142 | primary = secondary = −100 gives low = −80 and high = −120, an inverted range |
| Range.WidenedLow | business-valuation-tool/src/App.jsx:141 | the corrected low estimate lies at or below both valuations, whatever their sign |
| Range.WidenedHigh | business-valuation-tool/src/App.jsx:142 | the corrected high estimate lies at or above both valuations, whatever their sign |
| Range.WidenedOrdered | business-valuation-tool/src/App.jsx:141-142 | the corrected range is ordered for every pair of valuations |
| Range.WidenedAgreesOnNonNegative | business-valuation-tool/src/App.jsx:141-142 | on non-negative valuations the corrected range equals the range the code computes |
| Valuation.LabelsDistinct | business-valuation-tool/src/App.jsx:124-139 | the three method labels "SDE Multiple", "EBITDA Multiple" and "ARR Multiple" tell the methods apart |
| Valuation.SizeRule | business-valuation-tool/src/App.jsx:126-134 | the SDE method is chosen exactly when revenue < 5,000,000, pairing the SDE valuation with the asset value. Otherwise the EBITDA valuation is paired with the revenue valuation. The size rule never picks the ARR method |
| Valuation.SaasValuation | business-valuation-tool/src/App.jsx:116-121 | the subscription valuation is positive exactly when the industry is SaaS and ARR is given and positive. It is 0 unless the industry is SaaS with ARR given, and then it is ARR × 8.0 |
| Valuation.Evaluate | business-valuation-tool/src/App.jsx:99-142 | the result carries the resolved industry's multiples and the SDE, EBITDA and asset value of the inputs. The method is ARR exactly when the industry is SaaS with positive ARR, and SDE exactly when the ARR rule is off and revenue < 5,000,000. The primary valuation is the chosen method's figure times its multiple. The secondary is the asset value below the threshold and revenue × revenue multiple otherwise. Low ≤ high whenever the larger valuation is ≥ 0 |
| Valuation.ThresholdTakesEbitda | business-valuation-tool/src/App.jsx:126-134 | revenue of exactly 5,000,000 takes the EBITDA branch, with revenue × revenue multiple as secondary |
| Valuation.ArrOverrideKeepsTheRest | business-valuation-tool/src/App.jsx:136-139 | when the ARR rule applies, the primary valuation becomes ARR × 8.0 and the method ARR Multiple. The secondary valuation, asset value, SDE, EBITDA and multiples are those of the same input without ARR |
| Valuation.ArrInertUnlessApplies | business-valuation-tool/src/App.jsx:116-139 | when the industry is not SaaS or ARR is absent, zero or negative, the whole result equals the one computed without ARR |
| Valuation.ArrIgnoredOutsideSaas | business-valuation-tool/src/App.jsx:116-121 | outside the SaaS industry, changing the ARR field never changes any result field |
| Valuation.UnselectedIsGeneral | business-valuation-tool/src/App.jsx:99-100 | an industry that was never chosen gives the same result as choosing general |
| Valuation.CogsOnlyReachesEbitda | business-valuation-tool/src/App.jsx:103-111 | below the size threshold, changing COGS changes no result field except the reported EBITDA |
| Valuation.InsolventSmallBusinessLowNegative | business-valuation-tool/src/App.jsx:126-141 | below the size threshold, liabilities above total assets make the secondary valuation negative and hence the low estimate negative, whatever the earnings and the ARR |
| Valuation.RangeBracketsPrimary | business-valuation-tool/src/App.jsx:141-142 | when both valuations are ≥ 0, low ≤ primary ≤ high |
| Valuation.RangeInvertedForLossMaking | business-valuation-tool/src/App.jsx:141-142 | a general business with 40 of operating expenses, no revenue and 100 of liabilities gets primary = secondary = −100, low = −80 > high = −120 |
| Valuation.EvaluateWidened | business-valuation-tool/src/App.jsx:141-142 | corrected engine: the same result as the code's except for the range, which always contains both valuations |
| Valuation.WidenedMatchesWhenNonNegative | business-valuation-tool/src/App.jsx:141-142 | when both valuations are ≥ 0 the corrected engine returns the code's result unchanged |
| Valuation.SmallGeneralBusiness | business-valuation-tool/src/App.jsx:99-134 | the placeholder business in general industry has SDE 390,000, primary valuation 975,000, SDE Multiple |
| Valuation.SmallSaasBusiness | business-valuation-tool/src/App.jsx:116-139 | the same business as SaaS with ARR 800,000 has primary 6,400,000 by ARR Multiple, with the asset value kept as secondary |
| Valuation.LargeGeneralBusiness | business-valuation-tool/src/App.jsx:126-142 | revenue 6,000,000, COGS 2,000,000, operating expenses 3,000,000 and depreciation 100,000 give EBITDA 1,100,000, primary 5,500,000, secondary 6,000,000, and range 4,400,000 to 7,200,000 |
| Wizard.SetAmount | business-valuation-tool/src/App.jsx:79-81 | entering a value fills exactly that field (clearing empties it), and every other field, the industry and the text fields are unchanged |
| Wizard.ToInput | business-valuation-tool/src/App.jsx:88-119 | the engine sees the form's industry, and each numeric field's number, with 0 for an empty field. ARR is present exactly when its field is filled |
| Wizard.Initial | business-valuation-tool/src/App.jsx:42-76 | the wizard starts valid, on step 1, with no results and an empty form: no industry, no amounts, no text fields |
| Wizard.Step | business-valuation-tool/src/App.jsx:286-695 | every action keeps the wizard valid. The step changes only along 1→2, 2→3, 3→4, 2→1, 3→2 and 4→1, and a step change never edits the form. Results change only when Calculate moves to step 4. Calculate on step 3 shows the results of the current form. Back moves 2→1 and 3→2 and does nothing elsewhere. Next never edits the form or the results and moves at most one step forward. Calculate away from step 3, and Start Over away from step 4, change nothing. Choosing an industry sets it on step 1 only. Editing a field sets exactly that field when the current step shows it, and leaves the form unchanged otherwise. No edit changes the step |
| Wizard.NextFromBusinessInfo | business-valuation-tool/src/App.jsx:286-288 | Next on step 1 moves to step 2 when an industry has been chosen, and otherwise changes nothing (the button is disabled) |
| Wizard.NextFromFinancials | business-valuation-tool/src/App.jsx:508-510 | Next on step 2 moves to step 3 when the annual revenue field is non-empty, and otherwise changes nothing (the button is disabled) |
| Wizard.StartOverKeepsForm | business-valuation-tool/src/App.jsx:695 | Start New Valuation returns to step 1 and keeps the form contents and the last results |
| Wizard.Run | business-valuation-tool/src/App.jsx:42 | every sequence of user actions from a valid state ends in a valid state: step in 1..4, industry chosen from step 2, revenue filled from step 3, step 4 showing the results of the current form |
| Wizard.ResultsOnlyThroughCalculate | business-valuation-tool/src/App.jsx:589-592 | from any step other than results, a session reaches step 4 only if it presses Calculate |
| Wizard.ShortestSession | business-valuation-tool/src/App.jsx:286-592 | choosing an industry, Next, entering a revenue, Next and Calculate reaches the results step with a result |
| Wizard.TextFieldsInert | business-valuation-tool/src/App.jsx:63-73 | the business age and type, and the SaaS and retail metric fields (MRR, churn, CAC, LTV, same-store sales, inventory turnover, e-commerce share), never change the valuation |
| Wizard.Progress | business-valuation-tool/src/App.jsx:184 | for any step from 1 to 4, progress lies between 25 and 100, and is 100 exactly on the results step |
| Wizard.ProgressPerStep | business-valuation-tool/src/App.jsx:184 | progress is 25 points per step and grows strictly with the step |

## Left out

- Text parsing with `parseFloat(...) || 0` (App.jsx:88-97, 119). The form holds numbers already. An empty field is absent and counts as 0. Number inputs report non-numeric text as empty. JavaScript's string and NaN behaviour is not modelled.
- IEEE-754 double rounding. All arithmetic is exact over `real`; the model claims no bit-level agreement with JavaScript numbers.
- The two-second `setTimeout` delay and the `isCalculating` flag (App.jsx:84-87, 156, 591). Calculate is modelled as one atomic step from 3 to 4.
- Wizard.Step: because Calculate is atomic, the model omits what the timer allows during its two seconds. Only the Calculate button is disabled then; the step-3 fields and Back (App.jsx:543-585, then 505) stay live. The callback still calls `setCurrentStep(4)`, so the code can jump from step 2 or 1 straight to 4, outside the modelled moves. It can also show results computed from the form as it was at the click. The clauses of `Valid` for steps 3 and 4 and the set of moves hold only under the atomic Calculate.
- Wizard.Run: its promise that step 4 shows the results of the current form, with an industry chosen and the revenue filled, holds only under the atomic Calculate described above. In the code, an edit or Back pressed during the delay breaks it.
- `formatCurrency` / `Intl.NumberFormat` (App.jsx:161-168). It is a locale library call.
- All rendering: JSX, animation, UI components, `getIndustryIcon`, the conditional SDE/EBITDA rows, and `window.print()`. These are presentation and host calls.
- A raw industry string outside the nine keys. The code then throws at line 104, or yields NaN valuations when the string names a property every JavaScript object inherits, such as `constructor`. `Industries.Lookup` returns `None` for any such string without modelling either outcome. The selector cannot produce one, so the engine takes the enumeration.
- Determinism of the engine needs no lemma: `Evaluate` is a Dafny function, so equal inputs give equal results.

## Findings

| source | as written | input that shows it | evidently intended | confidence | as-written member | corrected member |
|---|---|---|---|---|---|---|
| business-valuation-tool/src/App.jsx:141-142 | low = min(primary, secondary) × 0.8 and high = max(primary, secondary) × 1.2, scaling toward zero for negative valuations | a general business with no revenue, 40 of operating expenses and 100 of liabilities: primary = secondary = −100, low = −80, high = −120 | a range widened 20% outward on each side, so that low ≤ primary, secondary ≤ high for every sign | not executed; high (follows from the arithmetic) | Valuation.RangeInvertedForLossMaking | Valuation.EvaluateWidened |

The wizard model keeps the as-written engine `Evaluate`, because it models what the tool displays. `Valuation.EvaluateWidened` is the corrected engine. `Valuation.WidenedMatchesWhenNonNegative` shows that it differs from the code only when a valuation is negative.
