# Retirement planner: calculation engine and session logic

This project models the goal-planning assistant's retirement calculator in Dafny and proves
properties of the model. Given a person's ages, annual expenses, investments, income and risk
profile, the engine works out several figures:

- the years left to save and the years of retirement to fund;
- the living expenses at retirement, inflated at a locked 6%;
- the corpus needed at retirement, as the present value of a growing annuity;
- the future value of the existing investments;
- the corpus gap;
- the constant monthly SIP that closes the gap, rounded to a clean figure;
- an income-versus-expense advisory flag and a fixed list of assumptions.

A what-if variant reruns the same plan with only the retirement age changed.

The application around the engine is modelled too:

- the default-substitution policy that turns the assistant's collected payload into plan inputs;
- the `CALCULATION_READY` marker handling;
- the per-session state, with its initialisation, reset, collection phase and follow-up phase;
- the what-if cards of the dashboard, and the what-if added to a follow-up question.

Modules:

- `Wrappers` (`wrappers.dfy`): `Option`, for absent dictionary keys and Python `None`.
- `Powers` (`powers.dfy`): `Pow(x: real, n: nat)` and the facts the formulas need, including
  the geometric series in closed form.
- `Text` (`text.dfy`): the few `str` operations the application uses. These are `lower`,
  `in`, `split(..)[0]`, `strip` and integer-to-decimal rendering.
- `Calculations` (`calculations.dfy`): models `calculations.py`. Money and rates are exact
  `real`s. The formula functions are functions. The loop that fills the spreadsheet's
  what-if sheet is a method with a loop invariant.
- `App` (`app.dfy`): models `app.py`. `st.session_state` is a `Session` class with one field
  per key and a `present` set recording which keys exist. Its methods are proved against pure
  functions of the state (`InitState`, `ResetState`, `MainRun`), and the lemmas are about those
  functions.

Some facts are proved exactly, since the reals leave no rounding error:

- the growing-annuity closed form equals the explicit sum of discounted, inflating payments,
  and so does the equal-rates formula when the rates are exactly equal;
- paying the SIP at every month end with monthly compounding reaches exactly the target.

## Model

| member | source | states |
|---|---|---|
| `Calculations.ReturnRate` | calculations.py:59-73 | conservative gives 0.08, aggressive 0.15, and every other profile (moderate, balanced, unknown) 0.12, in any letter case; the rate is always one of the three |
| `Calculations.ReturnRateCaseInsensitive` | calculations.py:73 | only the lower-cased profile matters |
| `Calculations.ModerateRate` | calculations.py:67-73 | "moderate" maps to 0.12 |
| `Calculations.FutureValue` | calculations.py:76-83 | a horizon of zero or less returns the present value unchanged, for any rate |
| `Calculations.FutureValueStep` | calculations.py:76-83 | each extra year multiplies the future value by `1 + rate` |
| `Calculations.FutureValueSplit` | calculations.py:76-83 | compounding `a` years and then `b` more equals compounding `a + b` years |
| `Calculations.FutureValueNonNegative` | calculations.py:76-83 | a non-negative value at a rate above -100% stays non-negative |
| `Calculations.GrowingAnnuityClosedForm` | calculations.py:96-122 | for distinct rates, `pmt*(1-((1+g)/(1+r))^n)/(r-g)` equals the sum over k = 1..n of `pmt*(1+g)^(k-1)/(1+r)^k` |
| `Calculations.GrowingAnnuityEqualRates` | calculations.py:111-120 | for equal rates, `pmt*n/(1+r)` equals that same sum |
| `Calculations.GrowingAnnuityNonNegative` | calculations.py:96-100 | a non-negative first payment gives a non-negative present value |
| `Calculations.AnnuityFormula` | calculations.py:122 | the closed form times `r - g` is `pmt*(1 - ((1+g)/(1+r))^n)` |
| `Calculations.CorpusForRetirement` | calculations.py:102-124 | the corpus is 0 for a duration of zero or less, and is never negative |
| `Calculations.CorpusDistinctRates` | calculations.py:119-122 | rates at least 0.0001 apart take the closed-form branch |
| `Calculations.CorpusIsGrowingAnnuity` | calculations.py:96-124 | with exactly equal rates, or rates at least 0.0001 apart, the corpus is the growing annuity's present value floored at 0 |
| `Calculations.SipBalanceClosedForm` | calculations.py:132-147 | after m month-end payments at monthly rate i, the balance times i is `pmt*((1+i)^m - 1)` |
| `Calculations.SipBalanceZeroRate` | calculations.py:143-144 | at a monthly rate of 0 the balance is the payment times the number of months |
| `Calculations.SipDenominatorNonZero` | calculations.py:147 | `(1+i)^m - 1` is non-zero for every non-zero monthly rate other than -2 |
| `Calculations.MonthlySip` | calculations.py:127-148 | no time left, or nothing to save, gives 0 |
| `Calculations.MonthlySipReachesTarget` | calculations.py:127-148 | paying the SIP at each of the `years*12` month ends, with `B := B*(1+i) + pmt`, ends at exactly the future value, including at a rate of 0 |
| `Calculations.MonthlySipPositive` | calculations.py:135-148 | with time left, something to save, and a monthly rate above -100%, the SIP is positive |
| `Calculations.MonthlySipNonNegative` | calculations.py:135-148 | at an annual rate above -1200% the SIP is never negative |
| `Calculations.RoundHalfEven` | calculations.py:163 | Python's `round`: within 0.5 of `x`, and a tie goes to the even integer |
| `Calculations.RoundHalfEvenIsNearest` | calculations.py:163 | no integer is nearer to `x` than `round(x)` |
| `Calculations.ScaledRounding` | calculations.py:163 | `round(amount/unit)*unit` is a multiple of the unit, within half a unit of the amount, and non-negative for a positive amount |
| `Calculations.RoundToCleanFigure` | calculations.py:151-163 | zero or less gives 0; otherwise the result is a non-negative multiple of the active unit (1000 above 50000, else `to_nearest`) within half a unit of the amount |
| `Calculations.CleanFigureUnits` | calculations.py:151-163 | with the default unit the result is always a multiple of 500, and a multiple of 1000 whenever it exceeds 50000 |
| `Calculations.CleanFigureTieIsEven` | calculations.py:163 | a halfway amount goes to an even multiple of the unit |
| `Calculations.CurrencyTierOf` | calculations.py:283-290 | crores from 1e7, lakhs from 1e5 up to 1e7, plain below 1e5 |
| `Calculations.Assumptions` | calculations.py:228-238 | eight entries; the last four are the fixed disclaimers |
| `Calculations.PercentTextOfWhole` | calculations.py:230-233 | a rate of exactly k percent prints as the digits of k |
| `Calculations.PercentText` | calculations.py:230-233 | a rate prints as the decimal digits of `round(rate*100)`, with a leading "-" exactly when the rate is negative, as `.0f` does |
| `Calculations.PercentTextNegativeZero` | calculations.py:230 | a negative rate that rounds to zero percent prints as "-0" |
| `Calculations.InflationLine` | calculations.py:230 | the first assumption is "Inflation rate: " and the printed percentage, then "% per annum (locked)" |
| `Calculations.IncomeExpenseFlag` | calculations.py:226 | the flag is raised only when the income is positive and the expenses exceed it |
| `Calculations.LockedInflationAssumption` | calculations.py:230 | with 6% inflation the first assumption reads "Inflation rate: 6% per annum (locked)" |
| `Calculations.CalculateRetirementPlan` | calculations.py:166-260 | see the list under this table |
| `Calculations.SipClosesGap` | calculations.py:127-148 | for a positive horizon, the SIP of a non-negative gap, paid at every month end, accumulates exactly that gap |
| `Calculations.PlanSavingsCloseGap` | calculations.py:212-220 | with a positive horizon, the unrounded SIP paid monthly until retirement accumulates exactly the corpus gap |
| `Calculations.PlanCorpusIsGrowingAnnuity` | calculations.py:190-203 | the corpus is the present value of the retirement years' inflating expenses at the expected return, unless the rates are distinct but less than 0.0001 apart |
| `Calculations.PlanIgnoresIncome` | calculations.py:225-226 | changing the income changes only the echoed income and the flag |
| `Calculations.ExamplePlan` | calculations.py:450-462 | for the worked example, 25 years to retirement, 25 years of retirement, a 12% return and no flag |
| `Calculations.ExampleFlag` | calculations.py:225-226 | expenses of 800000 against an income of 600000 raise the flag, and every other output is what it would be with no income |
| `Calculations.CalculateWhatIfScenario` | calculations.py:263-280 | the what-if equals the plan for the base inputs with only the retirement age replaced |
| `Calculations.WhatIfAtBaseAge` | calculations.py:263-280 | asking for the base age reproduces the base plan |
| `Calculations.WhatIfIgnoresBaseAge` | calculations.py:269-280 | the what-if does not depend on the base inputs' own retirement age |
| `Calculations.SelectAges` | calculations.py:412-413 | the selection is no longer than the candidates and every selected age is later than the current age and not the excluded one |
| `Calculations.SelectAgesMembership` | calculations.py:409-413 | an age is selected if and only if it is a candidate, later than the current age, and not the excluded age |
| `Calculations.SelectAgesIncreasing` | calculations.py:409-413 | selection keeps the candidates' increasing order |
| `Calculations.ExcelAgesAreLaterCandidates` | calculations.py:409-413 | the spreadsheet's ages are exactly those of [55, 58, 60, 62, 65] later than the current age, in order |
| `Calculations.WhatIfRowFor` | calculations.py:414-421 | a row echoes the age, the what-if's timeline and rounded SIP, and its corpus as `round(corpus, 0)` |
| `Calculations.WhatIfRows` | calculations.py:412-421 | the loop appends exactly one row per selected age, in order |
| `Calculations.ExcelWhatIfRows` | calculations.py:409-421 | the what-if sheet has one row per candidate age later than the current age |
| `App.PayloadInputs` | app.py:602-614 | each missing key takes its default (30, 60, 85, 600000, 0, 0, "moderate", "self_spouse"); the profile is lower-cased; inflation is always 0.06 |
| `App.PerformCalculation` | app.py:602-617 | the result is the plan for the defaulted inputs, and it echoes the defaulted ages and the locked inflation |
| `App.EmptyPayloadInputs` | app.py:602-614 | an empty payload gives exactly the default inputs |
| `App.EmptyPayloadPlan` | app.py:602-614 | an empty payload plans for a 30-year-old retiring at 60 and living to 85, with 30 years to save and 25 in retirement |
| `App.InflationIsLocked` | app.py:613 | an inflation rate in the payload changes nothing |
| `App.ReturnFollowsProfile` | app.py:611 | the expected return follows the payload's profile in any letter case |
| `App.ExtractCalculationData` | app.py:578-581 | without the marker the answer is None; with it, the answer is what the JSON extraction found |
| `App.DisplayMessage` | app.py:1109-1116 | a message without the marker is shown as it is; one with it shows the stripped text before the marker's first occurrence, if that text is non-blank, and then the notice |
| `App.ShownTextPrecedesMarker` | app.py:1110-1113 | the shown text is a non-blank slice of the message before the marker's first occurrence, holds no marker, and neither starts nor ends with white space |
| `App.SetDefaultState` | app.py:526-548 | one default adds its key to the set keys |
| `App.SetDefaultAgrees` | app.py:526-548 | a default changes no other key and no key that is already set, and gives an unset key its initial value |
| `App.InitState` | app.py:524-548 | after initialisation every key is set |
| `App.SetDefaultTracks` | app.py:526-548 | seen from one key, each default either keeps its value or gives it the initial value once |
| `App.InitAt` | app.py:524-548 | after initialisation a key keeps its old value if it was set, and otherwise holds its initial value |
| `App.InitOnlyFillsGaps` | app.py:524-548 | the same, for every key at once |
| `App.InitOfInitialised` | app.py:524-548 | once every key is set, initialisation changes nothing |
| `App.InitIdempotent` | app.py:524-548 | a second initialisation changes nothing |
| `App.InitOfNewSession` | app.py:524-548 | a new session starts with every key at its initial value |
| `App.ResetState` | app.py:991-999 | a reset sets every key except the client |
| `App.ResetKeepsOnlyClient` | app.py:991-999 | after a reset, messages, calculation_done, result, inputs, collected_data, whatif_mode and followup_messages hold their initial values, and the client is untouched |
| `App.ResetIsFreshStart` | app.py:991-999 | after a reset the session is what a new session that already holds the client starts as |
| `App.CachedClient` | app.py:551-557 | an existing client is kept; without one, a non-empty key creates the client from that key; an empty key changes nothing |
| `App.CollectionTurn` | app.py:1141-1164 | a collection turn appends the user's answer and then the reply and caches the client; when the reply has the marker and a non-empty object it also records that object, its plan and inputs and sets calculation_done; nothing else changes |
| `App.FollowupTurn` | app.py:1184-1206 | a follow-up turn appends the question and the answer to the follow-up conversation, caches the client, and changes nothing else |
| `App.Dispatch` | app.py:1025-1206 | without a reset both conversations only grow and a made plan stays; a reset empties the conversation and drops the plan; an existing client is never replaced |
| `App.MainRun` | app.py:1002-1206 | after a run every key is set; a reset leaves an empty conversation and no plan; a client already in the session is kept |
| `App.DispatchRequest` | app.py:1141-1150 | a request is sent exactly when there is no reset, a key, an opened conversation and a non-empty typed message, and it ends with that message |
| `App.MainRequest` | app.py:1141-1150 | a request is sent only without a reset, with a key and a non-empty typed message, and ends with that message |
| `App.IdleRunOnlyInitialises` | app.py:1069-1093 | a run without a key, or with an opened conversation and nothing typed, only initialises the session and sends nothing |
| `App.IntendedRequest` | app.py:1141-1150 | the corrected request: the stored conversation of the current phase followed by the message once, sent in the same runs as the page's |
| `App.MainRequestAgainstIntended` | app.py:1184-1196 | the page's request equals the corrected one in the collection phase and is the corrected one with the question repeated in the follow-up phase |
| `App.ClientIsCachedOnce` | app.py:551-557 | a run that talks to the assistant leaves a client in the session, built from the run's key when there was none; an existing client is kept |
| `App.DispatchConsistent` | app.py:1139-1164 | every step after initialisation keeps the session invariant: calculation_done holds exactly when result, inputs and collected_data are set, and they then come from one calculation |
| `App.MainRunConsistent` | app.py:1002-1206 | every run of the page keeps that invariant, and a new session has it after its first run |
| `App.CollectionPhase` | app.py:1139-1164 | in the collection phase a turn appends answer and reply and leaves a client in the session; the plan is made exactly when the reply has the marker and a non-empty object was extracted, and then from that object |
| `App.FollowupPhase` | app.py:1165-1206 | once the plan is made, a question only extends the follow-up conversation and caches the client |
| `App.GreetingOpens` | app.py:1118-1136 | an empty conversation gets the greeting, and nothing else happens in that run |
| `App.PlanStaysUntilReset` | app.py:1027-1030 | only the reset button ends the follow-up phase; otherwise the plan stays |
| `App.RequestIsStoredConversation` | app.py:1141-1150 | the corrected request is the stored conversation after the user's message, in both phases (see Findings) |
| `App.Session.SetDefault` | app.py:526-548 | the in-place update matches `SetDefaultState` |
| `App.Session.InitSessionState` | app.py:524-548 | the in-place update matches `InitState` |
| `App.Session.GetOpenAIClient` | app.py:551-557 | the in-place update matches `CachedClient`, and the client returned is the session's |
| `App.Session.RecordCalculation` | app.py:1153-1159 | the in-place update records the plan, inputs and payload exactly when the reply carries a non-empty object |
| `App.Session.ResetChat` | app.py:991-999 | the in-place update matches `ResetState` |
| `App.Session.CollectAnswer` | app.py:1141-1164 | the in-place collection turn matches `CollectionTurn`, and the conversation sent is the stored one followed by the user's answer |
| `App.Session.AnswerFollowup` | app.py:1185-1206 | the in-place follow-up turn matches `FollowupTurn`, and the conversation sent is what `chat_followup` builds from the stored history that already ends with the question |
| `App.Session.RunMain` | app.py:1002-1206 | one run of `main` updates the session as `MainRun` says and sends what `MainRequest` says, as written |
| `App.ScenariosAmong` | app.py:899-907 | the loop keeps one scenario per listed age later than the current age and other than the planned one, in order, each the what-if for that age |
| `App.WhatIfScenarios` | app.py:899-907 | the loop keeps one scenario per candidate age later than the current age and other than the planned one, in order, each the what-if for that age |
| `App.DashboardAges` | app.py:900-902 | those ages are exactly the candidates satisfying the filter, in increasing order |
| `App.DefaultPlanScenarioAges` | app.py:900-907 | for a 30-year-old retiring at 60 the scenarios are for 55, 58, 62 and 65 |
| `App.SignOf` | app.py:921-922 | the prefix is "+" exactly when the difference is positive |
| `App.SignAndMagnitudeGiveDiff` | app.py:921-931 | the sign and the magnitude shown together determine the difference |
| `App.CardFor` | app.py:919-925 | a card's difference is the what-if's rounded SIP minus the base's, with "+" iff positive; "Shorter accumulation period" iff the age is below the base age |
| `App.Cards` | app.py:918-919 | at most three cards are shown: those of the first scenarios, in order |
| `App.ColumnCount` | app.py:918 | the column count is `min(len(scenarios), 3)`: at most 3, at most the number of scenarios, and one of the two |
| `App.DefaultPlanCards` | app.py:899-919 | for a 30-year-old retiring at 60 the cards shown are those for 55, 58 and 62; 65 is not shown |
| `App.NoScenarioColumns` | app.py:918 | for a 64-year-old retiring at 65, or anyone aged 65 or more, there is no scenario, so the dashboard's scenario list asks for zero columns |
| `App.CardColumns` | app.py:918-920 | with no scenario no columns are asked for; otherwise 1 to 3, and card i's column `i % 3` exists |
| `App.FollowupWhatIfFor` | app.py:707-715 | a what-if is computed exactly when an age was found that is later than the current age and differs from the base age; its diff is what-if minus base rounded SIP, with "+" iff positive, and the "shorter accumulation" reason iff the age is below the base age |
| `App.FollowupSkipsOnlyThePlan` | app.py:711-712 | a later age that the guard refuses would only reproduce the base plan |
| `App.FollowupRequestAsWritten` | app.py:728-736 | the request is the stored list followed by the question |
| `App.FollowupRequestRepeatsQuestion` | app.py:728-736 | as written, the follow-up request ends with the question twice |

`Calculations.CalculateRetirementPlan` states all of the following:

- the inputs are echoed;
- `years_to_retirement = retirement_age - current_age` and
  `retirement_duration = life_expectancy - retirement_age`;
- the return rate comes from the profile, and the two future values use the stated rates;
- `corpus_gap = max(0, corpus - future investments)`, which is at least 0;
- the corpus is `CorpusForRetirement` of the future expenses, the expected return, the inflation
  rate and the duration, and 0 for a duration of zero or less;
- the SIP is `MonthlySip` of the gap, the expected return and the years to retirement, and 0
  when there are no years left;
- the rounded figure is `RoundToCleanFigure` of the SIP;
- the SIP and its rounded figure are at least 0;
- the rounded figure is a multiple of 500, and of 1000 above 50000;
- the flag holds if and only if income > 0 and expenses > income;
- the assumptions are the fixed list of eight.

## Left out

- Rendering is not modelled: Streamlit pages, CSS, markdown and HTML (the display functions of
  `app.py`). Only the choices that decide what is shown are modelled: the marker stripping,
  the scenario selection, the card contents and the column count.
- The chat calls are not modelled. The environment key and the assistant's reply are
  parameters of each run (`App.Run`). The client is the key it was made from; its caching is
  modelled, its network use is not, and neither is the error reply sent without a client, since
  a chat call is only reached with a key.
- `st.rerun` is not modelled as such. Each call of `App.Session.RunMain` is one run of the
  script, and a rerun is simply the next call.
- The `re` and `json` extraction is not modelled. The object found in a reply is a parameter
  (`parsed`), and so is the retirement age found in a follow-up question (`requestedAge`).
  Payload values arrive already typed, so the `int()` and `float()` coercions are not modelled.
- The spreadsheet export through pandas and openpyxl is not modelled, apart from the loop
  that selects and computes the what-if rows.
- `format_currency` digit rendering, `format_result_summary` and `get_plan_context` are not
  modelled. Only the crore, lakh and plain thresholds are.
- Binary floating point is not modelled; every figure is an exact real.
- `Calculations.CorpusIsGrowingAnnuity`: when the two rates are distinct but less than 0.0001
  apart, `pmt*n/(1+r)` only approximates the annuity, and no error bound is proved for that
  band. The rates the application uses (0.08, 0.12 or 0.15 against 0.06) never fall in it.
- `Calculations.PlanCorpusIsGrowingAnnuity` needs the same exclusion.
- `Calculations.CorpusForRetirement` requires `return_rate != -1` when the duration is
  positive; Python raises ZeroDivisionError there.
- `Calculations.MonthlySip` requires an annual rate other than -24 when there is something to
  save. That is the one rate where `(1+i)^months - 1` is 0 and Python raises
  ZeroDivisionError.
- `Calculations.RoundToCleanFigure` requires a unit other than 0 wherever it is used. A zero
  unit is a ZeroDivisionError in Python.
- `Calculations.MonthlySipPositive` is stated only for annual rates above -1200%. Below that,
  a rate of -100% or less per month has no financial meaning.
- No monotonicity result is proved: the claim that a later retirement age never raises the
  required SIP is not part of the model.
- `Text.Lower` lower-cases ASCII letters only, while Python's `str.lower` also folds other
  scripts. All the profile names the engine recognises are ASCII.
- `App.Dispatch`, `App.MainRun` and `App.Session.RunMain` model a run as if the dashboard always
  renders. If Streamlit rejects the zero-column request at app.py:918 (see Findings), a user with
  no what-if scenario never gets past the result card in the follow-up phase, while the model
  still processes their follow-up questions (`App.FollowupPhase`).
- `whatif_mode` is stored and reset, but nothing in the source ever sets it to true or reads
  it, so it has no behaviour beyond that.

## Findings

| source | as written | input that shows it | evidently intended | confidence | as-written member | corrected member |
|---|---|---|---|---|---|---|
| app.py:728-736 | `main` appends the question to `followup_messages` (app.py:1187-1190) before calling `chat_followup`, which sends that list and then appends the question again | any follow-up question, e.g. "What if I retire at 58?" with an empty history: the request holds `[user: q, user: q]` | the question is sent once, after the stored history | high; not executed | `App.MainRequestAgainstIntended` | `App.RequestIsStoredConversation` |
| app.py:918 | `st.columns(min(len(scenarios), 3))` asks for zero columns when no candidate age survives the filter, and Streamlit rejects a column count of zero. In the follow-up phase `main` renders the result card (app.py:1096-1097) before the follow-up chat input (app.py:1185), so for such a user every follow-up run would stop there and no follow-up question is ever processed; only the sidebar reset still works | `current_age = 64, retirement_age = 65` (or any current age of 65 or more) | no card row when there is no scenario | medium (depends on Streamlit rejecting zero columns); not executed | `App.NoScenarioColumns` | `App.CardColumns` |
