# Options lab, retirement calculator and notification store — a Dafny model

This project models the three parts of the educational trading front end that
hold sequential logic:

- **Options lab** (`options.dfy`, module `Options`). This is the expiration payoff
  engine for six option strategies: short put, covered call, vertical spread,
  iron condor, leaps (poor man's covered call) and short strangle. Each payoff
  is a piecewise-linear formula of intrinsic values. The derived legs use fixed
  constants (spread width 10; condor wings at 5/15/20; leaps long call at 0.8
  and 0.25 of the quote; strangle call at 0.1 of the quote). The result is scaled
  by 100 shares per contract. Around it the module has:
  - the 81-point payoff chart over 60%–140% of the quote;
  - the support and resistance levels, and the threshold recommendation;
  - the per-strategy strike/premium defaults;
  - the price fallback and strike seeding after a ticker search;
  - the lab's state as a class `Lab`, whose handlers assign its fields.
- **Retirement calculator** (`retirement.dfy`, module `Retirement`). This is the
  year-by-year projection, with these parts:
  - contribution and withdrawal rows apply on the half-open age range
    `[startAge, endAge)`;
  - CPI-flagged withdrawals grow by `(1 + inflation)^yearIdx`;
  - the balance compounds at the return rate at year end;
  - each reported year has a rounded balance clamped at zero, and a retirement
    flag;
  - the final-balance and success read-outs;
  - the row editors (add, remove, update) as pure list functions, and as the
    methods of a class `Calculator` that replace its table fields.
- **Notification store** (`notifications.dfy`, module `Notifications`). This is the
  store class `NotificationStore` with its list, unread counter and loading
  flag. It has fetch, mark one read and mark all read.
  - The server call that precedes each update is reduced to whether it
    succeeded.
  - `MarkRead` and `MarkAllRead` are proved against pure transition
    functions (`ReadOne`, `ReadAll`), and the lemmas are about those
    functions. `Fetch`'s contract gives the new fields directly.

`common.dfy` (module `Common`) holds `Option` and the exact-real forms of
`Math.max`, `Math.min` and `Math.round`. `Round` is `floor(x + 0.5)`, which rounds
halves up, as JavaScript's `Math.round` does for negative numbers too.

All prices, amounts and rates are exact `real`s. Ages and contract counts are
`int`s.

- The source's `StrategyType` (src/types.ts:10-18) has eight kinds. Two of them,
  `long_call` and `wheel`, reach the `return 0` of views/OptionsLab.tsx:124.
- `handleStrategyChange` sets the strangle strike to 90% of the quote
  (views/OptionsLab.tsx:95), although the comment on line 94 says 0.95.
- The sampling loop is written as `p <= max` with `p += step`. The model keeps
  that loop, and for a negative quote it yields an empty chart.

## Model

| member | source | states |
|---|---|---|
| Common.Round | views/OptionsLab.tsx:133 | the rounded value is the integer within (x − ½, x + ½], halves going up |
| Common.RoundTenth | views/OptionsLab.tsx:83 | rounding to one decimal lands within 0.05 of the input on a multiple of 0.1 |
| Options.ProfitAt | views/OptionsLab.tsx:99-125 | a strategy outside the six handled kinds has profit 0 at every price |
| Options.ShortPutPayoff | views/OptionsLab.tsx:105 | short put profit is (pr − max(0, s − p))·unit; it equals pr·unit for p ≥ s, never exceeds it, is nondecreasing in p, and is at least (pr − s)·unit for p ≥ 0 and s ≥ 0 |
| Options.CoveredCallPayoff | views/OptionsLab.tsx:106 | covered call profit is (pr + min(p, s) − cp)·unit; it is capped at (pr + s − cp)·unit, reaches it for p ≥ s, and is nondecreasing in p |
| Options.VerticalSpreadPayoff | views/OptionsLab.tsx:107 | spread profit lies in [(pr − 10)·unit, pr·unit]; it is pr·unit for p ≥ s, (pr − 10)·unit for p ≤ s − 10, and nondecreasing in p |
| Options.IronCondorPayoff | views/OptionsLab.tsx:108 | condor profit lies in [(pr − 5)·unit, pr·unit]; with one or more contracts it equals pr·unit exactly when s ≤ p ≤ s + 15; it is (pr − 5)·unit at or beyond the outer wings |
| Options.LeapsPayoff | views/OptionsLab.tsx:110-115 | below both strikes the leaps position loses 0.25·cp net of premium; above both it is flat at s − 0.8·cp − 0.25·cp + pr |
| Options.LeapsBounded | views/OptionsLab.tsx:110-115 | with the short strike above the 0.8·cp long strike, the leaps profit is nondecreasing in p and capped at its value at s |
| Options.StranglePayoff | views/OptionsLab.tsx:117-121 | the call strike is s + 0.1·cp; profit equals pr·unit on [s, s + 0.1·cp] and, with one or more contracts, is strictly less outside it |
| Options.ProfitLinearInContracts | views/OptionsLab.tsx:100 | profit for n contracts is n times profit for one contract, for every strategy |
| Options.SamplePricesAscending | views/OptionsLab.tsx:129-132 | for a positive quote, sample prices strictly increase, starting at 0.6·cp and reaching 1.4·cp at step 80 |
| Options.RoundedPricesMayRepeat | views/OptionsLab.tsx:133 | rounded sample prices can repeat: with quote 10 the first two both round to 6 |
| Options.ChartData | views/OptionsLab.tsx:127-136 | the sampling loop yields 81 points for a positive quote and none for a negative one; point k is (round(price_k), round(profit at price_k)); rounded prices never decrease |
| Options.Recommend | views/OptionsLab.tsx:31-52 | covered call iff cp > 800, leaps iff cp < 200, short put iff 200 ≤ cp ≤ 800 |
| Options.TechnicalsFor | views/OptionsLab.tsx:25-55 | for a positive quote s2 < s1 < cp < r1 < r2, with gaps of exactly 3.5% of cp between s2, s1, cp and r1 and of 4.5% of cp between r1 and r2, which fixes the levels at 0.930, 0.965, 1.035 and 1.080 times cp; the recommendation is that of the quote |
| Options.StrategyDefaults | views/OptionsLab.tsx:87-97 | per kind, the strike is the whole number nearest to 0.95/1.05/1.05/0.90/0.98 of the quote, and the premium is 1.5%/1.2%/3%/5% of it to one decimal, or a fixed 5.0 for the remaining kinds |
| Options.DefaultStrikesOutOfTheMoney | views/OptionsLab.tsx:90-95 | from a quote of 10 up, the default put strikes are at or below the quote and the default call strikes at or above it |
| Options.FallbackPrice | views/OptionsLab.tsx:79 | the chosen quote is never 0: the service price if present and non-zero, else the mock quote for the symbol, else 150 |
| Options.QuoteSeed | views/OptionsLab.tsx:82-83 | after a search the strike is the whole number nearest 95% of the quote and the premium 2% of it to one decimal |
| Options.Lab.constructor | views/OptionsLab.tsx:14-20 | the lab starts on NVDA at its mock quote (non-zero) with a short put at 830, premium 15.5, one contract |
| Options.Lab.ChangeStrategy | views/OptionsLab.tsx:87-97 | selecting a kind sets it and resets strike and premium to that kind's defaults for the current quote; nothing else changes, so the quote stays non-zero |
| Options.Lab.ApplySearch | views/OptionsLab.tsx:71-83 | an empty symbol changes nothing; otherwise ticker and quote are replaced and strike/premium reseeded from the new quote, keeping the strategy and contracts; the quote stays non-zero |
| Options.Lab.Chart | views/OptionsLab.tsx:127-136 | the chart of the lab's own position: the lab's quote is never zero, so the loop ends, with 81 points for a positive quote, each the rounded sample of the current position, prices never decreasing |
| Retirement.ActiveRowsMembers | views/RetirementCalculator.tsx:72-76 | a row is selected for an age exactly when it is in the table and startAge ≤ age < endAge |
| Retirement.ContributionWithRow | views/RetirementCalculator.tsx:71-73 | adding a row changes that age's contribution sum by its amount exactly when the age is in [startAge, endAge), so the end age is exclusive |
| Retirement.WithdrawalWithRow | views/RetirementCalculator.tsx:75-80 | adding a withdrawal row changes that year's withdrawals by its amount, CPI-grown when flagged, exactly when the row is active |
| Retirement.WithdrawalGrowth | views/RetirementCalculator.tsx:79 | a CPI-adjusted withdrawal is its plain amount in year 0 and, for non-negative amount and inflation, never shrinks year on year; an unflagged one stays at its amount |
| Retirement.PowGrowth | views/RetirementCalculator.tsx:79 | (1 + inf)^n is at least 1 and nondecreasing in n when inf ≥ 0 |
| Retirement.SumAmountsNonNegative | views/RetirementCalculator.tsx:72-73 | non-negative row amounts give a non-negative yearly sum |
| Retirement.TimingIgnoredInYear | views/RetirementCalculator.tsx:75-80 | a year's withdrawals do not depend on the startOfYear flags |
| Retirement.TimingIgnoredBalance | views/RetirementCalculator.tsx:83 | the running balance does not depend on the startOfYear flags |
| Retirement.TimingIgnored | views/RetirementCalculator.tsx:61-92 | the whole projection is unchanged when only startOfYear flags differ |
| Retirement.ProjectionShape | views/RetirementCalculator.tsx:61-92 | one result per age from currentAge to lifeExpectancy inclusive, consecutive and ascending; empty iff currentAge > lifeExpectancy; balances ≥ 0; isRetired iff age ≥ retireAge |
| Retirement.Project | views/RetirementCalculator.tsx:61-92 | the year loop produces exactly the projection defined by the balance recurrence b₀ = brokerage + retirement, b′ = b·(1 + roi) + contributions − withdrawals |
| Retirement.ProjectYear | views/RetirementCalculator.tsx:68-89 | one pass of the loop turns the balance after the previous years into the balance after this age and reports this age's year |
| Retirement.RunningBalanceNotClamped | views/RetirementCalculator.tsx:83-87 | a withdrawal of a from nothing followed by a contribution of c reports 0 and then round(c − a) clamped, so the carried balance is not clamped |
| Retirement.BalanceNondecreasing | views/RetirementCalculator.tsx:83 | with no withdrawals, non-negative contributions, return and start, the running balance is non-negative and never falls |
| Retirement.FinalBalance | views/RetirementCalculator.tsx:94 | the final balance is the last reported one, and is absent when the projection is empty (the source then reads `.balance` of `undefined` and throws) |
| Retirement.IsSuccessful | views/RetirementCalculator.tsx:94-95 | success holds iff the last reported balance is positive; absent for an empty projection |
| Retirement.SuccessIffFinalBalance | views/RetirementCalculator.tsx:83-95 | a non-empty plan succeeds exactly when its running balance at the life expectancy is at least ½ |
| Retirement.WithField | views/RetirementCalculator.tsx:57 | an edit sets the named field and leaves every other field of the row as it was |
| Retirement.NewRow | views/RetirementCalculator.tsx:41-45 | a new row has startAge = currentAge, endAge = retireAge, amount 0; a withdrawal row is CPI-adjusted and not start-of-year |
| Retirement.NewRowAddsNothing | views/RetirementCalculator.tsx:41-45 | a newly added row changes no year's contributions or withdrawals |
| Retirement.RemoveRowsExact | views/RetirementCalculator.tsx:48-52 | removal drops every row with the id and keeps each other row with its multiplicity |
| Retirement.RemoveRowsKeepsOrder | views/RetirementCalculator.tsx:49-51 | removal distributes over concatenation, so the kept rows keep their order |
| Retirement.RemoveAbsentId | views/RetirementCalculator.tsx:49-51 | removing an id no row carries leaves the table unchanged |
| Retirement.UpdateRows | views/RetirementCalculator.tsx:54-58 | the table keeps its length; rows with another id are unchanged; rows with the id get the single field edit |
| Retirement.UpdateRowsIdempotent | views/RetirementCalculator.tsx:57 | applying the same field edit twice equals applying it once, unless the edit renames the rows to another id |
| Retirement.UpdateThenRemove | views/RetirementCalculator.tsx:54-58 | editing the rows of an id (without renaming them) and then removing that id equals removing it directly |
| Retirement.Calculator.constructor | views/RetirementCalculator.tsx:21-38 | the calculator starts from the default ages, balances, rates and one row per table |
| Retirement.Calculator.AddRow | views/RetirementCalculator.tsx:41-46 | the chosen table gains the new row at its end; the other two tables and all scalar inputs are unchanged |
| Retirement.Calculator.RemoveRow | views/RetirementCalculator.tsx:48-52 | the chosen table loses the rows with the id; the other tables and scalars are unchanged |
| Retirement.Calculator.UpdateRow | views/RetirementCalculator.tsx:54-58 | the chosen table gets the field edit on rows with the id; the other tables and scalars are unchanged |
| Retirement.Calculator.Calculate | views/RetirementCalculator.tsx:61-92 | the calculation over the calculator's current inputs is exactly their projection |
| Notifications.FindIndex | src/stores/notifications.ts:32 | the result is the first position holding the id, or none when no notification has it |
| Notifications.ReadOne | src/stores/notifications.ts:30-37 | an unread first match alone becomes read and the counter drops by one, clamped at 0; a read or absent id changes nothing |
| Notifications.ReadOneIdempotent | src/stores/notifications.ts:33 | marking the same id read twice equals marking it once |
| Notifications.ReadOneEffect | src/stores/notifications.ts:32-34 | afterwards the first match is read and every other entry is unchanged |
| Notifications.CountAfterRead | src/stores/notifications.ts:34-35 | reading one unread notification lowers the unread number by exactly one |
| Notifications.ReadOneKeepsCount | src/stores/notifications.ts:33-35 | a counter that agrees with the list still agrees after marking one read |
| Notifications.ReadAll | src/stores/notifications.ts:41 | every notification is read afterwards, and nothing but the flag changes |
| Notifications.ReadAllNoneUnread | src/stores/notifications.ts:41-42 | after marking all read no notification is unread, so the reset counter 0 agrees with the list |
| Notifications.NotificationStore.constructor | src/stores/notifications.ts:11-13 | the store starts with no notifications, an unread count of 0 and not loading |
| Notifications.NotificationStore.Fetch | src/stores/notifications.ts:17-28 | a successful fetch replaces list and counter with the server's; a failed one keeps them; loading ends false |
| Notifications.NotificationStore.MarkRead | src/stores/notifications.ts:30-37 | after an acknowledged call the state is ReadOne of the old state; after a failed call it is unchanged |
| Notifications.NotificationStore.MarkAllRead | src/stores/notifications.ts:39-43 | after an acknowledged call every flag is set by the loop, nothing else in the list changes, and the counter is 0; a failed call changes nothing |

## Left out

- Floating point: the model uses exact reals. JavaScript's accumulated `p += step` may keep or drop the last chart sample, and `Number()` coercion of inputs may produce NaN. Neither is modelled.
- Options.ChartData: a zero quote is excluded. There the step is 0 and the source's loop never ends.
- Options.ShortPutPayoff: the floor (pr − s)·unit is stated for a non-negative strike only. With a negative strike it does not hold.
- Options.ShortPutPayoff, Options.CoveredCallPayoff, Options.VerticalSpreadPayoff, Options.IronCondorPayoff, Options.StranglePayoff and Options.LeapsBounded take a non-negative contract count. With a negative count the order of profits is reversed.
- The quote service call, the 600 ms timer and the loading/scanning spinner flags of the search are not modelled. The service's answer is a parameter: a price, or none.
- The search's `trim().toUpperCase()` is not modelled. `Options.Lab.ApplySearch` takes the symbol already normalised and keeps only the empty-symbol check.
- The recommendation's label, reason text and colour are display strings and are not modelled. So are the strategy menu lists and all rendering and number formatting.
- The lab's plain input setters (contracts, strike, premium typed by the user) are not modelled. Each just assigns one field.
- Ages are whole numbers. The inputs could hold fractional ages.
- Options.Position: the contract count is a whole number. In the source it comes from `Number(e.target.value)` of an input whose only guard is the HTML `min: 1`, so a fractional count can reach the formula. The formulas are the same for any count, and zero and negative counts are allowed in the model.
- Retirement.FinalBalance, Retirement.IsSuccessful: the source throws here; the model returns None. When the projection is empty (a current age above the life expectancy), `calculationData[-1]` is `undefined`, and reading `.balance` from it raises a TypeError that breaks the render.
- The random row id of `addRow` is a parameter of `Retirement.Calculator.AddRow`.
- Contribution rows added by `addRow` carry no `cpiAdjust`/`startOfYear` in the source. The model stores `false`, which the calculation treats alike.
- Notification objects are shared references in the source: `find` returns the object and mutates it in place. The model holds values in a sequence, so aliasing beyond the store's own list is not captured.
- Server calls (`getNotifications`, `markNotificationRead`, `markAllNotificationsRead`) are reduced to success or failure. `fetch` catches a failure silently and clears `loading` in its `finally`. `Notifications.NotificationStore.Fetch` models that exactly. In `markRead` and `markAllRead` the exception propagates to the caller before any state changes. The model reports `ok == false` and leaves the state unchanged.
- Notification polling (`startPolling`/`stopPolling`, a timer) is not modelled.
