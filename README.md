# Carbon-aware AI workload scheduler: the analysis step

This project models the analysis behind the "Analyze Task" button of a one-page
Streamlit app in Dafny. The user enters a task duration (1 to 24 hours) and picks
a compute tier ("Low GPU", "Medium GPU" or "High GPU") from a selector whose first
entry, "Select", means "nothing chosen". If the button is pressed and a real tier
is chosen, the app:

- draws a current carbon intensity in [480, 620] gCO₂/kWh;
- draws a cut in [120, 200] and clamps it to at least 60;
- draws a start hour in [0, 24 − duration];
- formats the window's start and end hours as 12-hour labels;
- computes the percentage reduction and the CO₂ saved, weighted by the tier's energy factor (0.6, 1.2 or 2.0).

The model is pure, as the source is. It has three modules:

- `Wrappers` (`wrappers.dfy`) defines `Option` and `Result`.
- `Clock` (`clock.dfy`) models the label conversion
  `datetime.strptime(f"{h}:00", "%H:%M").strftime("%I:%M %p")`. It has three stages:
  - the decimal text of the hour;
  - CPython's `_strptime` matching of `%H:%M`, including the order in which the
    regular-expression alternatives `2[0-3]|[0-1]\d|\d` (hour) and `[0-5]\d|\d`
    (minute) are tried. A failed match, or characters left after the match, raises `ValueError`; that is `None` here;
  - the C-locale `%I:%M %p` output.

  The module also has `ParseLabel`, an inverse that reads a label back to its hour.
- `Scheduler` (`scheduler.dfy`) holds the tiers and `energy_map`, the intensity,
  window, reduction and savings derivations, `Analyze` (the block at app.py:107-125)
  and `Submit` (the guard at app.py:82 around it).

The three `random.randint` draws are parameters of `Analyze` and `Submit`. Their
preconditions are the draw ranges. The duration's precondition [1, 24] is the
range the number widget enforces. The resource's precondition is membership in
the selector's options.

The source's behaviour that the model exposes:

- The `min(…, base − 60)` clamp never binds, since every cut is at least 120.
  The optimized intensity is always `base − cut`.
- The end hour is 24 whenever `start + duration == 24`, and so on every run with
  duration 24. The text `"24:00"` has no `%H` reading, so the second
  `strptime` call raises `ValueError`. No result panel is rendered on that path.
  A 12-hour rendering of hour 24 would be "12:00 AM", but the code never gets
  that far (`Analyze`, `FullDayRaises`).
- With the clamp alone, the reduction could be as low as 6000/620 ≈ 9.68 %.
  That bound is not reachable, because the clamp never binds. The bound that holds is
  12000/620 ≈ 19.35 % (`ReductionBounds`).

## Model

| member | source | states |
|---|---|---|
| `Clock.Decimal` | app.py:121-122 | the f-string's hour text is all digits, denotes the hour, and has no leading zero except for 0 itself; it has length 1 exactly below 10 and length 3 or more from 100 |
| `Clock.HourText` | app.py:121-122 | the text handed to `strptime` is the hour's digits, with no leading zero except for hour 0, followed by ":00"; it is four characters long exactly for one-digit hours |
| `Clock.HourCandidates` | app.py:121-122 | every way `%H` can match takes one or two characters and reads an hour in 0..23 |
| `Clock.MinuteCandidates` | app.py:121-122 | every way `%M` can match takes one or two characters and reads a minute in 0..59 |
| `Clock.FirstMatch` | app.py:121-122 | the first `%H:%M` match reads an hour in 0..23 and a minute in 0..59, and ends inside the text |
| `Clock.Strptime` | app.py:121-122 | a time `strptime("%H:%M")` accepts has hour 0..23 and minute 0..59 |
| `Clock.EndOfDayText` | app.py:118-122 | the end hour 24 is handed to `strptime` as the text "24:00" |
| `Clock.OneDigitHourText` | app.py:121-122 | `strptime` reads `f"{h}:00"` as hour h, minute 0 for every one-digit h |
| `Clock.TwoDigitHourText` | app.py:121-122 | for two-digit h, `strptime` reads `f"{h}:00"` exactly when h <= 23, and raises `ValueError` from 24 to 99 |
| `Clock.StrptimeHourText` | app.py:121-122 | `strptime` accepts `f"{h}:00"` exactly when h <= 23, and then reads hour h and minute 0; it raises `ValueError` for every larger h |
| `Clock.TwoDigits` | app.py:121-122 | the zero-padded two-digit field shows the number it was given |
| `Clock.Strftime12` | app.py:121-122 | `strftime("%I:%M %p")` gives eight characters: a two-digit hour 01..12 congruent to the hour modulo 12, ':', the two-digit minute, a space, and "AM" before noon, "PM" from noon |
| `Clock.HourLabel` | app.py:121-122 | the label is defined exactly for hours 0..23; it is "12" when h % 12 == 0 and otherwise h % 12 padded to two digits, then ":00 ", then "AM" iff h < 12, else "PM" |
| `Clock.ParseLabel` | app.py:121-122 | reading a label back yields an hour of the day 0..23 |
| `Clock.ParseLabelOf` | app.py:121-122 | a label built from a 12-hour value and "AM"/"PM" reads back as the corresponding 24-hour hour |
| `Clock.LabelRoundTrip` | app.py:121-122 | reading back the label of hour h yields h |
| `Clock.LabelParseSound` | app.py:121-122 | every label that reads back as hour h is exactly the label of h |
| `Clock.LabelsInjective` | app.py:121-122 | different hours of the day get different labels |
| `Scheduler.TierOf` | app.py:75-79 | a selector label that is a key of `energy_map` names exactly one tier |
| `Scheduler.Weight` | app.py:107-111 | every tier's energy weight is positive |
| `Scheduler.OptimizedIntensity` | app.py:114-115 | the optimized intensity is at least 60 below the base and at most base − cut; it equals base − cut whenever the cut is 60 or more, and base − 60 otherwise |
| `Scheduler.Window` | app.py:117-118 | the window starts at an hour in 0..23, ends `duration` hours later, no later than 24; at duration 24 it is forced to (0, 24) |
| `Scheduler.Reduction` | app.py:124 | the reduction is the intensity drop as a percentage of the base. It is positive when the intensity falls, and below 100 while the optimized intensity stays positive |
| `Scheduler.Saved` | app.py:125 | a hundred times the saving is the reduction times the hours times the tier's energy weight. For a task of at least one hour, the saving is positive exactly when the reduction is |
| `Scheduler.Report` | app.py:124-125 | the results of a run whose labels were produced: the optimized intensity is base − cut; the reduction is the formula of line 124 on those intensities, within [12000/620, 20000/480]; the saving is the formula of line 125 for the tier, and positive |
| `Scheduler.Analyze` | app.py:107-125 | fails with the `ValueError` on "24:00" exactly when start + duration == 24. Otherwise: the intensities are the base draw and base − cut (at least 60 less); the window ends at most at hour 23; both labels read back as the window's hours and differ; the reduction is the formula of line 124, strictly between 0 and 100 and within [12000/620, 20000/480]; the saving is the formula of line 125 for the tier, and positive |
| `Scheduler.Submit` | app.py:82 | nothing runs exactly when the button is not pressed or the tier is the "Select" sentinel. The run raises the "24:00" `ValueError` exactly when it is not idle and start + duration == 24. A shown page carries `Analyze`'s result for the selected tier, whose `energy_map` lookup is defined and is the weight the saving uses |
| `Scheduler.LookupDefined` | app.py:75-79 | a selector option is a key of `energy_map` iff it is not the sentinel, so the lookup at line 125 never raises `KeyError` |
| `Scheduler.EnergyMapKeysAreTiers` | app.py:107-111 | the keys of `energy_map` are exactly the three tier labels |
| `Scheduler.EnergyWeights` | app.py:107-111 | the energy weights of Low, Medium and High GPU are 0.6, 1.2 and 2.0 |
| `Scheduler.WeightIncreasing` | app.py:107-111 | the energy weight grows strictly with the tier order Low < Medium < High |
| `Scheduler.IntensityBounds` | app.py:113-115 | for draws in range, the clamp is a no-op and the optimized intensity lies in [280, 500] |
| `Scheduler.ReductionBounds` | app.py:124 | for draws in range, the reduction is strictly between 0 and 100 and lies in [12000/620, 20000/480] |
| `Scheduler.SavedPositive` | app.py:125 | a positive reduction over at least one hour saves a strictly positive amount, whatever the tier |
| `Scheduler.SavedIncreasingInTier` | app.py:125 | for a fixed duration and reduction, the saving strictly increases from Low to Medium to High |
| `Scheduler.SavedIncreasingInDuration` | app.py:124-125 | for a fixed tier and fixed intensity draws, the saving strictly increases with the duration |
| `Scheduler.FullDayRaises` | app.py:117-122 | every submitted full-day run raises `ValueError` on "24:00" instead of showing a result |
| `Scheduler.SentinelShowsNothing` | app.py:82 | submitting with "Select" shows nothing, whatever the duration and draws |
| `Scheduler.HighGpuExample` | app.py:107-125 | High GPU for 3 hours with intensities 600 and 450 shows a 25 % reduction and 1.5 kg saved |

## Left out

- Streamlit page setup, CSS, header, result cards and banners (app.py:14-60, 84-104, 127-178): presentation with no behaviour beyond showing the modelled values. `Submit`'s `Shown`/`Raised`/`Idle` outcome stands for what is rendered. On the `Raised` path, the progress bar and the confidence banner have already been drawn before the exception.
- The `st.session_state` initialisation (app.py:7-11): framework state that the analysis never reads. The task name (app.py:65) is collected but never used by the analysis.
- The progress loop with `time.sleep` (app.py:85-88): a wall-clock animation only.
- `random.randint` itself: each draw is a parameter bounded by its range. No distribution is modelled.
- IEEE-754 rounding in `reduction` and `saved`, and the `:.2f` display (app.py:148, 156): both are computed exactly over `real`.
- The rest of `datetime`: only the `%H:%M` parse on the text `f"{h}:00"` and the `%I:%M %p` output are modelled. `%p` is assumed to use the C/English locale ("AM"/"PM"). Hours are non-negative, because the start draw is.
