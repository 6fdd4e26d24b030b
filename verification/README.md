# Weekly task dashboard — a Dafny model of the week selection

The dashboard (`WeeklyTaskView` in `app/page.tsx`) shows a fixed store of
seven tasks in three columns, one per task category (assessment, exam,
teamwork). It shows only the tasks due in the selected week, and it has
"Previous Week" / "Next Week" buttons. This project models the logic
behind that view and proves its properties:

- the seed store, a fixed sequence of immutable `Task` records;
- the week filter, which keeps the tasks due in the half-open window
  `[weekStart, weekStart + 7 days)` in store order;
- the grouping of that list into the three per-category lists;
- navigation: the initial `weekStart` is the Monday-start of today's week,
  and each button moves it by exactly seven days;
- the per-column rule: a column shows its cards, or "No tasks this week"
  when it is empty.

## Modelling choices

- **Dates are integer day numbers.** Day 0 is Monday 5 January 1970, so
  the multiples of 7 are exactly the Mondays, and Dafny's `%` (never
  negative for a positive divisor) gives the day of the week directly.
- **The date library is replaced by integer stand-ins.** Its source is not
  part of this model.
  - `startOfWeek(d, { weekStartsOn: 1 })` becomes `Calendar.StartOfWeek(d) = d - d % 7`.
  - `addDays(d, n)` becomes `Calendar.AddDays(d, n) = d + n`.
  - These are not transcriptions of the library. `StartOfWeek` is pinned
    down by its contract: the latest Monday at or before `d`.
    `AddDays` is a plain definition. `Calendar.AddDaysIsDayOfMonthOverflow`
    ties it to how the library moves a date: it sets the day of the month
    to `day + n` and lets the date overflow into other months.
- **Dates in the seed are computed.** `new Date(year, monthIndex, day)` is
  modelled by `Calendar.MakeDate`.
  - A year argument from 0 to 99 means 1900 to 1999, as the ECMAScript
    `Date` constructor prescribes (section 21.4.2.1 of the ECMAScript
    language specification).
  - The numbers are then combined by `Calendar.MakeDay`, after the
    standard's MakeDay operation (section 21.4.1). The month is
    zero-based. An out-of-range month moves whole years, as many as it
    takes, and an out-of-range day moves into other months. Days are
    counted in the proleptic Gregorian calendar.
  - Anchor lemmas tie the numbering to the calendar: 1 January 1970 is a
    Thursday, and 10 March 2025 is a Monday.
  - Two more anchors check the leap-year rule: 2000 is a leap year and
    1900 is not.
- **Time of day, time zones and DST are not modelled.** Every date is a
  local midnight and one day is one unit.
- **The React state is a plain `int` `weekStart`.** The buttons are a
  `Command` applied by `Navigation.Step`. A sequence of presses is
  `Navigation.Run`.
- **The wall clock (`new Date()`) is a parameter `today`** of
  `Navigation.Init`.
- **`Array.prototype.filter` is modelled once, as `Seqs.Filter`.** The week
  filter and the three category filters are instances of it.
  - Its contract is split across lemmas. `FilterMembers` says which values
    survive. `FilterIsSubsequence` says the survivors keep their original
    order. `FilterMultiset` says every occurrence of a kept value is kept.
- **The seed scenario is proved in two steps.** It is first proved for any
  store laid out like the seed (`Scenario.SeedLayout`: same ids, categories
  and due days), then applied to `Tasks.Seed()`.

## Model

| member | source | states |
|---|---|---|
| Calendar.StartOfWeek | app/page.tsx:69 | the initial week start is a Monday at or before the given day and less than seven days before it, and it is the only Monday with that property |
| Calendar.AddDaysIsDayOfMonthOverflow | app/page.tsx:74 | moving a constructed date by `n` days gives the date constructed with day of the month `day + n`, for any `n`, across month and year ends |
| Calendar.MakeDayNormalises | app/page.tsx:17-23 | combining year, month and day is linear in the day of the month, and twelve months more is one year more (twelve months less is one year less) |
| Calendar.TwoDigitYearAnchor | app/page.tsx:17-23 | `new Date(99, 0, 1)` is 1 January 1999, a different day from 1 January of the year 99 |
| Calendar.CalendarAnchors | app/page.tsx:17-23 | 1 January 1970 is day -4, and Monday 5 January 1970 is day 0 and a Monday |
| Calendar.LeapYearAnchors | app/page.tsx:17-23 | 1 March follows 29 February in 2000 and 28 February in 1900 (Gregorian leap-year rule) |
| Tasks.Seed | app/page.tsx:16-24 | the store holds seven tasks and no two of them share an id |
| Tasks.DaysOfMarch2025 | app/page.tsx:17-23 | the days of March 2025 are consecutive day numbers, and the 10th is day 20153 |
| Tasks.SeedDueDates | app/page.tsx:17-23 | the seven seed tasks are due on consecutive days, 14 to 20 March 2025 |
| Seqs.Filter | app/page.tsx:72-75 | a filter never produces more elements than it was given |
| Seqs.FilterMembers | app/page.tsx:72-75 | a value is in the filtered list exactly when it is in the input and the test accepts it |
| Seqs.FilterIsSubsequence | app/page.tsx:72-75 | the filtered list is a subsequence of the input: the survivors keep their relative order |
| Seqs.FilterMultiset | app/page.tsx:72-75 | every occurrence of an accepted value survives, and no occurrence of a rejected value does |
| Seqs.FilterCons | app/page.tsx:72-75 | filtering decides the first element and then filters the rest |
| Seqs.FilterAll | app/page.tsx:72-75 | a test every element passes leaves the list unchanged |
| Seqs.FilterNone | app/page.tsx:72-75 | a test no element passes leaves the empty list |
| Seqs.FilterAppend | app/page.tsx:72-75 | filtering a concatenation is concatenating the filtered parts |
| WeekView.LastShownDay | app/page.tsx:102 | the header's end date is the last day inside the window: it is in the week and the day after it is not |
| WeekView.CurrentWeekTasks | app/page.tsx:72-75 | a task is listed for the week exactly when it is in the store and `weekStart <= dueDate < weekStart + 7`; the list keeps store order and store multiplicity |
| WeekView.WeekOfSortedStore | app/page.tsx:72-75 | on a store in due-date order, the week's tasks are exactly the contiguous run due inside the window |
| WeekView.OfType | app/page.tsx:78-80 | a category list holds exactly the given tasks of that category, in their given order, each as often as it occurs in the given list |
| WeekView.OfTypeSingle | app/page.tsx:78-80 | a category filter keeps a single task exactly when the task has that category |
| WeekView.OfTypeAppend | app/page.tsx:78-80 | a category filter over a concatenation is the concatenation of the category filters |
| WeekView.TypesPartition | app/page.tsx:78-80 | the three category lists together hold every task of the week's list, each exactly as often as it occurs there (the category type has exactly three values) |
| WeekView.Group | app/page.tsx:78-80 | each column holds exactly the week's tasks of its category, in week order; no task is in two columns; the column lengths add up to the length of the week's list |
| WeekView.FilterKeepsUniqueIds | app/page.tsx:59 | filtering a list whose ids are unique leaves ids unique, so card keys stay distinct |
| WeekView.Body | app/page.tsx:58-62 | a column shows "No tasks this week" exactly when its list is empty, and otherwise shows one card per task of the list |
| WeekView.Render | app/page.tsx:101-117 | the header runs from `weekStart` to six days later; each column holds exactly the store's tasks of its category due within that range, in store order, each as often as it occurs in the store |
| WeekView.RenderKeepsUniqueIds | app/page.tsx:59 | with a store of unique ids, no column lists two cards with the same key |
| Navigation.Init | app/page.tsx:69 | the first week shown starts on a Monday and contains today |
| Navigation.Step | app/page.tsx:83-84 | "next" adds exactly seven days, "previous" subtracts exactly seven, and both keep a Monday a Monday |
| Navigation.StepRoundTrip | app/page.tsx:83-84 | next then previous, or previous then next, returns to the same week start |
| Navigation.RunMovesByNetWeeks | app/page.tsx:83-84 | after any sequence of presses, the week start is the original one plus seven days per net "next" |
| Navigation.RunKeepsMonday | app/page.tsx:69 | starting from today's week, any sequence of presses leaves the week start on a Monday |
| Navigation.EveryReachableWeekIsRun | app/page.tsx:83-84 | every week a whole number of weeks away from the start is reached by some sequence of presses |
| Navigation.WeekIndex | app/page.tsx:74 | the weeks reachable from a start tile the days: each day lies in exactly one of them |
| Navigation.TaskInExactlyOneWeek | app/page.tsx:72-75 | each task of the store is listed in exactly one of the weeks reachable from a given start |
| Scenario.BaseWeekIsMonday10March2025 | app/page.tsx:17-23 | day 20153 is Monday 10 March 2025 |
| Scenario.BaseWeekIsOpeningWeek | app/page.tsx:69 | opened on any day from 10 to 16 March 2025, the dashboard selects the week starting Monday 10 March |
| Scenario.SeedHasLayout | app/page.tsx:16-24 | the seed has ids 1 to 7 in order, categories teamwork, exam, assessment, teamwork, exam, assessment, teamwork, and due days 14 to 20 March 2025 |
| Scenario.SeedBaseWeek | app/page.tsx:72-80 | the week of 10 March lists tasks 1, 2, 3; teamwork is [1], exams is [2], assessments is [3], both as category lists and as the rendered columns |
| Scenario.SeedNextWeek | app/page.tsx:72-84 | one "next" from that week lists tasks 4 to 7; teamwork is [4, 7], exams is [5], assessments is [6], both as category lists and as the rendered columns |
| Scenario.SeedTwoWeeksAway | app/page.tsx:58-62 | two presses back or forward from that week, all three rendered columns show "No tasks this week" |
| Scenario.SeedIds | app/page.tsx:17-23 | the seed ids are 1 to 7 in store order |

## Left out

- JSX rendering, Tailwind classes, the `taskColors` map and the border-colour conditional (app/page.tsx:26-41, 86-121). They are presentation only and state no invariant.
- `format(...)` date strings (app/page.tsx:39, 102). These are human-readable formatting by a library call. Only the displayed range, `weekStart` to `weekStart + 6`, is modelled (`WeekView.LastShownDay`, `WeekView.Render`).
- The internals of the date library, the time of day of a JavaScript `Date`, local time zones and daylight-saving shifts. Dates are integer day numbers, and `startOfWeek`/`addDays` are the integer stand-ins described above.
- `new Date()` (the wall clock) and React's `useState`. Today is a parameter, and the state is a plain integer updated by `Navigation.Step`.
- Calendar.MakeDate: non-integer and out-of-range (NaN, infinite) constructor arguments are not modelled; every argument is an integer.
- Navigation.Step: a JavaScript date is valid only within 8.64e15 milliseconds of 1 January 1970, that is 10^8 days either way (TimeClip, section 21.4.1 of the ECMAScript language specification). Past that bound `addDays` returns an Invalid Date, the header's `format` call (app/page.tsx:102) throws a RangeError on it, and the view fails to render. The model's day numbers are unbounded, so `Step` always moves by seven days.
- Navigation.StepRoundTrip, Navigation.RunMovesByNetWeeks, Navigation.EveryReachableWeekIsRun, Navigation.WeekIndex: these hold for the unbounded day numbers. In the program they hold only while every week start visited stays within the date range above.
