/**
 * The dashboard's only state, the first day of the selected week, and the
 * two buttons that move it.
 */
module Navigation {
  import opened Calendar
  import opened Tasks
  import opened WeekView

  datatype Command = PreviousWeek | NextWeek

  /** Net number of weeks a command moves forward. */
  function Weeks(c: Command): int {
    match c
    case PreviousWeek => -1
    case NextWeek => 1
  }

  /** The week selected when the dashboard opens on day `today`. */
  function Init(today: int): (weekStart: int)
    ensures IsMonday(weekStart)
    ensures InWeek(today, weekStart)
  {
    StartOfWeek(today)
  }

  /** One button press: a whole week back or forward, and nothing else. */
  function Step(weekStart: int, c: Command): (r: int)
    ensures c == NextWeek ==> r == weekStart + 7
    ensures c == PreviousWeek ==> r == weekStart - 7
    ensures IsMonday(r) <==> IsMonday(weekStart)
  {
    AddDays(weekStart, 7 * Weeks(c))
  }

  /** Next then previous, or previous then next, returns to the same week. */
  lemma StepRoundTrip(weekStart: int)
    ensures Step(Step(weekStart, NextWeek), PreviousWeek) == weekStart
    ensures Step(Step(weekStart, PreviousWeek), NextWeek) == weekStart
  {
  }

  /** The week selected after pressing the buttons `cs` in order, starting at `weekStart`. */
  function Run(weekStart: int, cs: seq<Command>): int
    decreases |cs|
  {
    if cs == [] then weekStart else Run(Step(weekStart, cs[0]), cs[1..])
  }

  /** Next presses minus previous presses. */
  function NetWeeks(cs: seq<Command>): int
    decreases |cs|
  {
    if cs == [] then 0 else Weeks(cs[0]) + NetWeeks(cs[1..])
  }

  /** The `k`-th week after the one starting at `origin` (before it when `k` < 0). */
  function ReachableWeek(origin: int, k: int): int {
    origin + 7 * k
  }

  /** After any presses the selected week is `origin` moved by seven days per net "next". */
  lemma {:induction false} RunMovesByNetWeeks(origin: int, cs: seq<Command>)
    ensures Run(origin, cs) == ReachableWeek(origin, NetWeeks(cs))
    decreases |cs|
  {
    if cs != [] {
      RunMovesByNetWeeks(Step(origin, cs[0]), cs[1..]);
    }
  }

  /** Any sequence of presses keeps the selected week starting on a Monday. */
  lemma RunKeepsMonday(today: int, cs: seq<Command>)
    ensures IsMonday(Run(Init(today), cs))
  {
    RunMovesByNetWeeks(Init(today), cs);
  }

  /** Every week reachable from `origin` is reached by some sequence of presses. */
  lemma {:induction false} EveryReachableWeekIsRun(origin: int, k: int)
    ensures exists cs :: Run(origin, cs) == ReachableWeek(origin, k)
    decreases if k < 0 then -k else k
  {
    if k == 0 {
      assert Run(origin, []) == origin;
    } else if k > 0 {
      EveryReachableWeekIsRun(origin + 7, k - 1);
      var cs :| Run(origin + 7, cs) == ReachableWeek(origin + 7, k - 1);
      assert ([NextWeek] + cs)[1..] == cs;
      assert Run(origin, [NextWeek] + cs) == ReachableWeek(origin, k);
    } else {
      EveryReachableWeekIsRun(origin - 7, k + 1);
      var cs :| Run(origin - 7, cs) == ReachableWeek(origin - 7, k + 1);
      assert ([PreviousWeek] + cs)[1..] == cs;
      assert Run(origin, [PreviousWeek] + cs) == ReachableWeek(origin, k);
    }
  }

  /** The index of the reachable week from `origin` that contains day `d`. */
  function WeekIndex(origin: int, d: int): (k: int)
    ensures InWeek(d, ReachableWeek(origin, k))
    ensures forall j :: InWeek(d, ReachableWeek(origin, j)) ==> j == k
  {
    (d - origin) / 7
  }

  /**
   * The weeks reachable from `origin` tile the days: each day lies in
   * exactly one of them, so each task of the store is listed in exactly
   * one reachable week and in no other.
   */
  lemma TaskInExactlyOneWeek(store: seq<Task>, origin: int, t: Task)
    requires t in store
    ensures t in CurrentWeekTasks(store, ReachableWeek(origin, WeekIndex(origin, t.dueDate)))
    ensures forall j :: t in CurrentWeekTasks(store, ReachableWeek(origin, j)) ==> j == WeekIndex(origin, t.dueDate)
  {
  }
}
