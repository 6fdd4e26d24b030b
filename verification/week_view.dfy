/**
 * What the dashboard derives from the selected week: the tasks due in it,
 * split into one column per category, and what each column shows.
 */
module WeekView {
  import opened Calendar
  import opened Seqs
  import opened Tasks

  /** Day `d` lies in the week starting at `weekStart`: a half-open window of seven days. */
  predicate InWeek(d: int, weekStart: int) {
    weekStart <= d < AddDays(weekStart, 7)
  }

  /** The last day shown in the header for the week starting at `weekStart`. */
  function LastShownDay(weekStart: int): (r: int)
    ensures InWeek(r, weekStart) && !InWeek(r + 1, weekStart)
  {
    AddDays(weekStart, 6)
  }

  /** The test the week filter applies to each task. */
  function DueIn(weekStart: int): Task -> bool {
    (t: Task) => InWeek(t.dueDate, weekStart)
  }

  /** The test a category filter applies to each task. */
  function OfKind(k: TaskType): Task -> bool {
    (t: Task) => t.kind == k
  }

  /** The tasks of `store` due in the week starting at `weekStart`, in store order. */
  function CurrentWeekTasks(store: seq<Task>, weekStart: int): (r: seq<Task>)
    ensures forall t :: t in r <==> t in store && InWeek(t.dueDate, weekStart)
    ensures IsSubsequence(r, store)
    ensures forall t :: multiset(r)[t] == if InWeek(t.dueDate, weekStart) then multiset(store)[t] else 0
  {
    FilterMembers(store, DueIn(weekStart));
    FilterIsSubsequence(store, DueIn(weekStart));
    FilterMultiset(store, DueIn(weekStart));
    Filter(store, DueIn(weekStart))
  }

  /** The tasks of `ts` of category `k`, in the order of `ts`. */
  function OfType(ts: seq<Task>, k: TaskType): (r: seq<Task>)
    ensures forall t :: t in r <==> t in ts && t.kind == k
    ensures IsSubsequence(r, ts)
    ensures forall t :: multiset(r)[t] == if t.kind == k then multiset(ts)[t] else 0
  {
    FilterMembers(ts, OfKind(k));
    FilterIsSubsequence(ts, OfKind(k));
    FilterMultiset(ts, OfKind(k));
    Filter(ts, OfKind(k))
  }

  /**
   * On a store listed in due-date order the week is one contiguous run:
   * with every task of `before` due earlier and every task of `after` due
   * later, the week's tasks are exactly `inside`.
   */
  lemma WeekOfSortedStore(before: seq<Task>, inside: seq<Task>, after: seq<Task>, weekStart: int)
    requires forall i :: 0 <= i < |before| ==> before[i].dueDate < weekStart
    requires forall i :: 0 <= i < |inside| ==> InWeek(inside[i].dueDate, weekStart)
    requires forall i :: 0 <= i < |after| ==> weekStart + 7 <= after[i].dueDate
    ensures CurrentWeekTasks(before + inside + after, weekStart) == inside
  {
    var p := DueIn(weekStart);
    FilterNone(before, p);
    FilterAll(inside, p);
    FilterNone(after, p);
    FilterAppend(before, inside, p);
    FilterAppend(before + inside, after, p);
  }

  /** A category filter over one task. */
  lemma OfTypeSingle(t: Task, k: TaskType)
    ensures OfType([t], k) == if t.kind == k then [t] else []
  {
    FilterCons(t, [], OfKind(k));
    assert [t] + [] == [t];
  }

  /** A category filter over a concatenation is the concatenation of the filters. */
  lemma OfTypeAppend(a: seq<Task>, b: seq<Task>, k: TaskType)
    ensures OfType(a + b, k) == OfType(a, k) + OfType(b, k)
  {
    FilterAppend(a, b, OfKind(k));
  }

  /** The three columns of the dashboard. */
  datatype Columns = Columns(assessments: seq<Task>, exams: seq<Task>, teamwork: seq<Task>)
  {
    /** The column of category `k`: every category has one, possibly empty. */
    function Column(k: TaskType): seq<Task> {
      match k
      case Assessment => assessments
      case Exam => exams
      case Teamwork => teamwork
    }
  }

  /** Every task of `ts` in exactly one of the three category lists, with multiplicity. */
  lemma TypesPartition(ts: seq<Task>)
    ensures multiset(OfType(ts, Assessment)) + multiset(OfType(ts, Exam)) + multiset(OfType(ts, Teamwork))
            == multiset(ts)
  {
    FilterMultiset(ts, OfKind(Assessment));
    FilterMultiset(ts, OfKind(Exam));
    FilterMultiset(ts, OfKind(Teamwork));
    var sum := multiset(OfType(ts, Assessment)) + multiset(OfType(ts, Exam)) + multiset(OfType(ts, Teamwork));
    forall t ensures sum[t] == multiset(ts)[t] {
    }
  }

  /**
   * Splits `ts` by category. Each column holds exactly the tasks of its
   * category in the order of `ts`; the columns share no task and together
   * hold all of `ts`.
   */
  function Group(ts: seq<Task>): (c: Columns)
    ensures forall k, t :: t in c.Column(k) <==> t in ts && t.kind == k
    ensures forall k :: IsSubsequence(c.Column(k), ts)
    ensures forall k1, k2, t :: k1 != k2 && t in c.Column(k1) ==> t !in c.Column(k2)
    ensures multiset(c.assessments) + multiset(c.exams) + multiset(c.teamwork) == multiset(ts)
    ensures |c.assessments| + |c.exams| + |c.teamwork| == |ts|
  {
    TypesPartition(ts);
    var c := Columns(OfType(ts, Assessment), OfType(ts, Exam), OfType(ts, Teamwork));
    assert |multiset(c.assessments) + multiset(c.exams) + multiset(c.teamwork)| == |multiset(ts)|;
    c
  }

  /** Filtering a store whose ids are unique leaves ids unique. */
  lemma {:induction false} FilterKeepsUniqueIds(ts: seq<Task>, p: Task -> bool)
    requires UniqueIds(ts)
    ensures UniqueIds(Filter(ts, p))
    decreases |ts|
  {
    if ts != [] {
      var tail := ts[1..];
      assert UniqueIds(tail) by {
        forall i, j | 0 <= i < j < |tail| ensures tail[i].id != tail[j].id {
          assert tail[i] == ts[i + 1] && tail[j] == ts[j + 1];
        }
      }
      FilterKeepsUniqueIds(tail, p);
      FilterMembers(tail, p);
      var rest := Filter(tail, p);
      if p(ts[0]) {
        var r := Filter(ts, p);
        assert r == [ts[0]] + rest;
        forall m | 0 <= m < |rest| ensures rest[m].id != ts[0].id {
          assert rest[m] in tail;
          var n :| 0 <= n < |tail| && tail[n] == rest[m];
          assert ts[n + 1] == tail[n];
        }
        forall i, j | 0 <= i < j < |r| ensures r[i].id != r[j].id {
          assert r[j] == rest[j - 1];
          if i > 0 {
            assert r[i] == rest[i - 1];
          }
        }
      } else {
        assert Filter(ts, p) == rest;
      }
    }
  }

  /** What a column shows below its header. */
  datatype ColumnBody = Cards(cards: seq<Task>) | NoTasksThisWeek

  /** A column lists one card per task, or the "No tasks this week" note when it has none. */
  function Body(tasks: seq<Task>): (b: ColumnBody)
    ensures b.NoTasksThisWeek? <==> tasks == []
    ensures b.Cards? ==> b.cards == tasks && |b.cards| > 0
  {
    if |tasks| > 0 then Cards(tasks) else NoTasksThisWeek
  }

  /**
   * The columns built from the week's tasks, stated against the store:
   * membership, store order and store multiplicity.
   */
  lemma GroupOfWeek(store: seq<Task>, weekStart: int)
    ensures forall k, t :: t in Group(CurrentWeekTasks(store, weekStart)).Column(k) <==>
              t in store && t.kind == k && weekStart <= t.dueDate <= AddDays(weekStart, 6)
    ensures forall k :: IsSubsequence(Group(CurrentWeekTasks(store, weekStart)).Column(k), CurrentWeekTasks(store, weekStart))
    ensures forall k, t :: multiset(Group(CurrentWeekTasks(store, weekStart)).Column(k))[t] ==
              if t.kind == k && InWeek(t.dueDate, weekStart) then multiset(store)[t] else 0
  {
    var week := CurrentWeekTasks(store, weekStart);
    var c := Group(week);
    forall k ensures c.Column(k) == OfType(week, k) {
    }
  }

  /** Everything the dashboard derives from the selected week. */
  datatype Dashboard = Dashboard(firstShownDay: int, lastShownDay: int, columns: Columns)

  /**
   * The dashboard for the week starting at `weekStart`: the header range
   * and the columns built from the tasks due that week.
   */
  function Render(store: seq<Task>, weekStart: int): (v: Dashboard)
    ensures v.firstShownDay == weekStart && v.lastShownDay - v.firstShownDay == 6
    ensures forall k, t :: t in v.columns.Column(k) <==>
              t in store && t.kind == k && v.firstShownDay <= t.dueDate <= v.lastShownDay
    ensures forall k :: IsSubsequence(v.columns.Column(k), CurrentWeekTasks(store, weekStart))
    ensures forall k, t :: multiset(v.columns.Column(k))[t] ==
              if t.kind == k && InWeek(t.dueDate, weekStart) then multiset(store)[t] else 0
  {
    var week := CurrentWeekTasks(store, weekStart);
    var c := Group(week);
    var last := LastShownDay(weekStart);
    GroupOfWeek(store, weekStart);
    Dashboard(weekStart, last, c)
  }

  /** The rendered column of category `k` is that category's list of the week's tasks. */
  lemma RenderColumn(store: seq<Task>, weekStart: int, k: TaskType)
    ensures Render(store, weekStart).columns.Column(k) == OfType(CurrentWeekTasks(store, weekStart), k)
  {
  }

  /** With a seed of unique ids, no column lists two cards with the same key. */
  lemma RenderKeepsUniqueIds(store: seq<Task>, weekStart: int)
    requires UniqueIds(store)
    ensures forall k :: UniqueIds(Render(store, weekStart).columns.Column(k))
  {
    var week := CurrentWeekTasks(store, weekStart);
    FilterKeepsUniqueIds(store, DueIn(weekStart));
    forall k ensures UniqueIds(Render(store, weekStart).columns.Column(k)) {
      FilterKeepsUniqueIds(week, OfKind(k));
    }
  }
}
