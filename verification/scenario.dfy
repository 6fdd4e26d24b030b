/**
 * The seed store seen from the week of Monday 10 March 2025, the week
 * after it, and the weeks two before and two after it.
 */
module Scenario {
  import opened Calendar
  import opened Seqs
  import opened Tasks
  import opened WeekView
  import opened Navigation

  /** Monday 10 March 2025. */
  const BaseWeek: int := 20153

  lemma BaseWeekIsMonday10March2025()
    ensures BaseWeek == MakeDate(2025, 2, 10) && IsMonday(BaseWeek)
  {
    DaysOfMarch2025(10);
  }

  /** Opened on any day from Monday 10 to Sunday 16 March 2025, the dashboard selects the base week. */
  lemma BaseWeekIsOpeningWeek(today: int)
    requires BaseWeek <= today < BaseWeek + 7
    ensures Init(today) == BaseWeek
  {
  }

  predicate TaskIs(t: Task, id: int, kind: TaskType, dueDate: int) {
    t.id == id && t.kind == kind && t.dueDate == dueDate
  }

  /**
   * The shape of the seed store the scenario depends on: ids 1 to 7 in
   * order, their categories, and one task due on each day from Friday
   * 14 to Thursday 20 March 2025.
   */
  predicate SeedLayout(s: seq<Task>) {
    && |s| == 7
    && TaskIs(s[0], 1, Teamwork, BaseWeek + 4)
    && TaskIs(s[1], 2, Exam, BaseWeek + 5)
    && TaskIs(s[2], 3, Assessment, BaseWeek + 6)
    && TaskIs(s[3], 4, Teamwork, BaseWeek + 7)
    && TaskIs(s[4], 5, Exam, BaseWeek + 8)
    && TaskIs(s[5], 6, Assessment, BaseWeek + 9)
    && TaskIs(s[6], 7, Teamwork, BaseWeek + 10)
  }

  /** The seed store is laid out as the scenario assumes. */
  lemma SeedHasLayout()
    ensures SeedLayout(Seed())
  {
    SeedDueDates();
  }

  /** A store laid out like the seed: the base week holds its first three tasks. */
  lemma LayoutBaseWeekTasks(s: seq<Task>)
    requires SeedLayout(s)
    ensures CurrentWeekTasks(s, BaseWeek) == s[..3]
  {
    var p := DueIn(BaseWeek);
    var inside, after := s[..3], s[3..];
    assert s == inside + after;
    assert inside == [s[0], s[1], s[2]];
    assert after == [s[3], s[4], s[5], s[6]];
    FilterAll(inside, p);
    FilterNone(after, p);
    FilterAppend(inside, after, p);
  }

  /** A store laid out like the seed: the week after holds its last four tasks. */
  lemma LayoutNextWeekTasks(s: seq<Task>)
    requires SeedLayout(s)
    ensures CurrentWeekTasks(s, BaseWeek + 7) == s[3..]
  {
    var p := DueIn(BaseWeek + 7);
    var before, inside := s[..3], s[3..];
    assert s == before + inside;
    assert before == [s[0], s[1], s[2]];
    assert inside == [s[3], s[4], s[5], s[6]];
    FilterNone(before, p);
    FilterAll(inside, p);
    FilterAppend(before, inside, p);
  }

  /** A store laid out like the seed: two weeks before or after the base week hold nothing. */
  lemma LayoutTwoWeeksAway(s: seq<Task>)
    requires SeedLayout(s)
    ensures CurrentWeekTasks(s, BaseWeek - 14) == []
    ensures CurrentWeekTasks(s, BaseWeek + 14) == []
  {
    FilterNone(s, DueIn(BaseWeek - 14));
    FilterNone(s, DueIn(BaseWeek + 14));
  }

  /** One category filter over three tasks, decided task by task. */
  lemma FilterThree(a: Task, b: Task, c: Task, k: TaskType)
    ensures Filter([a, b, c], OfKind(k))
            == (if a.kind == k then [a] else []) + (if b.kind == k then [b] else []) + (if c.kind == k then [c] else [])
  {
    var p := OfKind(k);
    assert [a, b, c] == [a] + ([b] + ([c] + []));
    FilterCons(c, [], p);
    FilterCons(b, [c] + [], p);
    FilterCons(a, [b] + ([c] + []), p);
  }

  /** One category filter over four tasks, decided task by task. */
  lemma FilterFour(a: Task, b: Task, c: Task, d: Task, k: TaskType)
    ensures Filter([a, b, c, d], OfKind(k))
            == (if a.kind == k then [a] else []) + Filter([b, c, d], OfKind(k))
  {
    assert [a, b, c, d] == [a] + [b, c, d];
    FilterCons(a, [b, c, d], OfKind(k));
  }

  /** The category lists of the base week, one task each. */
  lemma LayoutBaseWeekColumns(s: seq<Task>)
    requires SeedLayout(s)
    ensures OfType(s[..3], Teamwork) == [s[0]]
    ensures OfType(s[..3], Exam) == [s[1]]
    ensures OfType(s[..3], Assessment) == [s[2]]
  {
    assert s[..3] == [s[0], s[1], s[2]];
    FilterThree(s[0], s[1], s[2], Teamwork);
    FilterThree(s[0], s[1], s[2], Exam);
    FilterThree(s[0], s[1], s[2], Assessment);
  }

  /** The teamwork list of the week after: its first and last tasks. */
  lemma LayoutNextWeekTeamwork(s: seq<Task>)
    requires SeedLayout(s)
    ensures Filter(s[3..], OfKind(Teamwork)) == [s[3], s[6]]
  {
    assert s[3..] == [s[3], s[4], s[5], s[6]];
    FilterFour(s[3], s[4], s[5], s[6], Teamwork);
    FilterThree(s[4], s[5], s[6], Teamwork);
  }

  /** The exam list of the week after: its second task. */
  lemma LayoutNextWeekExams(s: seq<Task>)
    requires SeedLayout(s)
    ensures Filter(s[3..], OfKind(Exam)) == [s[4]]
  {
    assert s[3..] == [s[3], s[4], s[5], s[6]];
    FilterFour(s[3], s[4], s[5], s[6], Exam);
    FilterThree(s[4], s[5], s[6], Exam);
  }

  /** The assessment list of the week after: its third task. */
  lemma LayoutNextWeekAssessments(s: seq<Task>)
    requires SeedLayout(s)
    ensures Filter(s[3..], OfKind(Assessment)) == [s[5]]
  {
    assert s[3..] == [s[3], s[4], s[5], s[6]];
    FilterFour(s[3], s[4], s[5], s[6], Assessment);
    FilterThree(s[4], s[5], s[6], Assessment);
  }

  /** The ids of the parts of a store laid out like the seed. */
  lemma IdsOfSlices(s: seq<Task>)
    requires SeedLayout(s)
    ensures Ids(s[..3]) == [1, 2, 3]
    ensures Ids(s[3..]) == [4, 5, 6, 7]
    ensures Ids([s[0]]) == [1] && Ids([s[1]]) == [2] && Ids([s[2]]) == [3]
    ensures Ids([s[3], s[6]]) == [4, 7] && Ids([s[4]]) == [5] && Ids([s[5]]) == [6]
  {
  }

  /** A store laid out like the seed, seen from the base week. */
  lemma LayoutBaseWeek(s: seq<Task>)
    requires SeedLayout(s)
    ensures Ids(CurrentWeekTasks(s, BaseWeek)) == [1, 2, 3]
    ensures Ids(OfType(CurrentWeekTasks(s, BaseWeek), Teamwork)) == [1]
    ensures Ids(OfType(CurrentWeekTasks(s, BaseWeek), Exam)) == [2]
    ensures Ids(OfType(CurrentWeekTasks(s, BaseWeek), Assessment)) == [3]
  {
    LayoutBaseWeekTasks(s);
    LayoutBaseWeekColumns(s);
    IdsOfSlices(s);
  }

  /** A store laid out like the seed, seen from the week after the base week. */
  lemma LayoutNextWeek(s: seq<Task>)
    requires SeedLayout(s)
    ensures Ids(CurrentWeekTasks(s, BaseWeek + 7)) == [4, 5, 6, 7]
    ensures Ids(OfType(CurrentWeekTasks(s, BaseWeek + 7), Teamwork)) == [4, 7]
    ensures Ids(OfType(CurrentWeekTasks(s, BaseWeek + 7), Exam)) == [5]
    ensures Ids(OfType(CurrentWeekTasks(s, BaseWeek + 7), Assessment)) == [6]
  {
    LayoutNextWeekTasks(s);
    LayoutNextWeekTeamwork(s);
    LayoutNextWeekExams(s);
    LayoutNextWeekAssessments(s);
    IdsOfSlices(s);
  }

  /** A store laid out like the seed: the rendered columns of the base week. */
  lemma LayoutBaseWeekRendered(s: seq<Task>)
    requires SeedLayout(s)
    ensures Ids(Render(s, BaseWeek).columns.Column(Teamwork)) == [1]
    ensures Ids(Render(s, BaseWeek).columns.Column(Exam)) == [2]
    ensures Ids(Render(s, BaseWeek).columns.Column(Assessment)) == [3]
  {
    LayoutBaseWeek(s);
    RenderColumn(s, BaseWeek, Teamwork);
    RenderColumn(s, BaseWeek, Exam);
    RenderColumn(s, BaseWeek, Assessment);
  }

  /** A store laid out like the seed: the rendered columns of the week after the base week. */
  lemma LayoutNextWeekRendered(s: seq<Task>)
    requires SeedLayout(s)
    ensures Ids(Render(s, BaseWeek + 7).columns.Column(Teamwork)) == [4, 7]
    ensures Ids(Render(s, BaseWeek + 7).columns.Column(Exam)) == [5]
    ensures Ids(Render(s, BaseWeek + 7).columns.Column(Assessment)) == [6]
  {
    LayoutNextWeek(s);
    RenderColumn(s, BaseWeek + 7, Teamwork);
    RenderColumn(s, BaseWeek + 7, Exam);
    RenderColumn(s, BaseWeek + 7, Assessment);
  }

  /** The week of 10 March shows tasks 1, 2 and 3, one in each column. */
  lemma SeedBaseWeek()
    ensures Ids(CurrentWeekTasks(Seed(), BaseWeek)) == [1, 2, 3]
    ensures Ids(OfType(CurrentWeekTasks(Seed(), BaseWeek), Teamwork)) == [1]
    ensures Ids(OfType(CurrentWeekTasks(Seed(), BaseWeek), Exam)) == [2]
    ensures Ids(OfType(CurrentWeekTasks(Seed(), BaseWeek), Assessment)) == [3]
    ensures Ids(Render(Seed(), BaseWeek).columns.Column(Teamwork)) == [1]
    ensures Ids(Render(Seed(), BaseWeek).columns.Column(Exam)) == [2]
    ensures Ids(Render(Seed(), BaseWeek).columns.Column(Assessment)) == [3]
  {
    SeedHasLayout();
    LayoutBaseWeek(Seed());
    LayoutBaseWeekRendered(Seed());
  }

  /** One "next" from there shows tasks 4 to 7: teamwork [4, 7], exams [5], assessments [6]. */
  lemma SeedNextWeek()
    ensures Ids(CurrentWeekTasks(Seed(), Step(BaseWeek, NextWeek))) == [4, 5, 6, 7]
    ensures Ids(OfType(CurrentWeekTasks(Seed(), Step(BaseWeek, NextWeek)), Teamwork)) == [4, 7]
    ensures Ids(OfType(CurrentWeekTasks(Seed(), Step(BaseWeek, NextWeek)), Exam)) == [5]
    ensures Ids(OfType(CurrentWeekTasks(Seed(), Step(BaseWeek, NextWeek)), Assessment)) == [6]
    ensures Ids(Render(Seed(), Step(BaseWeek, NextWeek)).columns.Column(Teamwork)) == [4, 7]
    ensures Ids(Render(Seed(), Step(BaseWeek, NextWeek)).columns.Column(Exam)) == [5]
    ensures Ids(Render(Seed(), Step(BaseWeek, NextWeek)).columns.Column(Assessment)) == [6]
  {
    SeedHasLayout();
    assert Step(BaseWeek, NextWeek) == BaseWeek + 7;
    LayoutNextWeek(Seed());
    LayoutNextWeekRendered(Seed());
  }

  /** Two weeks before or after the week of 10 March, every column shows "No tasks this week". */
  lemma SeedTwoWeeksAway()
    ensures forall k :: Body(Render(Seed(), Run(BaseWeek, [PreviousWeek, PreviousWeek])).columns.Column(k)) == NoTasksThisWeek
    ensures forall k :: Body(Render(Seed(), Run(BaseWeek, [NextWeek, NextWeek])).columns.Column(k)) == NoTasksThisWeek
  {
    SeedHasLayout();
    LayoutTwoWeeksAway(Seed());
    assert Run(BaseWeek, [PreviousWeek, PreviousWeek]) == BaseWeek - 14;
    assert Run(BaseWeek, [NextWeek, NextWeek]) == BaseWeek + 14;
  }

  /** The seed's ids are 1 to 7 in store order. */
  lemma SeedIds()
    ensures Ids(Seed()) == [1, 2, 3, 4, 5, 6, 7]
  {
  }
}
