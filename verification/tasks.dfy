/**
 * The task records of the weekly dashboard and the fixed store it shows.
 */
module Tasks {
  import opened Calendar

  /** The closed set of task categories. */
  datatype TaskType = Assessment | Exam | Teamwork

  /** An immutable task; `dueDate` is a day number (see module Calendar). */
  datatype Task = Task(id: int, title: string, kind: TaskType, dueDate: int)

  /** No two tasks of `ts` share an id. */
  predicate UniqueIds(ts: seq<Task>) {
    forall i, j :: 0 <= i < j < |ts| ==> ts[i].id != ts[j].id
  }

  /** The ids of `ts`, in order. */
  function Ids(ts: seq<Task>): seq<int> {
    seq(|ts|, i requires 0 <= i < |ts| => ts[i].id)
  }

  /**
   * The seven seed tasks, built once and never changed; months are
   * zero-based as in the date constructor the store is written with, so
   * `MakeDate(2025, 2, 14)` is 14 March 2025.
   */
  function Seed(): (r: seq<Task>)
    ensures |r| == 7
    ensures UniqueIds(r)
  {
    [ Task(1, "Project Proposal", Teamwork, MakeDate(2025, 2, 14)),
      Task(2, "Midterm Exam", Exam, MakeDate(2025, 2, 15)),
      Task(3, "Essay Submission", Assessment, MakeDate(2025, 2, 16)),
      Task(4, "Group Presentation", Teamwork, MakeDate(2025, 2, 17)),
      Task(5, "Quiz", Exam, MakeDate(2025, 2, 18)),
      Task(6, "Lab Report", Assessment, MakeDate(2025, 2, 19)),
      Task(7, "Final Project Submission", Teamwork, MakeDate(2025, 2, 20)) ]
  }

  /** The days of March 2025 are consecutive day numbers; Monday the 10th is day 20153. */
  lemma DaysOfMarch2025(day: int)
    ensures MakeDate(2025, 2, day) == 20143 + day
  {
    assert DaysFromCivil(2025, 3, 1) == 20148;
  }

  /** The seed due dates are the consecutive days 14 to 20 March 2025. */
  lemma SeedDueDates()
    ensures forall i :: 0 <= i < 7 ==> Seed()[i].dueDate == 20157 + i
  {
    DaysOfMarch2025(14);
    DaysOfMarch2025(15);
    DaysOfMarch2025(16);
    DaysOfMarch2025(17);
    DaysOfMarch2025(18);
    DaysOfMarch2025(19);
    DaysOfMarch2025(20);
  }
}
