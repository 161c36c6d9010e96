/**
 * The "Status" column of the budget table: a three-way classification of a
 * budget line from its planned amount and its actual spending.
 */
module BudgetStatus {
  import opened Wrappers
  import opened BudgetRecords

  datatype Status = Exhausted | Overrun | OnTrack

  /** The label the table shows for each status. */
  function Label(s: Status): (r: string)
    ensures r in {"Wykorzystany", "Przekroczone", "W normie"}
  {
    match s
    case Exhausted => "Wykorzystany"
    case Overrun => "Przekroczone"
    case OnTrack => "W normie"
  }

  /**
   * The status rule, in the order the cell renderer tests it: equality first,
   * then "more than planned", then "less than planned". The final `None` is
   * the renderer falling off its last `if` (JavaScript's `undefined`); the
   * postcondition says that this never happens for integer amounts.
   */
  function Classify(currentSpending: int, amountInCents: int): (r: Option<Status>)
    ensures r.Some?
  {
    if currentSpending == amountInCents then Some(Exhausted)
    else if currentSpending > amountInCents then Some(Overrun)
    else if currentSpending < amountInCents then Some(OnTrack)
    else None
  }

  /** What a status asserts about the actual and the planned amount. */
  predicate Describes(s: Status, currentSpending: int, amountInCents: int)
  {
    match s
    case Exhausted => currentSpending == amountInCents
    case Overrun => currentSpending > amountInCents
    case OnTrack => currentSpending < amountInCents
  }

  /** The content of a row's status cell: its label, or nothing on fall-through. */
  function StatusCell(row: BudgetRecord): (r: Option<string>)
    ensures r.Some?
    ensures r.value == "Wykorzystany" <==> row.currentSpending == row.amountInCents
    ensures r.value == "Przekroczone" <==> row.currentSpending > row.amountInCents
    ensures r.value == "W normie" <==> row.currentSpending < row.amountInCents
  {
    match Classify(row.currentSpending, row.amountInCents)
    case Some(s) => Some(Label(s))
    case None => None
  }

  /** Equal planned and actual amounts are reported as exhausted, and only they. */
  lemma ExhaustedIffEqual(currentSpending: int, amountInCents: int)
    ensures Classify(currentSpending, amountInCents) == Some(Exhausted)
        <==> currentSpending == amountInCents
  {
  }

  /** Spending above plan is reported as overrun, and only then. */
  lemma OverrunIffAbove(currentSpending: int, amountInCents: int)
    ensures Classify(currentSpending, amountInCents) == Some(Overrun)
        <==> currentSpending > amountInCents
  {
  }

  /** Spending below plan is reported as on track, and only then. */
  lemma OnTrackIffBelow(currentSpending: int, amountInCents: int)
    ensures Classify(currentSpending, amountInCents) == Some(OnTrack)
        <==> currentSpending < amountInCents
  {
  }

  /**
   * Exhaustive and mutually exclusive: for every pair of amounts exactly one
   * status describes it, and that status is the one the rule produces.
   */
  lemma ExactlyOneStatus(currentSpending: int, amountInCents: int)
    ensures forall s: Status ::
      (Describes(s, currentSpending, amountInCents)
       <==> Classify(currentSpending, amountInCents) == Some(s))
    ensures forall s: Status, t: Status ::
      Describes(s, currentSpending, amountInCents) && Describes(t, currentSpending, amountInCents) ==> s == t
  {
  }

  /** The three labels are distinct, so the label determines the status. */
  lemma LabelInjective(s: Status, t: Status)
    ensures Label(s) == Label(t) <==> s == t
  {
  }

  /**
   * The status column of the table: one status per row, in row order, each
   * the one the rule gives for that row.
   */
  function StatusColumn(rows: seq<BudgetRecord>): (r: seq<Status>)
    ensures |r| == |rows|
    ensures forall i :: 0 <= i < |rows| ==>
      Classify(rows[i].currentSpending, rows[i].amountInCents) == Some(r[i])
  {
    if rows == [] then []
    else
      var last := rows[|rows| - 1];
      StatusColumn(rows[..|rows| - 1]) + [Classify(last.currentSpending, last.amountInCents).value]
  }

  /** Number of rows that a status describes. */
  function RowsDescribed(rows: seq<BudgetRecord>, s: Status): nat
  {
    if rows == [] then 0
    else
      var last := rows[|rows| - 1];
      RowsDescribed(rows[..|rows| - 1], s) + (if Describes(s, last.currentSpending, last.amountInCents) then 1 else 0)
  }

  /**
   * Over a whole table, each status is shown exactly as often as there are
   * rows whose amounts it describes.
   */
  lemma {:induction false} StatusTally(rows: seq<BudgetRecord>, s: Status)
    ensures multiset(StatusColumn(rows))[s] == RowsDescribed(rows, s)
  {
    if rows != [] {
      var init, last := rows[..|rows| - 1], rows[|rows| - 1];
      var t := Classify(last.currentSpending, last.amountInCents).value;
      StatusTally(init, s);
      assert StatusColumn(rows) == StatusColumn(init) + [t];
      assert multiset(StatusColumn(rows)) == multiset(StatusColumn(init)) + multiset{t};
      ExactlyOneStatus(last.currentSpending, last.amountInCents);
    }
  }

  /** The three statuses together account for every row of the table. */
  lemma {:induction false} StatusesCoverRows(rows: seq<BudgetRecord>)
    ensures RowsDescribed(rows, Exhausted) + RowsDescribed(rows, Overrun) + RowsDescribed(rows, OnTrack) == |rows|
  {
    if rows != [] {
      StatusesCoverRows(rows[..|rows| - 1]);
    }
  }

  /** A three-row table with equal, higher and lower spending, in that order. */
  lemma StatusColumnExample()
    ensures StatusColumn([
      BudgetRecord(1, None, 5000, 5000, 0),
      BudgetRecord(2, None, 5000, 6000, 0),
      BudgetRecord(3, None, 5000, 4000, 0)]) == [Exhausted, Overrun, OnTrack]
  {
  }
}
