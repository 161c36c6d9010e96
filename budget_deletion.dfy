/**
 * The bulk-deletion workflow of the budget widget: the table hands over the
 * selected identifiers, the widget asks the budget service to remove them,
 * and, when that settles, refreshes two cached queries and notifies the user.
 * The effects are recorded, in the order they are issued, in a log.
 */
module BudgetDeletion {
  import opened BudgetRecords

  /** The two cached queries the widget refreshes after a deletion. */
  datatype QueryKey = BudgetQuery | PartialCategoriesQuery

  /** The notification variants the widget uses. */
  datatype Variant = Success | Error

  /** How the budget service's remove call settled. */
  datatype RemoveOutcome = Removed | Rejected

  /** An observable effect of the widget on its collaborators. */
  datatype Effect =
    | Remove(ids: seq<RecordId>)
    | Refetch(key: QueryKey)
    | Notify(message: string, variant: Variant)

  const SuccessMessage: string := "Element został usunięty"
  const ErrorMessage: string := "Wystąpił nieoczekiwany błąd"

  const SuccessNotice: Effect := Notify(SuccessMessage, Success)
  const ErrorNotice: Effect := Notify(ErrorMessage, Error)

  /** One call of deleteRecords together with how its remove call settled. */
  datatype Deletion = Deletion(ids: seq<RecordId>, outcome: RemoveOutcome)

  /**
   * The effects of one deletion, in the order the widget issues them: the
   * remove call with the ids unchanged comes first, the notification last,
   * and caches are refreshed exactly when the remove call succeeded.
   */
  function DeletionEffects(d: Deletion): (r: seq<Effect>)
    ensures |r| >= 2 && r[0] == Remove(d.ids)
    ensures r[|r| - 1] == if d.outcome == Removed then SuccessNotice else ErrorNotice
    ensures Refetch(BudgetQuery) in r <==> d.outcome == Removed
    ensures Refetch(PartialCategoriesQuery) in r <==> d.outcome == Removed
    ensures forall i :: 0 < i < |r| ==> !r[i].Remove?
  {
    [Remove(d.ids)]
      + match d.outcome
        case Removed => [Refetch(BudgetQuery), Refetch(PartialCategoriesQuery), SuccessNotice]
        case Rejected => [ErrorNotice]
  }

  /** The effects of a sequence of deletions, each settled before the next starts. */
  function Log(history: seq<Deletion>): seq<Effect>
  {
    if history == [] then []
    else Log(history[..|history| - 1]) + DeletionEffects(history[|history| - 1])
  }

  /** Number of deletions whose remove call succeeded. */
  function Successes(history: seq<Deletion>): nat
  {
    if history == [] then 0
    else Successes(history[..|history| - 1]) + (if history[|history| - 1].outcome == Removed then 1 else 0)
  }

  /**
   * The ordering guarantee: a success notification is never shown before
   * both caches have been refreshed, the budget collection first.
   */
  ghost predicate NoticeFollowsRefetches(log: seq<Effect>)
  {
    forall i :: 0 <= i < |log| && log[i] == SuccessNotice ==>
      2 <= i && log[i - 2] == Refetch(BudgetQuery) && log[i - 1] == Refetch(PartialCategoriesQuery)
  }

  /**
   * Caches are refreshed only on the way to a success notification: each
   * refresh of the budget collection is followed by that of the partial
   * categories and then by the success notification.
   */
  ghost predicate RefetchLeadsToNotice(log: seq<Effect>)
  {
    forall i :: 0 <= i < |log| && log[i] == Refetch(BudgetQuery) ==>
      i + 2 < |log| && log[i + 1] == Refetch(PartialCategoriesQuery) && log[i + 2] == SuccessNotice
  }

  /** Every remove call is immediately followed by a refresh or an error notification. */
  ghost predicate RemoveSettles(log: seq<Effect>)
  {
    forall i :: 0 <= i < |log| && log[i].Remove? ==>
      i + 1 < |log| && (log[i + 1] == Refetch(BudgetQuery) || log[i + 1] == ErrorNotice)
  }

  /**
   * Each refresh of the partial categories sits between the refresh of the
   * budget collection and the success notification.
   */
  ghost predicate PartialRefetchInSequence(log: seq<Effect>)
  {
    forall i :: 0 <= i < |log| && log[i] == Refetch(PartialCategoriesQuery) ==>
      1 <= i && i + 1 < |log| && log[i - 1] == Refetch(BudgetQuery) && log[i + 1] == SuccessNotice
  }

  /** Every error notification answers the remove call just before it. */
  ghost predicate ErrorFollowsRemove(log: seq<Effect>)
  {
    forall i :: 0 <= i < |log| && log[i] == ErrorNotice ==> 1 <= i && log[i - 1].Remove?
  }

  /** Every refresh of the budget collection answers the remove call just before it. */
  ghost predicate RefetchFollowsRemove(log: seq<Effect>)
  {
    forall i :: 0 <= i < |log| && log[i] == Refetch(BudgetQuery) ==> 1 <= i && log[i - 1].Remove?
  }

  ghost predicate WellOrdered(log: seq<Effect>)
  {
    && NoticeFollowsRefetches(log)
    && RefetchLeadsToNotice(log)
    && PartialRefetchInSequence(log)
    && RemoveSettles(log)
    && ErrorFollowsRemove(log)
    && RefetchFollowsRemove(log)
  }

  /** A successful deletion: remove the given ids, refresh both caches, then notify success. */
  lemma SuccessfulDeletion(ids: seq<RecordId>)
    ensures DeletionEffects(Deletion(ids, Removed))
         == [Remove(ids), Refetch(BudgetQuery), Refetch(PartialCategoriesQuery), Notify("Element został usunięty", Success)]
    ensures forall e :: e in DeletionEffects(Deletion(ids, Removed)) ==> e.Notify? ==> e.variant == Success
  {
  }

  /** A failed deletion: remove the given ids, then notify the error; no cache is refreshed. */
  lemma FailedDeletion(ids: seq<RecordId>)
    ensures DeletionEffects(Deletion(ids, Rejected))
         == [Remove(ids), Notify("Wystąpił nieoczekiwany błąd", Error)]
    ensures forall k :: Refetch(k) !in DeletionEffects(Deletion(ids, Rejected))
    ensures SuccessNotice !in DeletionEffects(Deletion(ids, Rejected))
  {
  }

  /** Deleting records 3 and 7 successfully refreshes each cache exactly once. */
  lemma DeleteThreeAndSeven()
    ensures var m := multiset(DeletionEffects(Deletion([3, 7], Removed)));
      m[Refetch(BudgetQuery)] == 1 && m[Refetch(PartialCategoriesQuery)] == 1 && m[SuccessNotice] == 1
    ensures DeletionEffects(Deletion([3, 7], Removed))[0] == Remove([3, 7])
  {
  }

  // Each ordering clause survives appending one deletion's effects.

  lemma NoticeFollowsRefetchesAppend(log: seq<Effect>, d: Deletion)
    requires NoticeFollowsRefetches(log)
    ensures NoticeFollowsRefetches(log + DeletionEffects(d))
  {
  }

  lemma RefetchLeadsToNoticeAppend(log: seq<Effect>, d: Deletion)
    requires RefetchLeadsToNotice(log)
    ensures RefetchLeadsToNotice(log + DeletionEffects(d))
  {
  }

  lemma PartialRefetchInSequenceAppend(log: seq<Effect>, d: Deletion)
    requires PartialRefetchInSequence(log)
    ensures PartialRefetchInSequence(log + DeletionEffects(d))
  {
  }

  lemma RemoveSettlesAppend(log: seq<Effect>, d: Deletion)
    requires RemoveSettles(log)
    ensures RemoveSettles(log + DeletionEffects(d))
  {
  }

  lemma ErrorFollowsRemoveAppend(log: seq<Effect>, d: Deletion)
    requires ErrorFollowsRemove(log)
    ensures ErrorFollowsRemove(log + DeletionEffects(d))
  {
  }

  lemma RefetchFollowsRemoveAppend(log: seq<Effect>, d: Deletion)
    requires RefetchFollowsRemove(log)
    ensures RefetchFollowsRemove(log + DeletionEffects(d))
  {
  }

  /**
   * Appending one deletion's effects to a well-ordered log keeps it well
   * ordered.
   */
  lemma WellOrderedAppend(log: seq<Effect>, d: Deletion)
    requires WellOrdered(log)
    ensures WellOrdered(log + DeletionEffects(d))
  {
    NoticeFollowsRefetchesAppend(log, d);
    RefetchLeadsToNoticeAppend(log, d);
    PartialRefetchInSequenceAppend(log, d);
    RemoveSettlesAppend(log, d);
    ErrorFollowsRemoveAppend(log, d);
    RefetchFollowsRemoveAppend(log, d);
  }

  /** Every log of settled deletions is well ordered. */
  lemma {:induction false} LogWellOrdered(history: seq<Deletion>)
    ensures WellOrdered(Log(history))
  {
    if history != [] {
      LogWellOrdered(history[..|history| - 1]);
      WellOrderedAppend(Log(history[..|history| - 1]), history[|history| - 1]);
    }
  }

  /** The effects of one deletion, counted. */
  lemma DeletionCounts(d: Deletion)
    ensures var m, n := multiset(DeletionEffects(d)), if d.outcome == Removed then 1 else 0;
      && m[Refetch(BudgetQuery)] == n
      && m[Refetch(PartialCategoriesQuery)] == n
      && m[SuccessNotice] == n
      && m[ErrorNotice] == 1 - n
    ensures |DeletionEffects(d)| == 2 + 2 * (if d.outcome == Removed then 1 else 0)
  {
  }

  /**
   * Counting over any sequence of settled deletions: each cache refreshed
   * once per successful deletion, one success notification per success and
   * one error notification per failure.
   */
  lemma {:induction false} LogCounts(history: seq<Deletion>)
    ensures var m := multiset(Log(history));
      && m[Refetch(BudgetQuery)] == Successes(history)
      && m[Refetch(PartialCategoriesQuery)] == Successes(history)
      && m[SuccessNotice] == Successes(history)
      && m[ErrorNotice] == |history| - Successes(history)
    ensures |Log(history)| == 2 * |history| + 2 * Successes(history)
  {
    if history != [] {
      var init := history[..|history| - 1];
      LogCounts(init);
      DeletionCounts(history[|history| - 1]);
      assert multiset(Log(history)) == multiset(Log(init)) + multiset(DeletionEffects(history[|history| - 1]));
    }
  }

  /** The ids of the remove calls in a log, in the order they were issued. */
  function RemovedIds(log: seq<Effect>): seq<seq<RecordId>>
  {
    if log == [] then []
    else RemovedIds(log[..|log| - 1]) + (if log[|log| - 1].Remove? then [log[|log| - 1].ids] else [])
  }

  /** The ids handed to deleteRecords, one entry per deletion, in order. */
  function RequestedIds(history: seq<Deletion>): seq<seq<RecordId>>
  {
    if history == [] then [] else RequestedIds(history[..|history| - 1]) + [history[|history| - 1].ids]
  }

  lemma {:induction false} RemovedIdsAppend(a: seq<Effect>, b: seq<Effect>)
    ensures RemovedIds(a + b) == RemovedIds(a) + RemovedIds(b)
  {
    if b != [] {
      var init, last := b[..|b| - 1], b[|b| - 1];
      var tail := if last.Remove? then [last.ids] else [];
      RemovedIdsAppend(a, init);
      assert (a + b)[..|a + b| - 1] == a + init;
      assert RemovedIds(a + b) == RemovedIds(a + init) + tail;
      assert RemovedIds(b) == RemovedIds(init) + tail;
      assert RemovedIds(a) + RemovedIds(init) + tail == RemovedIds(a) + (RemovedIds(init) + tail);
    } else {
      assert a + b == a;
    }
  }

  /** One deletion issues one remove call, with its ids. */
  lemma RemovedIdsOfDeletion(d: Deletion)
    ensures RemovedIds(DeletionEffects(d)) == [d.ids]
  {
    var r := [Remove(d.ids)];
    assert RemovedIds(r) == [d.ids] by {
      assert r[..0] == [];
    }
    match d.outcome {
      case Removed =>
        RemovedIdsSnoc(r, Refetch(BudgetQuery));
        RemovedIdsSnoc(r + [Refetch(BudgetQuery)], Refetch(PartialCategoriesQuery));
        RemovedIdsSnoc(r + [Refetch(BudgetQuery)] + [Refetch(PartialCategoriesQuery)], SuccessNotice);
        assert DeletionEffects(d) == r + [Refetch(BudgetQuery)] + [Refetch(PartialCategoriesQuery)] + [SuccessNotice];
      case Rejected =>
        RemovedIdsSnoc(r, ErrorNotice);
        assert DeletionEffects(d) == r + [ErrorNotice];
    }
  }

  /** An effect other than a remove call adds no ids. */
  lemma RemovedIdsSnoc(log: seq<Effect>, x: Effect)
    requires !x.Remove?
    ensures RemovedIds(log + [x]) == RemovedIds(log)
  {
    assert (log + [x])[..|log|] == log;
  }

  /**
   * One remove call per deletion, in the order of the deletions, each with
   * the ids that deletion was given, unchanged.
   */
  lemma {:induction false} LogRemovals(history: seq<Deletion>)
    ensures RemovedIds(Log(history)) == RequestedIds(history)
  {
    if history != [] {
      var init, last := history[..|history| - 1], history[|history| - 1];
      LogRemovals(init);
      RemovedIdsAppend(Log(init), DeletionEffects(last));
      RemovedIdsOfDeletion(last);
    }
  }

  /** The widget's deletion side, with the effects it has issued so far. */
  class BudgetTableWidget {
    /** The effects issued so far, in order. */
    ghost var effects: seq<Effect>
    /** The deletions made so far, each with how its remove call settled. */
    ghost var history: seq<Deletion>

    ghost predicate Valid()
      reads this
    {
      effects == Log(history)
    }

    constructor ()
      ensures Valid() && history == [] && effects == []
    {
      effects, history := [], [];
    }

    /**
     * The mutation function: forwards the ids, unchanged, to the budget service.
     * A step of DeleteRecords: it extends the effect log without recording a
     * deletion in the history, so it breaks Valid() until DeleteRecords does.
     */
    method RemoveRecords(ids: seq<RecordId>)
      modifies this`effects
      ensures effects == old(effects) + [Remove(ids)]
    {
      effects := effects + [Remove(ids)];
    }

    /**
     * Asks the query cache to refetch one query.
     * A step of DeleteRecords: it extends the effect log without recording a
     * deletion in the history, so it breaks Valid() until DeleteRecords does.
     */
    method RefetchQueries(key: QueryKey)
      modifies this`effects
      ensures effects == old(effects) + [Refetch(key)]
    {
      effects := effects + [Refetch(key)];
    }

    /**
     * Shows a transient notification.
     * A step of DeleteRecords: it extends the effect log without recording a
     * deletion in the history, so it breaks Valid() until DeleteRecords does.
     */
    method EnqueueSnackbar(message: string, variant: Variant)
      modifies this`effects
      ensures effects == old(effects) + [Notify(message, variant)]
    {
      effects := effects + [Notify(message, variant)];
    }

    /**
     * After a successful remove: refresh both caches, in order, then notify success.
     * A step of DeleteRecords: it extends the effect log without recording a
     * deletion in the history, so it breaks Valid() until DeleteRecords does.
     */
    method OnSuccess()
      modifies this`effects
      ensures effects == old(effects) + [Refetch(BudgetQuery), Refetch(PartialCategoriesQuery), SuccessNotice]
    {
      RefetchQueries(BudgetQuery);
      RefetchQueries(PartialCategoriesQuery);
      EnqueueSnackbar(SuccessMessage, Success);
    }

    /**
     * After a failed remove: notify the error, nothing else.
     * A step of DeleteRecords: it extends the effect log without recording a
     * deletion in the history, so it breaks Valid() until DeleteRecords does.
     */
    method OnError()
      modifies this`effects
      ensures effects == old(effects) + [ErrorNotice]
    {
      EnqueueSnackbar(ErrorMessage, Error);
    }

    /**
     * The table's bulk-delete callback. The remove call's outcome, decided by
     * the budget service, is a parameter.
     */
    method DeleteRecords(ids: seq<RecordId>, outcome: RemoveOutcome)
      requires Valid()
      modifies this
      ensures Valid()
      ensures history == old(history) + [Deletion(ids, outcome)]
      ensures effects == old(effects) + DeletionEffects(Deletion(ids, outcome))
      ensures WellOrdered(effects)
    {
      RemoveRecords(ids);
      match outcome {
        case Removed => OnSuccess();
        case Rejected => OnError();
      }
      history := history + [Deletion(ids, outcome)];
      assert history[..|history| - 1] == old(history);
      LogWellOrdered(history);
    }
  }
}
