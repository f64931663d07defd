/** The call-status vocabulary (`src/types/callStatus.ts`): seven statuses,
    stored as lower-case strings, partitioned into active, completed and
    unsuccessful groups. */
module CallStatuses {
  import Wrappers

  datatype CallStatus = Initiated | Queued | InProgress | Ended | Completed | Failed | Canceled

  /** The string each enum member stands for in the database. */
  function Text(s: CallStatus): string {
    match s
    case Initiated => "initiated"
    case Queued => "queued"
    case InProgress => "in-progress"
    case Ended => "ended"
    case Completed => "completed"
    case Failed => "failed"
    case Canceled => "canceled"
  }

  const ActiveCallStatuses: seq<CallStatus> := [Initiated, Queued, InProgress]
  const CompletedCallStatuses: seq<CallStatus> := [Ended, Completed]
  const UnsuccessfulCallStatuses: seq<CallStatus> := [Failed, Canceled]

  /** The enum member a stored string names, if any. */
  function Parse(t: string): (r: Wrappers.Option<CallStatus>)
    ensures r.Some? ==> Text(r.value) == t
    ensures r.None? ==> forall s: CallStatus :: Text(s) != t
  {
    if t == "initiated" then Wrappers.Some(Initiated)
    else if t == "queued" then Wrappers.Some(Queued)
    else if t == "in-progress" then Wrappers.Some(InProgress)
    else if t == "ended" then Wrappers.Some(Ended)
    else if t == "completed" then Wrappers.Some(Completed)
    else if t == "failed" then Wrappers.Some(Failed)
    else if t == "canceled" then Wrappers.Some(Canceled)
    else Wrappers.None
  }

  /** `ACTIVE_CALL_STATUSES.includes(callStatus)` on a stored string: the
      comparison is exact, so only the three lower-case active strings match. */
  predicate IsActiveText(t: string) {
    t == Text(Initiated) || t == Text(Queued) || t == Text(InProgress)
  }

  /** The stored string of `CallStatus.COMPLETED`. */
  predicate IsCompletedText(t: string) {
    t == Text(Completed)
  }

  /** The seven values are pairwise distinct strings, so a stored string
      names at most one status and reading it back is exact. */
  lemma TextInjective(a: CallStatus, b: CallStatus)
    ensures Text(a) == Text(b) ==> a == b
    ensures Parse(Text(a)) == Wrappers.Some(a)
  {
  }

  /** The active, completed and unsuccessful groups are pairwise disjoint
      and together hold exactly the seven statuses. */
  lemma GroupsPartition(s: CallStatus)
    ensures s in ActiveCallStatuses ==> s !in CompletedCallStatuses && s !in UnsuccessfulCallStatuses
    ensures s in CompletedCallStatuses ==> s !in UnsuccessfulCallStatuses
    ensures s in ActiveCallStatuses || s in CompletedCallStatuses || s in UnsuccessfulCallStatuses
    ensures IsActiveText(Text(s)) <==> s in ActiveCallStatuses
  {
  }

  /** `completed` is a finished status, never an active one. */
  lemma CompletedIsFinished()
    ensures Completed in CompletedCallStatuses
    ensures Completed !in ActiveCallStatuses
    ensures !IsActiveText(Text(Completed))
  {
  }

  /** The capitalised strings other code writes (`'Pending'`, `'Initiated'`,
      `'Not Initiated'`, `'Completed'`) are not enum values: none of them is
      active and none is the completed status. */
  lemma ForeignStatusStrings()
    ensures Parse("Pending").None? && Parse("Initiated").None?
    ensures Parse("Not Initiated").None? && Parse("Completed").None?
    ensures !IsActiveText("Pending") && !IsActiveText("Initiated") && !IsActiveText("Not Initiated")
    ensures !IsCompletedText("Completed")
  {
  }
}
