/** The dialling loop of the client dashboard
    (`src/app/dashboard/client/page.tsx`): leads waiting for a call are
    marked `Pending`, then each pending lead is called in turn and moves to
    `Initiated` and on to `Done`, or to `Failed` when a request throws. The
    provider's answers (`createOutboundCall` and, two minutes later,
    `getCall`) are parameters, one per lead. These status strings belong to
    the page and are not the stored call statuses. */
module Dialer {
  import opened Wrappers

  const NotInitiated: string := "Not Initiated"
  const Pending: string := "Pending"
  const Initiated: string := "Initiated"
  const Done: string := "Done"
  const Failed: string := "Failed"

  /** A row of the dashboard's lead table. */
  datatype DashLead = DashLead(phoneNumber: string, callStatus: Option<string>, callId: Option<string>,
                               endedReason: Option<string>)

  /** No status yet, or `Not Initiated`. */
  predicate AwaitsCall(lead: DashLead) {
    !TruthyStr(lead.callStatus) || lead.callStatus == Some(NotInitiated)
  }

  /** `hasNotInitiatedCalls`. */
  function HasNotInitiatedCalls(leads: seq<DashLead>): (b: bool)
    ensures b <==> exists i :: 0 <= i < |leads| && AwaitsCall(leads[i])
  {
    if |leads| == 0 then false
    else
      var rest := HasNotInitiatedCalls(leads[1..]);
      assert forall i :: 1 <= i < |leads| ==> leads[i] == leads[1..][i - 1];
      AwaitsCall(leads[0]) || rest
  }

  /** The first step of `initiateCalls`: every waiting lead becomes
      `Pending`. */
  function MarkPending(leads: seq<DashLead>): (r: seq<DashLead>)
    ensures |r| == |leads|
  {
    seq(|leads|, i requires 0 <= i < |leads| =>
      if AwaitsCall(leads[i]) then leads[i].(callStatus := Some(Pending)) else leads[i])
  }

  /** Marking leaves no lead waiting, touches only waiting leads and only
      their status, and marking again changes nothing. */
  lemma MarkPendingProperties(leads: seq<DashLead>)
    ensures !HasNotInitiatedCalls(MarkPending(leads))
    ensures forall i :: 0 <= i < |leads| ==>
              && MarkPending(leads)[i] == leads[i].(callStatus := MarkPending(leads)[i].callStatus)
              && (AwaitsCall(leads[i]) ==> MarkPending(leads)[i].callStatus == Some(Pending))
              && (!AwaitsCall(leads[i]) ==> MarkPending(leads)[i] == leads[i])
    ensures MarkPending(MarkPending(leads)) == MarkPending(leads)
  {
  }

  /** What the provider answered for one lead: `createOutboundCall` threw,
      or it answered with a call id (possibly missing) and the `getCall`
      two minutes later gave the call's end reason or threw. */
  datatype Dispatch =
    | Threw
    | Answered(id: Option<string>, followUp: Result<Option<string>, string>)

  /** Where one pending lead ends up. An answer without an id leaves it
      pending; a `getCall` that throws marks it `Failed` from the lead as it
      was before the call, so the call id just recorded is dropped. */
  function Settle(lead: DashLead, d: Dispatch): (r: DashLead)
    requires lead.callStatus == Some(Pending)
    ensures r.phoneNumber == lead.phoneNumber
    ensures r.callStatus == Some(Done) <==> d.Answered? && TruthyStr(d.id) && d.followUp.Ok?
    ensures r.callStatus == Some(Done) ==> r.callId == d.id && r.endedReason == d.followUp.value
    ensures r.callStatus == Some(Failed) <==> d.Threw? || (TruthyStr(d.id) && d.followUp.Err?)
    ensures r.callStatus == Some(Failed) ==> r == lead.(callStatus := Some(Failed))
    ensures d.Answered? && !TruthyStr(d.id) ==> r == lead
  {
    match d
    case Threw => lead.(callStatus := Some(Failed))
    case Answered(id, followUp) =>
      if !TruthyStr(id) then lead
      else
        match followUp
        case Err(_) => lead.(callStatus := Some(Failed))
        case Ok(reason) => lead.(callId := id, callStatus := Some(Done), endedReason := reason)
  }

  /** The statuses a lead shows after `Pending`, in the order the table
      shows them. */
  function StatusesShown(d: Dispatch): seq<string> {
    match d
    case Threw => [Failed]
    case Answered(id, followUp) =>
      if !TruthyStr(id) then []
      else if followUp.Err? then [Initiated, Failed]
      else [Initiated, Done]
  }

  /** The status progression: `Pending` to `Initiated` or `Failed`,
      `Initiated` to `Done` or `Failed`. */
  predicate Step(a: string, b: string) {
    (a == Pending && (b == Initiated || b == Failed)) || (a == Initiated && (b == Done || b == Failed))
  }

  predicate Progression(statuses: seq<string>) {
    forall i :: 0 <= i < |statuses| - 1 ==> Step(statuses[i], statuses[i + 1])
  }

  /** A pending lead moves only along the progression, and the status it
      ends with is the one `Settle` gives it. */
  lemma SettleFollowsProgression(lead: DashLead, d: Dispatch)
    requires lead.callStatus == Some(Pending)
    ensures Progression([Pending] + StatusesShown(d))
    ensures var path := [Pending] + StatusesShown(d);
            Settle(lead, d).callStatus == Some(path[|path| - 1])
  {
  }

  /** Where each lead ends up after `initiateCalls`: the marked lead,
      settled when it is pending. */
  function Dialled(leads: seq<DashLead>, outcomes: seq<Dispatch>, i: nat): DashLead
    requires |outcomes| == |leads| && i < |leads|
  {
    var m := MarkPending(leads)[i];
    if m.callStatus == Some(Pending) then Settle(m, outcomes[i]) else m
  }

  /** `initiateCalls`: one pass over the marked leads, calling each pending
      one. `outcomes[i]` is what the provider answered for lead `i`; it is
      not consulted for leads that are not pending. */
  method InitiateCalls(leads: seq<DashLead>, outcomes: seq<Dispatch>) returns (result: seq<DashLead>)
    requires |outcomes| == |leads|
    ensures |result| == |leads|
    ensures forall i :: 0 <= i < |leads| ==> result[i] == Dialled(leads, outcomes, i)
  {
    result := MarkPending(leads);
    var index := 0;
    while index < |result|
      invariant 0 <= index <= |result| == |leads|
      invariant forall j :: 0 <= j < index ==> result[j] == Dialled(leads, outcomes, j)
      invariant forall j :: index <= j < |result| ==> result[j] == MarkPending(leads)[j]
    {
      var lead := result[index];
      if lead.callStatus != Some(Pending) {
        index := index + 1;
        continue;
      }
      result := result[index := Settle(lead, outcomes[index])];
      index := index + 1;
    }
  }

  /** After the pass no lead is waiting; a lead that was neither waiting nor
      pending is untouched; every lead keeps its phone; and a called lead is
      `Done` exactly when both requests answered. */
  lemma InitiateCallsOutcome(leads: seq<DashLead>, outcomes: seq<Dispatch>, i: nat)
    requires |outcomes| == |leads| && i < |leads|
    ensures !AwaitsCall(Dialled(leads, outcomes, i))
    ensures Dialled(leads, outcomes, i).phoneNumber == leads[i].phoneNumber
    ensures !AwaitsCall(leads[i]) && leads[i].callStatus != Some(Pending) ==> Dialled(leads, outcomes, i) == leads[i]
    ensures AwaitsCall(leads[i]) || leads[i].callStatus == Some(Pending) ==>
              (Dialled(leads, outcomes, i).callStatus == Some(Done) <==>
                 outcomes[i].Answered? && TruthyStr(outcomes[i].id) && outcomes[i].followUp.Ok?)
  {
    var m := MarkPending(leads)[i];
    assert m.callStatus == Some(Pending) <==> AwaitsCall(leads[i]) || leads[i].callStatus == Some(Pending);
  }

  /** A failure on one lead leaves the others as if it had succeeded:
      each lead's end state depends only on its own answer. */
  lemma FailureIsolated(leads: seq<DashLead>, outcomes: seq<Dispatch>, i: nat, j: nat)
    requires |outcomes| == |leads| && i < |leads| && j < |leads| && i != j
    ensures Dialled(leads, outcomes[i := Threw], j) == Dialled(leads, outcomes, j)
  {
  }
}
