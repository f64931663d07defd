/** The dashboard statistics of `src/app/api/clients/campaign-stats/route.ts`:
    the caller's number of campaigns, of completed calls, and their total
    seconds. */
module CampaignStats {
  import opened Wrappers
  import opened Ordering
  import opened Store
  import opened CallStatuses

  datatype Stats = Stats(totalCampaigns: nat, totalCalls: nat, totalDuration: int)

  function OwnedBy(client: Id): Campaign -> bool {
    (c: Campaign) => c.clientId == client
  }

  /** The call is the client's and its status is exactly `status`. */
  function CallIn(client: Id, status: string): Call -> bool {
    (c: Call) => c.clientId == client && c.callStatus == status
  }

  /** Sum of the truthy durations of the client's calls in `status`
      (`if (call.durationInSeconds) total += …`). */
  function DurationIn(calls: seq<Call>, client: Id, status: string): int {
    if |calls| == 0 then 0
    else
      var c := calls[|calls| - 1];
      DurationIn(calls[..|calls| - 1], client, status)
      + (if CallIn(client, status)(c) && c.durationInSeconds.Some? && c.durationInSeconds.value != 0
         then c.durationInSeconds.value else 0)
  }

  /** The handler for a given completed-status string: 401 without a
      session, 500 when the session carries no email (the lookup throws),
      404 when the email's user has no client. */
  function StatsFor(db: Db, session: Option<Session>, status: string): (r: Response<Stats>)
    ensures session.None? ==> r == Status(401, "Unauthorized")
    ensures session.Some? && session.value.email.None? ==> r == Status(500, "Failed to fetch campaign statistics")
    ensures session.Some? && session.value.email.Some? && session.value.email.value !in db.emailClients ==>
              r == Status(404, "Client not found")
    ensures r.Json200? ==>
              && session.Some? && session.value.email.Some? && session.value.email.value in db.emailClients
              && var client := db.emailClients[session.value.email.value];
              && r.body.totalCampaigns == |Filter(db.campaigns, OwnedBy(client))|
              && r.body.totalCalls == |Filter(db.calls, CallIn(client, status))|
              && r.body.totalDuration == DurationIn(db.calls, client, status)
  {
    if session.None? then Status(401, "Unauthorized")
    else if session.value.email.None? then Status(500, "Failed to fetch campaign statistics")
    else if session.value.email.value !in db.emailClients then Status(404, "Client not found")
    else
      var client := db.emailClients[session.value.email.value];
      Json200(Stats(Count(db.campaigns, OwnedBy(client)),
                    Count(db.calls, CallIn(client, status)),
                    DurationIn(db.calls, client, status)))
  }

  /** `GET` as written: calls are filtered on the string `'Completed'`. */
  function CampaignStatsAsWritten(db: Db, session: Option<Session>): (r: Response<Stats>)
    ensures r.Json200? ==>
              && session.Some? && session.value.email.Some? && session.value.email.value in db.emailClients
              && r.body.totalCalls == Count(db.calls, CallIn(db.emailClients[session.value.email.value], "Completed"))
  {
    StatsFor(db, session, "Completed")
  }

  /** `GET` corrected: calls are filtered on the stored completed status. */
  function CampaignStatsCorrected(db: Db, session: Option<Session>): (r: Response<Stats>)
    ensures r.Json200? ==>
              && session.Some? && session.value.email.Some? && session.value.email.value in db.emailClients
              && var client := db.emailClients[session.value.email.value];
              && r.body.totalCalls == Count(db.calls, CallIn(client, Text(CallStatus.Completed)))
              && r.body.totalDuration == DurationIn(db.calls, client, Text(CallStatus.Completed))
  {
    StatsFor(db, session, Text(CallStatus.Completed))
  }

  /** A status no call carries contributes no calls and no seconds. */
  lemma {:induction false} UnusedStatusCountsNothing(calls: seq<Call>, client: Id, status: string)
    requires forall i :: 0 <= i < |calls| ==> calls[i].callStatus != status
    ensures Count(calls, CallIn(client, status)) == 0
    ensures DurationIn(calls, client, status) == 0
  {
    CountZero(calls, CallIn(client, status));
    if |calls| > 0 {
      UnusedStatusCountsNothing(calls[..|calls| - 1], client, status);
    }
  }

  /** As written, the statistics count nothing while every call's status is
      a value of the call-status vocabulary: `'Completed'` is not one. */
  lemma AsWrittenMissesStoredStatuses(db: Db, session: Option<Session>)
    requires forall i :: 0 <= i < |db.calls| ==> Parse(db.calls[i].callStatus).Some?
    ensures var r := CampaignStatsAsWritten(db, session);
            r.Json200? ==> r.body.totalCalls == 0 && r.body.totalDuration == 0
  {
    ForeignStatusStrings();
    if session.Some? && session.value.email.Some? && session.value.email.value in db.emailClients {
      UnusedStatusCountsNothing(db.calls, db.emailClients[session.value.email.value], "Completed");
    }
  }

  /** One client with one 60-second call stored as `completed`. */
  const OneCompletedCall := Db(
    [Client(1, 7, 0.0)],
    [Call(2, 1, None, None, None, None, "completed", None, None, None, Some(60), None, None, false,
          NoDetails, 0, 0)],
    [], [], [], [], [], map[7 := 1], map["a@b.c" := 1], 3)

  /** On that store the handler as written reports no calls and no seconds;
      the corrected one reports the call and its 60 seconds. */
  lemma StatsCompletedCounterexample()
    ensures CampaignStatsAsWritten(OneCompletedCall, Some(Session(Some(7), Some("a@b.c"))))
              == Json200(Stats(0, 0, 0))
    ensures CampaignStatsCorrected(OneCompletedCall, Some(Session(Some(7), Some("a@b.c"))))
              == Json200(Stats(0, 1, 60))
  {
    var calls := OneCompletedCall.calls;
    assert calls[..0] == [];
    assert DurationIn(calls, 1, "Completed") == 0;
    assert DurationIn(calls, 1, "completed") == 60;
  }
}
