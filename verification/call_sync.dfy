/** Bringing provider calls into the call table, in its two forms:
    the sync route (`src/app/api/clients/vapi/sync/route.ts`), which
    creates a call for every provider call not yet stored and never touches
    a stored one, and `syncVapiCalls` (`src/lib/vapi/sync-calls.ts`), which
    upserts every provider call, marking the cost up by 30%. A provider
    call whose write fails is skipped and the loop goes on. */
module CallSync {
  import opened Wrappers
  import opened Store
  import CallBilling

  /** A call as the provider reports it; `None` is a field it leaves out. */
  datatype VapiCall = VapiCall(
    id: string,
    callType: Option<string>,
    status: Option<string>,
    startedAt: Option<int>,
    endedAt: Option<int>,
    transcript: Option<string>,
    recordingUrl: Option<string>,
    stereoRecordingUrl: Option<string>,
    summary: Option<string>,
    customerNumber: Option<string>,
    endedReason: Option<string>,
    webCallUrl: Option<string>,
    assistantId: Option<string>,
    cost: Option<real>,
    costBreakdown: Option<Json>,
    analysis: Option<Json>,
    messages: Option<Json>)

  /** `s || ''`. */
  function OrEmpty(s: Option<string>): (r: string)
    ensures TruthyStr(s) ==> r == s.value
    ensures !TruthyStr(s) ==> r == ""
  {
    if TruthyStr(s) then s.value else ""
  }

  /** `j || {}`. */
  function OrEmptyObject(j: Option<Json>): (r: Json)
    ensures TruthyJson(j) ==> r == j.value
    ensures !TruthyJson(j) ==> r == JObj([])
  {
    if TruthyJson(j) then j.value else JObj([])
  }

  /** Position of the stored call with this provider id (`findUnique` /
      `upsert` on the unique `vapiCallId`). */
  function VapiIndex(calls: seq<Call>, vid: string): (r: Option<nat>)
    ensures r.Some? ==> r.value < |calls| && calls[r.value].vapiCallId == Some(vid)
    ensures r.None? <==> forall i :: 0 <= i < |calls| ==> calls[i].vapiCallId != Some(vid)
  {
    Ordering.FirstIndex(calls, (c: Call) => c.vapiCallId == Some(vid))
  }

  /** The provider call is stored. */
  predicate Stored(calls: seq<Call>, vid: string) {
    exists i | 0 <= i < |calls| :: calls[i].vapiCallId == Some(vid)
  }

  /** No provider id is stored twice. */
  predicate VapiIdsUnique(calls: seq<Call>) {
    forall i, j :: 0 <= i < j < |calls| && calls[i].vapiCallId.Some? ==> calls[i].vapiCallId != calls[j].vapiCallId
  }

  // ---------------------------------------------------------------------------
  // The sync route: create what is missing, skip what is stored

  /** The row the sync route creates for a provider call. */
  function ImportedCall(id: Id, client: Id, v: VapiCall, now: int): Call {
    Call(id, client, None, None, Some(v.id), v.callType,
         if TruthyStr(v.status) then v.status.value else "Not Initiated",
         Some(OrEmpty(v.customerNumber)), v.startedAt, v.endedAt, None,
         Some(if TruthyNum(v.cost) then v.cost.value else 0.0), None, false,
         CallDetails(Some(OrEmpty(v.transcript)), Some(OrEmpty(v.recordingUrl)), Some(OrEmpty(v.stereoRecordingUrl)),
                     Some(OrEmpty(v.summary)), Some(OrEmpty(v.endedReason)), None, v.assistantId,
                     Some(OrEmptyObject(v.costBreakdown)), Some(OrEmptyObject(v.analysis)),
                     Some(OrEmptyObject(v.messages))),
         now, now)
  }

  /** One iteration: a stored provider call is skipped; a call without a
      start time fails to create (`new Date(undefined)` is invalid) and is
      skipped; otherwise it is created for the caller's client. */
  function ImportOne(db: Db, client: Id, v: VapiCall, now: int): (r: Db)
    ensures r.clients == db.clients && r.transactions == db.transactions
    ensures Stored(db.calls, v.id) || v.startedAt.None? ==> r == db
    ensures !Stored(db.calls, v.id) && v.startedAt.Some? ==>
              r.calls == db.calls + [ImportedCall(db.nextId, client, v, now)] && r.nextId == db.nextId + 1
  {
    if VapiIndex(db.calls, v.id).Some? || v.startedAt.None? then db
    else db.(calls := db.calls + [ImportedCall(db.nextId, client, v, now)], nextId := db.nextId + 1)
  }

  /** The loop over the request's provider calls, in order. */
  function ImportAll(db: Db, client: Id, vs: seq<VapiCall>, now: int): Db {
    if |vs| == 0 then db
    else ImportOne(ImportAll(db, client, vs[..|vs| - 1], now), client, vs[|vs| - 1], now)
  }

  /** `POST /api/clients/vapi/sync`. */
  function SyncRoute(db: Db, session: Option<Session>, vs: seq<VapiCall>, now: int): (r: Outcome<bool>)
    ensures !CallBilling.Authenticated(session) ==> r == Outcome(db, Status(401, "Unauthorized"))
    ensures CallBilling.Authenticated(session) && session.value.userId.value !in db.userClients ==>
              r == Outcome(db, Status(404, "Client not found"))
    ensures r.response.Json200? ==>
              && CallBilling.Authenticated(session) && session.value.userId.value in db.userClients
              && r.db == ImportAll(db, db.userClients[session.value.userId.value], vs, now)
  {
    if !CallBilling.Authenticated(session) then Outcome(db, Status(401, "Unauthorized"))
    else if session.value.userId.value !in db.userClients then Outcome(db, Status(404, "Client not found"))
    else Outcome(ImportAll(db, db.userClients[session.value.userId.value], vs, now), Json200(true))
  }

  /** The sync route only appends: every stored call is left as it was, the
      ledger and balances are untouched, each appended call belongs to the
      caller's client and is not charged, and provider ids stay unique. */
  lemma {:induction false} ImportAllOnlyAppends(db: Db, client: Id, vs: seq<VapiCall>, now: int)
    ensures var r := ImportAll(db, client, vs, now);
            && |db.calls| <= |r.calls| && r.calls[..|db.calls|] == db.calls
            && r.clients == db.clients && r.transactions == db.transactions
            && (forall i :: |db.calls| <= i < |r.calls| ==>
                  r.calls[i].clientId == client && !r.calls[i].costDeducted && r.calls[i].finalCost.None?)
            && (VapiIdsUnique(db.calls) ==> VapiIdsUnique(r.calls))
  {
    if |vs| > 0 {
      var mid := ImportAll(db, client, vs[..|vs| - 1], now);
      ImportAllOnlyAppends(db, client, vs[..|vs| - 1], now);
      var r := ImportOne(mid, client, vs[|vs| - 1], now);
      if r != mid {
        assert r.calls[..|mid.calls|] == mid.calls;
        assert r.calls[..|db.calls|] == mid.calls[..|db.calls|];
        if VapiIdsUnique(mid.calls) {
          forall i, j | 0 <= i < j < |r.calls| && r.calls[i].vapiCallId.Some?
            ensures r.calls[i].vapiCallId != r.calls[j].vapiCallId
          {
            if j == |mid.calls| {
              assert mid.calls[i].vapiCallId != Some(vs[|vs| - 1].id);
            }
          }
        }
      }
    }
  }

  /** Every provider call with a start time is stored after the sync. */
  lemma {:induction false} ImportAllStoresEveryCall(db: Db, client: Id, vs: seq<VapiCall>, now: int)
    ensures forall j :: 0 <= j < |vs| && vs[j].startedAt.Some? ==> Stored(ImportAll(db, client, vs, now).calls, vs[j].id)
  {
    if |vs| > 0 {
      var init := vs[..|vs| - 1];
      var mid := ImportAll(db, client, init, now);
      ImportAllStoresEveryCall(db, client, init, now);
      var r := ImportOne(mid, client, vs[|vs| - 1], now);
      forall j | 0 <= j < |vs| && vs[j].startedAt.Some? ensures Stored(r.calls, vs[j].id) {
        if j < |vs| - 1 {
          assert vs[j] == init[j];
          var i :| 0 <= i < |mid.calls| && mid.calls[i].vapiCallId == Some(vs[j].id);
          assert r.calls[i] == mid.calls[i];
        } else if !Stored(mid.calls, vs[j].id) {
          assert r.calls[|mid.calls|].vapiCallId == Some(vs[j].id);
        }
      }
    }
  }

  /** Stored calls stay stored. */
  lemma StoredMonotone(db: Db, client: Id, vs: seq<VapiCall>, now: int, vid: string)
    requires Stored(db.calls, vid)
    ensures Stored(ImportAll(db, client, vs, now).calls, vid)
  {
    ImportAllOnlyAppends(db, client, vs, now);
    var r := ImportAll(db, client, vs, now);
    var i :| 0 <= i < |db.calls| && db.calls[i].vapiCallId == Some(vid);
    assert r.calls[i] == r.calls[..|db.calls|][i];
  }

  /** A sync in which every provider call is already stored or has no start
      time writes nothing. */
  lemma {:induction false} ImportAllNothingNew(db: Db, client: Id, vs: seq<VapiCall>, now: int)
    requires forall j :: 0 <= j < |vs| ==> Stored(db.calls, vs[j].id) || vs[j].startedAt.None?
    ensures ImportAll(db, client, vs, now) == db
  {
    if |vs| > 0 {
      ImportAllNothingNew(db, client, vs[..|vs| - 1], now);
    }
  }

  /** Syncing the same provider calls twice is the same as syncing them once. */
  lemma ImportAllIdempotent(db: Db, client: Id, vs: seq<VapiCall>, now: int, later: int)
    ensures ImportAll(ImportAll(db, client, vs, now), client, vs, later) == ImportAll(db, client, vs, now)
  {
    ImportAllStoresEveryCall(db, client, vs, now);
    ImportAllNothingNew(ImportAll(db, client, vs, now), client, vs, later);
  }

  // ---------------------------------------------------------------------------
  // syncVapiCalls: upsert with a 30% markup

  /** The charged price: the provider cost plus 30%, or nothing when the
      cost is missing or zero. */
  function MarkedUp(cost: Option<real>): (r: Option<real>)
    ensures TruthyNum(cost) <==> r.Some?
    ensures r.Some? ==> r.value * 10.0 == cost.value * 13.0
  {
    if TruthyNum(cost) then Some(cost.value * 1.3) else None
  }

  /** `vapiCall.cost ? cost : null`. */
  function CostOrNull(cost: Option<real>): Option<real> {
    if TruthyNum(cost) then cost else None
  }

  /** The `create` branch: the row for a provider call seen for the first
      time, always on client 1. */
  function UpsertedCall(id: Id, v: VapiCall, now: int): Call
    requires v.status.Some? && v.costBreakdown.Some? && v.analysis.Some? && v.messages.Some?
  {
    Call(id, 1, None, None, Some(v.id), v.callType, v.status.value, v.customerNumber, v.startedAt,
         v.endedAt, None, CostOrNull(v.cost), MarkedUp(v.cost), false,
         CallDetails(v.transcript, v.recordingUrl, v.stereoRecordingUrl, v.summary, v.endedReason,
                     v.webCallUrl, v.assistantId, v.costBreakdown, v.analysis, v.messages),
         now, now)
  }

  /** The `update` branch: status, end, texts, costs and payloads are
      refreshed (a field the provider leaves out keeps its value, except the
      end time and the costs, which are cleared); everything else is kept. */
  function RefreshedCall(c: Call, v: VapiCall, now: int): Call
    requires v.costBreakdown.Some? && v.analysis.Some? && v.messages.Some?
  {
    c.(callStatus := v.status.GetOr(c.callStatus),
       endedAt := v.endedAt,
       cost := CostOrNull(v.cost),
       finalCost := MarkedUp(v.cost),
       details := c.details.(
         transcript := if v.transcript.Some? then v.transcript else c.details.transcript,
         recordingUrl := if v.recordingUrl.Some? then v.recordingUrl else c.details.recordingUrl,
         stereoRecordingUrl := if v.stereoRecordingUrl.Some? then v.stereoRecordingUrl else c.details.stereoRecordingUrl,
         summary := if v.summary.Some? then v.summary else c.details.summary,
         endedReason := if v.endedReason.Some? then v.endedReason else c.details.endedReason,
         costBreakdown := v.costBreakdown, analysis := v.analysis, messages := v.messages),
       updatedAt := now)
  }

  /** One upsert. A missing `messages`, `costBreakdown` or `analysis` makes
      `JSON.parse` throw, and a create without a status or a start time, or
      with no client 1, is rejected; each of these skips the call. */
  function Upsert(db: Db, v: VapiCall, now: int): (r: Db)
    ensures r.clients == db.clients && r.transactions == db.transactions
    ensures |db.calls| <= |r.calls| <= |db.calls| + 1
    ensures Stored(db.calls, v.id) ==> |r.calls| == |db.calls|
    ensures forall i :: 0 <= i < |db.calls| && r.calls[i] != db.calls[i] ==>
              db.calls[i].vapiCallId == Some(v.id) && r.calls[i].vapiCallId == Some(v.id)
    ensures forall i :: 0 <= i < |db.calls| ==> r.calls[i].costDeducted == db.calls[i].costDeducted
    ensures |r.calls| == |db.calls| + 1 ==>
              !Stored(db.calls, v.id) && r.calls[|db.calls|].vapiCallId == Some(v.id)
              && r.calls[|db.calls|].clientId == 1 && !r.calls[|db.calls|].costDeducted
  {
    if v.costBreakdown.None? || v.analysis.None? || v.messages.None? then db
    else
      match VapiIndex(db.calls, v.id)
      case Some(k) => db.(calls := db.calls[k := RefreshedCall(db.calls[k], v, now)])
      case None =>
        if v.status.None? || v.startedAt.None? || ClientIndex(db.clients, 1).None? then db
        else db.(calls := db.calls + [UpsertedCall(db.nextId, v, now)], nextId := db.nextId + 1)
  }

  /** A provider call the upsert can write as a new row: it has a status,
      a start time and the three JSON payloads. */
  predicate Writable(v: VapiCall) {
    v.status.Some? && v.startedAt.Some? && v.costBreakdown.Some? && v.analysis.Some? && v.messages.Some?
  }

  /** `syncVapiCalls`: the upserts in order. Rows already stored keep their
      provider id, and, while the default client exists, every provider
      call the upsert can write is stored afterwards. */
  function SyncVapiCalls(db: Db, vs: seq<VapiCall>, now: int): (r: Db)
    ensures r.clients == db.clients
    ensures |r.calls| >= |db.calls|
    ensures forall i :: 0 <= i < |db.calls| ==> r.calls[i].vapiCallId == db.calls[i].vapiCallId
    ensures ClientIndex(db.clients, 1).Some? ==>
              forall j :: 0 <= j < |vs| && Writable(vs[j]) ==> Stored(r.calls, vs[j].id)
  {
    if |vs| == 0 then db
    else
      var mid := SyncVapiCalls(db, vs[..|vs| - 1], now);
      var v := vs[|vs| - 1];
      var r := Upsert(mid, v, now);
      assert forall i :: 0 <= i < |mid.calls| ==> r.calls[i].vapiCallId == mid.calls[i].vapiCallId;
      assert forall vid :: Stored(mid.calls, vid) ==> Stored(r.calls, vid) by {
        forall vid | Stored(mid.calls, vid) ensures Stored(r.calls, vid) {
          var i :| 0 <= i < |mid.calls| && mid.calls[i].vapiCallId == Some(vid);
          assert r.calls[i].vapiCallId == Some(vid);
        }
      }
      assert ClientIndex(db.clients, 1).Some? && Writable(v) ==> Stored(r.calls, v.id) by {
        if ClientIndex(db.clients, 1).Some? && Writable(v) {
          if Stored(mid.calls, v.id) {
          } else {
            assert VapiIndex(mid.calls, v.id).None?;
            assert r.calls[|mid.calls|].vapiCallId == Some(v.id);
          }
        }
      }
      assert forall j :: 0 <= j < |vs| - 1 ==> vs[j] == vs[..|vs| - 1][j];
      r
  }

  /** Refreshing a stored call keeps its identity, owner, links, type, start,
      number, assistant, web link, deducted flag and creation time, and
      prices it at the provider cost plus 30%. */
  lemma UpsertKeepsIdentity(db: Db, v: VapiCall, now: int)
    requires v.costBreakdown.Some? && v.analysis.Some? && v.messages.Some?
    requires Stored(db.calls, v.id)
    ensures var r := Upsert(db, v, now);
            var k := VapiIndex(db.calls, v.id).value;
            var before := db.calls[k];
            var after := r.calls[k];
            && after.id == before.id && after.clientId == before.clientId
            && after.leadId == before.leadId && after.campaignId == before.campaignId
            && after.callType == before.callType && after.startedAt == before.startedAt
            && after.customerNumber == before.customerNumber
            && after.details.assistantId == before.details.assistantId
            && after.details.webCallUrl == before.details.webCallUrl
            && after.costDeducted == before.costDeducted && after.createdAt == before.createdAt
            && after.finalCost == MarkedUp(v.cost)
            && after.details.messages == v.messages
  {
  }

  /** Refreshing a row twice with the same provider call is refreshing it
      once. */
  lemma RefreshTwice(c: Call, v: VapiCall, now: int)
    requires v.costBreakdown.Some? && v.analysis.Some? && v.messages.Some?
    ensures RefreshedCall(RefreshedCall(c, v, now), v, now) == RefreshedCall(c, v, now)
  {
  }

  /** Refreshing a freshly created row with the provider call it came from
      changes nothing. */
  lemma RefreshCreated(id: Id, v: VapiCall, now: int)
    requires v.status.Some? && v.costBreakdown.Some? && v.analysis.Some? && v.messages.Some?
    ensures RefreshedCall(UpsertedCall(id, v, now), v, now) == UpsertedCall(id, v, now)
  {
  }

  /** Rewriting the first row holding a provider id, or appending one after
      all rows, keeps that row the first to hold it. */
  lemma VapiIndexAfterWrite(before: seq<Call>, after: seq<Call>, vid: string, k: nat)
    requires k < |after| && |before| <= |after| && k <= |before|
    requires forall j :: 0 <= j < k ==> after[j] == before[j] && before[j].vapiCallId != Some(vid)
    requires after[k].vapiCallId == Some(vid)
    ensures VapiIndex(after, vid) == Some(k)
  {
    assert forall j :: 0 <= j < k ==> after[j].vapiCallId != Some(vid);
  }

  /** Upserting the same provider call twice at the same moment is the same
      as upserting it once. */
  lemma UpsertIdempotent(db: Db, v: VapiCall, now: int)
    ensures Upsert(Upsert(db, v, now), v, now) == Upsert(db, v, now)
  {
    var once := Upsert(db, v, now);
    if once != db {
      var k: nat := if VapiIndex(db.calls, v.id).Some? then VapiIndex(db.calls, v.id).value else |db.calls|;
      VapiIndexAfterWrite(db.calls, once.calls, v.id, k);
      if k < |db.calls| {
        RefreshTwice(db.calls[k], v, now);
      } else {
        RefreshCreated(db.nextId, v, now);
      }
      assert once.calls[k := RefreshedCall(once.calls[k], v, now)] == once.calls;
    }
  }

  /** `syncVapiCalls` never writes the ledger or a balance and never sets a
      call's deducted flag: a synced price is not charged. */
  lemma {:induction false} SyncNeverCharges(db: Db, vs: seq<VapiCall>, now: int)
    ensures var r := SyncVapiCalls(db, vs, now);
            && r.clients == db.clients && r.transactions == db.transactions
            && |r.calls| >= |db.calls|
            && (forall i :: 0 <= i < |db.calls| ==> r.calls[i].costDeducted == db.calls[i].costDeducted)
            && (forall i :: |db.calls| <= i < |r.calls| ==> !r.calls[i].costDeducted)
  {
    if |vs| > 0 {
      SyncNeverCharges(db, vs[..|vs| - 1], now);
      var mid := SyncVapiCalls(db, vs[..|vs| - 1], now);
    }
  }
}
