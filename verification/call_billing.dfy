/** The call-cost handlers of `src/app/api/clients/vapi/calls/route.ts`:
    `POST` creates a call and, in the same database transaction, debits its
    `final_cost`; `PUT` updates a call and debits a `final_cost` sent for a
    call not yet marked `costDeducted`; `GET` lists the caller's calls.
    Each handler is one atomic step from database to database. */
module CallBilling {
  import opened Wrappers
  import opened Decimal
  import opened Ordering
  import opened Store

  /** The columns a `POST` body supplies for the new call. */
  datatype CallInput = CallInput(
    clientId: Id,
    leadId: Option<Id>,
    campaignId: Option<Id>,
    vapiCallId: Option<string>,
    callType: Option<string>,
    callStatus: string,
    customerNumber: Option<string>,
    startedAt: Option<int>,
    endedAt: Option<int>,
    durationInSeconds: Option<int>,
    cost: Option<real>,
    finalCost: Option<real>,
    details: CallDetails)

  /** The fields a `PUT` body carries besides `id`; `None` is a field the
      body does not send. */
  datatype CallPatch = CallPatch(
    clientId: Option<Id>,
    leadId: Option<Id>,
    campaignId: Option<Id>,
    vapiCallId: Option<string>,
    callType: Option<string>,
    callStatus: Option<string>,
    customerNumber: Option<string>,
    startedAt: Option<int>,
    endedAt: Option<int>,
    durationInSeconds: Option<int>,
    cost: Option<real>,
    finalCost: Option<real>,
    costDeducted: Option<bool>,
    details: Option<CallDetails>)

  /** `session?.user?.id` is present. */
  predicate Authenticated(session: Option<Session>) {
    session.Some? && session.value.userId.Some?
  }

  predicate ClientKeysUnique(db: Db) {
    forall i, j :: 0 <= i < j < |db.clients| ==> db.clients[i].id != db.clients[j].id
  }

  function NewCall(id: Id, input: CallInput, now: int): Call {
    Call(id, input.clientId, input.leadId, input.campaignId, input.vapiCallId, input.callType,
         input.callStatus, input.customerNumber, input.startedAt, input.endedAt,
         input.durationInSeconds, input.cost, input.finalCost, false, input.details, now, now)
  }

  /** `POST`: create the call with `costDeducted = false`; when its
      `final_cost` is truthy, also write one DEBIT for that amount
      referencing the call, decrement the client's balance by it and mark
      the call deducted — all or nothing. An unknown client fails the
      foreign key and nothing is written. */
  function Post(db: Db, session: Option<Session>, input: CallInput, now: int): (r: Outcome<Call>)
    ensures !Authenticated(session) ==> r == Outcome(db, Status(401, "Unauthorized"))
    ensures Authenticated(session) && ClientIndex(db.clients, input.clientId).None? ==>
              r.db == db && r.response == Status(500, "Internal Server Error")
    ensures r.response.Json200? ==>
              && ClientIndex(db.clients, input.clientId).Some?
              && r.db.calls == db.calls + [r.response.body]
              && r.response.body.id == db.nextId
              && r.response.body.clientId == input.clientId
              && r.response.body.finalCost == input.finalCost
              && r.response.body.costDeducted == TruthyNum(input.finalCost)
              && r.db.leads == db.leads && r.db.campaigns == db.campaigns
    ensures r.response.Json200? && TruthyNum(input.finalCost) ==>
              var k := ClientIndex(db.clients, input.clientId).value;
              && r.db.transactions == db.transactions
                   + [Transaction(db.nextId + 1, input.clientId, input.finalCost.value, Debit,
                                  ChargeReason(db.nextId), Some(NatToString(db.nextId)), true)]
              && |r.db.clients| == |db.clients|
              && r.db.clients[k].balance == db.clients[k].balance - input.finalCost.value
              && (forall j :: 0 <= j < |db.clients| && j != k ==> r.db.clients[j] == db.clients[j])
    ensures r.response.Json200? && !TruthyNum(input.finalCost) ==>
              r.db.transactions == db.transactions && r.db.clients == db.clients
  {
    if !Authenticated(session) then Outcome(db, Status(401, "Unauthorized"))
    else
      match ClientIndex(db.clients, input.clientId)
      case None => Outcome(db, Status(500, "Internal Server Error"))
      case Some(k) =>
        var call := NewCall(db.nextId, input, now);
        if TruthyNum(call.finalCost) && !call.costDeducted then
          var amount := call.finalCost.value;
          var tx := Transaction(db.nextId + 1, call.clientId, amount, Debit,
                                ChargeReason(call.id), Some(NatToString(call.id)), true);
          var client := db.clients[k];
          var charged := call.(costDeducted := true);
          Outcome(db.(calls := db.calls + [charged],
                      transactions := db.transactions + [tx],
                      clients := db.clients[k := client.(balance := client.balance - amount)],
                      nextId := db.nextId + 2),
                  Json200(charged))
        else
          Outcome(db.(calls := db.calls + [call], nextId := db.nextId + 1), Json200(call))
  }

  /** A field as written: the sent value, else the old one. */
  function Sent<T>(sent: Option<T>, current: T): (r: T)
    ensures sent.Some? ==> r == sent.value
    ensures sent.None? ==> r == current
  {
    if sent.Some? then sent.value else current
  }

  /** A nullable column as written: the sent value, else the old one. */
  function SentOption<T>(sent: Option<T>, current: Option<T>): (r: Option<T>)
    ensures sent.Some? ==> r == sent
    ensures sent.None? ==> r == current
  {
    if sent.Some? then sent else current
  }

  /** The call after Prisma writes the body's fields onto it. */
  function ApplyPatch(c: Call, p: CallPatch): (r: Call)
    ensures KeyKept(c, r)
    ensures LinksPatched(c, r, p)
    ensures StatusPatched(c, r, p)
    ensures CostsPatched(c, r, p)
  {
    Call(c.id, Sent(p.clientId, c.clientId), SentOption(p.leadId, c.leadId),
         SentOption(p.campaignId, c.campaignId), SentOption(p.vapiCallId, c.vapiCallId),
         SentOption(p.callType, c.callType), Sent(p.callStatus, c.callStatus),
         SentOption(p.customerNumber, c.customerNumber), SentOption(p.startedAt, c.startedAt),
         SentOption(p.endedAt, c.endedAt), SentOption(p.durationInSeconds, c.durationInSeconds),
         SentOption(p.cost, c.cost), SentOption(p.finalCost, c.finalCost),
         Sent(p.costDeducted, c.costDeducted), Sent(p.details, c.details),
         c.createdAt, c.updatedAt)
  }

  /** Every field the body sends is written, and every field it does not
      send keeps its old value; the key and timestamps never change. */
  predicate PatchRespected(before: Call, after: Call, p: CallPatch) {
    KeyKept(before, after) && LinksPatched(before, after, p)
    && StatusPatched(before, after, p) && CostsPatched(before, after, p)
  }

  predicate KeyKept(before: Call, after: Call) {
    after.id == before.id && after.createdAt == before.createdAt && after.updatedAt == before.updatedAt
  }

  /** The client, lead, campaign, provider id and call type. */
  predicate LinksPatched(before: Call, after: Call, p: CallPatch) {
    && (p.clientId.Some? ==> after.clientId == p.clientId.value) && (p.clientId.None? ==> after.clientId == before.clientId)
    && (p.leadId.Some? ==> after.leadId == p.leadId) && (p.leadId.None? ==> after.leadId == before.leadId)
    && (p.campaignId.Some? ==> after.campaignId == p.campaignId) && (p.campaignId.None? ==> after.campaignId == before.campaignId)
    && (p.vapiCallId.Some? ==> after.vapiCallId == p.vapiCallId) && (p.vapiCallId.None? ==> after.vapiCallId == before.vapiCallId)
    && (p.callType.Some? ==> after.callType == p.callType) && (p.callType.None? ==> after.callType == before.callType)
  }

  /** The status, number and times. */
  predicate StatusPatched(before: Call, after: Call, p: CallPatch) {
    && (p.callStatus.Some? ==> after.callStatus == p.callStatus.value) && (p.callStatus.None? ==> after.callStatus == before.callStatus)
    && (p.customerNumber.Some? ==> after.customerNumber == p.customerNumber) && (p.customerNumber.None? ==> after.customerNumber == before.customerNumber)
    && (p.startedAt.Some? ==> after.startedAt == p.startedAt) && (p.startedAt.None? ==> after.startedAt == before.startedAt)
    && (p.endedAt.Some? ==> after.endedAt == p.endedAt) && (p.endedAt.None? ==> after.endedAt == before.endedAt)
    && (p.durationInSeconds.Some? ==> after.durationInSeconds == p.durationInSeconds) && (p.durationInSeconds.None? ==> after.durationInSeconds == before.durationInSeconds)
  }

  /** The costs and the provider's details. */
  predicate CostsPatched(before: Call, after: Call, p: CallPatch) {
    && (p.cost.Some? ==> after.cost == p.cost) && (p.cost.None? ==> after.cost == before.cost)
    && (p.finalCost.Some? ==> after.finalCost == p.finalCost) && (p.finalCost.None? ==> after.finalCost == before.finalCost)
    && (p.details.Some? ==> after.details == p.details.value) && (p.details.None? ==> after.details == before.details)
  }

  /** `PUT`, as written: look the call up by `id` (404 "Call not found" and
      no writes when absent); when the body's `final_cost` is truthy and the
      call is not yet deducted, write one processed DEBIT for it — with no
      `reference` — and add `costDeducted = true` to the body; then write
      the body onto the call. The client's balance is never touched, and a
      `costDeducted` sent in the body is written like any other field. */
  function Put(db: Db, session: Option<Session>, id: Id, patch: CallPatch): (r: Outcome<Call>)
    ensures !Authenticated(session) ==> r == Outcome(db, Status(401, "Unauthorized"))
    ensures Authenticated(session) && CallIndex(db.calls, id).None? ==>
              r == Outcome(db, Status(404, "Call not found"))
    ensures r.response.Json200? ==>
              var k := CallIndex(db.calls, id).value;
              && CallIndex(db.calls, id).Some?
              && r.db.clients == db.clients
              && r.db.calls == db.calls[k := r.response.body]
              && r.db.leads == db.leads && r.db.campaigns == db.campaigns
              && PatchRespected(db.calls[k], r.response.body, patch)
    ensures r.response.Json200? && db.calls[CallIndex(db.calls, id).value].costDeducted ==>
              r.db.transactions == db.transactions
              && r.response.body.costDeducted == patch.costDeducted.GetOr(true)
    ensures r.response.Json200? && !TruthyNum(patch.finalCost) ==>
              r.db.transactions == db.transactions
    ensures r.response.Json200? && TruthyNum(patch.finalCost)
            && !db.calls[CallIndex(db.calls, id).value].costDeducted ==>
              && r.db.transactions == db.transactions
                   + [Transaction(db.nextId, db.calls[CallIndex(db.calls, id).value].clientId,
                                  patch.finalCost.value, Debit, ChargeReason(id), None, true)]
              && r.response.body.costDeducted
  {
    if !Authenticated(session) then Outcome(db, Status(401, "Unauthorized"))
    else
      match CallIndex(db.calls, id)
      case None => Outcome(db, Status(404, "Call not found"))
      case Some(k) =>
        var call := db.calls[k];
        if TruthyNum(patch.finalCost) && !call.costDeducted then
          var tx := Transaction(db.nextId, call.clientId, patch.finalCost.value, Debit,
                                ChargeReason(call.id), None, true);
          var updated := ApplyPatch(call, patch.(costDeducted := Some(true)));
          Outcome(db.(calls := db.calls[k := updated],
                      transactions := db.transactions + [tx],
                      nextId := db.nextId + 1),
                  Json200(updated))
        else
          var updated := ApplyPatch(call, patch);
          Outcome(db.(calls := db.calls[k := updated]), Json200(updated))
  }

  /** `PUT` as the ledger invariant needs it: the same guard, but the debit
      also decrements the client's balance in the same step, and a
      `costDeducted` sent by the caller is ignored. A call whose client is
      missing fails and nothing is written. */
  function PutCharged(db: Db, session: Option<Session>, id: Id, patch: CallPatch): (r: Outcome<Call>)
    ensures !Authenticated(session) ==> r == Outcome(db, Status(401, "Unauthorized"))
    ensures Authenticated(session) && CallIndex(db.calls, id).None? ==>
              r == Outcome(db, Status(404, "Call not found"))
    ensures r.response.Json200? ==>
              var k := CallIndex(db.calls, id).value;
              && CallIndex(db.calls, id).Some?
              && r.db.calls == db.calls[k := r.response.body]
              && PatchRespected(db.calls[k], r.response.body, patch)
              && r.response.body.costDeducted == (db.calls[k].costDeducted || TruthyNum(patch.finalCost))
  {
    if !Authenticated(session) then Outcome(db, Status(401, "Unauthorized"))
    else
      match CallIndex(db.calls, id)
      case None => Outcome(db, Status(404, "Call not found"))
      case Some(k) =>
        var call := db.calls[k];
        var body := patch.(costDeducted := None);
        if TruthyNum(patch.finalCost) && !call.costDeducted then
          match ClientIndex(db.clients, call.clientId)
          case None => Outcome(db, Status(500, "Internal Server Error"))
          case Some(c) =>
            var amount := patch.finalCost.value;
            var tx := Transaction(db.nextId, call.clientId, amount, Debit,
                                  ChargeReason(call.id), None, true);
            var client := db.clients[c];
            var updated := ApplyPatch(call, body.(costDeducted := Some(true)));
            Outcome(db.(calls := db.calls[k := updated],
                        transactions := db.transactions + [tx],
                        clients := db.clients[c := client.(balance := client.balance - amount)],
                        nextId := db.nextId + 1),
                    Json200(updated))
        else
          var updated := ApplyPatch(call, body);
          Outcome(db.(calls := db.calls[k := updated]), Json200(updated))
  }

  /** `GET`: the caller's calls, newest first. */
  function List(db: Db, session: Option<Session>): (r: Response<seq<Call>>)
    ensures !Authenticated(session) ==> r == Status(401, "Unauthorized")
    ensures Authenticated(session) && session.value.userId.value !in db.userClients ==>
              r == Status(404, "Client not found")
    ensures r.Json200? ==>
              var client := db.userClients[session.value.userId.value];
              && SortedDesc(r.body, CallCreated)
              && (forall i :: 0 <= i < |r.body| ==> r.body[i].clientId == client && r.body[i] in db.calls)
              && (forall i :: 0 <= i < |db.calls| && db.calls[i].clientId == client ==> db.calls[i] in r.body)
  {
    if !Authenticated(session) then Status(401, "Unauthorized")
    else if session.value.userId.value !in db.userClients then Status(404, "Client not found")
    else
      var client := db.userClients[session.value.userId.value];
      SortedFilterMembers(db.calls, (c: Call) => c.clientId == client, CallCreated);
      Json200(SortDesc(Filter(db.calls, (c: Call) => c.clientId == client), CallCreated))
  }
}
