/** The campaign routes of `src/app/api/campaigns/route.ts`: `GET` lists the
    caller's campaigns newest first; `POST` creates a campaign, assigns it
    one lead per requested phone number (reusing the client's existing lead
    for a number, creating the others) and queues one `Pending` outbound
    call per written lead. The steps are separate writes, not one
    transaction: a failure while creating leads leaves the campaign and
    the leads written so far in place. */
module Campaigns {
  import opened Wrappers
  import opened Ordering
  import opened Store
  import CampaignStatuses

  /** The request body; `leads` holds the requested phone numbers. */
  datatype CampaignRequest = CampaignRequest(
    name: Option<string>,
    campaignType: Option<string>,
    status: Option<string>,
    totalLeads: Option<int>,
    leads: Option<seq<string>>,
    estimatedSeconds: Option<real>)

  const NotInitiated: string := "Not Initiated"
  const Pending: string := "Pending"
  const OutboundPhoneCall: string := "outboundPhoneCall"
  const MissingFields: string := "Missing required fields: name, type, and leads are required"

  predicate IsLeadOf(l: Lead, client: Id, phone: string) {
    l.clientId == client && l.phoneNumber == phone
  }

  /** The client has a lead for this phone number. */
  predicate HasLead(leads: seq<Lead>, client: Id, phone: string) {
    exists i | 0 <= i < |leads| :: IsLeadOf(leads[i], client, phone)
  }

  /** No two leads share a client and a phone number (the
      `clientId_phoneNumber` unique key). */
  predicate LeadKeysUnique(leads: seq<Lead>) {
    forall i, j :: 0 <= i < j < |leads| ==> !IsLeadOf(leads[j], leads[i].clientId, leads[i].phoneNumber)
  }

  lemma HasLeadAppend(a: seq<Lead>, b: seq<Lead>, client: Id, phone: string)
    ensures HasLead(a + b, client, phone) <==> HasLead(a, client, phone) || HasLead(b, client, phone)
  {
    if HasLead(a + b, client, phone) {
      var i :| 0 <= i < |a + b| && IsLeadOf((a + b)[i], client, phone);
      if i >= |a| {
        assert IsLeadOf(b[i - |a|], client, phone);
      }
    }
    if HasLead(a, client, phone) {
      var i :| 0 <= i < |a| && IsLeadOf(a[i], client, phone);
      assert (a + b)[i] == a[i];
    }
    if HasLead(b, client, phone) {
      var i :| 0 <= i < |b| && IsLeadOf(b[i], client, phone);
      assert (a + b)[|a| + i] == b[i];
    }
  }

  function NewLead(id: Id, client: Id, phone: string, cid: Id): Lead {
    Lead(id, client, phone, None, NotInitiated, Some(cid), None)
  }

  /** Appending a lead for a key not yet present keeps keys unique. */
  lemma AppendFreshLead(leads: seq<Lead>, l: Lead)
    requires LeadKeysUnique(leads)
    requires !HasLead(leads, l.clientId, l.phoneNumber)
    ensures LeadKeysUnique(leads + [l])
  {
    var all := leads + [l];
    forall i, j | 0 <= i < j < |all| ensures !IsLeadOf(all[j], all[i].clientId, all[i].phoneNumber) {
      if j == |leads| {
        assert all[i] == leads[i];
        if IsLeadOf(all[j], all[i].clientId, all[i].phoneNumber) {
          assert IsLeadOf(leads[i], l.clientId, l.phoneNumber);
        }
      }
    }
  }

  /** Appending a lead for a new key keeps every key already present and
      adds its own. */
  lemma AppendLeadFacts(leads: seq<Lead>, created: seq<Lead>, l: Lead, phones: seq<string>)
    requires !HasLead(leads + created, l.clientId, l.phoneNumber)
    requires forall j :: 0 <= j < |phones| ==> HasLead(leads + created, l.clientId, phones[j])
    ensures forall j :: 0 <= j < |phones| ==> HasLead(leads + (created + [l]), l.clientId, phones[j])
    ensures HasLead(leads + (created + [l]), l.clientId, l.phoneNumber)
    ensures LeadKeysUnique(leads + created) ==> LeadKeysUnique(leads + (created + [l]))
  {
    assert leads + (created + [l]) == (leads + created) + [l];
    assert IsLeadOf([l][0], l.clientId, l.phoneNumber);
    HasLeadAppend(leads + created, [l], l.clientId, l.phoneNumber);
    forall j | 0 <= j < |phones| ensures HasLead(leads + (created + [l]), l.clientId, phones[j]) {
      HasLeadAppend(leads + created, [l], l.clientId, phones[j]);
    }
    if LeadKeysUnique(leads + created) {
      AppendFreshLead(leads + created, l);
    }
  }

  /** `Promise.all(newLeads.map(lead.create))`, one create per requested
      number in order: a number the client already has a lead for (one
      created a moment earlier in the same batch included) violates the
      unique key; the create fails and the whole step reports failure, while
      the other creates still land. Returns the created leads and whether
      any create failed. */
  function CreateLeads(leads: seq<Lead>, next: Id, client: Id, cid: Id, phones: seq<string>): (seq<Lead>, bool)
    decreases |phones|
  {
    if |phones| == 0 then ([], false)
    else
      var prev := CreateLeads(leads, next, client, cid, phones[..|phones| - 1]);
      var p := phones[|phones| - 1];
      if HasLead(leads + prev.0, client, p) then (prev.0, true)
      else (prev.0 + [NewLead(next + |prev.0|, client, p, cid)], prev.1)
  }

  /** Each created lead is a fresh `Not Initiated` lead of the client for a
      requested number, numbered in creation order. */
  lemma {:induction false} CreateLeadsShape(leads: seq<Lead>, next: Id, client: Id, cid: Id, phones: seq<string>)
    ensures var r := CreateLeads(leads, next, client, cid, phones);
            && |r.0| <= |phones|
            && forall i :: 0 <= i < |r.0| ==>
                 r.0[i] == NewLead(next + i, client, r.0[i].phoneNumber, cid) && r.0[i].phoneNumber in phones
    decreases |phones|
  {
    if |phones| > 0 {
      var init := phones[..|phones| - 1];
      CreateLeadsShape(leads, next, client, cid, init);
      assert forall j :: 0 <= j < |init| ==> init[j] == phones[j];
    }
  }

  /** After the creates, every requested number has a lead of the client,
      and the (client, number) key is still unique. */
  lemma {:induction false} CreateLeadsCovers(leads: seq<Lead>, next: Id, client: Id, cid: Id, phones: seq<string>)
    ensures var r := CreateLeads(leads, next, client, cid, phones);
            forall j :: 0 <= j < |phones| ==> HasLead(leads + r.0, client, phones[j])
    ensures LeadKeysUnique(leads) ==> LeadKeysUnique(leads + CreateLeads(leads, next, client, cid, phones).0)
    decreases |phones|
  {
    if |phones| > 0 {
      var init := phones[..|phones| - 1];
      var p := phones[|phones| - 1];
      CreateLeadsCovers(leads, next, client, cid, init);
      var created := CreateLeads(leads, next, client, cid, init).0;
      assert forall j :: 0 <= j < |init| ==> init[j] == phones[j];
      if !HasLead(leads + created, client, p) {
        AppendLeadFacts(leads, created, NewLead(next + |created|, client, p, cid), init);
      }
    }
  }

  /** Some create fails exactly when a requested number already has a lead
      of the client or repeats an earlier requested number. */
  lemma {:induction false} CreateLeadsFails(leads: seq<Lead>, next: Id, client: Id, cid: Id, phones: seq<string>)
    ensures CreateLeads(leads, next, client, cid, phones).1 <==>
              exists j | 0 <= j < |phones| :: HasLead(leads, client, phones[j]) || phones[j] in phones[..j]
    decreases |phones|
  {
    if |phones| > 0 {
      var init := phones[..|phones| - 1];
      var p := phones[|phones| - 1];
      CreateLeadsFails(leads, next, client, cid, init);
      CreateLeadsShape(leads, next, client, cid, init);
      CreateLeadsCovers(leads, next, client, cid, init);
      var created := CreateLeads(leads, next, client, cid, init).0;
      assert forall j :: 0 <= j < |init| ==> init[j] == phones[j] && init[..j] == phones[..j];
      assert phones[..|phones| - 1] == init;
      assert HasLead(leads + created, client, p) <==> HasLead(leads, client, p) || p in init by {
        HasLeadAppend(leads, created, client, p);
        if HasLead(created, client, p) {
          var i :| 0 <= i < |created| && IsLeadOf(created[i], client, p);
          assert created[i].phoneNumber in init;
        }
        if p in init {
          var j :| 0 <= j < |init| && init[j] == p;
          assert HasLead(leads + created, client, init[j]);
        }
      }
    }
  }

  /** A requested lead the client already has is moved to the campaign
      with its status reset to `Not Initiated`. */
  function MarkLead(l: Lead, client: Id, phones: seq<string>, cid: Id): Lead {
    if l.clientId == client && l.phoneNumber in phones
    then l.(campaignId := Some(cid), callStatus := NotInitiated)
    else l
  }

  /** One `lead.update` per lead of the client with a requested number: each such
      lead joins the campaign as `Not Initiated`, keeping everything else;
      every other lead is left as it was. */
  function MarkLeads(leads: seq<Lead>, client: Id, phones: seq<string>, cid: Id): (r: seq<Lead>)
    ensures |r| == |leads|
    ensures forall i :: 0 <= i < |leads| && leads[i].clientId == client && leads[i].phoneNumber in phones ==>
              && r[i].campaignId == Some(cid) && r[i].callStatus == NotInitiated
              && r[i].id == leads[i].id && r[i].clientId == client && r[i].phoneNumber == leads[i].phoneNumber
              && r[i].name == leads[i].name && r[i].importId == leads[i].importId
    ensures forall i :: 0 <= i < |leads| && !(leads[i].clientId == client && leads[i].phoneNumber in phones) ==>
              r[i] == leads[i]
  {
    seq(|leads|, i requires 0 <= i < |leads| => MarkLead(leads[i], client, phones, cid))
  }

  /** Marking keeps every lead's client and number, hence key uniqueness. */
  lemma MarkLeadsKeepsKeys(leads: seq<Lead>, client: Id, phones: seq<string>, cid: Id)
    ensures var m := MarkLeads(leads, client, phones, cid);
            forall i :: 0 <= i < |m| ==> m[i].id == leads[i].id && m[i].clientId == leads[i].clientId && m[i].phoneNumber == leads[i].phoneNumber
    ensures forall c: Id, p: string :: HasLead(MarkLeads(leads, client, phones, cid), c, p) <==> HasLead(leads, c, p)
    ensures LeadKeysUnique(leads) ==> LeadKeysUnique(MarkLeads(leads, client, phones, cid))
  {
    var m := MarkLeads(leads, client, phones, cid);
    forall c: Id, p: string ensures HasLead(m, c, p) <==> HasLead(leads, c, p) {
      if HasLead(m, c, p) {
        var i :| 0 <= i < |m| && IsLeadOf(m[i], c, p);
        assert IsLeadOf(leads[i], c, p);
      }
      if HasLead(leads, c, p) {
        var i :| 0 <= i < |leads| && IsLeadOf(leads[i], c, p);
        assert IsLeadOf(m[i], c, p);
      }
    }
  }

  /** The lead is one of the client's requested numbers. */
  function Requested(client: Id, phones: seq<string>): Lead -> bool {
    (l: Lead) => l.clientId == client && l.phoneNumber in phones
  }

  /** The client has no lead for the number yet. */
  function Unknown(leads: seq<Lead>, client: Id): string -> bool {
    (p: string) => !HasLead(leads, client, p)
  }

  function PendingCall(id: Id, lead: Lead, client: Id, cid: Id, now: int): Call {
    Call(id, client, Some(lead.id), Some(cid), None, Some(OutboundPhoneCall), Pending, Some(lead.phoneNumber),
         None, None, None, None, None, false, NoDetails, now, now)
  }

  /** `call.createMany`: one `Pending` outbound call per lead, in order. */
  function PendingCalls(leads: seq<Lead>, next: Id, client: Id, cid: Id, now: int): (r: seq<Call>)
    ensures |r| == |leads|
    ensures forall i :: 0 <= i < |leads| ==>
              && r[i].id == next + i && r[i].clientId == client
              && r[i].leadId == Some(leads[i].id) && r[i].campaignId == Some(cid)
              && r[i].callType == Some(OutboundPhoneCall) && r[i].callStatus == Pending
              && r[i].customerNumber == Some(leads[i].phoneNumber)
              && r[i].vapiCallId.None? && r[i].startedAt.None? && r[i].endedAt.None? && r[i].durationInSeconds.None?
              && r[i].cost.None? && r[i].finalCost.None? && !r[i].costDeducted && r[i].details == NoDetails
              && r[i].createdAt == now && r[i].updatedAt == now
  {
    seq(|leads|, i requires 0 <= i < |leads| => PendingCall(next + i, leads[i], client, cid, now))
  }

  /** The campaign row `POST` writes, with its defaults: status `Draft`,
      the number of requested leads, zero estimated seconds. */
  function NewCampaign(id: Id, client: Id, req: CampaignRequest, now: int): Campaign
    requires TruthyStr(req.name) && TruthyStr(req.campaignType) && req.leads.Some?
  {
    Campaign(id, client, req.name.value, req.campaignType.value,
             if TruthyStr(req.status) then req.status.value else CampaignStatuses.StatusDraft,
             if req.totalLeads.Some? && req.totalLeads.value != 0 then req.totalLeads.value else |req.leads.value|,
             0,
             if TruthyNum(req.estimatedSeconds) then req.estimatedSeconds.value else 0.0,
             0, now)
  }

  /** The caller's client: 401 when the session carries no email, 404 when
      no client is linked to it. */
  function Caller(db: Db, session: Option<Session>): (r: Result<Id, (int, string)>)
    ensures r.Ok? <==> session.Some? && TruthyStr(session.value.email) && session.value.email.value in db.emailClients
    ensures r.Ok? ==> r.value == db.emailClients[session.value.email.value]
    ensures r.Err? && (session.None? || !TruthyStr(session.value.email)) ==> r.error == (401, "Unauthorized")
  {
    if session.None? || !TruthyStr(session.value.email) then Err((401, "Unauthorized"))
    else if session.value.email.value !in db.emailClients then Err((404, "Client not found"))
    else Ok(db.emailClients[session.value.email.value])
  }

  /** The lead and call writes of `POST` for campaign `cid`: requested
      leads the client has are moved to the campaign, the others are
      created, and — unless a create failed — one pending call is queued per
      lead, the reused ones first. Also answers whether a create failed. */
  function AssignLeads(db: Db, client: Id, cid: Id, phones: seq<string>, now: int): (r: (Db, bool))
    ensures r.0 == db.(leads := r.0.leads, calls := r.0.calls, nextId := r.0.nextId)
    ensures r.0.nextId >= db.nextId && |r.0.leads| >= |db.leads|
    ensures r.1 == Made(db, client, cid, phones).1
    ensures r.0.leads == Marked(db, client, cid, phones) + Made(db, client, cid, phones).0
    ensures r.1 ==> r.0.calls == db.calls
    ensures !r.1 ==> r.0.calls == db.calls + QueuedCalls(db, client, cid, phones, now)
  {
    var made := Made(db, client, cid, phones);
    var leads := Marked(db, client, cid, phones) + made.0;
    if made.1 then (db.(leads := leads, nextId := db.nextId + |made.0|), true)
    else
      var calls := QueuedCalls(db, client, cid, phones, now);
      (db.(leads := leads, calls := db.calls + calls, nextId := db.nextId + |made.0| + |calls|), false)
  }

  /** The lead table after the requested leads the client has are moved. */
  function Marked(db: Db, client: Id, cid: Id, phones: seq<string>): seq<Lead> {
    MarkLeads(db.leads, client, phones, cid)
  }

  /** The moved leads, in table order. */
  function Existing(db: Db, client: Id, cid: Id, phones: seq<string>): seq<Lead> {
    Filter(Marked(db, client, cid, phones), Requested(client, phones))
  }

  /** The requested numbers the client has no lead for. */
  function NewPhones(db: Db, client: Id, phones: seq<string>): seq<string> {
    Filter(phones, Unknown(db.leads, client))
  }

  /** The leads created for the new numbers, and whether a create failed. */
  function Made(db: Db, client: Id, cid: Id, phones: seq<string>): (seq<Lead>, bool) {
    CreateLeads(Marked(db, client, cid, phones), db.nextId, client, cid, NewPhones(db, client, phones))
  }

  /** One pending call per moved or created lead. */
  function QueuedCalls(db: Db, client: Id, cid: Id, phones: seq<string>, now: int): (r: seq<Call>)
    ensures |r| == |Existing(db, client, cid, phones)| + |Made(db, client, cid, phones).0|
  {
    var made := Made(db, client, cid, phones).0;
    PendingCalls(Existing(db, client, cid, phones) + made, db.nextId + |made|, client, cid, now)
  }

  /** `POST /api/campaigns`: 401 or 404 from `Caller`, 400 when `name`,
      `type` or `leads` is missing, otherwise the campaign row is written
      first and then the leads and calls; a failed lead create answers 400
      with what was already written left in place. */
  function Create(db: Db, session: Option<Session>, req: CampaignRequest, now: int): (r: Outcome<Campaign>)
    ensures Caller(db, session).Err? ==>
              r == Outcome(db, Status(Caller(db, session).error.0, Caller(db, session).error.1))
    ensures Caller(db, session).Ok? && (!TruthyStr(req.name) || !TruthyStr(req.campaignType) || req.leads.None?) ==>
              r == Outcome(db, Status(400, MissingFields))
    ensures Caller(db, session).Ok? && TruthyStr(req.name) && TruthyStr(req.campaignType) && req.leads.Some? ==>
              && r.db.campaigns == db.campaigns + [NewCampaign(db.nextId, Caller(db, session).value, req, now)]
              && r.db.nextId >= db.nextId + 1
              && |r.db.leads| >= |db.leads|
              && (r.response.Json200? || r.response == Status(400, "Database error"))
    ensures r.response.Json200? ==>
              && r.response.body == NewCampaign(db.nextId, Caller(db, session).value, req, now)
              && r.response.body.processedLeads == 0 && r.response.body.actualSeconds == 0
    ensures r.db.clients == db.clients && r.db.transactions == db.transactions
    ensures r.response == Status(400, "Database error") ==> r.db.calls == db.calls
  {
    match Caller(db, session)
    case Err(e) => Outcome(db, Status(e.0, e.1))
    case Ok(client) =>
      if !TruthyStr(req.name) || !TruthyStr(req.campaignType) || req.leads.None? then
        Outcome(db, Status(400, MissingFields))
      else
        var campaign := NewCampaign(db.nextId, client, req, now);
        var db1 := db.(campaigns := db.campaigns + [campaign], nextId := db.nextId + 1);
        if |req.leads.value| == 0 then Outcome(db1, Json200(campaign))
        else
          var written := AssignLeads(db1, client, campaign.id, req.leads.value, now);
          if written.1 then Outcome(written.0, Status(400, "Database error"))
          else Outcome(written.0, Json200(campaign))
  }

  /** The number has a lead of the client written to the campaign, reset to
      `Not Initiated`, with a `Pending` outbound call queued for it. */
  predicate LeadReady(db: Db, client: Id, cid: Id, phone: string) {
    exists i, j | 0 <= i < |db.leads| && 0 <= j < |db.calls| ::
      && IsLeadOf(db.leads[i], client, phone)
      && db.leads[i].campaignId == Some(cid) && db.leads[i].callStatus == NotInitiated
      && db.calls[j].leadId == Some(db.leads[i].id) && db.calls[j].campaignId == Some(cid)
      && db.calls[j].callStatus == Pending && db.calls[j].customerNumber == Some(phone)
  }

  lemma LeadReadyAt(db: Db, client: Id, cid: Id, phone: string, i: nat, j: nat)
    requires i < |db.leads| && j < |db.calls|
    requires IsLeadOf(db.leads[i], client, phone)
    requires db.leads[i].campaignId == Some(cid) && db.leads[i].callStatus == NotInitiated
    requires db.calls[j].leadId == Some(db.leads[i].id) && db.calls[j].campaignId == Some(cid)
    requires db.calls[j].callStatus == Pending && db.calls[j].customerNumber == Some(phone)
    ensures LeadReady(db, client, cid, phone)
  {
  }

  /** A requested number the client already had a lead for is ready. */
  lemma ReusedLeadReady(db: Db, client: Id, cid: Id, phones: seq<string>, now: int, i: nat)
    requires !AssignLeads(db, client, cid, phones, now).1
    requires i < |db.leads| && db.leads[i].clientId == client && db.leads[i].phoneNumber in phones
    ensures LeadReady(AssignLeads(db, client, cid, phones, now).0, client, cid, db.leads[i].phoneNumber)
  {
    var after := AssignLeads(db, client, cid, phones, now).0;
    var marked := Marked(db, client, cid, phones);
    var existing := Existing(db, client, cid, phones);
    var made := Made(db, client, cid, phones).0;
    assert Requested(client, phones)(marked[i]);
    var t := FilterIndex(marked, Requested(client, phones), i);
    ReadyFromParts(after, db.calls, marked, existing, made, db.nextId + |made|, client, cid, now,
                   i, t, db.leads[i].phoneNumber);
  }

  /** A lead at position `i` of the new lead table that is also the `t`-th
      lead given a call, with its campaign and status set, makes its number
      ready. */
  lemma ReadyFromParts(after: Db, calls0: seq<Call>, marked: seq<Lead>, existing: seq<Lead>,
                       made: seq<Lead>, next: Id, client: Id, cid: Id, now: int, i: nat, t: nat, p: string)
    requires after.leads == marked + made
    requires after.calls == calls0 + PendingCalls(existing + made, next, client, cid, now)
    requires i < |after.leads| && t < |existing + made| && (existing + made)[t] == after.leads[i]
    requires IsLeadOf(after.leads[i], client, p)
    requires after.leads[i].campaignId == Some(cid) && after.leads[i].callStatus == NotInitiated
    ensures LeadReady(after, client, cid, p)
  {
    assert after.calls[|calls0| + t] == PendingCall(next + t, after.leads[i], client, cid, now);
    LeadReadyAt(after, client, cid, p, i, |calls0| + t);
  }

  /** A requested number the client had no lead for is ready. */
  lemma CreatedLeadReady(db: Db, client: Id, cid: Id, phones: seq<string>, now: int, p: string)
    requires !AssignLeads(db, client, cid, phones, now).1
    requires p in phones && !HasLead(db.leads, client, p)
    ensures LeadReady(AssignLeads(db, client, cid, phones, now).0, client, cid, p)
  {
    var marked := Marked(db, client, cid, phones);
    var existing := Existing(db, client, cid, phones);
    var made := Made(db, client, cid, phones).0;
    var u := CreatedLeadFor(db, client, cid, phones, p);
    assert (existing + made)[|existing| + u] == made[u];
    ReadyFromParts(AssignLeads(db, client, cid, phones, now).0, db.calls, marked, existing, made,
                   db.nextId + |made|, client, cid, now, |marked| + u, |existing| + u, p);
  }

  /** The position among the created leads of the lead for a requested
      number the client had no lead for. */
  lemma CreatedLeadFor(db: Db, client: Id, cid: Id, phones: seq<string>, p: string) returns (u: nat)
    requires p in phones && !HasLead(db.leads, client, p)
    ensures var made := Made(db, client, cid, phones).0;
            u < |made| && made[u] == NewLead(db.nextId + u, client, p, cid)
  {
    var marked := Marked(db, client, cid, phones);
    var newPhones := NewPhones(db, client, phones);
    var made := Made(db, client, cid, phones).0;
    MarkLeadsKeepsKeys(db.leads, client, phones, cid);
    CreateLeadsShape(marked, db.nextId, client, cid, newPhones);
    CreateLeadsCovers(marked, db.nextId, client, cid, newPhones);
    var k :| 0 <= k < |phones| && phones[k] == p;
    assert Unknown(db.leads, client)(phones[k]);
    var f := FilterIndex(phones, Unknown(db.leads, client), k);
    HasLeadAppend(marked, made, client, p);
    u :| 0 <= u < |made| && IsLeadOf(made[u], client, p);
  }

  /** A successful `POST` readies every requested number: each has the
      client's lead for it (reused or created) written to the new campaign,
      with a pending call. */
  lemma CreateReadiesEveryPhone(db: Db, session: Option<Session>, req: CampaignRequest, now: int)
    requires Create(db, session, req, now).response.Json200?
    ensures var r := Create(db, session, req, now);
            forall j :: 0 <= j < |req.leads.value| ==>
              LeadReady(r.db, Caller(db, session).value, r.response.body.id, req.leads.value[j])
  {
    var client := Caller(db, session).value;
    var phones := req.leads.value;
    var cid := db.nextId;
    var campaign := NewCampaign(db.nextId, client, req, now);
    var db1 := db.(campaigns := db.campaigns + [campaign], nextId := db.nextId + 1);
    if |phones| > 0 {
      forall j | 0 <= j < |phones| ensures LeadReady(AssignLeads(db1, client, cid, phones, now).0, client, cid, phones[j]) {
        if HasLead(db1.leads, client, phones[j]) {
          var i :| 0 <= i < |db1.leads| && IsLeadOf(db1.leads[i], client, phones[j]);
          ReusedLeadReady(db1, client, cid, phones, now, i);
        } else {
          CreatedLeadReady(db1, client, cid, phones, now, phones[j]);
        }
      }
    }
  }

  /** `POST` keeps the lead table's (client, number) key unique. */
  lemma CreateKeepsLeadKeysUnique(db: Db, session: Option<Session>, req: CampaignRequest, now: int)
    requires LeadKeysUnique(db.leads)
    ensures LeadKeysUnique(Create(db, session, req, now).db.leads)
  {
    var r := Create(db, session, req, now);
    if r.db.leads != db.leads {
      var client := Caller(db, session).value;
      var phones := req.leads.value;
      var cid := db.nextId;
      var db1 := db.(campaigns := db.campaigns + [NewCampaign(db.nextId, client, req, now)], nextId := db.nextId + 1);
      MarkLeadsKeepsKeys(db.leads, client, phones, cid);
      CreateLeadsCovers(Marked(db1, client, cid, phones), db1.nextId, client, cid, NewPhones(db1, client, phones));
    }
  }

  /** A number requested twice that the client has no lead for makes a
      create fail. */
  lemma AssignLeadsFailsOnDuplicate(db: Db, client: Id, cid: Id, phones: seq<string>, now: int, a: nat, b: nat)
    requires a < b < |phones| && phones[a] == phones[b]
    requires !HasLead(db.leads, client, phones[a])
    ensures AssignLeads(db, client, cid, phones, now).1
  {
    var p := phones[a];
    var keep := Unknown(db.leads, client);
    var newPhones := NewPhones(db, client, phones);
    FilterKeepsOrder(phones, keep, a, b);
    var x, y :| 0 <= x < y < |newPhones| && newPhones[x] == p && newPhones[y] == p;
    assert newPhones[y] in newPhones[..y];
    CreateLeadsFails(Marked(db, client, cid, phones), db.nextId, client, cid, newPhones);
  }

  /** A number requested twice that the client has no lead for makes the
      second create fail: the answer is 400 and no call is queued, while
      the campaign stays written. */
  lemma DuplicateNewPhoneRejected(db: Db, session: Option<Session>, req: CampaignRequest, now: int, a: nat, b: nat)
    requires Caller(db, session).Ok? && TruthyStr(req.name) && TruthyStr(req.campaignType) && req.leads.Some?
    requires a < b < |req.leads.value| && req.leads.value[a] == req.leads.value[b]
    requires !HasLead(db.leads, Caller(db, session).value, req.leads.value[a])
    ensures var r := Create(db, session, req, now);
            && r.response == Status(400, "Database error")
            && r.db.calls == db.calls
            && |r.db.campaigns| == |db.campaigns| + 1
  {
    var client := Caller(db, session).value;
    var campaign := NewCampaign(db.nextId, client, req, now);
    var db1 := db.(campaigns := db.campaigns + [campaign], nextId := db.nextId + 1);
    AssignLeadsFailsOnDuplicate(db1, client, db.nextId, req.leads.value, now, a, b);
  }

  /** Two positions that survive a filter keep their order in its result. */
  lemma {:induction false} FilterKeepsOrder<T>(xs: seq<T>, p: T -> bool, a: nat, b: nat)
    requires a < b < |xs| && p(xs[a]) && p(xs[b])
    ensures exists x, y :: 0 <= x < y < |Filter(xs, p)| && Filter(xs, p)[x] == xs[a] && Filter(xs, p)[y] == xs[b]
  {
    var init := xs[..|xs| - 1];
    assert xs == init + [xs[|xs| - 1]];
    var f := Filter(init, p);
    if b == |xs| - 1 {
      assert xs[a] == init[a];
      var x := FilterIndex(init, p, a);
      assert Filter(xs, p) == f + [xs[b]];
      assert Filter(xs, p)[x] == xs[a] && Filter(xs, p)[|f|] == xs[b];
    } else {
      assert xs[a] == init[a] && xs[b] == init[b];
      FilterKeepsOrder(init, p, a, b);
      var x, y :| 0 <= x < y < |f| && f[x] == xs[a] && f[y] == xs[b];
      assert Filter(xs, p)[..|f|] == f;
      assert Filter(xs, p)[x] == xs[a] && Filter(xs, p)[y] == xs[b];
    }
  }

  /** `GET /api/campaigns`: the caller's campaigns, newest first. */
  function List(db: Db, session: Option<Session>): (r: Response<seq<Campaign>>)
    ensures Caller(db, session).Err? ==> r == Status(Caller(db, session).error.0, Caller(db, session).error.1)
    ensures r.Json200? ==>
              var client := Caller(db, session).value;
              && Caller(db, session).Ok?
              && SortedDesc(r.body, CampaignCreated)
              && (forall i :: 0 <= i < |r.body| ==> r.body[i].clientId == client && r.body[i] in db.campaigns)
              && (forall i :: 0 <= i < |db.campaigns| && db.campaigns[i].clientId == client ==> db.campaigns[i] in r.body)
  {
    match Caller(db, session)
    case Err(e) => Status(e.0, e.1)
    case Ok(client) =>
      SortedFilterMembers(db.campaigns, (c: Campaign) => c.clientId == client, CampaignCreated);
      Json200(SortDesc(Filter(db.campaigns, (c: Campaign) => c.clientId == client), CampaignCreated))
  }
}
