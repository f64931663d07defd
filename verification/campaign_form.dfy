/** The new-campaign form of the client dashboard
    (`src/app/dashboard/client/campaign/add/page.tsx`): the cost estimate
    of two dollars per lead, the checks `handleSubmit` makes before sending
    anything, and the requests it sends: the campaign is always created as
    a draft, and only a campaign submitted to run is then started. What the
    server answered to each request is a parameter. */
module CampaignForm {
  import opened Wrappers
  import opened Store
  import LeadImports
  import Campaigns
  import CampaignStatuses

  /** The assumed cost of one call. */
  const CostPerLead: real := 2.0

  /** The estimate shown and sent with the campaign. */
  function EstimatedCost(leads: nat): (c: real)
    ensures c >= 0.0
    ensures leads == 0 <==> c == 0.0
  {
    leads as real * CostPerLead
  }

  /** The two submit buttons. */
  datatype SubmitMode = SaveDraft | StartRunning

  /** The requests the form sends, in order. The run request names the
      value the form put into its path: `None` stands for `undefined`. */
  datatype FormRequest =
    | CreateCampaign(name: string, campaignType: string, status: string, totalLeads: nat,
                     leads: seq<LeadImports.LeadData>, estimatedCost: real)
    | RunCampaign(target: Option<Json>)

  /** What a submit did: the requests sent, the alert shown (if any) and
      whether it moved on to the campaign list. */
  datatype Submitted = Submitted(requests: seq<FormRequest>, alert: Option<string>, navigated: bool)

  const MissingInput: string := "Please provide campaign name and upload leads"
  const InsufficientBalance: string := "Insufficient balance to run this campaign"

  /** `errorData.error || fallback`. */
  function ErrorText(error: Option<string>, fallback: string): string {
    if TruthyStr(error) then error.value else fallback
  }

  /** The create request for the form's contents. */
  function CreateRequest(name: string, leads: seq<LeadImports.LeadData>): (r: FormRequest)
    ensures r.CreateCampaign? && r.name == name && r.leads == leads && r.totalLeads == |leads|
    ensures r.status == CampaignStatuses.StatusDraft
    ensures r.estimatedCost == EstimatedCost(|leads|)
  {
    CreateCampaign(name, "Call", CampaignStatuses.StatusDraft, |leads|, leads, EstimatedCost(|leads|))
  }

  /** The body `POST /api/campaigns` answers with on success: the
      campaign's fields sit under `data`, not at the top level. Of those
      fields only the id is modelled. */
  function CreatedAnswer(id: Id): Json {
    JObj([("success", JBool(true)), ("data", JObj([("id", JNum(id as real))])),
          ("message", JStr("Campaign created successfully"))])
  }

  /** `campaign.id` as the form reads it: a field of the answer's top
      level. */
  function RunTargetAsWritten(answer: Json): Option<Json> {
    Field(answer, "id")
  }

  /** The id where the route puts it, `campaign.data.id`. */
  function RunTargetCorrected(answer: Json): Option<Json> {
    match Field(answer, "data")
    case Some(d) => Field(d, "id")
    case None => None
  }

  /** As written, the run request is sent for an id the answer does not
      have at its top level: the path becomes `/api/campaigns/undefined/run`. */
  lemma RunTargetAsWrittenMissing(id: Id)
    ensures RunTargetAsWritten(CreatedAnswer(id)) == None
  {
    var fields := CreatedAnswer(id).fields;
    assert fields[0].0 == "success" && fields[1].0 == "data" && fields[2].0 == "message";
    assert forall i :: 0 <= i < |fields| ==> fields[i].0 != "id";
  }

  /** Read under `data`, the id is the new campaign's. */
  lemma RunTargetCorrectedFinds(id: Id)
    ensures RunTargetCorrected(CreatedAnswer(id)) == Some(JNum(id as real))
  {
    var fields := CreatedAnswer(id).fields;
    assert fields[0].0 == "success" && fields[1].0 == "data";
    assert Field(CreatedAnswer(id), "data") == Some(JObj([("id", JNum(id as real))]));
  }

  /** `handleSubmit`. The balance is `None` when the fetched balance is not
      a number. `created` is the body the create request answered with, or
      the server's error text; the run request's path is built from it as
      the form reads it, `RunTargetAsWritten`. `started` is the run
      endpoint's answer, consulted only when the campaign is to run. */
  function Submit(mode: SubmitMode, name: string, leads: seq<LeadImports.LeadData>, balance: Option<real>,
                  created: Result<Json, Option<string>>, started: Result<(), Option<string>>): (r: Submitted)
    ensures name == "" || |leads| == 0 ==> r == Submitted([], Some(MissingInput), false)
    ensures (&& name != "" && |leads| > 0 && mode == StartRunning
             && balance.Some? && EstimatedCost(|leads|) > balance.value) ==> r == Submitted([], Some(InsufficientBalance), false)
    ensures |r.requests| > 0 ==> r.requests[0] == CreateRequest(name, leads)
    ensures |r.requests| <= 2
    ensures |r.requests| == 2 <==> mode == StartRunning && |r.requests| > 0 && created.Ok?
    ensures |r.requests| == 2 ==> r.requests[1] == RunCampaign(RunTargetAsWritten(created.value))
    ensures r.navigated <==> |r.requests| > 0 && created.Ok? && (mode == SaveDraft || started.Ok?)
    ensures r.navigated <==> r.alert.None?
  {
    if name == "" || |leads| == 0 then Submitted([], Some(MissingInput), false)
    else if mode == StartRunning && balance.Some? && EstimatedCost(|leads|) > balance.value then
      Submitted([], Some(InsufficientBalance), false)
    else
      var create := CreateRequest(name, leads);
      match created
      case Err(e) => Submitted([create], Some(ErrorText(e, "Failed to create campaign")), false)
      case Ok(answer) =>
        if mode == SaveDraft then Submitted([create], None, true)
        else
          var sent := [create, RunCampaign(RunTargetAsWritten(answer))];
          assert mode == StartRunning && |sent| == 2;
          match started
          case Err(e) => Submitted(sent, Some(ErrorText(e, "Failed to run campaign")), false)
          case Ok(_) => Submitted(sent, None, true)
  }

  /** A draft is never held back by the balance: with a name and leads it
      is always sent. */
  lemma DraftNotBalanceChecked(name: string, leads: seq<LeadImports.LeadData>, balance: Option<real>,
                               created: Result<Json, Option<string>>, started: Result<(), Option<string>>)
    requires name != "" && |leads| > 0
    ensures Submit(SaveDraft, name, leads, balance, created, started).requests == [CreateRequest(name, leads)]
  {
  }

  /** The run endpoint is called only after the campaign was created, with
      the path built from the create answer's top-level `id`. */
  lemma RunFollowsCreate(name: string, leads: seq<LeadImports.LeadData>, balance: Option<real>,
                         created: Result<Json, Option<string>>, started: Result<(), Option<string>>, i: nat)
    requires var r := Submit(StartRunning, name, leads, balance, created, started);
             i < |r.requests| && r.requests[i].RunCampaign?
    ensures var r := Submit(StartRunning, name, leads, balance, created, started);
            && i == 1 && r.requests[0].CreateCampaign? && created.Ok?
            && r.requests[i].target == Field(created.value, "id")
  {
  }

  /** A balance that failed to parse stops nothing: comparisons with `NaN`
      are false, so even a campaign to run goes out. */
  lemma UnreadBalanceLetsRunThrough(name: string, leads: seq<LeadImports.LeadData>, answer: Json)
    requires name != "" && |leads| > 0
    ensures Submit(StartRunning, name, leads, None, Ok(answer), Ok(())).requests
              == [CreateRequest(name, leads), RunCampaign(RunTargetAsWritten(answer))]
  {
  }

  /** With the answer the campaign route gives, a campaign submitted to run
      is started at `/api/campaigns/undefined/run`: the run request names no
      campaign, whichever id the new campaign got. */
  lemma SubmitRunsUndefined(name: string, leads: seq<LeadImports.LeadData>, balance: Option<real>, id: Id,
                            started: Result<(), Option<string>>)
    requires name != "" && |leads| > 0
    requires balance.None? || EstimatedCost(|leads|) <= balance.value
    ensures Submit(StartRunning, name, leads, balance, Ok(CreatedAnswer(id)), started).requests
              == [CreateRequest(name, leads), RunCampaign(None)]
  {
    RunTargetAsWrittenMissing(id);
  }

  /** The create request as the campaign route reads it. The route reads
      `estimatedSeconds`, which the form does not send. */
  function AsRouteRequest(req: FormRequest): Campaigns.CampaignRequest
    requires req.CreateCampaign?
  {
    Campaigns.CampaignRequest(Some(req.name), Some(req.campaignType), Some(req.status), Some(req.totalLeads),
                              Some(seq(|req.leads|, i requires 0 <= i < |req.leads| => req.leads[i].phoneNumber)), None)
  }

  /** What the form sends becomes a draft campaign with one lead per
      uploaded row, processed nothing, and no estimated seconds: the
      estimate the form computed does not reach the campaign. */
  lemma FormCreatesDraft(db: Db, session: Option<Session>, name: string, leads: seq<LeadImports.LeadData>, now: int)
    requires name != ""
    requires Campaigns.Caller(db, session).Ok?
    ensures var r := Campaigns.Create(db, session, AsRouteRequest(CreateRequest(name, leads)), now);
            && r.db.campaigns[|db.campaigns|].status == CampaignStatuses.StatusDraft
            && r.db.campaigns[|db.campaigns|].totalLeads == |leads|
            && r.db.campaigns[|db.campaigns|].estimatedSeconds == 0.0
            && r.db.campaigns[|db.campaigns|].name == name
  {
    var req := AsRouteRequest(CreateRequest(name, leads));
    assert TruthyStr(req.name) by { assert req.name == Some(name); }
  }
}
