/** The database the route handlers read and write (the Prisma models
    `Client`, `Transaction`, `Call`, `Lead`, `Campaign`, `LeadImport` and
    `Setting`), held as tables in primary-key order, plus the ledger
    quantities the billing properties are stated in. */
module Store {
  import opened Wrappers
  import opened Decimal
  import opened Ordering

  type Id = nat

  /** A JSON value as stored in a `Json` column or sent in a request body. */
  datatype Json =
    | JNull
    | JBool(b: bool)
    | JNum(n: real)
    | JStr(s: string)
    | JArr(items: seq<Json>)
    | JObj(fields: seq<(string, Json)>)

  /** The value of the first field named `name` of an object, if any
      (`obj?.name` for a present, non-`undefined` field). */
  function Field(j: Json, name: string): Option<Json> {
    if !j.JObj? then None
    else
      match FirstIndex(j.fields, (f: (string, Json)) => f.0 == name)
      case Some(i) => Some(j.fields[i].1)
      case None => None
  }

  /** JavaScript truthiness of a JSON value that may be absent. */
  predicate TruthyJson(j: Option<Json>) {
    j.Some? && j.value != JNull && j.value != JBool(false) && j.value != JNum(0.0) && j.value != JStr("")
  }

  /** The signed-in user as `getServerSession` / `auth()` report it. */
  datatype Session = Session(userId: Option<Id>, email: Option<string>)

  datatype Client = Client(id: Id, userId: Id, balance: real)

  datatype TxKind = Credit | Debit

  datatype Transaction = Transaction(
    id: Id,
    clientId: Id,
    amount: real,
    kind: TxKind,
    reason: string,
    reference: Option<string>,
    processed: bool)

  /** Provider payload fields of a call that the core copies but never
      interprets. */
  datatype CallDetails = CallDetails(
    transcript: Option<string>,
    recordingUrl: Option<string>,
    stereoRecordingUrl: Option<string>,
    summary: Option<string>,
    endedReason: Option<string>,
    webCallUrl: Option<string>,
    assistantId: Option<string>,
    costBreakdown: Option<Json>,
    analysis: Option<Json>,
    messages: Option<Json>)

  /** A call with none of the provider payload fields. */
  const NoDetails := CallDetails(None, None, None, None, None, None, None, None, None, None)

  datatype Call = Call(
    id: Id,
    clientId: Id,
    leadId: Option<Id>,
    campaignId: Option<Id>,
    vapiCallId: Option<string>,
    callType: Option<string>,
    callStatus: string,
    customerNumber: Option<string>,
    startedAt: Option<int>,
    endedAt: Option<int>,
    durationInSeconds: Option<int>,
    cost: Option<real>,
    finalCost: Option<real>,
    costDeducted: bool,
    details: CallDetails,
    createdAt: int,
    updatedAt: int)

  datatype Lead = Lead(
    id: Id,
    clientId: Id,
    phoneNumber: string,
    name: Option<string>,
    callStatus: string,
    campaignId: Option<Id>,
    importId: Option<Id>)

  datatype Campaign = Campaign(
    id: Id,
    clientId: Id,
    name: string,
    campaignType: string,
    status: string,
    totalLeads: int,
    processedLeads: int,
    estimatedSeconds: real,
    actualSeconds: int,
    createdAt: int)

  datatype LeadImport = LeadImport(id: Id, clientId: Id, fileName: string, totalLeads: nat)

  datatype Setting = Setting(
    id: Id,
    key: string,
    value: Json,
    category: Option<string>,
    displayLabel: Option<string>,
    description: Option<string>,
    isSystem: bool)

  /** The whole database. `userClients` answers `client.findFirst({ userId })`
      and `emailClients` answers `user.findUnique({ email }).client`;
      `nextId` is the next free auto-increment key. */
  datatype Db = Db(
    clients: seq<Client>,
    calls: seq<Call>,
    transactions: seq<Transaction>,
    leads: seq<Lead>,
    campaigns: seq<Campaign>,
    imports: seq<LeadImport>,
    settings: seq<Setting>,
    userClients: map<Id, Id>,
    emailClients: map<string, Id>,
    nextId: Id)

  /** An HTTP answer: a JSON body or an error status with its message. */
  datatype Response<T> = Json200(body: T) | Status(code: int, message: string)

  /** A handler's effect: the database afterwards and the answer. */
  datatype Outcome<T> = Outcome(db: Db, response: Response<T>)

  /** The sort key of `orderBy: { createdAt: 'desc' }` on calls. */
  function CallCreated(c: Call): int {
    c.createdAt
  }

  /** The sort key of `orderBy: { createdAt: 'desc' }` on campaigns. */
  function CampaignCreated(c: Campaign): int {
    c.createdAt
  }

  /** Every call key is below `nextId` and no two calls share a key. */
  predicate CallKeysFresh(db: Db) {
    && (forall i :: 0 <= i < |db.calls| ==> db.calls[i].id < db.nextId)
    && (forall i, j :: 0 <= i < j < |db.calls| ==> db.calls[i].id != db.calls[j].id)
  }

  function CallIndex(calls: seq<Call>, id: Id): (r: Option<nat>)
    ensures r.Some? ==> r.value < |calls| && calls[r.value].id == id
    ensures r.None? ==> forall i :: 0 <= i < |calls| ==> calls[i].id != id
  {
    FirstIndex(calls, (c: Call) => c.id == id)
  }

  function ClientIndex(clients: seq<Client>, id: Id): (r: Option<nat>)
    ensures r.Some? ==> r.value < |clients| && clients[r.value].id == id
    ensures r.None? ==> forall i :: 0 <= i < |clients| ==> clients[i].id != id
  {
    FirstIndex(clients, (c: Client) => c.id == id)
  }

  function CampaignIndex(campaigns: seq<Campaign>, id: Id): (r: Option<nat>)
    ensures r.Some? ==> r.value < |campaigns| && campaigns[r.value].id == id
    ensures r.Some? ==> forall j :: 0 <= j < r.value ==> campaigns[j].id != id
    ensures r.None? ==> forall i :: 0 <= i < |campaigns| ==> campaigns[i].id != id
  {
    FirstIndex(campaigns, (c: Campaign) => c.id == id)
  }

  // ---------------------------------------------------------------------------
  // Ledger

  /** A transaction's effect on its client's balance. */
  function Signed(t: Transaction): real {
    if t.kind == Credit then t.amount else -t.amount
  }

  /** The sum of a client's signed transactions. */
  function Net(txs: seq<Transaction>, client: Id): real {
    if |txs| == 0 then 0.0
    else
      Net(txs[..|txs| - 1], client)
      + (if txs[|txs| - 1].clientId == client then Signed(txs[|txs| - 1]) else 0.0)
  }

  /** Every client's balance equals the sum of its transactions. */
  predicate LedgerBalanced(db: Db) {
    forall i :: 0 <= i < |db.clients| ==> db.clients[i].balance == Net(db.transactions, db.clients[i].id)
  }

  /** The `reason` text of the debit for a call. */
  function ChargeReason(callId: Id): string {
    "Call charge for call ID: " + NatToString(callId)
  }

  /** Distinct calls are charged under distinct reasons. */
  lemma ChargeReasonInjective(a: Id, b: Id)
    requires ChargeReason(a) == ChargeReason(b)
    ensures a == b
  {
    ConcatInjective("Call charge for call ID: ", "Call charge for call ID: ", NatToString(a), NatToString(b));
    NatToStringInjective(a, b);
  }

  predicate IsChargeFor(t: Transaction, callId: Id) {
    t.kind == Debit && t.reason == ChargeReason(callId)
  }

  /** How many debits the ledger holds for one call. */
  function DebitsFor(txs: seq<Transaction>, callId: Id): nat {
    Count(txs, (t: Transaction) => IsChargeFor(t, callId))
  }

  /** Some call with this key has had its cost deducted. */
  predicate Deducted(calls: seq<Call>, id: Id) {
    exists i | 0 <= i < |calls| :: calls[i].id == id && calls[i].costDeducted
  }

  /** At most one debit per call, and none for a call whose cost is not
      marked deducted (nor for a key no call has). */
  ghost predicate AtMostOneDebit(db: Db) {
    forall id: Id :: DebitsFor(db.transactions, id) <= (if Deducted(db.calls, id) then 1 else 0)
  }

  /** Appending one transaction adds its signed amount to its own client's
      sum and nothing to any other client's. */
  lemma NetAppend(txs: seq<Transaction>, t: Transaction, client: Id)
    ensures Net(txs + [t], client) == Net(txs, client) + (if t.clientId == client then Signed(t) else 0.0)
  {
    assert (txs + [t])[..|txs|] == txs;
  }

  /** Appending one transaction counts only towards the call it charges. */
  lemma DebitsAppend(txs: seq<Transaction>, t: Transaction, callId: Id)
    ensures DebitsFor(txs + [t], callId) == DebitsFor(txs, callId) + (if IsChargeFor(t, callId) then 1 else 0)
  {
    assert (txs + [t])[..|txs|] == txs;
  }
}
