/** The provider configuration objects of `src/lib/vapi`: the
    `VapiConfiguration` singleton of `config.ts` (the first initialisation
    wins and the accessors refuse to work before it), its non-singleton
    sibling `VapiConfigurationImpl` of `index.ts` (re-initialisation
    allowed), and `createOutboundCall` of `createOutboundCall.ts`, which
    checks the configuration and the provider's answer around one request.
    Network requests are parameters: what the provider answered, or the
    message of the error that was thrown. A thrown error is an `Err`
    carrying its message. */
module VapiConfig {
  import opened Wrappers
  import opened Strings
  import opened Store

  // ---------------------------------------------------------------------------
  // Configuration records

  datatype CallSettings = CallSettings(recordingEnabled: Option<bool>, transcriptionEnabled: Option<bool>)

  /** `VapiConfig`; `None` is a field that is not set. */
  datatype Config = Config(
    apiKey: string,
    baseUrl: Option<string>,
    assistantId: Option<string>,
    phoneNumberId: Option<string>,
    defaultCallSettings: Option<CallSettings>)

  /** An object spread over a configuration. Each field is `None` when the
      object does not have it and `Some(v)` when it does, `v` being its
      value, itself possibly `undefined`. */
  datatype Patch = Patch(
    apiKey: Option<string>,
    baseUrl: Option<Option<string>>,
    assistantId: Option<Option<string>>,
    phoneNumberId: Option<Option<string>>,
    defaultCallSettings: Option<Option<CallSettings>>)

  /** `{ ...config, ...patch }`: every field the patch has replaces the
      configuration's; the others stay. */
  function Merge(config: Config, patch: Patch): (r: Config)
    ensures patch.apiKey.Some? ==> r.apiKey == patch.apiKey.value
    ensures patch.apiKey.None? ==> r.apiKey == config.apiKey
    ensures patch.baseUrl.Some? ==> r.baseUrl == patch.baseUrl.value
    ensures patch.baseUrl.None? ==> r.baseUrl == config.baseUrl
    ensures patch.assistantId.Some? ==> r.assistantId == patch.assistantId.value
    ensures patch.assistantId.None? ==> r.assistantId == config.assistantId
    ensures patch.phoneNumberId.Some? ==> r.phoneNumberId == patch.phoneNumberId.value
    ensures patch.phoneNumberId.None? ==> r.phoneNumberId == config.phoneNumberId
    ensures patch.defaultCallSettings.Some? ==> r.defaultCallSettings == patch.defaultCallSettings.value
    ensures patch.defaultCallSettings.None? ==> r.defaultCallSettings == config.defaultCallSettings
  {
    Config(
      patch.apiKey.GetOr(config.apiKey),
      patch.baseUrl.GetOr(config.baseUrl),
      patch.assistantId.GetOr(config.assistantId),
      patch.phoneNumberId.GetOr(config.phoneNumberId),
      patch.defaultCallSettings.GetOr(config.defaultCallSettings))
  }

  /** Spreading the same object twice is spreading it once. */
  lemma MergeIdempotent(config: Config, patch: Patch)
    ensures Merge(Merge(config, patch), patch) == Merge(config, patch)
  {
  }

  /** Two spreads in a row are one spread of the later object over the
      earlier. */
  lemma MergeTwice(config: Config, p: Patch, q: Patch)
    ensures Merge(Merge(config, p), q) ==
            Merge(config, Patch(
              if q.apiKey.Some? then q.apiKey else p.apiKey,
              if q.baseUrl.Some? then q.baseUrl else p.baseUrl,
              if q.assistantId.Some? then q.assistantId else p.assistantId,
              if q.phoneNumberId.Some? then q.phoneNumberId else p.phoneNumberId,
              if q.defaultCallSettings.Some? then q.defaultCallSettings else p.defaultCallSettings))
  {
  }

  /** A configuration read as a patch: every field present. */
  function Whole(config: Config): Patch {
    Patch(Some(config.apiKey), Some(config.baseUrl), Some(config.assistantId),
          Some(config.phoneNumberId), Some(config.defaultCallSettings))
  }

  // ---------------------------------------------------------------------------
  // The singleton of config.ts

  /** The HTTP client built from a key and a base URL. */
  datatype ProviderClient = ProviderClient(apiKey: string, baseUrl: Option<string>)

  datatype State = State(config: Config, client: Option<ProviderClient>, initialized: bool)

  /** The configuration the constructor starts from. */
  const EmptyConfig: Config := Config("", None, None, None, Some(CallSettings(Some(true), Some(true))))

  const Fresh: State := State(EmptyConfig, None, false)

  /** The module-level slot `VapiConfiguration.instance`. */
  datatype Slot = Slot(instance: Option<State>)

  /** `getInstance`: the stored instance, created on first use. */
  function GetInstance(slot: Slot): (r: (Slot, State))
    ensures r.0.instance == Some(r.1)
    ensures slot.instance.Some? ==> r == (slot, slot.instance.value)
    ensures slot.instance.None? ==> r.1 == Fresh
  {
    match slot.instance
    case Some(st) => (slot, st)
    case None => (Slot(Some(Fresh)), Fresh)
  }

  /** Asking again hands back the same instance and changes nothing. */
  lemma GetInstanceStable(slot: Slot)
    ensures var (s1, a) := GetInstance(slot);
            GetInstance(s1) == (s1, a)
  {
  }

  const NotInitialized: string := "Vapi configuration not initialized. Call initialize() first."

  /** `init` and `initialize` (the two bodies are the same): the first call
      merges the given configuration over the current one and builds the
      client from the result; any later call changes nothing. */
  function Init(st: State, given: Patch): (r: State)
    ensures st.initialized ==> r == st
    ensures !st.initialized ==>
              && r.initialized
              && r.config == Merge(st.config, given)
              && r.client == Some(ProviderClient(r.config.apiKey, r.config.baseUrl))
  {
    if st.initialized then st
    else
      var config := Merge(st.config, given);
      State(config, Some(ProviderClient(config.apiKey, config.baseUrl)), true)
  }

  /** The first configuration wins: a second initialisation, with anything,
      leaves the first one's result. */
  lemma FirstInitWins(st: State, first: Patch, second: Patch)
    ensures Init(Init(st, first), second) == Init(st, first)
  {
  }

  /** `getClient`. */
  function GetClient(st: State): (r: Result<ProviderClient, string>)
    ensures r.Ok? <==> st.initialized && st.client.Some?
    ensures r.Ok? ==> r.value == st.client.value
    ensures r.Err? ==> r.error == NotInitialized
  {
    if !st.initialized || st.client.None? then Err(NotInitialized) else Ok(st.client.value)
  }

  /** `getConfig`: a copy, which in this model is the value itself. */
  function GetConfig(st: State): (r: Result<Config, string>)
    ensures r.Ok? <==> st.initialized
    ensures r.Ok? ==> r.value == st.config
    ensures r.Err? ==> r.error == NotInitialized
  {
    if !st.initialized then Err(NotInitialized) else Ok(st.config)
  }

  /** `updateConfig`: merges the new fields; the client is rebuilt only
      when the patch carries a non-empty key or base URL, otherwise it keeps
      the one built before. */
  function UpdateConfig(st: State, patch: Patch): (r: Result<State, string>)
    ensures r.Err? <==> !st.initialized
    ensures r.Err? ==> r.error == NotInitialized
    ensures r.Ok? ==> r.value.initialized && r.value.config == Merge(st.config, patch)
    ensures r.Ok? && (TruthyStr(patch.apiKey) || (patch.baseUrl.Some? && TruthyStr(patch.baseUrl.value))) ==>
              r.value.client == Some(ProviderClient(r.value.config.apiKey, r.value.config.baseUrl))
    ensures r.Ok? && !(TruthyStr(patch.apiKey) || (patch.baseUrl.Some? && TruthyStr(patch.baseUrl.value))) ==>
              r.value.client == st.client
  {
    if !st.initialized then Err(NotInitialized)
    else
      var config := Merge(st.config, patch);
      var rebuild := TruthyStr(patch.apiKey) || (patch.baseUrl.Some? && TruthyStr(patch.baseUrl.value));
      Ok(State(config, if rebuild then Some(ProviderClient(config.apiKey, config.baseUrl)) else st.client, true))
  }

  /** Updating with the whole current configuration changes nothing but
      possibly rebuilds the same client. */
  lemma UpdateWithSelf(st: State)
    requires st.initialized && st.client == Some(ProviderClient(st.config.apiKey, st.config.baseUrl))
    ensures UpdateConfig(st, Whole(st.config)) == Ok(st)
  {
  }

  /** Clearing the key through `updateConfig` leaves a client that still
      holds the old key, since an empty key does not rebuild it. */
  lemma ClearedKeyKeepsClient(st: State)
    requires st.initialized && st.client.Some? && st.config.apiKey != ""
    ensures var r := UpdateConfig(st, Patch(Some(""), None, None, None, None));
            r.Ok? && r.value.config.apiKey == "" && r.value.client == st.client
  {
  }

  function GetAssistantId(st: State): Option<string> {
    st.config.assistantId
  }

  function GetPhoneNumberId(st: State): Option<string> {
    st.config.phoneNumberId
  }

  /** The id accessors follow `updateConfig`: an id the update carries is
      answered from then on, and one it leaves out keeps its value. */
  lemma IdGettersFollowUpdates(st: State, patch: Patch)
    requires st.initialized
    ensures var r := UpdateConfig(st, patch).value;
            && GetAssistantId(r) == (if patch.assistantId.Some? then patch.assistantId.value else GetAssistantId(st))
            && GetPhoneNumberId(r) == (if patch.phoneNumberId.Some? then patch.phoneNumberId.value else GetPhoneNumberId(st))
  {
  }

  /** `getDefaultCallSettings`: a copy; spreading a missing object gives an
      empty one. */
  function GetDefaultCallSettings(st: State): (r: CallSettings)
    ensures st.config.defaultCallSettings.Some? ==> r == st.config.defaultCallSettings.value
    ensures st.config.defaultCallSettings.None? ==> r == CallSettings(None, None)
  {
    st.config.defaultCallSettings.GetOr(CallSettings(None, None))
  }

  /** `listCalls`: the provider's list, or no calls when the instance is
      not ready or the request fails (`fetched` is what the client's
      request produced). */
  function ListCalls<T>(st: State, fetched: Result<seq<T>, string>): (r: seq<T>)
    ensures !st.initialized || st.client.None? || fetched.Err? ==> r == []
    ensures st.initialized && st.client.Some? && fetched.Ok? ==> r == fetched.value
  {
    if !st.initialized || st.client.None? then []
    else
      match fetched
      case Ok(calls) => calls
      case Err(_) => []
  }

  /** `getCall`: refuses before initialisation, otherwise passes on what
      the request produced, errors included. */
  function GetCall<T>(st: State, fetched: Result<T, string>): (r: Result<T, string>)
    ensures !st.initialized || st.client.None? ==> r == Err("Vapi configuration not initialized")
    ensures st.initialized && st.client.Some? ==> r == fetched
  {
    if !st.initialized || st.client.None? then Err("Vapi configuration not initialized") else fetched
  }

  // ---------------------------------------------------------------------------
  // Phone numbers

  /** `number.startsWith('+') ? number : '+' + number`. */
  function NormalizePhone(phone: string): (r: string)
    ensures |r| > 0 && r[0] == '+'
    ensures StartsWith(phone, "+") ==> r == phone
    ensures !StartsWith(phone, "+") ==> r == "+" + phone && r[1..] == phone
  {
    if StartsWith(phone, "+") then phone else "+" + phone
  }

  /** Normalising twice is normalising once. */
  lemma NormalizeIdempotent(phone: string)
    ensures NormalizePhone(NormalizePhone(phone)) == NormalizePhone(phone)
  {
    assert StartsWith(NormalizePhone(phone), "+");
  }

  /** Normalising changes a number exactly when it lacks the `+`, and the
      digits are kept: dropping the `+` again gives the number back. */
  lemma NormalizeChangesOnlyMissingPlus(phone: string)
    ensures NormalizePhone(phone) == phone <==> StartsWith(phone, "+")
    ensures !StartsWith(phone, "+") ==> NormalizePhone(phone)[1..] == phone
  {
  }

  // ---------------------------------------------------------------------------
  // createCall of config.ts

  /** What `/api/clients/me` reports about the signed-in client. */
  datatype MeClient = MeClient(vapiKey: Option<string>, vapiAssistantId: Option<string>, vapiPhoneNumberId: Option<string>)

  /** The body `createCall` posts. */
  datatype CallRequest = CallRequest(name: string, assistantId: Option<string>, phoneNumberId: Option<string>, customerNumber: string)

  const CampaignName: string := "US Foreclosure Solution"
  const InitFailedPrefix: string := "Failed to initialize Vapi configuration: "
  const NoValidConfig: string := "No valid Vapi configuration found"

  /** `ensureInitialized`: an uninitialised instance initialises itself from
      the client's own keys (`me`: the client record, `None` when there is
      none, or the message of a failed request); missing keys are an error. */
  function EnsureInitialized(st: State, me: Result<Option<MeClient>, string>): (r: Result<State, string>)
    ensures st.initialized ==> r == Ok(st)
    ensures r.Ok? ==> r.value.initialized
    ensures !st.initialized && r.Ok? ==>
              && r.value.client.Some?
              && me.Ok? && me.value.Some?
              && TruthyStr(me.value.value.vapiKey) && TruthyStr(me.value.value.vapiAssistantId)
              && r.value.config.apiKey == me.value.value.vapiKey.value
              && r.value.config.assistantId == me.value.value.vapiAssistantId
              && r.value.config.phoneNumberId == me.value.value.vapiPhoneNumberId
    ensures r.Err? ==> StartsWith(r.error, InitFailedPrefix)
  {
    if st.initialized then Ok(st)
    else
      match me
      case Err(msg) => Err(InitFailedPrefix + msg)
      case Ok(client) =>
        if client.Some? && TruthyStr(client.value.vapiKey) && TruthyStr(client.value.vapiAssistantId) then
          var c := client.value;
          var r := Init(st, Patch(Some(c.vapiKey.value), None, Some(c.vapiAssistantId), Some(c.vapiPhoneNumberId), None));
          Ok(r)
        else
          assert (InitFailedPrefix + NoValidConfig)[..|InitFailedPrefix|] == InitFailedPrefix;
          Err(InitFailedPrefix + NoValidConfig)
  }

  /** `createCall`: the instance after initialising itself, and the request
      it posts (the provider's answer is passed on untouched and is not
      modelled). */
  function CreateCall(st: State, me: Result<Option<MeClient>, string>, customer: string): (r: (State, Result<CallRequest, string>))
    ensures r.1.Ok? ==>
              && r.0.initialized
              && r.1.value.customerNumber == NormalizePhone(customer)
              && r.1.value.assistantId == r.0.config.assistantId
              && r.1.value.phoneNumberId == r.0.config.phoneNumberId
    ensures st.initialized ==> r.0 == st && (r.1.Ok? <==> st.client.Some?)
    ensures !st.initialized ==> (r.1.Ok? <==> EnsureInitialized(st, me).Ok?)
    ensures r.1.Err? ==> r.0 == st
  {
    match EnsureInitialized(st, me)
    case Err(msg) => (st, Err(msg))
    case Ok(ready) =>
      if ready.client.None? then (ready, Err("Vapi configuration not initialized"))
      else (ready, Ok(CallRequest(CampaignName, GetAssistantId(ready), GetPhoneNumberId(ready), NormalizePhone(customer))))
  }

  // ---------------------------------------------------------------------------
  // VapiConfigurationImpl of index.ts

  datatype ImplState = ImplState(apiKey: Option<string>, assistantId: Option<string>)

  /** `init` / `initialize`: both keys overwritten, every time. */
  function ImplInit(st: ImplState, apiKey: string, assistantId: Option<string>): (r: ImplState)
    ensures r.apiKey == Some(apiKey) && r.assistantId == assistantId
  {
    ImplState(Some(apiKey), assistantId)
  }

  /** `isInitialized`: both keys set and non-empty. */
  predicate ImplIsInitialized(st: ImplState) {
    TruthyStr(st.apiKey) && TruthyStr(st.assistantId)
  }

  const ImplNotInitialized: string := "VapiConfiguration not initialized"

  /** `listCalls` and `getCall`: an error before initialisation, otherwise
      what the request produced. */
  function ImplRequest<T>(st: ImplState, fetched: Result<T, string>): (r: Result<T, string>)
    ensures !ImplIsInitialized(st) ==> r == Err(ImplNotInitialized)
    ensures ImplIsInitialized(st) ==> r == fetched
  {
    if !ImplIsInitialized(st) then Err(ImplNotInitialized) else fetched
  }

  /** Unlike the singleton, the sibling can be re-initialised: the last
      keys win, and it is ready exactly when they are both non-empty. */
  lemma ImplLastInitWins(st: ImplState, k1: string, a1: Option<string>, k2: string, a2: Option<string>)
    ensures ImplInit(ImplInit(st, k1, a1), k2, a2) == ImplInit(st, k2, a2)
    ensures ImplIsInitialized(ImplInit(st, k2, a2)) <==> k2 != "" && TruthyStr(a2)
  {
  }

  /** The two differ: the singleton ignores a second initialisation that
      the sibling takes. */
  lemma SingletonAndSiblingDiffer()
    ensures var p1 := Patch(Some("k1"), None, Some(Some("a1")), None, None);
            var p2 := Patch(Some("k2"), None, Some(Some("a2")), None, None);
            && Init(Init(Fresh, p1), p2).config.apiKey == "k1"
            && ImplInit(ImplInit(ImplState(None, None), "k1", Some("a1")), "k2", Some("a2")).apiKey == Some("k2")
  {
  }

  // ---------------------------------------------------------------------------
  // createOutboundCall.ts

  /** The payload `createOutboundCall` posts. */
  datatype OutboundPayload = OutboundPayload(name: string, callType: string, phoneNumberId: string, assistantId: string, customerNumber: string)

  /** What came of the request. `fetch` itself may reject, with the
      message of what it threw (`None` for a thrown value that is not an
      `Error`); otherwise the response has its `ok` flag and a body, which
      `response.json()` either parses or rejects with a `SyntaxError`
      whose message the JavaScript engine writes. */
  datatype ProviderReply =
    | Rejected(reason: Option<string>)
    | Responded(ok: bool, body: ParsedBody)

  datatype ParsedBody = Parsed(json: Json) | NotJson(syntaxError: string)

  /** Why `createOutboundCall` threw: an error carrying a message, or a
      property read on a `null` body, a `TypeError` whose message the
      JavaScript engine writes. */
  datatype CallFailure = Failure(message: string) | PropertyOfNull

  const MissingIds: string := "VAPI configuration missing phoneNumberId or assistantId"
  const NoCallId: string := "Failed to get call ID from VAPI"
  const FailurePrefix: string := "VAPI call failed: "

  /** `String(v)` as a template literal writes a JSON value. Arrays are
      joined with commas, `null` items standing for the empty text; an
      object is `[object Object]`. Writing a number is the engine's own
      algorithm, here the parameter `numberText`. */
  function JsText(v: Json, numberText: real -> string): string
    decreases v
  {
    match v
    case JNull => "null"
    case JBool(b) => if b then "true" else "false"
    case JNum(n) => numberText(n)
    case JStr(text) => text
    case JArr(items) =>
      Join(seq(|items|, i requires 0 <= i < |items| => if items[i].JNull? then "" else JsText(items[i], numberText)), ',')
    case JObj(_) => "[object Object]"
  }

  /** The message of a failed request: `error.message || 'Unknown error'`
      in the template, on a body that is not `null`. */
  function FailureMessage(body: Json, numberText: real -> string): (r: string)
    requires body != JNull
    ensures StartsWith(r, FailurePrefix)
    ensures !TruthyJson(Field(body, "message")) ==> r == FailurePrefix + "Unknown error"
    ensures TruthyJson(Field(body, "message")) && Field(body, "message").value.JStr? ==>
              r == FailurePrefix + Field(body, "message").value.s
  {
    var m := Field(body, "message");
    var text := if TruthyJson(m) then JsText(m.value, numberText) else "Unknown error";
    var r := FailurePrefix + text;
    assert r[..|FailurePrefix|] == FailurePrefix;
    r
  }

  /** A list of messages, as the provider gives for a rejected request, is
      reported with its items joined by commas. */
  lemma FailureMessageJoinsList(numberText: real -> string)
    ensures FailureMessage(JObj([("message", JArr([JStr("a"), JStr("b")]))]), numberText) == "VAPI call failed: a,b"
  {
    var items := [JStr("a"), JStr("b")];
    var parts := seq(|items|, i requires 0 <= i < |items| => if items[i].JNull? then "" else JsText(items[i], numberText));
    assert parts == ["a", "b"];
    assert Join(parts, ',') == "a" + "," + Join(["b"], ',');
    assert JsText(JArr(items), numberText) == "a,b";
    assert Field(JObj([("message", JArr(items))]), "message") == Some(JArr(items));
  }

  /** `createOutboundCall`: the payload sent, when one is, and the returned
      call. The configuration must be initialised and carry both ids before
      anything is sent. Inside the `try` every error is rethrown with its
      own message: a rejected request, an unparsable body, a failed status,
      an answer without an `id`, and a `null` body, whose property read
      throws. */
  function CreateOutboundCall(st: State, customer: string, reply: ProviderReply, numberText: real -> string)
    : (r: Result<(OutboundPayload, Json), CallFailure>)
    ensures !st.initialized ==> r == Err(Failure(NotInitialized))
    ensures st.initialized && !(TruthyStr(st.config.phoneNumberId) && TruthyStr(st.config.assistantId)) ==>
              r == Err(Failure(MissingIds))
    ensures r.Ok? ==>
              && st.initialized
              && reply.Responded? && reply.ok && reply.body.Parsed?
              && TruthyJson(Field(reply.body.json, "id"))
              && r.value.1 == reply.body.json
              && r.value.0 == OutboundPayload(CampaignName, "outboundPhoneCall",
                                               st.config.phoneNumberId.value, st.config.assistantId.value,
                                               NormalizePhone(customer))
    ensures ReadyToCall(st) ==>
              match reply
              case Rejected(reason) => r == Err(Failure(if reason.Some? then reason.value else "Unknown error occurred"))
              case Responded(ok, NotJson(e)) => r == Err(Failure(e))
              case Responded(ok, Parsed(JNull)) => r == Err(PropertyOfNull)
              case Responded(false, Parsed(body)) => r == Err(Failure(FailureMessage(body, numberText)))
              case Responded(true, Parsed(body)) => !TruthyJson(Field(body, "id")) <==> r == Err(Failure(NoCallId))
  {
    match GetConfig(st)
    case Err(msg) => Err(Failure(msg))
    case Ok(config) =>
      if !TruthyStr(config.phoneNumberId) || !TruthyStr(config.assistantId) then Err(Failure(MissingIds))
      else
        var payload := OutboundPayload(CampaignName, "outboundPhoneCall", config.phoneNumberId.value,
                                       config.assistantId.value, NormalizePhone(customer));
        match reply
        case Rejected(reason) => Err(Failure(if reason.Some? then reason.value else "Unknown error occurred"))
        case Responded(ok, NotJson(e)) => Err(Failure(e))
        case Responded(ok, Parsed(body)) =>
          if body == JNull then Err(PropertyOfNull)
          else if !ok then Err(Failure(FailureMessage(body, numberText)))
          else if !TruthyJson(Field(body, "id")) then Err(Failure(NoCallId))
          else Ok((payload, body))
  }

  /** An initialised configuration with both ids: the request is made. */
  predicate ReadyToCall(st: State) {
    st.initialized && TruthyStr(st.config.phoneNumberId) && TruthyStr(st.config.assistantId)
  }

  /** A call handed back always has an `id`. */
  lemma CreatedCallHasId(st: State, customer: string, reply: ProviderReply, numberText: real -> string)
    requires CreateOutboundCall(st, customer, reply, numberText).Ok?
    ensures TruthyJson(Field(CreateOutboundCall(st, customer, reply, numberText).value.1, "id"))
  {
  }
}
