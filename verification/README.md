# Cold-Caller core in Dafny

A model of the core of Cold-Caller, a Next.js dashboard that runs outbound
AI phone campaigns through the Vapi voice provider for client companies.
Clients upload leads, create campaigns that queue one outbound call per lead,
watch those calls and their transcripts, and are billed per call against a
balance kept in a ledger of transactions. The modelled parts are:

- the database tables the handlers read and write (`Store`), as sequences in key order with one id counter;
- call billing (`POST`/`PUT`/`GET` of the client call route) and the ledger invariant it is meant to keep (`CallBilling`, `BillingProofs`);
- the call status enum and its groups (`CallStatuses`), the campaign status check (`CampaignStatuses`) and the campaign statistics route (`CampaignStats`);
- campaign creation with lead reuse and call queueing (`Campaigns`), lead imports and upserts (`LeadImports`), the CSV phone parser (`Csv`) and the JSON lead file store (`FileStore`);
- call synchronisation from the provider (`CallSync`), system settings and the rate multiplier reader (`Settings`), the provider client singleton and outbound call creation (`VapiConfig`);
- the duration and balance formatters (`Durations`, `Format`);
- the client pages: the file uploader's checks (`Uploader`), the new-campaign form (`CampaignForm`), the dialling loop (`Dialer`) and the calls page (`CallsPage`);
- the appointment-booking webhook (`BookAppointment`) and the route guard (`Middleware`).

Shared pieces live in `Wrappers` (`Option`, `Result`, JSON values, JavaScript truthiness), `Strings`, `Decimal` (decimal text of numbers) and `Ordering` (filters, counts and a stable descending sort).

Conventions: amounts of money are `real`; time stamps are milliseconds as `int`; the current time, the provider's answers and the database's failures are parameters; a handler's answer is an `Outcome` carrying the database after the call and the HTTP response.

## Model

| member | source | states |
|---|---|---|
| `Format.Trunc` | src/lib/utils/format.ts:13 | the quotient JavaScript's `%` rounds towards zero: the floor for non-negative numbers, minus the floor of the magnitude for negative ones |
| `Format.JsRem60` | src/lib/utils/format.ts:13 | `x % 60` keeps the sign of `x`: in [0, 60) for non-negative `x`, in (-60, 0] for negative `x` |
| `Format.NumberOf` | src/lib/utils/format.ts:9 | `Number(text)` of blank text is 0 |
| `Format.NumberOfNatToString` | src/lib/utils/format.ts:9 | `Number(String(n))` gives back `n` for every natural number |
| `Format.BalanceValue` | src/lib/utils/format.ts:7-10 | a missing value, the number 0 and empty text stop at `'0 sec'`; a number that goes on is formatted as itself |
| `Format.BalancePartsSplit` | src/lib/utils/format.ts:12-13 | for a non-negative balance the minutes and leftover seconds are non-negative, the seconds stay below 60, and 60 per minute plus the seconds is the whole seconds |
| `Format.FormatBalance` | src/lib/utils/format.ts:6-24 | `'0 sec'` for an input that is falsy or not a number; any other input is rendered from its numeric value |
| `Format.FormatBalanceNonNegative` | src/lib/utils/format.ts:12-23 | a non-negative balance shows its whole seconds: seconds alone below a minute, minutes alone on a whole minute, both otherwise; fractions are dropped |
| `Format.FormatBalanceNegative` | src/lib/utils/format.ts:12-23 | -30 shows as `-1 min -30 sec`: the minutes are floored but the remainder keeps the sign |
| `Format.FormatBalanceText` | src/lib/utils/format.ts:9 | a balance given as the text of a positive whole number formats like the number itself |
| `Format.FormatBalanceNotANumber` | src/lib/utils/format.ts:9-10 | text that is not a number formats as `'0 sec'` |
| `Format.FormatEndReason` | src/lib/utils/format.ts:31-32 | a missing or empty reason is `'Unknown'` |
| `Format.TitleCaseDash` | src/lib/utils/format.ts:35-37 | one dash splits a word off: it is capitalised and followed by a space |
| `Format.TitleCaseNoDash` | src/lib/utils/format.ts:35-36 | a reason without a dash is one word, capitalised |
| `Format.JoinCapitalized` | src/lib/utils/format.ts:34-37 | capitalising each dash-free word and joining with spaces equals the character-wise reference applied to the words joined with dashes |
| `Format.FormatEndReasonIsTitleCase` | src/lib/utils/format.ts:31-37 | a non-empty reason keeps its length, each dash becomes a space, and the first letter of each word is upper-cased; everything else is kept |
| `Durations.CeilDiv` | src/lib/utils/duration.ts:7 | `Math.ceil(n / d)` is the least `q` with `n <= d * q` |
| `Durations.SecondsToMinutes` | src/lib/utils/duration.ts:6-8 | the fewest whole minutes covering the seconds; positive exactly for positive seconds |
| `Durations.SecondsToMinutesMonotone` | src/lib/utils/duration.ts:6-8 | more seconds never give fewer minutes |
| `Durations.SecondsToMinutesExact` | src/lib/utils/duration.ts:6-8 | a whole number of minutes converts back exactly |
| `Durations.DurationInSeconds` | src/lib/utils/duration.ts:16-18 | the whole seconds between two time stamps, rounded up |
| `Durations.DurationSign` | src/lib/utils/duration.ts:16-18 | a call ending after it started lasts at least one second; one ending when it started lasts none |
| `Durations.RemSixty` | src/lib/utils/duration.ts:27 | `seconds % 60` on whole numbers: Euclidean for non-negative input, in (-60, 0] and congruent for negative input |
| `Durations.FormatDurationParts` | src/lib/utils/duration.ts:25-34 | `<m>m` on a whole minute and `<m>m <s>s` otherwise; the `utils.ts` rendering always writes both parts |
| `Durations.FormatDuration` | src/lib/utils/duration.ts:25-34 | the text ends in `m` exactly on a whole number of minutes |
| `Durations.FormatDurationRoundTrip` | src/lib/utils/duration.ts:25-34 | the text of a non-negative duration reads back as the same number of seconds |
| `Durations.FormatDurationLong` | src/lib/utils.ts:6-7 | zero seconds is `0s` |
| `Durations.FormatDurationLongRoundTrip` | src/lib/utils.ts:6-11 | the `utils.ts` text of a positive duration reads back as the same number of seconds |
| `Durations.FormatDurationsAgree` | src/lib/utils.ts:6-11 | the two `formatDuration`s agree except on whole minutes |
| `Durations.FormatDurationNegative` | src/lib/utils/duration.ts:26-33 | -30 seconds shows as `-1m -30s` |
| `Durations.FormatDateTime` | src/lib/utils.ts:1-4 | a missing or zero date shows as empty text; any other is the locale rendering of that date |
| `CallStatuses.Parse` | src/types/callStatus.ts:4-12 | a stored string reads as the enum member whose value it is, and as nothing when no member has that value |
| `CallStatuses.TextInjective` | src/types/callStatus.ts:4-12 | the seven values are distinct, so reading back a written status is exact |
| `CallStatuses.GroupsPartition` | src/types/callStatus.ts:17-37 | the active, completed and unsuccessful groups are disjoint and cover all seven statuses; the exact string test matches the active group |
| `CallStatuses.CompletedIsFinished` | src/types/callStatus.ts:9 | `completed` is in the completed group and not an active status |
| `CallStatuses.ForeignStatusStrings` | src/types/callStatus.ts:4-12 | `Pending`, `Initiated`, `Not Initiated` and `Completed` are not enum values: none is active and none is the completed status |
| `CampaignStatuses.CheckAndUpdate` | src/lib/utils/campaignStatus.ts:19-95 | no id or an unknown campaign gives `null` and writes nothing; otherwise only the campaign's status, processed count and seconds change; the seconds are those of its completed calls; a running campaign with no active call becomes `Completed` with every call counted processed; nothing else changes status |
| `CampaignStatuses.CheckAndUpdateIdempotent` | src/lib/utils/campaignStatus.ts:59-82 | a second check right after the first changes nothing |
| `CampaignStatuses.PendingCallsDoNotBlock` | src/lib/utils/campaignStatus.ts:43-45 | calls still `'Pending'` are not active, so a running campaign whose calls are all pending is completed at once |
| `CampaignStatuses.ActiveCallBlocks` | src/lib/utils/campaignStatus.ts:68-72 | one call in an active status keeps the campaign's status |
| `CampaignStatuses.CompletedSecondsNonNegative` | src/lib/utils/campaignStatus.ts:63-65 | the total is never negative while no duration is negative |
| `CampaignStatuses.CompletedSecondsAppend` | src/lib/utils/campaignStatus.ts:63-65 | calls of other campaigns and calls not `completed` add nothing to the total |
| `CampaignStats.StatsFor` | src/app/api/clients/campaign-stats/route.ts:5-62 | 401 without a session, 500 when the session has no email, 404 without a client; otherwise the client's campaign count and the count and truthy-duration sum of its calls in the status |
| `CampaignStats.CampaignStatsAsWritten` | src/app/api/clients/campaign-stats/route.ts:29-35 | as written, the call count is that of the client's calls whose status is the string `'Completed'` |
| `CampaignStats.CampaignStatsCorrected` | src/app/api/clients/campaign-stats/route.ts:29-47 | corrected, calls and seconds are those of the stored `completed` status |
| `CampaignStats.UnusedStatusCountsNothing` | src/app/api/clients/campaign-stats/route.ts:38-47 | a status no call carries counts no call and no seconds |
| `CampaignStats.AsWrittenMissesStoredStatuses` | src/app/api/clients/campaign-stats/route.ts:29-47 | while every stored status is an enum value, the handler as written reports no calls and no seconds |
| `CampaignStats.StatsCompletedCounterexample` | src/app/api/clients/campaign-stats/route.ts:33 | one completed call of 60 seconds: as written 0 calls and 0 seconds, corrected 1 call and 60 seconds |
| `Strings.Split` | src/services/csvService.ts:10 | `split` gives at least one piece, no piece holds the separator, and the first piece is a prefix of the text |
| `Strings.JoinSplit` | src/services/csvService.ts:10 | joining the pieces with the separator gives back the text |
| `Strings.Trim` | src/services/csvService.ts:13 | `trim` leaves no white space at either end and never lengthens the text |
| `Strings.TrimmedIsFixed` | src/services/csvService.ts:17 | a text without white space at either end is its own trim |
| `Strings.ToLower` | src/services/csvService.ts:14 | `toLowerCase` keeps the length and lower-cases each character on its own |
| `Csv.FirstField` | src/services/csvService.ts:17 | the first comma-separated field, trimmed: no comma, no surrounding white space |
| `Csv.FirstFieldIsSlice` | src/services/csvService.ts:17 | the first field is a contiguous piece of the line |
| `Csv.ParseLines` | src/services/csvService.ts:12-27 | at most one phone per line, each non-empty, trimmed, comma-free and stamped with the parse time |
| `Csv.ParseCsvContent` | src/services/csvService.ts:9-28 | at most one phone per line of the content, each non-empty, trimmed and comma-free |
| `Csv.ParseLinesIsFilterMap` | src/services/csvService.ts:12-27 | the parse is: keep the non-blank lines that do not mention `phone` and whose first field is non-empty, then take the first fields |
| `Csv.PhoneNeverNamesPhone` | src/services/csvService.ts:14 | no parsed phone contains `phone` in any case |
| `FileStore.GetLeads` | src/services/fileService.ts:14-21 | no file gives no leads; otherwise the stored list |
| `FileStore.MaxSerial` | src/services/fileService.ts:35 | the largest serial: it bounds every serial and belongs to some lead |
| `FileStore.LastSerial` | src/services/fileService.ts:34-36 | the numbering continues from a bound of every stored serial, 0 for an empty store |
| `FileStore.SavePhones` | src/services/fileService.ts:23-54 | the stored leads are kept in front; one lead follows per phone, with its number and time, `pending`, unbooked, and serial `last + i + 1` |
| `FileStore.SavePhonesSerialsAboveStored` | src/services/fileService.ts:34-44 | new serials exceed every stored serial and increase strictly |
| `FileStore.SavePhonesKeepsSerialsUnique` | src/services/fileService.ts:34-47 | a store with unique serials keeps them unique |
| `FileStore.SaveToEmptyStore` | src/services/fileService.ts:34-44 | saving to a missing file numbers the phones from 1 |
| `LeadImports.LeadIndex` | src/lib/utils/leads.ts:29-35 | the position of the client's lead for the number, absent exactly when the client has none |
| `LeadImports.UpsertLead` | src/lib/utils/leads.ts:29-46 | the returned lead is the client's lead for the number and carries the import; an existing lead is updated in place; a missing one is created at the end with the next id |
| `LeadImports.UpsertLeadReimports` | src/lib/utils/leads.ts:43-45 | an upsert changes at most the import id of existing leads |
| `LeadImports.UpsertKeepsImported` | src/lib/utils/leads.ts:29-46 | a lead already carrying the import survives a further upsert |
| `LeadImports.UpsertLeads` | src/lib/utils/leads.ts:26-50 | one returned lead per record; ids advance by the number of created leads |
| `LeadImports.UpsertLeadsKeepsExisting` | src/lib/utils/leads.ts:43-45 | existing leads keep their place and every field except the import id |
| `LeadImports.UpsertLeadsCreates` | src/lib/utils/leads.ts:36-42 | created leads are `Not Initiated` leads of the client, outside any campaign, carrying the import and named after a record with their number |
| `LeadImports.UpsertLeadsStoresReturned` | src/lib/utils/leads.ts:26-50 | every returned lead is stored, is the client's lead for its record's number and carries the import |
| `LeadImports.UpsertLeadsKeepsKeysUnique` | src/lib/utils/leads.ts:29-35 | the upserts never make a second lead for a client's number |
| `LeadImports.Import` | src/lib/utils/leads.ts:17-23 | one import is recorded with the client, the file name and the record count; only imports, leads and the id counter change |
| `LeadImports.ImportCovers` | src/lib/utils/leads.ts:26-53 | every record's number has a stored lead of the client carrying the import, returned in the record's place |
| `LeadImports.ImportKeepsKeysUnique` | src/lib/utils/leads.ts:15-54 | an import keeps one lead per client and number |
| `LeadImports.ImportKeepsOtherFields` | src/lib/utils/leads.ts:29-46 | leads not created keep everything but the import id; created leads are the client's new leads carrying the import |
| `LeadImports.CreateLeadsFromImport` | src/lib/utils/leads.ts:8-55 | fails with nothing written exactly when the client does not exist; otherwise performs the import |
| `LeadImports.RecordPhone` | src/app/api/leads/import/route.ts:59 | the record's number trimmed, empty when missing |
| `LeadImports.RecordLeadsAt` | src/app/api/leads/import/route.ts:58-59 | the `j`-th record becomes a lead with its trimmed number and no name |
| `LeadImports.ImportRoute` | src/app/api/leads/import/route.ts:10-93 | 401, 500 without an email, 404 without a client, 400 without a file or without records and nothing written; success exactly otherwise, with the import's leads |
| `LeadImports.ImportRouteCovers` | src/app/api/leads/import/route.ts:47-84 | each record of an upload has a lead of the client under its trimmed number, carrying the import, returned in its place |
| `CallSync.OrEmpty` | src/app/api/clients/vapi/sync/route.ts:51-56 | `s \|\| ''`: the text when it is non-empty, empty text otherwise |
| `CallSync.OrEmptyObject` | src/app/api/clients/vapi/sync/route.ts:58-60 | `j \|\| {}`: the value when it is truthy, the empty object otherwise |
| `CallSync.VapiIndex` | src/app/api/clients/vapi/sync/route.ts:32-35 | the position of the call stored under the provider id, absent exactly when none is |
| `CallSync.ImportOne` | src/app/api/clients/vapi/sync/route.ts:28-68 | a stored provider call, or one without a start time, writes nothing; any other is appended for the caller's client with the next id; clients and ledger are untouched |
| `CallSync.SyncRoute` | src/app/api/clients/vapi/sync/route.ts:6-71 | 401 without a user id, 404 without a client, otherwise every provider call is imported in order for the caller's client |
| `CallSync.ImportAllOnlyAppends` | src/app/api/clients/vapi/sync/route.ts:27-69 | the sync only appends, never touches the ledger or a balance, appends uncharged calls of the caller's client, and keeps provider ids unique |
| `CallSync.ImportAllStoresEveryCall` | src/app/api/clients/vapi/sync/route.ts:27-69 | every provider call with a start time is stored afterwards |
| `CallSync.StoredMonotone` | src/app/api/clients/vapi/sync/route.ts:37-40 | a stored call stays stored |
| `CallSync.ImportAllNothingNew` | src/app/api/clients/vapi/sync/route.ts:37-40 | a sync of calls that are all stored or have no start time writes nothing |
| `CallSync.ImportAllIdempotent` | src/app/api/clients/vapi/sync/route.ts:27-69 | syncing the same calls twice equals syncing them once |
| `CallSync.MarkedUp` | src/lib/vapi/sync-calls.ts:15 | a price exists exactly for a truthy cost, and it is the cost plus 30% |
| `CallSync.Upsert` | src/lib/vapi/sync-calls.ts:7-62 | at most one call is appended, and only for a new provider id, on client 1 and uncharged; only the row holding the provider id changes; deducted flags are kept; clients and ledger are untouched |
| `CallSync.UpsertKeepsIdentity` | src/lib/vapi/sync-calls.ts:44-58 | a refresh keeps the row's identity, owner, links, type, start, number, assistant, web link, deducted flag and creation time, and prices it at cost plus 30% |
| `CallSync.RefreshTwice` | src/lib/vapi/sync-calls.ts:44-58 | refreshing twice with the same provider call is refreshing once |
| `CallSync.RefreshCreated` | src/lib/vapi/sync-calls.ts:21-58 | refreshing a row just created from a provider call changes nothing |
| `CallSync.VapiIndexAfterWrite` | src/lib/vapi/sync-calls.ts:17-20 | rewriting or appending the row of a provider id keeps it the row found for that id |
| `CallSync.UpsertIdempotent` | src/lib/vapi/sync-calls.ts:17-59 | upserting the same provider call twice at the same moment equals upserting it once |
| `CallSync.SyncNeverCharges` | src/lib/vapi/sync-calls.ts:5-64 | syncing never writes the ledger or a balance and never sets a deducted flag |
| `CallSync.SyncVapiCalls` | src/lib/vapi/sync-calls.ts:5-64 | clients are untouched, rows are only added and keep their provider ids, and when client 1 exists every provider call whose status, start, costs, analysis and messages are present ends up stored |
| `Settings.SettingIndex` | src/app/api/admin/settings/route.ts:17-20 | the position of the setting with the key, absent exactly when no setting has it |
| `Settings.CallRateMultiplier` | src/utils/getSettings.ts:8-18 | 1 on a failed fetch or a missing setting or multiplier; otherwise whatever the stored multiplier is, 0 included |
| `Settings.CallRateMultiplierFinds` | src/utils/getSettings.ts:12 | with unique keys, the reader answers the one multiplier setting's value wherever it sits |
| `Settings.ZeroMultiplierKept` | src/utils/getSettings.ts:12 | `??` keeps a stored 0 |
| `Settings.Overwrite` | src/app/api/admin/settings/route.ts:21-26 | an update field that is given replaces the stored value; one left out keeps it |
| `Settings.OverwriteOpt` | src/app/api/admin/settings/route.ts:21-26 | the same for an optional column |
| `Settings.PutSetting` | src/app/api/admin/settings/route.ts:14-41 | no key, or a new key without a value, answers 500 with nothing written; an existing key is updated in place with its id and system flag kept; a new key is appended as a system setting with the next id; the answer carries the given fields |
| `Settings.GetSettings` | src/app/api/admin/settings/route.ts:4-12 | the answer holds exactly the stored settings |
| `Settings.PutKeepsKeysUnique` | src/app/api/admin/settings/route.ts:17-35 | an upsert keeps at most one setting per key |
| `Settings.PutIdempotent` | src/app/api/admin/settings/route.ts:17-35 | upserting the same body twice leaves the table as upserting it once |
| `Settings.PutThenReadMultiplier` | src/utils/getSettings.ts:8-13 | after a successful upsert of the multiplier setting, the reader answers the new multiplier |
| `VapiConfig.Merge` | src/lib/vapi/config.ts:70-73 | `{ ...config, ...patch }`: each field the patch carries replaces the configuration's; the others stay |
| `VapiConfig.MergeIdempotent` | src/lib/vapi/config.ts:70-73 | spreading the same object twice is spreading it once |
| `VapiConfig.MergeTwice` | src/lib/vapi/config.ts:70-73 | two spreads in a row are one spread, the later object winning field by field |
| `VapiConfig.GetInstance` | src/lib/vapi/config.ts:21-26 | the stored instance is handed back; a fresh one is created and stored only when there is none |
| `VapiConfig.GetInstanceStable` | src/lib/vapi/config.ts:21-26 | asking again hands back the same instance and changes nothing |
| `VapiConfig.Init` | src/lib/vapi/config.ts:28-41 | the first call merges the configuration over the current one, builds the client from the merged key and base URL and marks the instance initialised; a later call changes nothing |
| `VapiConfig.FirstInitWins` | src/lib/vapi/config.ts:92-96 | a second initialisation, with any configuration, leaves the first one's result |
| `VapiConfig.GetClient` | src/lib/vapi/config.ts:43-48 | the client exactly when initialised and built; the not-initialised error otherwise |
| `VapiConfig.GetConfig` | src/lib/vapi/config.ts:50-55 | the configuration exactly when initialised; the not-initialised error otherwise |
| `VapiConfig.UpdateConfig` | src/lib/vapi/config.ts:65-78 | an error before initialisation; otherwise the merged configuration, with the client rebuilt exactly when the patch carries a non-empty key or base URL |
| `VapiConfig.IdGettersFollowUpdates` | src/lib/vapi/config.ts:65-86 | after an update the assistant and phone-number getters give the updated id when the update carries one, and the previous one otherwise |
| `VapiConfig.UpdateWithSelf` | src/lib/vapi/config.ts:65-78 | updating with the whole current configuration changes nothing |
| `VapiConfig.ClearedKeyKeepsClient` | src/lib/vapi/config.ts:75-77 | clearing the key leaves a client built with the old key |
| `VapiConfig.GetDefaultCallSettings` | src/lib/vapi/config.ts:88-90 | a copy of the default call settings, an empty object when they are missing |
| `VapiConfig.ListCalls` | src/lib/vapi/config.ts:114-134 | no calls before initialisation or when the request fails; otherwise the provider's list |
| `VapiConfig.GetCall` | src/lib/vapi/config.ts:136-153 | refuses before initialisation; otherwise passes on the request's answer or error |
| `VapiConfig.NormalizePhone` | src/lib/vapi/config.ts:183-185 | the number starts with `+`; one that had it is unchanged, any other gets it in front |
| `VapiConfig.NormalizeIdempotent` | src/lib/vapi/createOutboundCall.ts:14-16 | normalising twice is normalising once |
| `VapiConfig.NormalizeChangesOnlyMissingPlus` | src/lib/vapi/createOutboundCall.ts:14-16 | a number changes exactly when it lacks the `+`, and dropping the `+` gives it back |
| `VapiConfig.EnsureInitialized` | src/lib/vapi/config.ts:155-175 | an initialised instance is kept; otherwise it initialises from the client's key, assistant and phone number when both key and assistant are non-empty, and fails with the prefixed message otherwise |
| `VapiConfig.CreateCall` | src/lib/vapi/config.ts:177-211 | a request is made only from an initialised instance with a client, to the normalised number with the configured assistant and phone number; a failure leaves the instance as it was |
| `VapiConfig.ImplInit` | src/lib/vapi/index.ts:12-15 | the sibling class overwrites both keys on every call |
| `VapiConfig.ImplRequest` | src/lib/vapi/index.ts:17-54 | the sibling refuses while a key is empty; otherwise it passes on the request's answer |
| `VapiConfig.ImplLastInitWins` | src/lib/vapi/index.ts:12-19 | for the sibling the last keys win, and it is ready exactly when both are non-empty |
| `VapiConfig.SingletonAndSiblingDiffer` | src/lib/vapi/config.ts:92-104 | after two initialisations the singleton keeps the first key while the sibling class takes the second |
| `VapiConfig.FailureMessage` | src/lib/vapi/createOutboundCall.ts:40-44 | the error of a failed request starts with `VAPI call failed: `; a falsy `message` gives `Unknown error` and a truthy text gives that text |
| `VapiConfig.FailureMessageJoinsList` | src/lib/vapi/createOutboundCall.ts:43 | a truthy `message` that is not text is stringified as JavaScript does: a list of two texts is written joined by a comma |
| `VapiConfig.CreateOutboundCall` | src/lib/vapi/createOutboundCall.ts:4-57 | the not-initialised error first, then the missing-ids error; the payload names the campaign, the call type, both ids and the normalised number; a rejected request fails with its reason or `Unknown error occurred`, a body that is not JSON with the parse error, a `null` body with the engine's property-of-null error, a failed status with the prefixed message, and an answer without a truthy `id` with the missing-id error; success exactly when the request answered `ok` with a truthy `id`, handing back that answer |
| `VapiConfig.CreatedCallHasId` | src/lib/vapi/createOutboundCall.ts:48-52 | a call handed back always has an `id` |
| `Uploader.CallEstimates` | src/app/dashboard/client/components/FileUploader.tsx:14-34 | total cost is phones times cost per call; the upload may go on exactly when a numeric balance less the minimum covers it; the warning text is chosen exactly when a numeric balance less the minimum is below the cost, so a balance that is not a number gives neither; possible calls is the floor of the available balance over the cost |
| `Uploader.CanProceedIffWithinPossible` | src/app/dashboard/client/components/FileUploader.tsx:20-25 | with a positive cost per call, the upload may go on exactly when the phones do not exceed the possible calls |
| `Uploader.CostPerCall` | src/app/dashboard/client/components/FileUploader.tsx:153 | a truthy estimate is used as given; a missing, zero or non-numeric one becomes 0.08; the result is never 0 |
| `Uploader.RepeatedPhonesExact` | src/app/dashboard/client/components/FileUploader.tsx:94-111 | the reported list holds each phone that occurs twice, once, and nothing else |
| `Uploader.CheckForDuplicates` | src/app/dashboard/client/components/FileUploader.tsx:94-112 | the loop reports the repeated phones in the order the set collects them, and flags duplicates exactly when the list is non-empty |
| `Uploader.DuplicatesReported` | src/app/dashboard/client/components/FileUploader.tsx:101-110 | duplicates are reported exactly when some phone occurs twice, each once |
| `Uploader.UnreadBalanceBlocksWithoutWarning` | src/app/dashboard/client/components/FileUploader.tsx:20-32 | a balance that is not a number stops an otherwise acceptable upload, with the plain estimate text rather than the warning |
| `Uploader.PhonesOf` | src/app/dashboard/client/components/FileUploader.tsx:101-105 | the phone numbers of the leads, in order |
| `Uploader.HandleFileUpload` | src/app/dashboard/client/components/FileUploader.tsx:114-185 | the leads are sent for creation exactly when there is a client id and a file, the upload succeeded, no phone repeats and the estimate can proceed; nothing happens without a client id |
| `Uploader.CreatedLeadsDistinctAndAffordable` | src/app/dashboard/client/components/FileUploader.tsx:139-171 | leads sent for creation never repeat a phone, and their estimated cost leaves at least the minimum balance |
| `Uploader.DuplicatesCheckedBeforeBalance` | src/app/dashboard/client/components/FileUploader.tsx:139-160 | a file with a repeated phone is refused as such whatever the balance |
| `Store.CallIndex` | src/app/api/clients/vapi/calls/route.ts:117-119 | the position of the call with the key, absent exactly when no call has it |
| `Store.ClientIndex` | src/app/api/clients/vapi/calls/route.ts:74-76 | the position of the client with the key, absent exactly when no client has it |
| `Store.CampaignIndex` | src/lib/utils/campaignStatus.ts:29-34 | the position of the first campaign with the key, absent exactly when none has it |
| `Store.ChargeReasonInjective` | src/app/api/clients/vapi/calls/route.ts:67 | distinct calls are charged under distinct reason texts |
| `Store.NetAppend` | src/app/api/clients/vapi/calls/route.ts:62-81 | one more transaction changes only its own client's sum, by its signed amount |
| `Store.DebitsAppend` | src/app/api/clients/vapi/calls/route.ts:128-136 | one more transaction adds to the debit count of the call it charges only |
| `CallBilling.Post` | src/app/api/clients/vapi/calls/route.ts:42-104 | 401 without a user id; 500 with nothing written for an unknown client; otherwise the call is appended with the next key; with a truthy final cost one debit referencing the call is written, the client's balance drops by that amount, other clients are untouched, and the call is marked deducted; without one the ledger and balances are untouched |
| `CallBilling.Put` | src/app/api/clients/vapi/calls/route.ts:107-155 | 401; 404 with nothing written for an unknown call; otherwise only that call is rewritten with the body's fields; a truthy final cost on an undeducted call appends one debit without touching any balance and marks the call deducted; otherwise the ledger is untouched and a sent `costDeducted` is written as given |
| `CallBilling.PutCharged` | src/app/api/clients/vapi/calls/route.ts:116-145 | corrected: the same guard and rewrite, but the call's deducted flag only ever turns on, exactly with a charge |
| `CallBilling.List` | src/app/api/clients/vapi/calls/route.ts:7-39 | 401 without a user id, 404 without a client; otherwise exactly the client's calls, newest first |
| `CallBilling.ApplyPatch` | src/app/api/clients/vapi/calls/route.ts:141-144 | every field the body sends is written, every field it does not send keeps its value, and the key and time stamps never change |
| `BillingProofs.FreshKeyUncharged` | src/app/api/clients/vapi/calls/route.ts:52-60 | the key a new call gets is not deducted and has no debit yet |
| `BillingProofs.PostPreservesLedger` | src/app/api/clients/vapi/calls/route.ts:51-97 | `POST` keeps every balance equal to the sum of its client's transactions |
| `BillingProofs.PostKeepsAtMostOneDebit` | src/app/api/clients/vapi/calls/route.ts:51-97 | `POST` keeps at most one debit per call, and none for an undeducted call |
| `BillingProofs.PutKeepsAtMostOneDebit` | src/app/api/clients/vapi/calls/route.ts:126-139 | while no body sends `costDeducted: false`, `PUT` keeps at most one debit per call |
| `BillingProofs.PutAllKeepsAtMostOneDebit` | src/app/api/clients/vapi/calls/route.ts:126-139 | any sequence of such `PUT`s, each possibly resending the final cost, leaves at most one debit per call |
| `BillingProofs.PutBreaksLedger` | src/app/api/clients/vapi/calls/route.ts:126-138 | a charging `PUT` on a balanced ledger leaves it unbalanced: the debit is written, the balance is not decremented |
| `BillingProofs.ChargeStep` | src/app/api/clients/vapi/calls/route.ts:126-138 | a `PUT` with a final cost on an undeducted call appends one debit for it and marks it deducted |
| `BillingProofs.ResetStep` | src/app/api/clients/vapi/calls/route.ts:114-144 | a `PUT` sending `costDeducted: false` clears the flag and writes no debit |
| `BillingProofs.PutResetChargesTwice` | src/app/api/clients/vapi/calls/route.ts:114-144 | charge, reset, charge again: the same call gets two more debits |
| `BillingProofs.ResetExampleApplies` | src/app/api/clients/vapi/calls/route.ts:109-126 | a one-client, one-call store meets the conditions of the reset example and starts without a debit |
| `BillingProofs.PutChargedPreservesLedger` | src/app/api/clients/vapi/calls/route.ts:116-145 | the corrected `PUT` keeps every balance equal to its client's transactions |
| `BillingProofs.PutChargedKeepsAtMostOneDebit` | src/app/api/clients/vapi/calls/route.ts:116-145 | the corrected `PUT` keeps at most one debit per call whatever the body sends |
| `BillingProofs.PutChargedResetChargesOnce` | src/app/api/clients/vapi/calls/route.ts:116-145 | under the corrected `PUT` the charge-reset-charge sequence debits once and lowers the balance once |
| `Campaigns.HasLeadAppend` | src/app/api/campaigns/route.ts:101-108 | a client has a lead for a number in two tables joined exactly when it has one in either |
| `Campaigns.AppendFreshLead` | src/app/api/campaigns/route.ts:130-139 | adding a lead for a key not yet present keeps the (client, number) key unique |
| `Campaigns.CreateLeadsShape` | src/app/api/campaigns/route.ts:130-139 | each created lead is a fresh `Not Initiated` lead of the client in the campaign, for a requested number, numbered in creation order |
| `Campaigns.CreateLeadsCovers` | src/app/api/campaigns/route.ts:127-139 | after the creates every requested new number has a lead of the client, and the key stays unique |
| `Campaigns.CreateLeadsFails` | src/app/api/campaigns/route.ts:130-139 | some create fails exactly when a number already has a lead of the client or repeats an earlier requested number |
| `Campaigns.MarkLeads` | src/app/api/campaigns/route.ts:116-124 | as many leads out as in; a lead of the client for a requested number gets the campaign and `Not Initiated` and keeps its id, client, number, name and import; every other lead is unchanged |
| `Campaigns.MarkLeadsKeepsKeys` | src/app/api/campaigns/route.ts:116-124 | moving leads keeps every id, client and number, so the set of keys and their uniqueness |
| `Campaigns.PendingCalls` | src/app/api/campaigns/route.ts:146-158 | one call per lead, in order, with consecutive fresh ids: `Pending`, `outboundPhoneCall`, for the lead, its number, the client and the campaign, with no provider id, times, costs or details, not deducted, stamped now |
| `Campaigns.Caller` | src/app/api/campaigns/route.ts:52-64 | the caller's client exactly when the session has a non-empty email linked to one; 401 without an email |
| `Campaigns.AssignLeads` | src/app/api/campaigns/route.ts:97-162 | only leads, calls and the id counter change; the lead table is the moved leads followed by the created ones; a failed create queues no call, otherwise one pending call per moved or created lead is appended |
| `Campaigns.QueuedCalls` | src/app/api/campaigns/route.ts:142-158 | one call per moved lead and per created lead |
| `Campaigns.Create` | src/app/api/campaigns/route.ts:48-206 | 401 or 404 with nothing written; 400 with nothing written when name, type or leads are missing; otherwise the campaign is written first; the answer is the campaign with nothing processed, or a database error after which no call is queued and the campaign stays; clients and ledger are untouched |
| `Campaigns.ReusedLeadReady` | src/app/api/campaigns/route.ts:116-158 | a requested number the client already had a lead for ends in the campaign, `Not Initiated`, with a pending call |
| `Campaigns.CreatedLeadReady` | src/app/api/campaigns/route.ts:127-158 | a requested number the client had no lead for ends the same way |
| `Campaigns.CreatedLeadFor` | src/app/api/campaigns/route.ts:127-139 | the lead created for a new requested number is found among the created leads with its creation-order id |
| `Campaigns.CreateReadiesEveryPhone` | src/app/api/campaigns/route.ts:97-183 | after a successful `POST` every requested number has the client's lead in the new campaign with a pending call |
| `Campaigns.CreateKeepsLeadKeysUnique` | src/app/api/campaigns/route.ts:97-162 | `POST` keeps the lead table's (client, number) key unique |
| `Campaigns.AssignLeadsFailsOnDuplicate` | src/app/api/campaigns/route.ts:127-139 | a new number requested twice makes a create fail |
| `Campaigns.DuplicateNewPhoneRejected` | src/app/api/campaigns/route.ts:184-195 | then `POST` answers 400, queues no call, and leaves the campaign written |
| `Campaigns.List` | src/app/api/campaigns/route.ts:19-45 | the caller's errors, otherwise exactly the client's campaigns, newest first |
| `CampaignForm.EstimatedCost` | src/app/dashboard/client/campaign/add/page.tsx:34-38 | two dollars per lead: never negative, and zero exactly without leads |
| `CampaignForm.Submit` | src/app/dashboard/client/campaign/add/page.tsx:40-109 | a missing name or no leads alerts and sends nothing; running above a numeric balance alerts and sends nothing; otherwise the first request is always the create of a `Draft`, the run request follows only for a created campaign that is to run, aimed at the top-level `id` of the create's answer as written, and the form moves on exactly when no alert is shown, which is when the create and, if sent, the run succeeded |
| `CampaignForm.CreateRequest` | src/app/dashboard/client/campaign/add/page.tsx:63-76 | the create request carries the form's name and leads, their count, the `Draft` status and two dollars per lead |
| `CampaignForm.SubmitRunsUndefined` | src/app/dashboard/client/campaign/add/page.tsx:84-92 | with the create route's answer, which holds the campaign under `data`, a campaign submitted to run is created and then run at `undefined` |
| `CampaignForm.DraftNotBalanceChecked` | src/app/dashboard/client/campaign/add/page.tsx:46-49 | a draft is never held back by the balance |
| `CampaignForm.RunFollowsCreate` | src/app/dashboard/client/campaign/add/page.tsx:84-100 | a run request is only ever the second request, after a successful create, and is aimed at the `id` field of the create's answer |
| `CampaignForm.UnreadBalanceLetsRunThrough` | src/app/dashboard/client/campaign/add/page.tsx:46 | a balance that is not a number blocks nothing, since comparisons with `NaN` are false: the create and then the run at the answer's `id` are sent |
| `CampaignForm.FormCreatesDraft` | src/app/dashboard/client/campaign/add/page.tsx:63-76 | read by the campaign route, the form's request creates a `Draft` campaign with the form's name, as many leads as rows, and no estimated seconds |
| `CampaignForm.RunTargetAsWrittenMissing` | src/app/dashboard/client/campaign/add/page.tsx:84-92 | as written, the run request reads an id the route's answer does not have at its top level |
| `CampaignForm.RunTargetCorrectedFinds` | src/app/api/campaigns/route.ts:165-183 | read under `data`, the answer gives the new campaign's id |
| `Dialer.HasNotInitiatedCalls` | src/app/dashboard/client/page.tsx:15-17 | true exactly when some lead has no status or is `Not Initiated` |
| `Dialer.MarkPending` | src/app/dashboard/client/page.tsx:22-27 | one lead out for each lead in |
| `Dialer.MarkPendingProperties` | src/app/dashboard/client/page.tsx:22-27 | afterwards no lead waits; only the status of a waiting lead changes, to `Pending`; marking again changes nothing |
| `Dialer.Settle` | src/app/dashboard/client/page.tsx:36-67 | the phone is kept; `Done` exactly when the call got an id and the follow-up answered, with that id and end reason; `Failed` exactly when the create threw or the follow-up threw, restoring the lead as it was before the call; an answer without an id leaves the lead pending |
| `Dialer.SettleFollowsProgression` | src/app/dashboard/client/page.tsx:36-67 | a pending lead moves only from `Pending` to `Initiated` or `Failed`, and from `Initiated` to `Done` or `Failed`, ending where `Settle` puts it |
| `Dialer.InitiateCalls` | src/app/dashboard/client/page.tsx:20-73 | the loop leaves each lead where marking and then settling its own answer puts it |
| `Dialer.InitiateCallsOutcome` | src/app/dashboard/client/page.tsx:20-73 | afterwards no lead waits, each keeps its phone, a lead neither waiting nor pending is untouched, and a called lead is `Done` exactly when both requests answered |
| `Dialer.FailureIsolated` | src/app/dashboard/client/page.tsx:60-67 | a thrown call on one lead changes no other lead's outcome |
| `CallsPage.PadStart2` | src/app/dashboard/client/calls/page.tsx:231 | `padStart(2, '0')`: a text of two or more characters is kept; a shorter one is filled with zeros in front to two characters |
| `CallsPage.TwoDigitSeconds` | src/app/dashboard/client/calls/page.tsx:230-231 | a remainder below 60, padded, is two digits that read back as itself |
| `CallsPage.ReadClockParts` | src/app/dashboard/client/calls/page.tsx:229-231 | minutes, a colon and padded seconds read back as the total seconds |
| `CallsPage.ClockDuration` | src/app/dashboard/client/calls/page.tsx:224-232 | a call missing its start or end time shows `NaN:NaN`; with both times the text has a colon and is never `NaN:NaN` |
| `CallsPage.ClockDurationMissingTime` | src/app/dashboard/client/calls/page.tsx:292-295 | a call without an end time shows `NaN:NaN`, which does not read back as a duration |
| `CallsPage.ClockDurationRoundTrip` | src/app/dashboard/client/calls/page.tsx:224-232 | for a call that did not end before it started, the duration column reads back as its whole seconds |
| `CallsPage.ClockDurationNegative` | src/app/dashboard/client/calls/page.tsx:228-231 | a call ending a second before it started shows `-1:-1` |
| `CallsPage.TotalCostIsScaledSum` | src/app/dashboard/client/calls/page.tsx:238-241 | the total is the multiplier times the sum of the costs, a missing cost counting as 0 |
| `CallsPage.TotalCost` | src/app/dashboard/client/calls/page.tsx:238-241 | no calls cost nothing; with a non-negative multiplier and non-negative costs the total is non-negative |
| `CallsPage.PageRate` | src/app/dashboard/client/calls/page.tsx:160 | the multiplier is 2 until the settings are read, then the reader's answer |
| `CallsPage.TotalHalvesWhenUnset` | src/app/dashboard/client/calls/page.tsx:216-222 | without a multiplier setting the page first shows twice the total it shows once the settings arrive |
| `CallsPage.SortCalls` | src/app/dashboard/client/calls/page.tsx:198-200 | newest first, and a permutation of the fetched calls |
| `CallsPage.SortKeepsTotal` | src/app/dashboard/client/calls/page.tsx:198-241 | sorting does not change the total |
| `CallsPage.NextMark` | src/app/dashboard/client/calls/page.tsx:78 | the first occurrence of the mark at or after a position, or the end |
| `CallsPage.UpToNext` | src/app/dashboard/client/calls/page.tsx:79 | `split(mark)[1]` after a leading mark: the longest prefix with no occurrence of the mark, cut at the next one |
| `CallsPage.UpToNextWhole` | src/app/dashboard/client/calls/page.tsx:79 | without a further mark the whole rest is kept |
| `CallsPage.ClassifyLine` | src/app/dashboard/client/calls/page.tsx:75-90 | a speaker turn for the AI exactly when the line starts with `AI:`, for the user exactly when it starts with `User:` and not `AI:`; any other line is shown as it is |
| `CallsPage.ClassifyLineKeepsText` | src/app/dashboard/client/calls/page.tsx:75-90 | a line naming its speaker once is shown in full |
| `CallsPage.SecondMarkCutsLine` | src/app/dashboard/client/calls/page.tsx:79 | `AI:xAI:y` shows only `x`: a second mark cuts the line |
| `CallsPage.FormatTranscript` | src/app/dashboard/client/calls/page.tsx:71-91 | the placeholder exactly for a missing or empty transcript; otherwise one block per line |
| `CallsPage.FormatTranscriptRoundTrip` | src/app/dashboard/client/calls/page.tsx:71-91 | when each line names its speaker at most once, joining the blocks back gives the transcript |
| `BookAppointment.FirstBooking` | src/app/api/vapi/book-appointment/route.ts:21-27 | passes only a first tool call of type `function` naming `bookAppointment` |
| `BookAppointment.HandleToolCall` | src/app/api/vapi/book-appointment/route.ts:5-124 | logs only grow and appointments are only appended; a completed request adds exactly one appointment and any other answer none; the answer is 500 exactly when the last log is an error |
| `BookAppointment.BookingCreatesAppointment` | src/app/api/vapi/book-appointment/route.ts:19-84 | an appointment is created exactly for a booking tool call with all four fields, carrying them with the call's and the tool call's ids |
| `BookAppointment.PayloadLoggedFirst` | src/app/api/vapi/book-appointment/route.ts:10-16 | a payload naming a call is logged in full, with the call's id, before anything else |
| `BookAppointment.OtherMessagesNeverBook` | src/app/api/vapi/book-appointment/route.ts:100-110 | any other message type books nothing; it is answered with the first tool call's id, or fails without one |
| `BookAppointment.FailuresLogged` | src/app/api/vapi/book-appointment/route.ts:25-36 | each failure ends in one error log and a 500 with no appointment; a missing or wrong tool call and a missing field fail with the handler's own messages |
| `Middleware.Inner` | src/middleware.ts:5-19 | never the sign-in page; the client dashboard redirect happens exactly on a path starting with the admin section for a caller who is not `ADMIN` |
| `Middleware.Guard` | src/middleware.ts:4-33 | unmatched paths pass; a matched path without a token goes to the sign-in page |
| `Middleware.UnderStartsWith` | src/middleware.ts:28-33 | a matched path starts with its section |
| `Middleware.SectionsDisjoint` | src/middleware.ts:7-8 | no path is in both sections |
| `Middleware.AdminNeverRedirected` | src/middleware.ts:11-13 | an administrator passes everywhere |
| `Middleware.NonAdminsLeaveAdminSection` | src/middleware.ts:7-18 | any other signed-in caller is sent from the admin section to the client dashboard and passes in the client section |
| `Middleware.InnerSignInUnreachable` | src/middleware.ts:16-23 | the inner redirect to `/auth/signin` never happens, since a request without a token is turned away first |
| `Middleware.PrefixWithoutSlashNotGuarded` | src/middleware.ts:7-13 | `/dashboard/administrator` would be redirected by the inner prefix test but is not matched, so it passes |

## Left out

- JavaScript numbers are modelled as mathematical reals and integers: no floating-point rounding, no infinities; `NaN` appears only where an input is text that does not parse (`None`), and as the `NaN:NaN` the duration column shows for a call missing a time.
- `Number()` is modelled on plain decimal text with one optional sign and surrounding white space; hexadecimal, exponent notation and `Infinity` are not modelled.
- `trim`, `toLowerCase` and `toUpperCase` are modelled on ASCII white space and letters only.
- `toLocaleString` and `toFixed` are left abstract: `Durations.FormatDateTime` is stated against an uninterpreted locale rendering, and the cost estimate's message text is not modelled.
- The clock: `new Date()` and `Date.now()` become a `now` parameter (one per operation: `Csv.ParseLines` stamps every line with the same `now`, while the source reads the clock once per line), and the dialling loop's two-minute wait before `getCall` is not modelled beyond its order.
- `Promise.all` over lead upserts and lead creates is modelled as the writes happening one after another in input order.
- Database and network failures are parameters where the source handles them (`CampaignForm`, `Dialer`, `VapiConfig`), and otherwise not modelled; in `BookAppointment` a failing write is not modelled.
- Console logging, React state updates other than the results they produce, loading flags, the audio player and the page layout are left out.
- `BookAppointment.FailuresLogged`: a property read on a missing value is modelled as one failure kind (`MissingValue`), whose message text the JavaScript engine writes.
- The webhook's tool calls are read from `message.tool_calls`, as the route reads them (src/app/api/vapi/book-appointment/route.ts:21); the `toolCalls` field of another payload type (src/types/vapi.ts:102) plays no part.
- `Middleware.Guard`: the sign-in page `withAuth` is configured with is modelled as one decision (`ToSignInPage`), without its URL.
- `Settings.PutSetting`: `null` and a missing field in the update body are both modelled as a missing field.
- `VapiConfig.CreateOutboundCall`: the function modelled is the one in src/lib/vapi/createOutboundCall.ts, which the run route calls; the smaller helper of the same name in src/utils/createOutboundCall.ts is not part of this model. The engine's rendering of a number as text is a parameter, the text of the `TypeError` raised by reading `null.message` or `null.id` is the engine's and is modelled as one failure kind (`PropertyOfNull`), and the fields of the provider's answer other than `id` and `message` are not modelled.
- `VapiConfig.CreateCall`: the provider's reply is a parameter.
- `CallsPage.PageRate`: a multiplier setting that is not a number is passed on as the reader answers it; the page's arithmetic on such a value is not modelled.
- `CallsPage`: the `summary || 'No summary available'` fallback is display text only and is not modelled.
- `Dialer.InitiateCalls`: the progress messages the loop shows are not modelled.
- `Dialer.Settle`: when `getCall` throws, the call id just recorded is dropped with the rest of the lead's update, as the source writes the lead back from its state before the call.
- `CampaignForm.Submit`: the estimated cost the form sends is ignored by the campaign route, so only `CampaignForm.FormCreatesDraft` relates the request to the stored campaign; the run endpoint `/api/campaigns/[id]/run` is not part of this model, and its answer is a parameter. The run request is modelled as written, at the create answer's top-level `id`; `CampaignForm.RunTargetCorrectedFinds` states where the id really is.
- `CallBilling.Post`: the transaction written as unprocessed and marked processed right after (src/app/api/clients/vapi/calls/route.ts:62-87) is modelled as one write of a processed transaction.
- `CallsPage.TotalHalvesWhenUnset`: the page starts with a multiplier of 2 (src/app/dashboard/client/calls/page.tsx:160) while the reader falls back to 1 (src/utils/getSettings.ts:12-16); the model keeps both, as written.
- `Durations.FormatDateTime`: the locale rendering of a date is a parameter.
- Authentication itself (NextAuth sessions, password checks) is not modelled: a session is an optional record of user id and email.

## Findings

| source | as written | input that shows it | evidently intended | confidence | as-written member | corrected member |
|---|---|---|---|---|---|---|
| src/app/api/clients/vapi/calls/route.ts:126-139 | `PUT` writes a debit transaction for a truthy final cost on an undeducted call but does not lower the client's balance, and writes any `costDeducted` the body sends, so a later `PUT` can charge the same call again | a store with one undeducted call: `PUT {finalCost: 5}`, then `PUT {costDeducted: false}`, then `PUT {finalCost: 5}` writes two debits for the call, and the balance stays as it was | each call is charged once, and every charge lowers the balance with its transaction, as `POST` does | not executed | `BillingProofs.PutResetChargesTwice` | `BillingProofs.PutChargedResetChargesOnce` |
| src/app/api/clients/campaign-stats/route.ts:33 | the statistics count calls whose status is the string `'Completed'`, while the stored status of a finished call is the enum value `completed` | one call of the client, `completed`, lasting 60 seconds: the route reports 0 calls and 0 seconds | count the calls in the stored `completed` status | not executed | `CampaignStats.StatsCompletedCounterexample` | `CampaignStats.CampaignStatsCorrected` |
| src/app/dashboard/client/campaign/add/page.tsx:90 | the run request is sent to `/api/campaigns/${campaign.id}/run`, but the create route answers with the campaign under `data` (src/app/api/campaigns/route.ts:165-183) | any campaign submitted to run: the answer has no top-level `id`, so the path names `undefined` | run the campaign the create just made, `campaign.data.id` | not executed | `CampaignForm.SubmitRunsUndefined` | `CampaignForm.RunTargetCorrectedFinds` |
