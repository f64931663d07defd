/** The lead-file uploader of the client dashboard
    (`src/app/dashboard/client/components/FileUploader.tsx`): the cost
    estimate that decides whether a file may be imported, the duplicate
    check over its phone numbers, and the order in which `handleFileUpload`
    applies its checks before asking the server to create the leads. The
    requests it makes are parameters: what each one answered. */
module Uploader {
  import opened Wrappers
  import LeadImports

  // ---------------------------------------------------------------------------
  // calculateCallEstimates

  /** The balance a client must keep (the default `minimumBalance`). */
  const MinimumBalance: real := 2.0

  /** The per-call estimate used when the client has none. */
  const DefaultCostPerCall: real := 0.08

  /** What the estimate reports; `warning` says which of the two message
      texts it carries. The amounts in the message text are rendered with
      `toFixed(2)`, which is not modelled. */
  datatype Estimate = Estimate(canProceed: bool, totalCost: real, possibleCalls: Option<int>, warning: bool)

  /** `calculateCallEstimates`. The balance is `None` when it is not a
      number (`NaN`), which makes every comparison false: such a balance
      neither lets the upload go ahead nor selects the warning text. The
      number of possible calls is `None` when the division does not give a
      finite number. */
  function CallEstimates(phones: nat, costPerCall: real, balance: Option<real>, minimumBalance: real): (e: Estimate)
    ensures e.totalCost == phones as real * costPerCall
    ensures e.canProceed <==> balance.Some? && e.totalCost <= balance.value - minimumBalance
    ensures e.warning <==> balance.Some? && e.totalCost > balance.value - minimumBalance
    ensures balance.Some? ==> (e.warning <==> !e.canProceed)
    ensures e.possibleCalls.Some? <==> balance.Some? && costPerCall != 0.0
    ensures e.possibleCalls.Some? ==> e.possibleCalls.value == ((balance.value - minimumBalance) / costPerCall).Floor
  {
    var total := phones as real * costPerCall;
    match balance
    case None => Estimate(false, total, None, false)
    case Some(b) =>
      var available := b - minimumBalance;
      var possible := if costPerCall == 0.0 then None else Some((available / costPerCall).Floor);
      Estimate(total <= available, total, possible, !(total <= available))
  }

  lemma ScaleLe(x: real, y: real, c: real)
    requires c > 0.0
    ensures x <= y <==> x * c <= y * c
  {
    if x <= y {
      assert (y - x) * c >= 0.0;
    } else {
      assert (x - y) * c > 0.0;
    }
  }

  /** With a positive per-call cost, the upload may go ahead exactly when
      the file has no more phones than the calls the balance allows. */
  lemma CanProceedIffWithinPossible(phones: nat, costPerCall: real, balance: real, minimumBalance: real)
    requires costPerCall > 0.0
    ensures var e := CallEstimates(phones, costPerCall, Some(balance), minimumBalance);
            e.canProceed <==> phones <= e.possibleCalls.value
  {
    var available := balance - minimumBalance;
    var q := available / costPerCall;
    assert q * costPerCall == available;
    ScaleLe(phones as real, q, costPerCall);
    assert phones as real <= q <==> phones <= q.Floor;
  }

  /** `Number(clientData.estimatedCallCost) || 0.08`: a missing, zero or
      non-numeric estimate falls back to the default. */
  function CostPerCall(estimatedCallCost: Option<real>): (c: real)
    ensures TruthyNum(estimatedCallCost) ==> c == estimatedCallCost.value
    ensures !TruthyNum(estimatedCallCost) ==> c == DefaultCostPerCall
    ensures c != 0.0
  {
    if TruthyNum(estimatedCallCost) then estimatedCallCost.value else DefaultCostPerCall
  }

  // ---------------------------------------------------------------------------
  // checkForDuplicates

  /** The phone occurs at two different positions. */
  predicate Repeated(phones: seq<string>, p: string) {
    exists i, j :: 0 <= i < j < |phones| && phones[i] == p && phones[j] == p
  }

  predicate Distinct(xs: seq<string>) {
    forall i, j :: 0 <= i < j < |xs| ==> xs[i] != xs[j]
  }

  /** The repeated phones in the order a set collects them: each one when
      it is met for the second time. */
  function RepeatedPhones(phones: seq<string>): seq<string> {
    if |phones| == 0 then []
    else
      var init := phones[..|phones| - 1];
      var last := phones[|phones| - 1];
      var before := RepeatedPhones(init);
      if last in init && last !in before then before + [last] else before
  }

  /** The list holds every repeated phone and nothing else, once each. */
  lemma {:induction false} RepeatedPhonesExact(phones: seq<string>)
    ensures forall p :: p in RepeatedPhones(phones) <==> Repeated(phones, p)
    ensures Distinct(RepeatedPhones(phones))
  {
    if |phones| > 0 {
      var init := phones[..|phones| - 1];
      var last := phones[|phones| - 1];
      RepeatedPhonesExact(init);
      forall p ensures p in RepeatedPhones(phones) <==> Repeated(phones, p) {
        if Repeated(init, p) {
          var i, j :| 0 <= i < j < |init| && init[i] == p && init[j] == p;
          assert phones[i] == p && phones[j] == p;
        }
        if p == last && last in init {
          var i :| 0 <= i < |init| && init[i] == last;
          assert phones[i] == p && phones[|phones| - 1] == p;
        }
        if Repeated(phones, p) {
          var i, j :| 0 <= i < j < |phones| && phones[i] == p && phones[j] == p;
          if j < |phones| - 1 {
            assert init[i] == p && init[j] == p;
          } else {
            assert init[i] == p;
          }
        }
      }
    }
  }

  /** `checkForDuplicates`, with its loop: `seen` is the set of phones met
      so far and `found` the set behind the reported list. */
  method CheckForDuplicates(phones: seq<string>) returns (hasDuplicates: bool, duplicates: seq<string>)
    ensures duplicates == RepeatedPhones(phones)
    ensures hasDuplicates <==> |duplicates| > 0
  {
    var seen: set<string> := {};
    var found: set<string> := {};
    duplicates := [];
    var k := 0;
    while k < |phones|
      invariant 0 <= k <= |phones|
      invariant seen == set i | 0 <= i < k :: phones[i]
      invariant duplicates == RepeatedPhones(phones[..k])
      invariant found == set d | d in duplicates
    {
      var p := phones[k];
      assert phones[..k + 1][..k] == phones[..k];
      assert p in seen <==> p in phones[..k] by {
        if p in phones[..k] {
          var i :| 0 <= i < k && phones[..k][i] == p;
          assert phones[i] == p;
        }
      }
      if p in seen && p !in found {
        duplicates := duplicates + [p];
        found := found + {p};
      }
      seen := seen + {p};
      k := k + 1;
    }
    assert phones[..|phones|] == phones;
    hasDuplicates := |found| > 0;
    if |duplicates| > 0 {
      assert duplicates[0] in found;
    }
  }

  /** Duplicates are reported exactly when some phone occurs twice, and
      each is reported once. */
  lemma DuplicatesReported(phones: seq<string>)
    ensures |RepeatedPhones(phones)| > 0 <==> exists p :: Repeated(phones, p)
    ensures Distinct(RepeatedPhones(phones))
  {
    RepeatedPhonesExact(phones);
    if exists p :: Repeated(phones, p) {
      var p :| Repeated(phones, p);
      assert p in RepeatedPhones(phones);
    }
    if |RepeatedPhones(phones)| > 0 {
      assert Repeated(phones, RepeatedPhones(phones)[0]);
    }
  }

  // ---------------------------------------------------------------------------
  // handleFileUpload

  /** What `/api/upload` answered: its `success`, `message` and the parsed
      leads. */
  datatype UploadReply = UploadReply(success: bool, message: Option<string>, data: seq<LeadImports.LeadData>)

  /** What `/api/clients/me` answered about the client. */
  datatype ClientFigures = ClientFigures(estimatedCallCost: Option<real>, balance: Option<real>)

  /** Where `handleFileUpload` stops. */
  datatype UploadStep =
    | NoClientId
    | NoFile
    | UploadFailed(message: string)
    | DuplicatesFound(duplicates: seq<string>)
    | OverBudget(estimate: Estimate)
    | CreateLeads(clientId: int, fileName: string, leads: seq<LeadImports.LeadData>, estimate: Estimate)

  function PhonesOf(leads: seq<LeadImports.LeadData>): (r: seq<string>)
    ensures |r| == |leads| && forall i :: 0 <= i < |leads| ==> r[i] == leads[i].phoneNumber
  {
    seq(|leads|, i requires 0 <= i < |leads| => leads[i].phoneNumber)
  }

  /** The checks of `handleFileUpload`, in their order: a known client id,
      a chosen file, a successful upload, no duplicate phone, an estimate
      the balance covers. Only then are the leads sent for creation. */
  function HandleFileUpload(clientId: Option<int>, fileName: Option<string>, upload: UploadReply, client: ClientFigures): (r: UploadStep)
    ensures r.CreateLeads? <==>
              && clientId.Some? && clientId.value != 0 && fileName.Some? && upload.success
              && RepeatedPhones(PhonesOf(upload.data)) == []
              && CallEstimates(|upload.data|, CostPerCall(client.estimatedCallCost), client.balance, MinimumBalance).canProceed
    ensures r.CreateLeads? ==> r.leads == upload.data && r.clientId == clientId.value && r.fileName == fileName.value
    ensures (clientId.None? || clientId == Some(0)) ==> r == NoClientId
  {
    if clientId.None? || clientId.value == 0 then NoClientId
    else if fileName.None? then NoFile
    else if !upload.success then UploadFailed(if TruthyStr(upload.message) then upload.message.value else "Upload failed")
    else
      var duplicates := RepeatedPhones(PhonesOf(upload.data));
      if |duplicates| > 0 then DuplicatesFound(duplicates)
      else
        var e := CallEstimates(|upload.data|, CostPerCall(client.estimatedCallCost), client.balance, MinimumBalance);
        if !e.canProceed then OverBudget(e)
        else CreateLeads(clientId.value, fileName.value, upload.data, e)
  }

  /** Leads sent for creation never repeat a phone, and they fit the
      balance: with the client's per-call estimate, their cost leaves at
      least the minimum balance. */
  lemma CreatedLeadsDistinctAndAffordable(clientId: Option<int>, fileName: Option<string>, upload: UploadReply, client: ClientFigures)
    requires HandleFileUpload(clientId, fileName, upload, client).CreateLeads?
    ensures forall i, j :: 0 <= i < j < |upload.data| ==> upload.data[i].phoneNumber != upload.data[j].phoneNumber
    ensures client.balance.Some?
    ensures |upload.data| as real * CostPerCall(client.estimatedCallCost) <= client.balance.value - MinimumBalance
  {
    var phones := PhonesOf(upload.data);
    RepeatedPhonesExact(phones);
    forall i, j | 0 <= i < j < |upload.data| ensures upload.data[i].phoneNumber != upload.data[j].phoneNumber {
      if upload.data[i].phoneNumber == upload.data[j].phoneNumber {
        assert Repeated(phones, phones[i]);
      }
    }
  }

  /** The duplicate check comes before the balance: a file with a repeated
      phone is refused as such even when the balance would not cover it. */
  lemma DuplicatesCheckedBeforeBalance(clientId: Option<int>, fileName: Option<string>, upload: UploadReply, client: ClientFigures, p: string)
    requires clientId.Some? && clientId.value != 0 && fileName.Some? && upload.success
    requires Repeated(PhonesOf(upload.data), p)
    ensures HandleFileUpload(clientId, fileName, upload, client).DuplicatesFound?
  {
    RepeatedPhonesExact(PhonesOf(upload.data));
  }

  /** A balance that is not a number stops the upload, but with the plain
      estimate text rather than the warning: the message shown as the reason
      for the refusal only states the cost. */
  lemma UnreadBalanceBlocksWithoutWarning(clientId: int, fileName: string, upload: UploadReply, estimatedCallCost: Option<real>)
    requires clientId != 0 && upload.success
    requires RepeatedPhones(PhonesOf(upload.data)) == []
    ensures var r := HandleFileUpload(Some(clientId), Some(fileName), upload, ClientFigures(estimatedCallCost, None));
            r.OverBudget? && !r.estimate.warning && !r.estimate.canProceed
  {
  }
}
