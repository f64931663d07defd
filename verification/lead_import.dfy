/** Importing leads from a file: `createLeadsFromImport`
    (`src/lib/utils/leads.ts`), which records one import and upserts one
    lead per record inside a transaction, and the `POST` of
    `src/app/api/leads/import/route.ts`, which does the same for the
    records of an uploaded file after checking the caller. Both upsert on
    the `clientId_phoneNumber` key: a number the client already has only
    gets the new import id; any other number becomes a new
    `Not Initiated` lead. */
module LeadImports {
  import opened Wrappers
  import opened Store
  import Strings
  import Ordering
  import Campaigns

  /** One record to import. */
  datatype LeadData = LeadData(phoneNumber: string, name: Option<string>)

  /** Position of the client's lead for a phone number. */
  function LeadIndex(leads: seq<Lead>, client: Id, phone: string): (r: Option<nat>)
    ensures r.Some? ==> r.value < |leads| && Campaigns.IsLeadOf(leads[r.value], client, phone)
    ensures r.None? <==> !Campaigns.HasLead(leads, client, phone)
  {
    Ordering.FirstIndex(leads, (l: Lead) => Campaigns.IsLeadOf(l, client, phone))
  }

  /** The lead is the client's lead for the number and carries the import. */
  predicate ImportedLead(l: Lead, client: Id, phone: string, importId: Id) {
    Campaigns.IsLeadOf(l, client, phone) && l.importId == Some(importId)
  }

  /** The lead an upsert creates. */
  function CreatedLead(id: Id, client: Id, importId: Id, d: LeadData): Lead {
    Lead(id, client, d.phoneNumber, d.name, Campaigns.NotInitiated, None, Some(importId))
  }

  /** An existing lead after an import: the same lead, its import id
      either kept or set to the import. */
  predicate Reimported(before: Lead, after: Lead, importId: Id) {
    after == before.(importId := after.importId)
    && (after.importId == before.importId || after.importId == Some(importId))
  }

  /** A lead the import created: the client's `Not Initiated` lead with
      this id, outside any campaign, carrying the import and named after a
      record with its number. */
  predicate CreatedByImport(l: Lead, id: Id, client: Id, importId: Id, ds: seq<LeadData>) {
    && l.id == id && l.clientId == client
    && l.callStatus == Campaigns.NotInitiated && l.campaignId.None?
    && l.importId == Some(importId)
    && exists j | 0 <= j < |ds| :: ds[j].phoneNumber == l.phoneNumber && ds[j].name == l.name
  }

  /** One `lead.upsert`: the leads afterwards, the lead it returns and the
      next free id. An existing lead only gets the import id; a missing one
      is created. */
  function UpsertLead(leads: seq<Lead>, nextId: Id, client: Id, importId: Id, d: LeadData): (r: (seq<Lead>, Lead, Id))
    ensures ImportedLead(r.1, client, d.phoneNumber, importId) && r.1 in r.0
    ensures |leads| <= |r.0|
    ensures Campaigns.HasLead(leads, client, d.phoneNumber) ==> |r.0| == |leads| && r.2 == nextId
    ensures !Campaigns.HasLead(leads, client, d.phoneNumber) ==>
              r.0 == leads + [r.1] && r.1 == CreatedLead(nextId, client, importId, d) && r.2 == nextId + 1
  {
    match LeadIndex(leads, client, d.phoneNumber)
    case Some(k) =>
      var updated := leads[k].(importId := Some(importId));
      assert leads[k := updated][k] == updated;
      (leads[k := updated], updated, nextId)
    case None =>
      var created := CreatedLead(nextId, client, importId, d);
      (leads + [created], created, nextId + 1)
  }

  /** An upsert changes at most the import id of an existing lead. */
  lemma UpsertLeadReimports(leads: seq<Lead>, nextId: Id, client: Id, importId: Id, d: LeadData)
    ensures var r := UpsertLead(leads, nextId, client, importId, d);
            |leads| <= |r.0| && forall i :: 0 <= i < |leads| ==> Reimported(leads[i], r.0[i], importId)
  {
  }

  /** A lead that already carries the import survives a further upsert of
      the same import. */
  lemma UpsertKeepsImported(leads: seq<Lead>, nextId: Id, client: Id, importId: Id, d: LeadData, l: Lead)
    requires l in leads && l.importId == Some(importId)
    ensures l in UpsertLead(leads, nextId, client, importId, d).0
  {
    var i :| 0 <= i < |leads| && leads[i] == l;
    UpsertLeadReimports(leads, nextId, client, importId, d);
    assert UpsertLead(leads, nextId, client, importId, d).0[i] == l;
  }

  /** The upserts of all records, in order: the leads afterwards, the
      returned leads (one per record) and the next free id. */
  function UpsertLeads(leads: seq<Lead>, nextId: Id, client: Id, importId: Id, ds: seq<LeadData>): (r: (seq<Lead>, seq<Lead>, Id))
    ensures |r.1| == |ds| && |leads| <= |r.0| && r.2 == nextId + (|r.0| - |leads|)
  {
    if |ds| == 0 then (leads, [], nextId)
    else
      var before := UpsertLeads(leads, nextId, client, importId, ds[..|ds| - 1]);
      var step := UpsertLead(before.0, before.2, client, importId, ds[|ds| - 1]);
      (step.0, before.1 + [step.1], step.2)
  }

  /** Existing leads keep their place and everything but the import id,
      which is either kept or set to the new import. */
  lemma {:induction false} UpsertLeadsKeepsExisting(leads: seq<Lead>, nextId: Id, client: Id, importId: Id, ds: seq<LeadData>)
    ensures var r := UpsertLeads(leads, nextId, client, importId, ds);
            |leads| <= |r.0| && forall i :: 0 <= i < |leads| ==> Reimported(leads[i], r.0[i], importId)
  {
    if |ds| > 0 {
      UpsertLeadsKeepsExisting(leads, nextId, client, importId, ds[..|ds| - 1]);
      var before := UpsertLeads(leads, nextId, client, importId, ds[..|ds| - 1]);
      UpsertLeadReimports(before.0, before.2, client, importId, ds[|ds| - 1]);
    }
  }

  /** The leads after the existing ones are new leads of the client,
      numbered from `nextId` on. */
  lemma {:induction false} UpsertLeadsCreates(leads: seq<Lead>, nextId: Id, client: Id, importId: Id, ds: seq<LeadData>)
    ensures var r := UpsertLeads(leads, nextId, client, importId, ds);
            && |leads| <= |r.0|
            && forall i :: |leads| <= i < |r.0| ==> CreatedByImport(r.0[i], nextId + (i - |leads|), client, importId, ds)
  {
    if |ds| > 0 {
      var init := ds[..|ds| - 1];
      UpsertLeadsCreates(leads, nextId, client, importId, init);
      var before := UpsertLeads(leads, nextId, client, importId, init);
      var step := UpsertLead(before.0, before.2, client, importId, ds[|ds| - 1]);
      forall i | |leads| <= i < |step.0|
        ensures CreatedByImport(step.0[i], nextId + (i - |leads|), client, importId, ds)
      {
        if i < |before.0| {
          assert CreatedByImport(before.0[i], nextId + (i - |leads|), client, importId, init);
          var j :| 0 <= j < |init| && init[j].phoneNumber == before.0[i].phoneNumber && init[j].name == before.0[i].name;
          assert ds[j] == init[j];
        } else {
          assert ds[|ds| - 1].phoneNumber == step.0[i].phoneNumber;
        }
      }
    }
  }

  /** Every returned lead is stored afterwards and is the client's lead for
      its record's number, carrying the new import. */
  lemma {:induction false} UpsertLeadsStoresReturned(leads: seq<Lead>, nextId: Id, client: Id, importId: Id, ds: seq<LeadData>)
    ensures var r := UpsertLeads(leads, nextId, client, importId, ds);
            && |r.1| == |ds|
            && forall j :: 0 <= j < |ds| ==> ImportedLead(r.1[j], client, ds[j].phoneNumber, importId) && r.1[j] in r.0
  {
    if |ds| > 0 {
      var init := ds[..|ds| - 1];
      UpsertLeadsStoresReturned(leads, nextId, client, importId, init);
      var before := UpsertLeads(leads, nextId, client, importId, init);
      var step := UpsertLead(before.0, before.2, client, importId, ds[|ds| - 1]);
      var out := before.1 + [step.1];
      forall j | 0 <= j < |init|
        ensures ImportedLead(out[j], client, ds[j].phoneNumber, importId) && out[j] in step.0
      {
        assert ds[j] == init[j] && out[j] == before.1[j];
        UpsertKeepsImported(before.0, before.2, client, importId, ds[|ds| - 1], out[j]);
      }
    }
  }

  /** The import never creates a second lead for a client's number. */
  lemma {:induction false} UpsertLeadsKeepsKeysUnique(leads: seq<Lead>, nextId: Id, client: Id, importId: Id, ds: seq<LeadData>)
    requires Campaigns.LeadKeysUnique(leads)
    ensures Campaigns.LeadKeysUnique(UpsertLeads(leads, nextId, client, importId, ds).0)
  {
    if |ds| > 0 {
      var init := ds[..|ds| - 1];
      UpsertLeadsKeepsKeysUnique(leads, nextId, client, importId, init);
      var before := UpsertLeads(leads, nextId, client, importId, init);
      var step := UpsertLead(before.0, before.2, client, importId, ds[|ds| - 1]);
      if Campaigns.HasLead(before.0, client, ds[|ds| - 1].phoneNumber) {
        UpsertLeadReimports(before.0, before.2, client, importId, ds[|ds| - 1]);
        forall i, j | 0 <= i < j < |step.0|
          ensures !Campaigns.IsLeadOf(step.0[j], step.0[i].clientId, step.0[i].phoneNumber)
        {
          assert Reimported(before.0[i], step.0[i], importId) && Reimported(before.0[j], step.0[j], importId);
          assert !Campaigns.IsLeadOf(before.0[j], before.0[i].clientId, before.0[i].phoneNumber);
        }
      } else {
        Campaigns.AppendFreshLead(before.0, step.1);
      }
    }
  }

  /** The writes both import paths share: an import recording the number
      of records, then one upsert per record. Returns the database
      afterwards, the import and one lead per record. */
  function Import(db: Db, client: Id, fileName: string, ds: seq<LeadData>): (r: (Db, LeadImport, seq<Lead>))
    ensures r.1 == LeadImport(db.nextId, client, fileName, |ds|)
    ensures r.0.imports == db.imports + [r.1]
    ensures |r.2| == |ds|
    ensures r.0 == db.(imports := r.0.imports, leads := r.0.leads, nextId := r.0.nextId)
    ensures db.nextId < r.0.nextId
  {
    var imp := LeadImport(db.nextId, client, fileName, |ds|);
    var written := UpsertLeads(db.leads, db.nextId + 1, client, db.nextId, ds);
    (db.(imports := db.imports + [imp], leads := written.0, nextId := written.2), imp, written.1)
  }

  /** After an import every record's number has a lead of the client
      carrying the new import, returned in the record's place and stored. */
  lemma ImportCovers(db: Db, client: Id, fileName: string, ds: seq<LeadData>)
    ensures var r := Import(db, client, fileName, ds);
            forall j :: 0 <= j < |ds| ==> ImportedLead(r.2[j], client, ds[j].phoneNumber, r.1.id) && r.2[j] in r.0.leads
  {
    var r := Import(db, client, fileName, ds);
    var written := UpsertLeads(db.leads, db.nextId + 1, client, db.nextId, ds);
    assert r.0.leads == written.0 && r.2 == written.1;
    UpsertLeadsStoresReturned(db.leads, db.nextId + 1, client, db.nextId, ds);
  }

  /** An import keeps one lead per client and number. */
  lemma ImportKeepsKeysUnique(db: Db, client: Id, fileName: string, ds: seq<LeadData>)
    requires Campaigns.LeadKeysUnique(db.leads)
    ensures Campaigns.LeadKeysUnique(Import(db, client, fileName, ds).0.leads)
  {
    assert Import(db, client, fileName, ds).0.leads == UpsertLeads(db.leads, db.nextId + 1, client, db.nextId, ds).0;
    UpsertLeadsKeepsKeysUnique(db.leads, db.nextId + 1, client, db.nextId, ds);
  }

  /** An import leaves every lead it does not create as it was, except for
      the import id, and the leads it creates are `Not Initiated` leads of
      the client carrying the import. */
  lemma ImportKeepsOtherFields(db: Db, client: Id, fileName: string, ds: seq<LeadData>)
    ensures var r := Import(db, client, fileName, ds);
            && |db.leads| <= |r.0.leads|
            && (forall i :: 0 <= i < |db.leads| ==> Reimported(db.leads[i], r.0.leads[i], db.nextId))
            && (forall i :: |db.leads| <= i < |r.0.leads| ==>
                  CreatedByImport(r.0.leads[i], db.nextId + 1 + (i - |db.leads|), client, db.nextId, ds))
  {
    assert Import(db, client, fileName, ds).0.leads == UpsertLeads(db.leads, db.nextId + 1, client, db.nextId, ds).0;
    UpsertLeadsKeepsExisting(db.leads, db.nextId + 1, client, db.nextId, ds);
    UpsertLeadsCreates(db.leads, db.nextId + 1, client, db.nextId, ds);
  }

  /** `createLeadsFromImport`: the import inside one transaction. A client
      that does not exist fails the import's foreign key and nothing is
      written. */
  function CreateLeadsFromImport(db: Db, client: Id, fileName: string, ds: seq<LeadData>): (r: Option<(Db, LeadImport, seq<Lead>)>)
    ensures r.None? <==> ClientIndex(db.clients, client).None?
    ensures r.Some? ==> r.value == Import(db, client, fileName, ds)
  {
    if ClientIndex(db.clients, client).None? then None
    else Some(Import(db, client, fileName, ds))
  }

  // ---------------------------------------------------------------------------
  // POST /api/leads/import

  /** An uploaded file, already parsed: its name and each record's
      `phoneNumber` column (absent when the row has none). */
  datatype UploadedFile = UploadedFile(name: string, records: seq<Option<string>>)

  /** `record.phoneNumber?.toString().trim() || ''`. */
  function RecordPhone(record: Option<string>): (r: string)
    ensures Strings.IsTrimmed(r)
    ensures record.None? ==> r == ""
    ensures record.Some? ==> |r| <= |record.value|
  {
    if record.None? then "" else Strings.Trim(record.value)
  }

  /** The records as leads without a name. */
  function RecordLeads(records: seq<Option<string>>): (r: seq<LeadData>)
    ensures |r| == |records|
  {
    seq(|records|, j requires 0 <= j < |records| => LeadData(RecordPhone(records[j]), None))
  }

  /** The `j`-th record as a lead without a name. */
  lemma RecordLeadsAt(records: seq<Option<string>>, j: nat)
    requires j < |records|
    ensures RecordLeads(records)[j] == LeadData(RecordPhone(records[j]), None)
  {
  }

  /** The route: 401 without a session; a session without an email makes
      the user lookup throw, answered as 500; 404 when the email has no
      client; 400 without a file or without records; otherwise the import
      of the records for the caller's client, answered with one lead per
      record. The import and the upserts are separate writes. */
  function ImportRoute(db: Db, session: Option<Session>, file: Option<UploadedFile>): (r: Outcome<seq<Lead>>)
    ensures session.None? ==> r == Outcome(db, Status(401, "Unauthorized"))
    ensures session.Some? && session.value.email.None? ==> r == Outcome(db, Status(500, "Failed to process file"))
    ensures session.Some? && session.value.email.Some? && session.value.email.value !in db.emailClients ==>
              r == Outcome(db, Status(404, "Client not found"))
    ensures r.response.Status? && r.response.code == 400 ==>
              r.db == db && (file.None? || |file.value.records| == 0)
    ensures r.response.Json200? <==>
              && session.Some? && session.value.email.Some? && session.value.email.value in db.emailClients
              && file.Some? && |file.value.records| > 0
    ensures r.response.Json200? ==>
              var imported := Import(db, db.emailClients[session.value.email.value], file.value.name, RecordLeads(file.value.records));
              r == Outcome(imported.0, Json200(imported.2))
  {
    if session.None? then Outcome(db, Status(401, "Unauthorized"))
    else if session.value.email.None? then Outcome(db, Status(500, "Failed to process file"))
    else if session.value.email.value !in db.emailClients then Outcome(db, Status(404, "Client not found"))
    else if file.None? then Outcome(db, Status(400, "No file provided"))
    else if |file.value.records| == 0 then Outcome(db, Status(400, "No records found in the file"))
    else
      var imported := Import(db, db.emailClients[session.value.email.value], file.value.name, RecordLeads(file.value.records));
      Outcome(imported.0, Json200(imported.2))
  }

  /** Each record of a successful upload has a lead of the caller's client
      under its trimmed number (empty when the record has none), carrying
      the new import, returned in the record's place. */
  lemma ImportRouteCovers(db: Db, client: Id, file: UploadedFile, j: nat)
    requires j < |file.records|
    ensures var r := Import(db, client, file.name, RecordLeads(file.records));
            ImportedLead(r.2[j], client, RecordPhone(file.records[j]), db.nextId) && r.2[j] in r.0.leads
  {
    ImportCovers(db, client, file.name, RecordLeads(file.records));
    RecordLeadsAt(file.records, j);
  }
}
