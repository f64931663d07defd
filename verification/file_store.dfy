/** The JSON-file lead store of `src/services/fileService.ts`: `getLeads`
    reads the stored list (none yet reads as empty) and `savePhones`
    appends one `pending` lead per phone, numbering them on from the
    largest serial already stored. The file itself is a parameter: `None`
    when it does not exist, otherwise its parsed contents. */
module FileStore {
  import opened Wrappers
  import Csv

  /** A lead of the file store. */
  datatype FileLead = FileLead(serial: int, phone: string, uploadedAt: int, callStatus: string, appointmentBooked: bool)

  const PendingStatus: string := "pending"

  /** `getLeads`. */
  function GetLeads(stored: Option<seq<FileLead>>): (r: seq<FileLead>)
    ensures stored.None? ==> r == []
    ensures stored.Some? ==> r == stored.value
  {
    stored.GetOr([])
  }

  /** `Math.max(...leads.map(lead => lead.serial))`. */
  function MaxSerial(leads: seq<FileLead>): (m: int)
    requires |leads| > 0
    ensures forall i :: 0 <= i < |leads| ==> leads[i].serial <= m
    ensures exists i :: 0 <= i < |leads| && leads[i].serial == m
  {
    if |leads| == 1 then leads[0].serial
    else
      var m := MaxSerial(leads[..|leads| - 1]);
      var last := leads[|leads| - 1].serial;
      if m < last then last else m
  }

  /** The serial numbering continues from: the largest stored serial, or 0
      for an empty store. */
  function LastSerial(leads: seq<FileLead>): (m: int)
    ensures forall i :: 0 <= i < |leads| ==> leads[i].serial <= m
    ensures |leads| == 0 ==> m == 0
  {
    if |leads| > 0 then MaxSerial(leads) else 0
  }

  /** The lead stored for the `index`-th new phone. */
  function NewFileLead(last: int, index: nat, phone: Csv.Phone): FileLead {
    FileLead(last + index + 1, phone.phoneNumber, phone.createdAt, PendingStatus, false)
  }

  /** `savePhones`: the list written back to the file. */
  function SavePhones(stored: Option<seq<FileLead>>, phones: seq<Csv.Phone>): (r: seq<FileLead>)
    ensures var existing := GetLeads(stored);
            && |r| == |existing| + |phones|
            && r[..|existing|] == existing
            && forall j :: |existing| <= j < |r| ==>
                 var l := r[j];
                 var i := j - |existing|;
                 l.phone == phones[i].phoneNumber && l.uploadedAt == phones[i].createdAt
                 && l.callStatus == PendingStatus && !l.appointmentBooked
                 && l.serial == LastSerial(existing) + i + 1
  {
    var existing := GetLeads(stored);
    var last := LastSerial(existing);
    existing + seq(|phones|, i requires 0 <= i < |phones| => NewFileLead(last, i, phones[i]))
  }

  /** No two leads share a serial. */
  predicate SerialsUnique(leads: seq<FileLead>) {
    forall i, j :: 0 <= i < j < |leads| ==> leads[i].serial != leads[j].serial
  }

  /** Every new serial exceeds every stored one, and the new serials
      increase strictly. */
  lemma SavePhonesSerialsAboveStored(stored: Option<seq<FileLead>>, phones: seq<Csv.Phone>)
    ensures var existing := GetLeads(stored);
            var r := SavePhones(stored, phones);
            && (forall i, j :: 0 <= i < |existing| <= j < |r| ==> r[i].serial < r[j].serial)
            && (forall i, j :: |existing| <= i < j < |r| ==> r[i].serial < r[j].serial)
  {
    var existing := GetLeads(stored);
    var r := SavePhones(stored, phones);
    forall i, j | 0 <= i < |existing| <= j < |r| ensures r[i].serial < r[j].serial {
      assert r[i] == r[..|existing|][i];
    }
  }

  /** A store whose serials are unique stays so. */
  lemma SavePhonesKeepsSerialsUnique(stored: Option<seq<FileLead>>, phones: seq<Csv.Phone>)
    requires SerialsUnique(GetLeads(stored))
    ensures SerialsUnique(SavePhones(stored, phones))
  {
    var existing := GetLeads(stored);
    var r := SavePhones(stored, phones);
    SavePhonesSerialsAboveStored(stored, phones);
    forall i, j | 0 <= i < j < |r| ensures r[i].serial != r[j].serial {
      if j < |existing| {
        assert r[i] == r[..|existing|][i] && r[j] == r[..|existing|][j];
        assert existing[i].serial != existing[j].serial;
      } else if i < |existing| {
        assert r[i].serial < r[j].serial;
      } else {
        assert r[i].serial < r[j].serial;
      }
    }
  }

  /** Saving to a missing file numbers the phones 1, 2, 3, and so on. */
  lemma SaveToEmptyStore(phones: seq<Csv.Phone>)
    ensures var r := SavePhones(None, phones);
            |r| == |phones| && forall i :: 0 <= i < |phones| ==> r[i].serial == i + 1
  {
  }
}
