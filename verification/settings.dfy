/** System settings: the admin route `src/app/api/admin/settings/route.ts`
    (`GET` lists every setting, `PUT` upserts one by its unique `key`) and
    the client-side reader `getCallRateMultiplier` of
    `src/utils/getSettings.ts`, which looks up the multiplier applied to
    call costs. */
module Settings {
  import opened Wrappers
  import opened Store
  import Ordering

  const RateMultiplierKey: string := "call_rate_multiplier"

  /** The fallback multiplier: 100%. */
  const DefaultMultiplier: Json := JNum(1.0)

  function KeyIs(key: string): Setting -> bool {
    (s: Setting) => s.key == key
  }

  /** `setting.findUnique({ where: { key } })`, as a position. */
  function SettingIndex(settings: seq<Setting>, key: string): (r: Option<nat>)
    ensures r.Some? ==> r.value < |settings| && settings[r.value].key == key
    ensures r.None? <==> forall j :: 0 <= j < |settings| ==> settings[j].key != key
  {
    Ordering.FirstIndex(settings, KeyIs(key))
  }

  /** The unique index on `key`. */
  predicate SettingKeysUnique(settings: seq<Setting>) {
    forall i, j :: 0 <= i < j < |settings| ==> settings[i].key != settings[j].key
  }

  // ---------------------------------------------------------------------------
  // getCallRateMultiplier

  /** `settings.find(s => s.key === 'call_rate_multiplier')?.value?.multiplier ?? 1`
      over the fetched list; `None` stands for a failed fetch or an
      unreadable body, which also gives 1. The answer is whatever JSON the
      setting holds: `??` replaces only a missing or `null` multiplier, so a
      stored 0 is answered as 0. */
  function CallRateMultiplier(fetched: Option<seq<Setting>>): (m: Json)
    ensures fetched.None? ==> m == DefaultMultiplier
    ensures fetched.Some? && SettingIndex(fetched.value, RateMultiplierKey).None? ==> m == DefaultMultiplier
    ensures fetched.Some? && SettingIndex(fetched.value, RateMultiplierKey).Some? ==>
              var s := fetched.value[SettingIndex(fetched.value, RateMultiplierKey).value];
              match Field(s.value, "multiplier")
              case Some(v) => if v == JNull then m == DefaultMultiplier else m == v
              case None => m == DefaultMultiplier
  {
    if fetched.None? then DefaultMultiplier
    else
      match SettingIndex(fetched.value, RateMultiplierKey)
      case None => DefaultMultiplier
      case Some(i) =>
        match Field(fetched.value[i].value, "multiplier")
        case Some(v) => if v == JNull then DefaultMultiplier else v
        case None => DefaultMultiplier
  }

  /** The reader answers the multiplier the only setting with its key holds,
      wherever that setting sits in the list. */
  lemma CallRateMultiplierFinds(settings: seq<Setting>, i: nat, v: Json)
    requires SettingKeysUnique(settings)
    requires i < |settings| && settings[i].key == RateMultiplierKey
    requires Field(settings[i].value, "multiplier") == Some(v) && v != JNull
    ensures CallRateMultiplier(Some(settings)) == v
  {
  }

  /** A stored multiplier of 0 is answered as 0, not replaced by 1. */
  lemma ZeroMultiplierKept()
    ensures var zero := Setting(1, RateMultiplierKey, JObj([("multiplier", JNum(0.0))]), None, None, None, true);
            CallRateMultiplier(Some([zero])) == JNum(0.0)
  {
    var zero := Setting(1, RateMultiplierKey, JObj([("multiplier", JNum(0.0))]), None, None, None, true);
    assert SettingIndex([zero], RateMultiplierKey) == Some(0);
    assert Field(zero.value, "multiplier") == Some(JNum(0.0));
  }

  // ---------------------------------------------------------------------------
  // The admin route

  /** The `PUT` body; `None` is a field left out (`undefined`). */
  datatype SettingInput = SettingInput(
    key: Option<string>,
    value: Option<Json>,
    category: Option<string>,
    displayLabel: Option<string>,
    description: Option<string>)

  /** Prisma's update of a required column: a field left out keeps the
      stored value. */
  function Overwrite<T>(stored: T, given: Option<T>): (r: T)
    ensures given.Some? ==> r == given.value
    ensures given.None? ==> r == stored
  {
    if given.Some? then given.value else stored
  }

  /** The same for an optional column. */
  function OverwriteOpt<T>(stored: Option<T>, given: Option<T>): (r: Option<T>)
    ensures given.Some? ==> r == given
    ensures given.None? ==> r == stored
  {
    if given.Some? then given else stored
  }

  /** The update branch: the four given fields replace the stored ones; the
      id, the key and `isSystem` stay. */
  function UpdatedSetting(s: Setting, input: SettingInput): Setting {
    s.(value := Overwrite(s.value, input.value),
       category := OverwriteOpt(s.category, input.category),
       displayLabel := OverwriteOpt(s.displayLabel, input.displayLabel),
       description := OverwriteOpt(s.description, input.description))
  }

  /** The create branch: always a system setting. */
  function CreatedSetting(id: Id, key: string, value: Json, input: SettingInput): Setting {
    Setting(id, key, value, input.category, input.displayLabel, input.description, true)
  }

  const PutFailed: string := "Failed to update setting"

  /** `PUT`: upsert by key. A body without a key, or a new key without a
      value, fails in Prisma and answers 500 with nothing written. */
  function PutSetting(db: Db, input: SettingInput): (r: Outcome<Setting>)
    ensures input.key.None? ==> r == Outcome(db, Status(500, PutFailed))
    ensures r.response.Status? ==> r.db == db
    ensures r.db == db.(settings := r.db.settings, nextId := r.db.nextId)
    ensures r.response.Json200? ==>
              && input.key.Some?
              && var s := r.response.body;
              && s.key == input.key.value
              && (input.value.Some? ==> s.value == input.value.value)
              && (input.category.Some? ==> s.category == input.category)
              && (input.displayLabel.Some? ==> s.displayLabel == input.displayLabel)
              && (input.description.Some? ==> s.description == input.description)
              && s in r.db.settings
    ensures input.key.Some? ==>
              match SettingIndex(db.settings, input.key.value)
              case Some(i) =>
                && r.response.Json200?
                && r.db.settings == db.settings[i := r.response.body]
                && r.db.nextId == db.nextId
                && r.response.body.id == db.settings[i].id
                && r.response.body.isSystem == db.settings[i].isSystem
              case None =>
                if input.value.None? then r.response.Status?
                else
                  && r.response.Json200?
                  && r.db.settings == db.settings + [r.response.body]
                  && r.response.body.id == db.nextId
                  && r.db.nextId == db.nextId + 1
                  && r.response.body.isSystem
  {
    if input.key.None? then Outcome(db, Status(500, PutFailed))
    else
      var key := input.key.value;
      match SettingIndex(db.settings, key)
      case Some(i) =>
        var s := UpdatedSetting(db.settings[i], input);
        var settings := db.settings[i := s];
        assert settings[i] == s;
        Outcome(db.(settings := settings), Json200(s))
      case None =>
        if input.value.None? then Outcome(db, Status(500, PutFailed))
        else
          var s := CreatedSetting(db.nextId, key, input.value.value, input);
          Outcome(db.(settings := db.settings + [s], nextId := db.nextId + 1), Json200(s))
  }

  /** `GET`: every setting, unfiltered and in table order. */
  function GetSettings(db: Db): (r: Response<seq<Setting>>)
    ensures r.Json200? && forall s :: s in db.settings <==> s in r.body
  {
    Json200(db.settings)
  }

  /** An upsert keeps keys unique: at most one setting per key. */
  lemma PutKeepsKeysUnique(db: Db, input: SettingInput)
    requires SettingKeysUnique(db.settings)
    ensures SettingKeysUnique(PutSetting(db, input).db.settings)
  {
  }

  /** Upserting the same body twice leaves the table as upserting it once. */
  lemma PutIdempotent(db: Db, input: SettingInput)
    ensures var once := PutSetting(db, input);
            PutSetting(once.db, input).db.settings == once.db.settings
  {
    var once := PutSetting(db, input);
    if input.key.Some? && once.response.Json200? {
      var key := input.key.value;
      var after := once.db.settings;
      match SettingIndex(db.settings, key)
      case Some(i) =>
        assert after[i].key == key;
        assert forall j :: 0 <= j < i ==> after[j] == db.settings[j];
        assert SettingIndex(after, key) == Some(i);
      case None =>
        assert after[|db.settings|].key == key;
        assert forall j :: 0 <= j < |db.settings| ==> after[j] == db.settings[j];
        assert SettingIndex(after, key) == Some(|db.settings|);
    }
  }

  /** After a successful upsert of the multiplier setting, the reader sees
      the new multiplier. */
  lemma PutThenReadMultiplier(db: Db, input: SettingInput, v: Json)
    requires SettingKeysUnique(db.settings)
    requires input.key == Some(RateMultiplierKey)
    requires input.value.Some? && Field(input.value.value, "multiplier") == Some(v) && v != JNull
    ensures var r := PutSetting(db, input);
            r.response.Json200? && CallRateMultiplier(Some(GetSettings(r.db).body)) == v
  {
    var r := PutSetting(db, input);
    PutKeepsKeysUnique(db, input);
    var i :| 0 <= i < |r.db.settings| && r.db.settings[i] == r.response.body;
    CallRateMultiplierFinds(r.db.settings, i, v);
  }
}
