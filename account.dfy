/**
 * The `Account` and `AccountSettings` schemas: fixed sequences of reader calls.
 *
 * Each schema is given twice: as the ordered list of reads its `read_data` performs
 * (`AccountFields`, `AccountSettingsFields`), which `RunFrom` turns into the decoded object, and
 * as a method that performs those reads in place on an object, proved to produce exactly that.
 */
module Account {
  import opened Wrappers
  import opened Json
  import opened ApiObject

  const AccountName: string := "account"
  const AccountSettingsName: string := "account_settings"

  /** `AccountSettings.read_data`: one optional string. */
  function AccountSettingsFields(): (fields: seq<Field>) {
    [StringField("date_format", optional := true)]
  }

  /** A fresh `AccountSettings` decoded from `data`. */
  function DecodeAccountSettings(data: map<string, Value>): (r: Result<Record, InvalidObjectError>)
    ensures r.Ok? <==> "date_format" !in data || data["date_format"].Null? || data["date_format"].Str?
    ensures r.Ok? ==> r.value == Record(AccountSettingsName,
                                        map["date_format" := FromJson(Lookup(data, "date_format", Null))])
    ensures r.Err? ==> r.error == InvalidObjectError(AccountSettingsName, data["date_format"],
                                                     "field 'date_format' is not a string")
  {
    Finish(AccountSettingsName, RunFrom(AccountSettingsFields(), 0, AccountSettingsName, data, map[]))
  }

  /** `Account.read_data`, with the class whose instance decodes `settings` as a parameter. */
  function AccountFields(parse: Parser, settings: Decoder): (fields: seq<Field>)
    ensures |fields| == 10
  {
    [ StringField("id", attr := Some("id_")),
      StringField("org_id"),
      DatetimeField("creation_time", parse),
      BooleanField("disabled", optional := true),
      StringField("email_address"),
      StringField("name", optional := true),
      StringField("role"),
      DatetimeField("last_login_time", parse, optional := true),
      StringField("last_project_id", optional := true),
      ObjectField("settings", settings) ]
  }

  /**
   * A fresh `Account` decoded from `data` by the corrected program: its settings are decoded as
   * `AccountSettings` (see `DecodeAccountAsWritten` for the code as written).
   */
  function DecodeAccount(data: map<string, Value>, parse: Parser): (r: Result<Record, InvalidObjectError>) {
    Finish(AccountName, RunFrom(AccountFields(parse, DecodeAccountSettings), 0, AccountName, data, map[]))
  }

  /** `Account.__init__` */
  method NewAccount() returns (o: ReadableObject)
    ensures fresh(o) && o.objectName == AccountName && o.attrs == map[]
  {
    o := new ReadableObject(AccountName);
  }

  /** `AccountSettings.__init__` */
  method NewAccountSettings() returns (o: ReadableObject)
    ensures fresh(o) && o.objectName == AccountSettingsName && o.attrs == map[]
  {
    o := new ReadableObject(AccountSettingsName);
  }

  /** `AccountSettings.read_data`, in place on `o`. */
  method ReadAccountSettings(o: ReadableObject, data: map<string, Value>) returns (err: Option<InvalidObjectError>)
    modifies o
    ensures Outcome(o.attrs, err) == RunFrom(AccountSettingsFields(), 0, o.objectName, data, old(o.attrs))
  {
    err := o.ReadString(data, "date_format", optional := true);
  }

  /**
   * `Account.read_data`, in place on `o`: the reads in source order, the first failure ends them.
   * `settings` decodes the `settings` object: `BaseHook(AccountSettingsName)` is the code as
   * written, whose `_read_object` runs the empty `_read_data` hook, and `DecodeAccountSettings`
   * is the corrected program.
   */
  method ReadAccount(o: ReadableObject, data: map<string, Value>, parse: Parser, settings: Decoder)
    returns (err: Option<InvalidObjectError>)
    modifies o
    ensures Outcome(o.attrs, err) ==
            RunFrom(AccountFields(parse, settings), 0, o.objectName, data, old(o.attrs))
  {
    ghost var fields := AccountFields(parse, settings);
    ghost var before := o.attrs;
    err := o.ReadString(data, "id", attr := Some("id_"));
    RunFromNext(fields, 0, o.objectName, data, before);
    if err.Some? { return; }
    before := o.attrs;
    err := o.ReadString(data, "org_id");
    RunFromNext(fields, 1, o.objectName, data, before);
    if err.Some? { return; }
    before := o.attrs;
    err := o.ReadDatetime(data, "creation_time", parse);
    RunFromNext(fields, 2, o.objectName, data, before);
    if err.Some? { return; }
    before := o.attrs;
    err := o.ReadBoolean(data, "disabled", optional := true);
    RunFromNext(fields, 3, o.objectName, data, before);
    if err.Some? { return; }
    before := o.attrs;
    err := o.ReadString(data, "email_address");
    RunFromNext(fields, 4, o.objectName, data, before);
    if err.Some? { return; }
    before := o.attrs;
    err := o.ReadString(data, "name", optional := true);
    RunFromNext(fields, 5, o.objectName, data, before);
    if err.Some? { return; }
    before := o.attrs;
    err := o.ReadString(data, "role");
    RunFromNext(fields, 6, o.objectName, data, before);
    if err.Some? { return; }
    before := o.attrs;
    err := o.ReadDatetime(data, "last_login_time", parse, optional := true);
    RunFromNext(fields, 7, o.objectName, data, before);
    if err.Some? { return; }
    before := o.attrs;
    err := o.ReadString(data, "last_project_id", optional := true);
    RunFromNext(fields, 8, o.objectName, data, before);
    if err.Some? { return; }
    before := o.attrs;
    err := o.ReadObject(data, "settings", settings);
    RunFromNext(fields, 9, o.objectName, data, before);
    assert RunFrom(fields, 10, o.objectName, data, o.attrs) == Outcome(o.attrs, None);
  }

  const AccountRequiredKeys: set<string> :=
    {"id", "org_id", "creation_time", "email_address", "role", "settings"}

  /** The position of a required key in `Account.read_data`. */
  function AccountIndex(key: string): (i: nat)
    requires key in AccountRequiredKeys
    ensures i < 10
  {
    if key == "id" then 0
    else if key == "org_id" then 1
    else if key == "creation_time" then 2
    else if key == "email_address" then 4
    else if key == "role" then 6
    else 9
  }

  /**
   * A missing id, org_id, creation_time, email_address, role or settings fails the decoding,
   * and it is that missing field which is reported when the reads before it succeed.
   */
  lemma AccountMissingRequired(data: map<string, Value>, parse: Parser, key: string)
    requires key in AccountRequiredKeys && key !in data
    ensures DecodeAccount(data, parse).Err?
    ensures SucceedsBefore(AccountFields(parse, DecodeAccountSettings), 0, AccountIndex(key), AccountName, data) ==>
      DecodeAccount(data, parse).error == InvalidObjectError(AccountName, Obj(data), MissingFieldReason(key))
  {
    var fields := AccountFields(parse, DecodeAccountSettings);
    RunFromMissingRequired(fields, AccountName, data, map[], AccountIndex(key));
  }

  /** A present, non-null `settings` that is not an object fails the decoding. */
  lemma AccountSettingsNotObject(data: map<string, Value>, parse: Parser)
    requires "settings" in data && data["settings"] != Null && !data["settings"].Obj?
    ensures DecodeAccount(data, parse).Err?
    ensures SucceedsBefore(AccountFields(parse, DecodeAccountSettings), 0, 9, AccountName, data) ==>
      DecodeAccount(data, parse).error ==
      InvalidObjectError(AccountName, data["settings"], WrongTypeReason("settings", ObjectKind))
  {
    var fields := AccountFields(parse, DecodeAccountSettings);
    ReadFieldWrongType(fields[9], AccountName, data);
    RunFromReportsFailure(fields, AccountName, data, map[], 9);
  }

  /** Each read of `Account.read_data` writes its own attribute. */
  lemma AccountTargetsDistinct(parse: Parser, settings: Decoder)
    ensures DistinctTargets(AccountFields(parse, settings))
  {
  }

  const AccountAttributes: set<string> :=
    {"id_", "org_id", "creation_time", "disabled", "email_address", "name",
     "role", "last_login_time", "last_project_id", "settings"}

  /** The attributes `Account.read_data` writes. */
  lemma AccountTargets(parse: Parser, settings: Decoder)
    ensures Targets(AccountFields(parse, settings)) == AccountAttributes
  {
    var fields := AccountFields(parse, settings);
    assert forall j :: 0 <= j < 10 ==> Target(fields[j]) in AccountAttributes;
    assert Target(fields[0]) in Targets(fields);
    assert Target(fields[1]) in Targets(fields);
    assert Target(fields[2]) in Targets(fields);
    assert Target(fields[3]) in Targets(fields);
    assert Target(fields[4]) in Targets(fields);
    assert Target(fields[5]) in Targets(fields);
    assert Target(fields[6]) in Targets(fields);
    assert Target(fields[7]) in Targets(fields);
    assert Target(fields[8]) in Targets(fields);
    assert Target(fields[9]) in Targets(fields);
  }

  /** "id" is stored as `id_`; every other field under its own key; nothing else is stored. */
  lemma AccountAttributeNames(data: map<string, Value>, parse: Parser)
    requires DecodeAccount(data, parse).Ok?
    ensures DecodeAccount(data, parse).value.objectName == AccountName
    ensures DecodeAccount(data, parse).value.attrs.Keys == AccountAttributes
  {
    RunFromKeysExact(AccountFields(parse, DecodeAccountSettings), AccountName, data);
    AccountTargets(parse, DecodeAccountSettings);
  }

  /** The required keys are present in every object that decodes. */
  lemma AccountRequiredPresent(data: map<string, Value>, parse: Parser)
    requires DecodeAccount(data, parse).Ok?
    ensures AccountRequiredKeys <= data.Keys
  {
    var fields := AccountFields(parse, DecodeAccountSettings);
    RunFromRequiredPresent(fields, AccountName, data, map[], 0);
    RunFromRequiredPresent(fields, AccountName, data, map[], 1);
    RunFromRequiredPresent(fields, AccountName, data, map[], 2);
    RunFromRequiredPresent(fields, AccountName, data, map[], 4);
    RunFromRequiredPresent(fields, AccountName, data, map[], 6);
    RunFromRequiredPresent(fields, AccountName, data, map[], 9);
  }

  /** The required string fields of a decoded account are stored as read, `id` as `id_`. */
  lemma AccountRequiredValues(data: map<string, Value>, parse: Parser)
    requires DecodeAccount(data, parse).Ok?
    ensures "id" in data && "org_id" in data && "email_address" in data && "role" in data
    ensures var a := DecodeAccount(data, parse).value.attrs;
      && "id_" in a && a["id_"] == FromJson(data["id"])
      && "org_id" in a && a["org_id"] == FromJson(data["org_id"])
      && "email_address" in a && a["email_address"] == FromJson(data["email_address"])
      && "role" in a && a["role"] == FromJson(data["role"])
  {
    var fields := AccountFields(parse, DecodeAccountSettings);
    AccountTargetsDistinct(parse, DecodeAccountSettings);
    RunFromRequiredScalar(fields, AccountName, data, map[], 0);
    RunFromRequiredScalar(fields, AccountName, data, map[], 1);
    RunFromRequiredScalar(fields, AccountName, data, map[], 4);
    RunFromRequiredScalar(fields, AccountName, data, map[], 6);
  }

  /** Absent optional fields take the readers' defaults: False for `disabled`, None for the others. */
  lemma AccountDefaults(data: map<string, Value>, parse: Parser)
    requires DecodeAccount(data, parse).Ok?
    ensures var a := DecodeAccount(data, parse).value.attrs;
      && ("disabled" !in data ==> "disabled" in a && a["disabled"] == JsonVal(Bool(false)))
      && ("name" !in data ==> "name" in a && a["name"] == NoneVal)
      && ("last_login_time" !in data ==> "last_login_time" in a && a["last_login_time"] == NoneVal)
      && ("last_project_id" !in data ==> "last_project_id" in a && a["last_project_id"] == NoneVal)
  {
    var fields := AccountFields(parse, DecodeAccountSettings);
    AccountTargetsDistinct(parse, DecodeAccountSettings);
    if "disabled" !in data {
      RunFromAbsentOptional(fields, AccountName, data, map[], 3);
    }
    if "name" !in data {
      RunFromAbsentOptional(fields, AccountName, data, map[], 5);
    }
    if "last_login_time" !in data {
      RunFromAbsentOptional(fields, AccountName, data, map[], 7);
    }
    if "last_project_id" !in data {
      RunFromAbsentOptional(fields, AccountName, data, map[], 8);
    }
  }

  /** The `settings` of a decoded account: None for a present null, else an `AccountSettings`. */
  lemma AccountSettingsDecoded(data: map<string, Value>, parse: Parser)
    requires DecodeAccount(data, parse).Ok?
    ensures "settings" in data
    ensures var a := DecodeAccount(data, parse).value.attrs;
      && "settings" in a
      && (data["settings"] == Null ==> a["settings"] == NoneVal)
      && (data["settings"] != Null ==>
            data["settings"].Obj? && DecodeAccountSettings(data["settings"].fields).Ok? &&
            a["settings"] == ObjectVal(DecodeAccountSettings(data["settings"].fields).value))
  {
    var fields := AccountFields(parse, DecodeAccountSettings);
    AccountTargetsDistinct(parse, DecodeAccountSettings);
    RunFromRequiredPresent(fields, AccountName, data, map[], 9);
    RunFromValueAt(fields, AccountName, data, map[], 9);
  }

  /**
   * `Account` as the readers run it: `_read_object` calls the base `_read_data` hook on a fresh
   * `AccountSettings`, and that hook does nothing.
   */
  function DecodeAccountAsWritten(data: map<string, Value>, parse: Parser): (r: Result<Record, InvalidObjectError>) {
    Finish(AccountName, RunFrom(AccountFields(parse, BaseHook(AccountSettingsName)), 0, AccountName, data, map[]))
  }

  /**
   * As written, settings whose `date_format` is not a string are accepted and stored as an
   * `AccountSettings` with no attributes, where decoding them as `AccountSettings` rejects them.
   */
  lemma SettingsIgnoredAsWritten(data: map<string, Value>, parse: Parser)
    requires "settings" in data && data["settings"] == Obj(map["date_format" := Int(7)])
    requires SucceedsBefore(AccountFields(parse, DecodeAccountSettings), 0, 9, AccountName, data)
    ensures DecodeAccountAsWritten(data, parse).Ok?
    ensures var a := DecodeAccountAsWritten(data, parse).value.attrs;
      "settings" in a && a["settings"] == ObjectVal(Record(AccountSettingsName, map[]))
    ensures DecodeAccount(data, parse) ==
      Err(InvalidObjectError(AccountSettingsName, Int(7), "field 'date_format' is not a string"))
  {
    var fixed := AccountFields(parse, DecodeAccountSettings);
    var asWritten := AccountFields(parse, BaseHook(AccountSettingsName));
    assert forall j :: 0 <= j < 9 ==> asWritten[j] == fixed[j];
    ReadFieldObject(asWritten[9], AccountName, data);
    RunFromSucceedsIff(asWritten, 0, AccountName, data, map[]);
    AccountTargetsDistinct(parse, BaseHook(AccountSettingsName));
    RunFromValueAt(asWritten, AccountName, data, map[], 9);
    ReadFieldObject(fixed[9], AccountName, data);
    RunFromReportsFailure(fixed, AccountName, data, map[], 9);
  }

  /** An example account document. */
  function ExampleAccountData(): (data: map<string, Value>) {
    map["id" := Str("abc"), "org_id" := Str("o1"), "creation_time" := Str("2022-01-01T00:00:00Z"),
        "email_address" := Str("a@b.com"), "role" := Str("admin"), "settings" := Obj(map[])]
  }

  lemma ExampleAccountReadsFirst(parse: Parser)
    requires parse("2022-01-01T00:00:00Z").Some?
    ensures var fields := AccountFields(parse, DecodeAccountSettings);
      forall j :: 0 <= j < 3 ==> ReadField(fields[j], AccountName, ExampleAccountData()).Ok?
  {
    var data := ExampleAccountData();
    var fields := AccountFields(parse, DecodeAccountSettings);
    ReadFieldScalarPresent(fields[0], AccountName, data);
    ReadFieldScalarPresent(fields[1], AccountName, data);
    ReadFieldDatetime(fields[2], AccountName, data);
  }

  lemma ExampleAccountReadsMiddle(parse: Parser)
    ensures var fields := AccountFields(parse, DecodeAccountSettings);
      forall j :: 3 <= j < 5 ==> ReadField(fields[j], AccountName, ExampleAccountData()).Ok?
  {
    var data := ExampleAccountData();
    var fields := AccountFields(parse, DecodeAccountSettings);
    ReadFieldAbsent(fields[3], AccountName, data);
    ReadFieldScalarPresent(fields[4], AccountName, data);
  }

  lemma ExampleAccountReadsLast(parse: Parser)
    ensures var fields := AccountFields(parse, DecodeAccountSettings);
      forall j :: 5 <= j < 10 ==> ReadField(fields[j], AccountName, ExampleAccountData()).Ok?
  {
    var data := ExampleAccountData();
    var fields := AccountFields(parse, DecodeAccountSettings);
    ReadFieldAbsent(fields[5], AccountName, data);
    ReadFieldScalarPresent(fields[6], AccountName, data);
    ReadFieldAbsent(fields[7], AccountName, data);
    ReadFieldAbsent(fields[8], AccountName, data);
    ReadFieldObject(fields[9], AccountName, data);
  }

  /** The example document decodes once its creation time parses. */
  lemma ExampleAccountDecodes(parse: Parser)
    requires parse("2022-01-01T00:00:00Z").Some?
    ensures DecodeAccount(ExampleAccountData(), parse).Ok?
  {
    var data := ExampleAccountData();
    var fields := AccountFields(parse, DecodeAccountSettings);
    ExampleAccountReadsFirst(parse);
    ExampleAccountReadsMiddle(parse);
    ExampleAccountReadsLast(parse);
    assert SucceedsBefore(fields, 0, 10, AccountName, data);
    RunFromSucceedsIff(fields, 0, AccountName, data, map[]);
  }

  /** As written, the example's empty settings object gives an `AccountSettings` with no attributes. */
  lemma ExampleAccountAsWritten(parse: Parser)
    requires parse("2022-01-01T00:00:00Z").Some?
    ensures DecodeAccountAsWritten(ExampleAccountData(), parse).Ok?
    ensures var a := DecodeAccountAsWritten(ExampleAccountData(), parse).value.attrs;
      "settings" in a && a["settings"] == ObjectVal(Record(AccountSettingsName, map[]))
  {
    var data := ExampleAccountData();
    var fixed := AccountFields(parse, DecodeAccountSettings);
    var asWritten := AccountFields(parse, BaseHook(AccountSettingsName));
    ExampleAccountReadsFirst(parse);
    ExampleAccountReadsMiddle(parse);
    ExampleAccountReadsLast(parse);
    assert forall j :: 0 <= j < 9 ==> asWritten[j] == fixed[j];
    ReadFieldObject(asWritten[9], AccountName, data);
    assert SucceedsBefore(asWritten, 0, 10, AccountName, data);
    RunFromSucceedsIff(asWritten, 0, AccountName, data, map[]);
    AccountTargetsDistinct(parse, BaseHook(AccountSettingsName));
    RunFromValueAt(asWritten, AccountName, data, map[], 9);
  }

  /**
   * The example decodes with `id_` "abc", `disabled` False by default and `name` None; the
   * corrected program decodes its settings as an `AccountSettings` whose `date_format` is None.
   */
  lemma ExampleAccountValues(parse: Parser)
    requires parse("2022-01-01T00:00:00Z").Some?
    ensures DecodeAccount(ExampleAccountData(), parse).Ok?
    ensures var a := DecodeAccount(ExampleAccountData(), parse).value.attrs;
      && "id_" in a && a["id_"] == JsonVal(Str("abc"))
      && "disabled" in a && a["disabled"] == JsonVal(Bool(false))
      && "name" in a && a["name"] == NoneVal
      && "settings" in a && a["settings"] == ObjectVal(Record(AccountSettingsName, map["date_format" := NoneVal]))
  {
    var data := ExampleAccountData();
    ExampleAccountDecodes(parse);
    AccountRequiredValues(data, parse);
    AccountDefaults(data, parse);
    AccountSettingsDecoded(data, parse);
  }
}
