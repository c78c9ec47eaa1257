/**
 * The `Organization` schema: eleven reads, eight of them required, in source order.
 */
module Organization {
  import opened Wrappers
  import opened Json
  import opened ApiObject

  const OrganizationName: string := "organization"

  /** `Organization.read_data` */
  function OrganizationFields(parse: Parser): (fields: seq<Field>)
    ensures |fields| == 11
  {
    [ StringField("id", attr := Some("id_")),
      StringField("name"),
      StringField("address"),
      StringField("postal_code"),
      StringField("city"),
      StringField("country"),
      DatetimeField("creation_time", parse),
      BooleanField("disabled", optional := true),
      StringField("contact_email_address"),
      BooleanField("non_essential_mail_opt_in", optional := true),
      StringField("vat_id_number", optional := true) ]
  }

  /** A fresh `Organization` decoded from `data`. */
  function DecodeOrganization(data: map<string, Value>, parse: Parser): (r: Result<Record, InvalidObjectError>) {
    Finish(OrganizationName, RunFrom(OrganizationFields(parse), 0, OrganizationName, data, map[]))
  }

  /** `Organization.__init__` */
  method NewOrganization() returns (o: ReadableObject)
    ensures fresh(o) && o.objectName == OrganizationName && o.attrs == map[]
  {
    o := new ReadableObject(OrganizationName);
  }

  /** `Organization.read_data`, in place on `o`: the reads in source order, the first failure ends them. */
  method ReadOrganization(o: ReadableObject, data: map<string, Value>, parse: Parser)
    returns (err: Option<InvalidObjectError>)
    modifies o
    ensures Outcome(o.attrs, err) == RunFrom(OrganizationFields(parse), 0, o.objectName, data, old(o.attrs))
  {
    ghost var fields := OrganizationFields(parse);
    ghost var before := o.attrs;
    err := o.ReadString(data, "id", attr := Some("id_"));
    RunFromNext(fields, 0, o.objectName, data, before);
    if err.Some? { return; }
    before := o.attrs;
    err := o.ReadString(data, "name");
    RunFromNext(fields, 1, o.objectName, data, before);
    if err.Some? { return; }
    before := o.attrs;
    err := o.ReadString(data, "address");
    RunFromNext(fields, 2, o.objectName, data, before);
    if err.Some? { return; }
    before := o.attrs;
    err := o.ReadString(data, "postal_code");
    RunFromNext(fields, 3, o.objectName, data, before);
    if err.Some? { return; }
    before := o.attrs;
    err := o.ReadString(data, "city");
    RunFromNext(fields, 4, o.objectName, data, before);
    if err.Some? { return; }
    before := o.attrs;
    err := o.ReadString(data, "country");
    RunFromNext(fields, 5, o.objectName, data, before);
    if err.Some? { return; }
    before := o.attrs;
    err := o.ReadDatetime(data, "creation_time", parse);
    RunFromNext(fields, 6, o.objectName, data, before);
    if err.Some? { return; }
    before := o.attrs;
    err := o.ReadBoolean(data, "disabled", optional := true);
    RunFromNext(fields, 7, o.objectName, data, before);
    if err.Some? { return; }
    before := o.attrs;
    err := o.ReadString(data, "contact_email_address");
    RunFromNext(fields, 8, o.objectName, data, before);
    if err.Some? { return; }
    before := o.attrs;
    err := o.ReadBoolean(data, "non_essential_mail_opt_in", optional := true);
    RunFromNext(fields, 9, o.objectName, data, before);
    if err.Some? { return; }
    before := o.attrs;
    err := o.ReadString(data, "vat_id_number", optional := true);
    RunFromNext(fields, 10, o.objectName, data, before);
    assert RunFrom(fields, 11, o.objectName, data, o.attrs) == Outcome(o.attrs, None);
  }

  const OrganizationRequiredKeys: set<string> :=
    {"id", "name", "address", "postal_code", "city", "country", "creation_time", "contact_email_address"}

  /** The position of a required key in `Organization.read_data`. */
  function OrganizationIndex(key: string): (i: nat)
    requires key in OrganizationRequiredKeys
    ensures i < 11
  {
    if key == "id" then 0
    else if key == "name" then 1
    else if key == "address" then 2
    else if key == "postal_code" then 3
    else if key == "city" then 4
    else if key == "country" then 5
    else if key == "creation_time" then 6
    else 8
  }

  /**
   * A missing required key fails the decoding, and it is that key which is reported when the
   * reads before it succeed.
   */
  lemma OrganizationMissingRequired(data: map<string, Value>, parse: Parser, key: string)
    requires key in OrganizationRequiredKeys && key !in data
    ensures DecodeOrganization(data, parse).Err?
    ensures SucceedsBefore(OrganizationFields(parse), 0, OrganizationIndex(key), OrganizationName, data) ==>
      DecodeOrganization(data, parse).error ==
      InvalidObjectError(OrganizationName, Obj(data), MissingFieldReason(key))
  {
    RunFromMissingRequired(OrganizationFields(parse), OrganizationName, data, map[], OrganizationIndex(key));
  }

  /** With a valid id, an object lacking both name and city is reported as lacking name. */
  lemma OrganizationFirstMissingReported(data: map<string, Value>, parse: Parser)
    requires "id" in data && data["id"].Str?
    requires "name" !in data && "city" !in data
    ensures DecodeOrganization(data, parse) ==
            Err(InvalidObjectError(OrganizationName, Obj(data), MissingFieldReason("name")))
  {
    var fields := OrganizationFields(parse);
    ReadFieldScalarPresent(fields[0], OrganizationName, data);
    assert SucceedsBefore(fields, 0, 1, OrganizationName, data);
    RunFromMissingRequired(fields, OrganizationName, data, map[], 1);
  }

  /** A present `disabled` that is neither null nor a boolean fails the decoding. */
  lemma OrganizationDisabledNotBoolean(data: map<string, Value>, parse: Parser)
    requires "disabled" in data && data["disabled"] != Null && !data["disabled"].Bool?
    ensures DecodeOrganization(data, parse).Err?
    ensures SucceedsBefore(OrganizationFields(parse), 0, 7, OrganizationName, data) ==>
      DecodeOrganization(data, parse).error ==
      InvalidObjectError(OrganizationName, data["disabled"], WrongTypeReason("disabled", BooleanKind))
  {
    var fields := OrganizationFields(parse);
    ReadFieldWrongType(fields[7], OrganizationName, data);
    RunFromReportsFailure(fields, OrganizationName, data, map[], 7);
  }

  /** A `creation_time` string the ISO-8601 parser rejects fails the decoding. */
  lemma OrganizationBadCreationTime(data: map<string, Value>, parse: Parser)
    requires "creation_time" in data && data["creation_time"].Str?
    requires parse(data["creation_time"].s).None?
    ensures DecodeOrganization(data, parse).Err?
    ensures SucceedsBefore(OrganizationFields(parse), 0, 6, OrganizationName, data) ==>
      DecodeOrganization(data, parse).error ==
      InvalidObjectError(OrganizationName, data["creation_time"], InvalidDatetimeReason("creation_time"))
  {
    var fields := OrganizationFields(parse);
    ReadFieldDatetime(fields[6], OrganizationName, data);
    RunFromReportsFailure(fields, OrganizationName, data, map[], 6);
  }

  /** Each read of `Organization.read_data` writes its own attribute. */
  lemma OrganizationTargetsDistinct(parse: Parser)
    ensures DistinctTargets(OrganizationFields(parse))
  {
  }

  const OrganizationAttributes: set<string> :=
    {"id_", "name", "address", "postal_code", "city", "country", "creation_time", "disabled",
     "contact_email_address", "non_essential_mail_opt_in", "vat_id_number"}

  /** The attributes `Organization.read_data` writes. */
  lemma OrganizationTargets(parse: Parser)
    ensures Targets(OrganizationFields(parse)) == OrganizationAttributes
  {
    var fields := OrganizationFields(parse);
    assert forall j :: 0 <= j < 11 ==> Target(fields[j]) in OrganizationAttributes;
    assert Target(fields[0]) in Targets(fields);
    assert Target(fields[1]) in Targets(fields);
    assert Target(fields[2]) in Targets(fields);
    assert Target(fields[3]) in Targets(fields);
    assert Target(fields[4]) in Targets(fields);
    assert Target(fields[5]) in Targets(fields);
    assert Target(fields[6]) in Targets(fields);
    assert Target(fields[7]) in Targets(fields);
    assert Target(fields[8]) in Targets(fields);
    assert Target(fields[9]) in Targets(fields);
    assert Target(fields[10]) in Targets(fields);
  }

  /** "id" is stored as `id_`, every other field under its own key, and nothing else. */
  lemma OrganizationAttributeNames(data: map<string, Value>, parse: Parser)
    requires DecodeOrganization(data, parse).Ok?
    ensures DecodeOrganization(data, parse).value.objectName == OrganizationName
    ensures DecodeOrganization(data, parse).value.attrs.Keys == OrganizationAttributes
  {
    RunFromKeysExact(OrganizationFields(parse), OrganizationName, data);
    OrganizationTargets(parse);
  }

  /** The required keys are present in every object that decodes. */
  lemma OrganizationRequiredPresent(data: map<string, Value>, parse: Parser)
    requires DecodeOrganization(data, parse).Ok?
    ensures OrganizationRequiredKeys <= data.Keys
  {
    var fields := OrganizationFields(parse);
    RunFromRequiredPresent(fields, OrganizationName, data, map[], 0);
    RunFromRequiredPresent(fields, OrganizationName, data, map[], 1);
    RunFromRequiredPresent(fields, OrganizationName, data, map[], 2);
    RunFromRequiredPresent(fields, OrganizationName, data, map[], 3);
    RunFromRequiredPresent(fields, OrganizationName, data, map[], 4);
    RunFromRequiredPresent(fields, OrganizationName, data, map[], 5);
    RunFromRequiredPresent(fields, OrganizationName, data, map[], 6);
    RunFromRequiredPresent(fields, OrganizationName, data, map[], 8);
  }

  /** The identity fields of a decoded organization are stored as read, `id` as `id_`. */
  lemma OrganizationIdentityValues(data: map<string, Value>, parse: Parser)
    requires DecodeOrganization(data, parse).Ok?
    ensures "id" in data && "name" in data && "contact_email_address" in data
    ensures var a := DecodeOrganization(data, parse).value.attrs;
      && "id_" in a && a["id_"] == FromJson(data["id"])
      && "name" in a && a["name"] == FromJson(data["name"])
      && "contact_email_address" in a && a["contact_email_address"] == FromJson(data["contact_email_address"])
  {
    var fields := OrganizationFields(parse);
    OrganizationTargetsDistinct(parse);
    RunFromRequiredScalar(fields, OrganizationName, data, map[], 0);
    RunFromRequiredScalar(fields, OrganizationName, data, map[], 1);
    RunFromRequiredScalar(fields, OrganizationName, data, map[], 8);
  }

  /** The postal address of a decoded organization is stored as read. */
  lemma OrganizationAddressValues(data: map<string, Value>, parse: Parser)
    requires DecodeOrganization(data, parse).Ok?
    ensures "address" in data && "postal_code" in data && "city" in data && "country" in data
    ensures var a := DecodeOrganization(data, parse).value.attrs;
      && "address" in a && a["address"] == FromJson(data["address"])
      && "postal_code" in a && a["postal_code"] == FromJson(data["postal_code"])
      && "city" in a && a["city"] == FromJson(data["city"])
      && "country" in a && a["country"] == FromJson(data["country"])
  {
    var fields := OrganizationFields(parse);
    OrganizationTargetsDistinct(parse);
    RunFromRequiredScalar(fields, OrganizationName, data, map[], 2);
    RunFromRequiredScalar(fields, OrganizationName, data, map[], 3);
    RunFromRequiredScalar(fields, OrganizationName, data, map[], 4);
    RunFromRequiredScalar(fields, OrganizationName, data, map[], 5);
  }

  /**
   * The creation time of a decoded organization is a string the parser accepted, stored as the
   * parsed instant, unless it was a present null.
   */
  lemma OrganizationCreationTime(data: map<string, Value>, parse: Parser)
    requires DecodeOrganization(data, parse).Ok?
    ensures "creation_time" in data
    ensures var a := DecodeOrganization(data, parse).value.attrs;
      && "creation_time" in a
      && (data["creation_time"] == Null ==> a["creation_time"] == NoneVal)
      && (data["creation_time"] != Null ==>
            data["creation_time"].Str? && parse(data["creation_time"].s).Some? &&
            a["creation_time"] == TimeVal(parse(data["creation_time"].s).value))
  {
    var fields := OrganizationFields(parse);
    OrganizationTargetsDistinct(parse);
    RunFromRequiredPresent(fields, OrganizationName, data, map[], 6);
    RunFromValueAt(fields, OrganizationName, data, map[], 6);
  }

  /** Absent optional fields take the readers' defaults: False for the booleans, None for the VAT number. */
  lemma OrganizationDefaults(data: map<string, Value>, parse: Parser)
    requires DecodeOrganization(data, parse).Ok?
    ensures var a := DecodeOrganization(data, parse).value.attrs;
      && ("disabled" !in data ==> "disabled" in a && a["disabled"] == JsonVal(Bool(false)))
      && ("non_essential_mail_opt_in" !in data ==>
            "non_essential_mail_opt_in" in a && a["non_essential_mail_opt_in"] == JsonVal(Bool(false)))
      && ("vat_id_number" !in data ==> "vat_id_number" in a && a["vat_id_number"] == NoneVal)
  {
    var fields := OrganizationFields(parse);
    OrganizationTargetsDistinct(parse);
    if "disabled" !in data {
      RunFromAbsentOptional(fields, OrganizationName, data, map[], 7);
    }
    if "non_essential_mail_opt_in" !in data {
      RunFromAbsentOptional(fields, OrganizationName, data, map[], 9);
    }
    if "vat_id_number" !in data {
      RunFromAbsentOptional(fields, OrganizationName, data, map[], 10);
    }
  }
}
