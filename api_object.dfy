/**
 * The schema-validating field reader: `InvalidObjectError`, `APIObject` and `ReadableAPIObject`.
 *
 * A read looks a key up in a decoded JSON object, checks the value's type the way Python's
 * isinstance does, and stores the value (or a default) as one attribute of the object being
 * built. The pure functions below say what one read produces (`ReadField`, `Step`) and what an
 * ordered list of reads produces (`RunFrom`); the class `ReadableObject` performs the reads in
 * place, one method per reader, each proved against `Step`.
 */
module ApiObject {
  import opened Wrappers
  import opened Json
  import Text

  /** An instant produced by the ISO-8601 parser; its structure is not modelled. */
  datatype DateTime = DateTime(stamp: int)

  /** dateutil's isoparse: Some(instant) for a string it accepts, None where it raises. */
  type Parser = string -> Option<DateTime>

  /** InvalidObjectError(object_name, value, reason): the object kind, the offending value, why. */
  datatype InvalidObjectError = InvalidObjectError(objectName: string, value: Value, reason: string)

  /** The exception's text, "invalid <object_name>: <reason>". */
  function ErrorMessage(e: InvalidObjectError): (s: string)
    ensures |s| == 10 + |e.objectName| + |e.reason|
    ensures s[..8] == "invalid "
    ensures s[8..8 + |e.objectName|] == e.objectName
    ensures s[8 + |e.objectName|..10 + |e.objectName|] == ": "
    ensures s[10 + |e.objectName|..] == e.reason
  {
    "invalid " + e.objectName + ": " + e.reason
  }

  /** The Python classes the readers test against, with the names their errors use. */
  datatype Kind = StringKind | IntegerKind | BooleanKind | ObjectKind | ArrayKind

  function KindName(k: Kind): (name: string)
    ensures |name| > 0
  {
    match k
    case StringKind => "string"
    case IntegerKind => "integer"
    case BooleanKind => "boolean"
    case ObjectKind => "object"
    case ArrayKind => "array"
  }

  predicate IsVowel(c: char) {
    c == 'a' || c == 'e' || c == 'i' || c == 'o' || c == 'u'
  }

  /** "an" when the kind's name starts with a vowel, otherwise "a". */
  function Article(k: Kind): (a: string)
    ensures a == "an" <==> k in {IntegerKind, ObjectKind, ArrayKind}
    ensures a == "a" <==> k in {StringKind, BooleanKind}
  {
    if IsVowel(KindName(k)[0]) then "an" else "a"
  }

  /** isinstance(v, cls): a JSON boolean is a Python bool, and bool is a subclass of int. */
  predicate IsInstance(v: Value, k: Kind) {
    match k
    case StringKind => v.Str?
    case IntegerKind => v.Int? || v.Bool?
    case BooleanKind => v.Bool?
    case ObjectKind => v.Obj?
    case ArrayKind => v.Arr?
  }

  function MissingFieldReason(key: string): (reason: string) {
    "missing field '" + key + "'"
  }

  function WrongTypeReason(key: string, k: Kind): (reason: string) {
    "field '" + key + "' is not " + Article(k) + " " + KindName(k)
  }

  function InvalidDatetimeReason(key: string): (reason: string) {
    "field '" + key + "' is not a valid datetime"
  }

  function ElementNotObjectReason(i: nat, key: string): (reason: string) {
    "element at index " + Text.NatToString(i) + " of field '" + key + "' is not an object"
  }

  /** dict.get(key, default) */
  function Lookup(data: map<string, Value>, key: string, default: Value): (v: Value) {
    if key in data then data[key] else default
  }

  /**
   * `_get_field`: the required check tests key presence only, so a present null passes it; the
   * type check then accepts null and any instance of the kind, whether the value came from the
   * dict or from the default.
   */
  function GetField(name: string, data: map<string, Value>, key: string, kind: Kind,
                    optional: bool, default: Value): (r: Result<Value, InvalidObjectError>)
  {
    if !optional && key !in data then
      Err(InvalidObjectError(name, Obj(data), MissingFieldReason(key)))
    else
      var value := Lookup(data, key, default);
      if value != Null && !IsInstance(value, kind) then
        Err(InvalidObjectError(name, value, WrongTypeReason(key, kind)))
      else
        Ok(value)
  }

  /** What `_get_field` returns or raises, case by case. */
  lemma GetFieldCases(name: string, data: map<string, Value>, key: string, kind: Kind,
                      optional: bool, default: Value)
    ensures !optional && key !in data ==>
      GetField(name, data, key, kind, optional, default) == Err(InvalidObjectError(name, Obj(data), MissingFieldReason(key)))
    ensures GetField(name, data, key, kind, optional, default).Ok? ==> GetField(name, data, key, kind, optional, default).value == Lookup(data, key, default)
    ensures GetField(name, data, key, kind, optional, default).Ok? ==> GetField(name, data, key, kind, optional, default).value == Null || IsInstance(GetField(name, data, key, kind, optional, default).value, kind)
    ensures optional || key in data ==>
      (GetField(name, data, key, kind, optional, default).Ok? <==> Lookup(data, key, default) == Null || IsInstance(Lookup(data, key, default), kind))
    ensures (optional || key in data) && GetField(name, data, key, kind, optional, default).Err? ==>
      GetField(name, data, key, kind, optional, default).error == InvalidObjectError(name, Lookup(data, key, default), WrongTypeReason(key, kind))
  {
  }

  /** The value of an attribute written by a reader. */
  datatype Attr =
    | NoneVal                       // Python None
    | JsonVal(v: Value)             // a non-null JSON value stored as it was decoded
    | TimeVal(t: DateTime)          // a parsed datetime
    | ObjectVal(record: Record)     // a nested API object
    | ArrayVal(records: seq<Record>) // a list of nested API objects

  /** A decoded API object: its object name and its attributes. */
  datatype Record = Record(objectName: string, attrs: map<string, Attr>)

  /** The attribute for a value returned by `_get_field`: JSON null is Python None. */
  function FromJson(v: Value): (a: Attr)
    ensures a == NoneVal <==> v == Null
    ensures v != Null ==> a == JsonVal(v)
  {
    if v == Null then NoneVal else JsonVal(v)
  }

  function TimeOrNone(t: Option<DateTime>): (a: Attr) {
    if t.Some? then TimeVal(t.value) else NoneVal
  }

  /** Python's str() of an attribute, for the kinds an `id_` can hold here. */
  function ShowAttr(a: Attr): (s: string) {
    match a
    case NoneVal => "None"
    case JsonVal(v) => Show(v)
    case _ => ""
  }

  /**
   * Decodes a nested JSON object into an API object: the class handed to `_read_object` and
   * `_read_object_array`, together with the reads it performs on the new instance.
   */
  type Decoder = map<string, Value> -> Result<Record, InvalidObjectError>

  /**
   * The decoder the readers actually run: they call `_read_data`, whose base version does
   * nothing, on a fresh instance whose object name is `name`.
   */
  function BaseHook(name: string): (hook: Decoder)
    ensures forall d :: hook(d) == Ok(Record(name, map[]))
  {
    (d: map<string, Value>) => Ok(Record(name, map[]))
  }

  /** One reader call of a `read_data` sequence, with the reader's own defaults. */
  datatype Field =
    | StringField(key: string, optional: bool := false, default: Value := Null,
                  attr: Option<string> := None)
    | DatetimeField(key: string, parse: Parser, optional: bool := false,
                    defaultTime: Option<DateTime> := None, attr: Option<string> := None)
    | IntegerField(key: string, optional: bool := false, default: Value := Bool(false),
                   attr: Option<string> := None)
    | BooleanField(key: string, optional: bool := false, default: Value := Bool(false),
                   attr: Option<string> := None)
    | ObjectField(key: string, decode: Decoder, optional: bool := false,
                  attr: Option<string> := None)
    | ObjectArrayField(key: string, decode: Decoder, optional: bool := false,
                       attr: Option<string> := None)

  /** The attribute a read writes: `attr` if given, else the key. */
  function Target(f: Field): (target: string) {
    if f.attr.Some? then f.attr.value else f.key
  }

  /** The class `_get_field` is asked to check; the datetime reader first reads a string. */
  function KindOf(f: Field): (k: Kind) {
    match f
    case StringField(_, _, _, _) => StringKind
    case DatetimeField(_, _, _, _, _) => StringKind
    case IntegerField(_, _, _, _) => IntegerKind
    case BooleanField(_, _, _, _) => BooleanKind
    case ObjectField(_, _, _, _) => ObjectKind
    case ObjectArrayField(_, _, _, _) => ArrayKind
  }

  /** A scalar reader stores what `_get_field` returned. */
  function Plain(r: Result<Value, InvalidObjectError>): (a: Result<Attr, InvalidObjectError>) {
    if r.Err? then Err(r.error) else Ok(FromJson(r.value))
  }

  predicate IsScalar(f: Field) {
    f.StringField? || f.IntegerField? || f.BooleanField?
  }

  /**
   * The elements es[i..] of an object array, decoded in order; the first element that is not an
   * object, or the first element whose decoding fails, ends the loop with its error.
   */
  function DecodeFrom(name: string, key: string, decode: Decoder, es: seq<Value>, i: nat)
    : (r: Result<seq<Record>, InvalidObjectError>)
    requires i <= |es|
    ensures r.Ok? ==> |r.value| == |es| - i
    ensures r.Ok? ==> forall j :: i <= j < |es| ==> es[j].Obj? && decode(es[j].fields) == Ok(r.value[j - i])
    decreases |es| - i
  {
    if i == |es| then Ok([])
    else if !es[i].Obj? then Err(InvalidObjectError(name, es[i], ElementNotObjectReason(i, key)))
    else
      var element := decode(es[i].fields);
      if element.Err? then Err(element.error)
      else
        var rest := DecodeFrom(name, key, decode, es, i + 1);
        if rest.Err? then Err(rest.error) else Ok([element.value] + rest.value)
  }

  /** Every element from index i on is an object that decodes: then the whole array decodes. */
  lemma {:induction false} DecodeFromSucceeds(name: string, key: string, decode: Decoder, es: seq<Value>, i: nat)
    requires i <= |es|
    requires forall j :: i <= j < |es| ==> es[j].Obj? && decode(es[j].fields).Ok?
    ensures DecodeFrom(name, key, decode, es, i).Ok?
    decreases |es| - i
  {
    if i < |es| {
      DecodeFromSucceeds(name, key, decode, es, i + 1);
    }
  }

  /**
   * The first element that is not an object, at index k, fails the read with the index in the
   * reason and the element as the value, provided every element before it decoded.
   */
  lemma {:induction false} DecodeFromFirstNonObject(name: string, key: string, decode: Decoder,
                                                    es: seq<Value>, i: nat, k: nat)
    requires i <= k < |es|
    requires forall j :: i <= j < k ==> es[j].Obj? && decode(es[j].fields).Ok?
    requires !es[k].Obj?
    ensures DecodeFrom(name, key, decode, es, i) ==
            Err(InvalidObjectError(name, es[k], ElementNotObjectReason(k, key)))
    decreases k - i
  {
    if i < k {
      DecodeFromFirstNonObject(name, key, decode, es, i + 1, k);
    }
  }

  /** The loop's elements so far in front of the elements still to decode. */
  function Prepend(decoded: seq<Record>, rest: Result<seq<Record>, InvalidObjectError>)
    : (r: Result<seq<Record>, InvalidObjectError>)
  {
    if rest.Err? then rest else Ok(decoded + rest.value)
  }

  lemma PrependNothing(rest: Result<seq<Record>, InvalidObjectError>)
    ensures Prepend([], rest) == rest
  {
    if rest.Ok? {
      assert [] + rest.value == rest.value;
    }
  }

  lemma PrependStep(decoded: seq<Record>, element: Record, rest: Result<seq<Record>, InvalidObjectError>)
    ensures Prepend(decoded, if rest.Err? then Err(rest.error) else Ok([element] + rest.value)) ==
            Prepend(decoded + [element], rest)
  {
    if rest.Ok? {
      assert decoded + ([element] + rest.value) == (decoded + [element]) + rest.value;
    }
  }

  /** What one reader produces: the attribute value, or the error it raises. */
  function ReadField(f: Field, name: string, data: map<string, Value>): (r: Result<Attr, InvalidObjectError>)
  {
    match f
    case StringField(key, optional, default, _) =>
      Plain(GetField(name, data, key, StringKind, optional, default))
    case IntegerField(key, optional, default, _) =>
      Plain(GetField(name, data, key, IntegerKind, optional, default))
    case BooleanField(key, optional, default, _) =>
      Plain(GetField(name, data, key, BooleanKind, optional, default))
    case DatetimeField(key, parse, optional, defaultTime, _) =>
      var str := GetField(name, data, key, StringKind, optional, Null);
      if str.Err? then Err(str.error)
      else if str.value.Str? then
        (match parse(str.value.s)
         case None => Err(InvalidObjectError(name, str.value, InvalidDatetimeReason(key)))
         case Some(t) => Ok(TimeVal(t)))
      else Ok(TimeOrNone(defaultTime))
    case ObjectField(key, decode, optional, _) =>
      var obj := GetField(name, data, key, ObjectKind, optional, Null);
      if obj.Err? then Err(obj.error)
      else if obj.value.Obj? then
        (match decode(obj.value.fields)
         case Err(e) => Err(e)
         case Ok(record) => Ok(ObjectVal(record)))
      else Ok(NoneVal)
    case ObjectArrayField(key, decode, optional, _) =>
      var list := GetField(name, data, key, ArrayKind, optional, Null);
      if list.Err? then Err(list.error)
      else if list.value.Arr? then
        (match DecodeFrom(name, key, decode, list.value.elems, 0)
         case Err(e) => Err(e)
         case Ok(records) => Ok(ArrayVal(records)))
      else Ok(NoneVal)
  }

  /** A required key that is absent: every reader raises "missing field", with the whole dict. */
  lemma ReadFieldMissing(f: Field, name: string, data: map<string, Value>)
    requires !f.optional && f.key !in data
    ensures ReadField(f, name, data) == Err(InvalidObjectError(name, Obj(data), MissingFieldReason(f.key)))
  {
  }

  /** A present null passes every reader: None, or the datetime reader's default. */
  lemma ReadFieldNull(f: Field, name: string, data: map<string, Value>)
    requires f.key in data && data[f.key] == Null
    ensures ReadField(f, name, data) == Ok(if f.DatetimeField? then TimeOrNone(f.defaultTime) else NoneVal)
  {
  }

  /** A present non-null value of the wrong type raises "is not a/an <kind>", with that value. */
  lemma ReadFieldWrongType(f: Field, name: string, data: map<string, Value>)
    requires f.key in data && data[f.key] != Null && !IsInstance(data[f.key], KindOf(f))
    ensures ReadField(f, name, data) == Err(InvalidObjectError(name, data[f.key], WrongTypeReason(f.key, KindOf(f))))
  {
  }

  /**
   * An optional key that is absent: the scalar readers return the caller's default, itself
   * type-checked; the other readers return None, or the datetime reader's default.
   */
  lemma ReadFieldAbsent(f: Field, name: string, data: map<string, Value>)
    requires f.optional && f.key !in data
    ensures !IsScalar(f) ==>
      ReadField(f, name, data) == Ok(if f.DatetimeField? then TimeOrNone(f.defaultTime) else NoneVal)
    ensures IsScalar(f) ==>
      ReadField(f, name, data) == if f.default == Null || IsInstance(f.default, KindOf(f)) then Ok(FromJson(f.default))
           else Err(InvalidObjectError(name, f.default, WrongTypeReason(f.key, KindOf(f))))
  {
  }

  /** A present value of the right type is stored as it was decoded by the scalar readers. */
  lemma ReadFieldScalarPresent(f: Field, name: string, data: map<string, Value>)
    requires IsScalar(f) && f.key in data && IsInstance(data[f.key], KindOf(f))
    ensures ReadField(f, name, data) == Ok(JsonVal(data[f.key]))
  {
  }

  /**
   * An optional scalar read succeeds exactly when the value it looks up (the caller's default
   * for an absent key) is null or of its kind, and then stores that value.
   */
  lemma ReadFieldOptionalScalar(f: Field, name: string, data: map<string, Value>)
    requires IsScalar(f) && f.optional
    ensures ReadField(f, name, data).Ok? <==>
      Lookup(data, f.key, f.default) == Null || IsInstance(Lookup(data, f.key, f.default), KindOf(f))
    ensures ReadField(f, name, data).Ok? ==> ReadField(f, name, data).value == FromJson(Lookup(data, f.key, f.default))
  {
  }

  /** A present string given to the datetime reader is parsed; a string it rejects raises. */
  lemma ReadFieldDatetime(f: Field, name: string, data: map<string, Value>)
    requires f.DatetimeField? && f.key in data && data[f.key].Str?
    ensures ReadField(f, name, data) == match f.parse(data[f.key].s)
      case None => Err(InvalidObjectError(name, data[f.key], InvalidDatetimeReason(f.key)))
      case Some(t) => Ok(TimeVal(t))
  {
  }

  /** A present object is decoded into a nested object, or raises what its decoding raises. */
  lemma ReadFieldObject(f: Field, name: string, data: map<string, Value>)
    requires f.ObjectField? && f.key in data && data[f.key].Obj?
    ensures ReadField(f, name, data) == match f.decode(data[f.key].fields)
      case Err(e) => Err(e)
      case Ok(record) => Ok(ObjectVal(record))
  {
  }

  /** A present array is decoded element by element. */
  lemma ReadFieldObjectArray(f: Field, name: string, data: map<string, Value>)
    requires f.ObjectArrayField? && f.key in data && data[f.key].Arr?
    ensures ReadField(f, name, data) == match DecodeFrom(name, f.key, f.decode, data[f.key].elems, 0)
      case Err(e) => Err(e)
      case Ok(records) => Ok(ArrayVal(records))
  {
  }

  /** The attributes after a call, and the error the call raised, if any. */
  datatype Outcome = Outcome(attrs: map<string, Attr>, error: Option<InvalidObjectError>)

  /**
   * One reader call on an object with attributes `attrs`: a successful read sets exactly the
   * target attribute and leaves every other one as it was; a failing read sets nothing.
   */
  function Step(f: Field, name: string, data: map<string, Value>, attrs: map<string, Attr>): (o: Outcome)
  {
    match ReadField(f, name, data)
    case Err(e) => Outcome(attrs, Some(e))
    case Ok(v) => Outcome(attrs[Target(f) := v], None)
  }

  /** A successful read sets exactly its target attribute; a failing read sets nothing. */
  lemma StepWritesTarget(f: Field, name: string, data: map<string, Value>, attrs: map<string, Attr>)
    ensures var o := Step(f, name, data, attrs);
      && (o.error.None? <==> ReadField(f, name, data).Ok?)
      && (o.error.Some? ==> o.error.value == ReadField(f, name, data).error && o.attrs == attrs)
      && (o.error.None? ==> o.attrs.Keys == attrs.Keys + {Target(f)})
      && (o.error.None? ==> o.attrs[Target(f)] == ReadField(f, name, data).value)
      && (forall k :: k in attrs && k != Target(f) ==> o.attrs[k] == attrs[k])
  {
  }

  /**
   * The reads fields[from..] performed in order, stopping at the first that raises. The
   * attributes written before the failure stay on the object, as they do in Python.
   */
  function RunFrom(fields: seq<Field>, from: nat, name: string, data: map<string, Value>,
                   attrs: map<string, Attr>): (o: Outcome)
    requires from <= |fields|
    decreases |fields| - from
  {
    if from == |fields| then Outcome(attrs, None)
    else
      var o := Step(fields[from], name, data, attrs);
      if o.error.Some? then o else RunFrom(fields, from + 1, name, data, o.attrs)
  }

  /** One step of a read sequence: the read at `from`, then the rest unless it raised. */
  lemma RunFromNext(fields: seq<Field>, from: nat, name: string, data: map<string, Value>,
                    attrs: map<string, Attr>)
    requires from < |fields|
    ensures RunFrom(fields, from, name, data, attrs) ==
            var o := Step(fields[from], name, data, attrs);
            if o.error.Some? then o else RunFrom(fields, from + 1, name, data, o.attrs)
  {
  }

  /** The read sequence's result as an object named `name`, or its error. */
  function Finish(name: string, o: Outcome): (r: Result<Record, InvalidObjectError>)
    ensures r.Ok? <==> o.error.None?
    ensures r.Ok? ==> r.value == Record(name, o.attrs)
    ensures r.Err? ==> r.error == o.error.value
  {
    if o.error.Some? then Err(o.error.value) else Ok(Record(name, o.attrs))
  }

  predicate SucceedsBefore(fields: seq<Field>, from: nat, i: nat, name: string, data: map<string, Value>)
    requires from <= i <= |fields|
  {
    forall j :: from <= j < i ==> ReadField(fields[j], name, data).Ok?
  }

  /** First failure wins: the reads before index i succeed and read i fails with e. */
  lemma {:induction false} RunFromFailsAt(fields: seq<Field>, from: nat, name: string,
                                          data: map<string, Value>, attrs: map<string, Attr>, i: nat)
    requires from <= i < |fields|
    requires SucceedsBefore(fields, from, i, name, data)
    requires ReadField(fields[i], name, data).Err?
    ensures RunFrom(fields, from, name, data, attrs).error == Some(ReadField(fields[i], name, data).error)
    decreases i - from
  {
    if from < i {
      var o := Step(fields[from], name, data, attrs);
      assert ReadField(fields[from], name, data).Ok?;
      RunFromFailsAt(fields, from + 1, name, data, o.attrs, i);
    }
  }

  /** A read sequence succeeds exactly when every one of its reads does. */
  lemma {:induction false} RunFromSucceedsIff(fields: seq<Field>, from: nat, name: string,
                                              data: map<string, Value>, attrs: map<string, Attr>)
    requires from <= |fields|
    ensures RunFrom(fields, from, name, data, attrs).error.None? <==> SucceedsBefore(fields, from, |fields|, name, data)
    decreases |fields| - from
  {
    if from < |fields| {
      var o := Step(fields[from], name, data, attrs);
      RunFromSucceedsIff(fields, from + 1, name, data, o.attrs);
    }
  }

  /** Any failing read makes the whole sequence fail. */
  lemma RunFromFailsIfAny(fields: seq<Field>, from: nat, name: string,
                          data: map<string, Value>, attrs: map<string, Attr>, i: nat)
    requires from <= i < |fields|
    requires ReadField(fields[i], name, data).Err?
    ensures RunFrom(fields, from, name, data, attrs).error.Some?
  {
    RunFromSucceedsIff(fields, from, name, data, attrs);
  }

  /**
   * A failing read makes the sequence fail, and its error is the one reported when every read
   * before it succeeds.
   */
  lemma RunFromReportsFailure(fields: seq<Field>, name: string, data: map<string, Value>,
                              attrs: map<string, Attr>, i: nat)
    requires i < |fields|
    requires ReadField(fields[i], name, data).Err?
    ensures RunFrom(fields, 0, name, data, attrs).error.Some?
    ensures SucceedsBefore(fields, 0, i, name, data) ==>
      RunFrom(fields, 0, name, data, attrs).error == Some(ReadField(fields[i], name, data).error)
  {
    RunFromFailsIfAny(fields, 0, name, data, attrs, i);
    if SucceedsBefore(fields, 0, i, name, data) {
      RunFromFailsAt(fields, 0, name, data, attrs, i);
    }
  }

  /** A required key that is absent makes the read sequence fail; it is the error reported
   *  when every read before its own succeeds. */
  lemma RunFromMissingRequired(fields: seq<Field>, name: string, data: map<string, Value>,
                               attrs: map<string, Attr>, i: nat)
    requires i < |fields|
    requires !fields[i].optional && fields[i].key !in data
    ensures RunFrom(fields, 0, name, data, attrs).error.Some?
    ensures SucceedsBefore(fields, 0, i, name, data) ==>
      RunFrom(fields, 0, name, data, attrs).error ==
      Some(InvalidObjectError(name, Obj(data), MissingFieldReason(fields[i].key)))
  {
    ReadFieldMissing(fields[i], name, data);
    RunFromReportsFailure(fields, name, data, attrs, i);
  }

  predicate DistinctTargets(fields: seq<Field>) {
    forall i, j :: 0 <= i < j < |fields| ==> Target(fields[i]) != Target(fields[j])
  }

  predicate Untargeted(fields: seq<Field>, from: nat, k: string)
    requires from <= |fields|
  {
    forall j :: from <= j < |fields| ==> Target(fields[j]) != k
  }

  /**
   * A successful read sequence sets the target of every read and no other new attribute.
   */
  lemma {:induction false} RunFromKeys(fields: seq<Field>, from: nat, name: string,
                                       data: map<string, Value>, attrs: map<string, Attr>)
    requires from <= |fields|
    requires RunFrom(fields, from, name, data, attrs).error.None?
    ensures attrs.Keys <= RunFrom(fields, from, name, data, attrs).attrs.Keys
    ensures forall j :: from <= j < |fields| ==> Target(fields[j]) in RunFrom(fields, from, name, data, attrs).attrs
    ensures forall k :: k in RunFrom(fields, from, name, data, attrs).attrs ==>
      k in attrs || !Untargeted(fields, from, k)
    decreases |fields| - from
  {
    if from < |fields| {
      var o := Step(fields[from], name, data, attrs);
      StepWritesTarget(fields[from], name, data, attrs);
      var r := RunFrom(fields, from + 1, name, data, o.attrs);
      RunFromKeys(fields, from + 1, name, data, o.attrs);
      forall k | k in r.attrs
        ensures k in attrs || !Untargeted(fields, from, k)
      {
        if k !in attrs && Untargeted(fields, from, k) {
          assert Untargeted(fields, from + 1, k);
        }
      }
    }
  }

  /**
   * A successful read sequence with distinct targets leaves each read's value under its target
   * attribute, and every attribute no read targets as it was.
   */
  lemma {:induction false} RunFromWrites(fields: seq<Field>, from: nat, name: string,
                                         data: map<string, Value>, attrs: map<string, Attr>)
    requires from <= |fields|
    requires DistinctTargets(fields)
    requires RunFrom(fields, from, name, data, attrs).error.None?
    ensures forall j :: from <= j < |fields| ==>
      ReadField(fields[j], name, data).Ok? &&
      Target(fields[j]) in RunFrom(fields, from, name, data, attrs).attrs &&
      RunFrom(fields, from, name, data, attrs).attrs[Target(fields[j])] == ReadField(fields[j], name, data).value
    ensures forall k :: k in attrs && Untargeted(fields, from, k) ==>
      k in RunFrom(fields, from, name, data, attrs).attrs &&
      RunFrom(fields, from, name, data, attrs).attrs[k] == attrs[k]
    ensures forall k :: k in RunFrom(fields, from, name, data, attrs).attrs ==>
      k in attrs || !Untargeted(fields, from, k)
    decreases |fields| - from
  {
    if from < |fields| {
      var o := Step(fields[from], name, data, attrs);
      StepWritesTarget(fields[from], name, data, attrs);
      var r := RunFrom(fields, from + 1, name, data, o.attrs);
      assert RunFrom(fields, from, name, data, attrs) == r;
      RunFromWrites(fields, from + 1, name, data, o.attrs);
      assert Untargeted(fields, from + 1, Target(fields[from]));
      forall k | k in attrs && Untargeted(fields, from, k)
        ensures k in r.attrs && r.attrs[k] == attrs[k]
      {
        assert Untargeted(fields, from + 1, k);
      }
      forall k | k in r.attrs
        ensures k in attrs || !Untargeted(fields, from, k)
      {
        if k !in attrs && Untargeted(fields, from, k) {
          assert Untargeted(fields, from + 1, k);
        }
      }
    }
  }

  /** After a successful sequence with distinct targets, read i's value is under its target. */
  lemma RunFromValueAt(fields: seq<Field>, name: string, data: map<string, Value>,
                       attrs: map<string, Attr>, i: nat)
    requires i < |fields|
    requires DistinctTargets(fields)
    requires RunFrom(fields, 0, name, data, attrs).error.None?
    ensures ReadField(fields[i], name, data).Ok?
    ensures Target(fields[i]) in RunFrom(fields, 0, name, data, attrs).attrs
    ensures RunFrom(fields, 0, name, data, attrs).attrs[Target(fields[i])] == ReadField(fields[i], name, data).value
  {
    RunFromWrites(fields, 0, name, data, attrs);
  }

  /** After a successful sequence, the key of every required read was present. */
  lemma RunFromRequiredPresent(fields: seq<Field>, name: string, data: map<string, Value>,
                               attrs: map<string, Attr>, i: nat)
    requires i < |fields|
    requires RunFrom(fields, 0, name, data, attrs).error.None?
    requires !fields[i].optional
    ensures fields[i].key in data
  {
    RunFromSucceedsIff(fields, 0, name, data, attrs);
    assert ReadField(fields[i], name, data).Ok?;
  }

  /**
   * After a successful sequence with distinct targets, a required scalar read's key was present
   * and its value is stored under the target, null as None.
   */
  lemma RunFromRequiredScalar(fields: seq<Field>, name: string, data: map<string, Value>,
                              attrs: map<string, Attr>, i: nat)
    requires i < |fields|
    requires DistinctTargets(fields)
    requires RunFrom(fields, 0, name, data, attrs).error.None?
    requires IsScalar(fields[i]) && !fields[i].optional
    ensures fields[i].key in data
    ensures Target(fields[i]) in RunFrom(fields, 0, name, data, attrs).attrs
    ensures RunFrom(fields, 0, name, data, attrs).attrs[Target(fields[i])] == FromJson(data[fields[i].key])
  {
    RunFromValueAt(fields, name, data, attrs, i);
  }

  /**
   * After a successful sequence with distinct targets, an optional read whose key was absent
   * stored its default: the scalar readers' default value, None otherwise.
   */
  lemma RunFromAbsentOptional(fields: seq<Field>, name: string, data: map<string, Value>,
                              attrs: map<string, Attr>, i: nat)
    requires i < |fields|
    requires DistinctTargets(fields)
    requires RunFrom(fields, 0, name, data, attrs).error.None?
    requires fields[i].optional && fields[i].key !in data
    ensures Target(fields[i]) in RunFrom(fields, 0, name, data, attrs).attrs
    ensures RunFrom(fields, 0, name, data, attrs).attrs[Target(fields[i])] ==
            if IsScalar(fields[i]) then FromJson(fields[i].default)
            else if fields[i].DatetimeField? then TimeOrNone(fields[i].defaultTime)
            else NoneVal
  {
    RunFromValueAt(fields, name, data, attrs, i);
    ReadFieldAbsent(fields[i], name, data);
  }

  /**
   * After a successful sequence with distinct targets, an optional scalar read stored the
   * value it looked up, the caller's default for an absent key, null as None.
   */
  lemma RunFromOptionalScalar(fields: seq<Field>, name: string, data: map<string, Value>,
                              attrs: map<string, Attr>, i: nat)
    requires i < |fields|
    requires DistinctTargets(fields)
    requires RunFrom(fields, 0, name, data, attrs).error.None?
    requires IsScalar(fields[i]) && fields[i].optional
    ensures Target(fields[i]) in RunFrom(fields, 0, name, data, attrs).attrs
    ensures RunFrom(fields, 0, name, data, attrs).attrs[Target(fields[i])] ==
            FromJson(Lookup(data, fields[i].key, fields[i].default))
  {
    RunFromValueAt(fields, name, data, attrs, i);
    ReadFieldOptionalScalar(fields[i], name, data);
  }

  /** The attributes a read sequence writes. */
  function Targets(fields: seq<Field>): (targets: set<string>) {
    set j | 0 <= j < |fields| :: Target(fields[j])
  }

  /** A successful read sequence on a fresh object sets exactly the targets of its reads. */
  lemma RunFromKeysExact(fields: seq<Field>, name: string, data: map<string, Value>)
    requires RunFrom(fields, 0, name, data, map[]).error.None?
    ensures RunFrom(fields, 0, name, data, map[]).attrs.Keys == Targets(fields)
  {
    RunFromKeys(fields, 0, name, data, map[]);
    var keys := RunFrom(fields, 0, name, data, map[]).attrs.Keys;
    forall k | k in keys
      ensures k in Targets(fields)
    {
      var j :| 0 <= j < |fields| && Target(fields[j]) == k;
    }
  }

  /** An API object whose attributes the readers set in place (`ReadableAPIObject`). */
  class ReadableObject {
    const objectName: string
    var attrs: map<string, Attr>

    constructor (objectName: string)
      ensures this.objectName == objectName && attrs == map[]
    {
      this.objectName := objectName;
      attrs := map[];
    }

    /** hasattr(self, "id_") and the attribute is not None. */
    predicate HasId()
      reads this
    {
      "id_" in attrs && attrs["id_"] != NoneVal && attrs["id_"] != JsonVal(Null)
    }

    /** `__repr__`: "<eventline.NAME>", with " ID" before the ">" exactly when there is an id. */
    function Repr(): (s: string)
      reads this
      ensures |s| > |"<eventline." + objectName|
      ensures s[..|"<eventline." + objectName|] == "<eventline." + objectName
      ensures s[|s| - 1] == '>'
      ensures !HasId() <==> s == "<eventline." + objectName + ">"
      ensures HasId() ==> s[|"<eventline." + objectName|..|s| - 1] == " " + ShowAttr(attrs["id_"])
    {
      var prefix := "<eventline." + objectName;
      if HasId() then prefix + " " + ShowAttr(attrs["id_"]) + ">" else prefix + ">"
    }

    /** `__repr__` as the source builds it, piece by piece. */
    method BuildRepr() returns (s: string)
      ensures s == Repr()
    {
      s := "<eventline." + objectName;
      if "id_" in attrs {
        var id := attrs["id_"];
        if id != NoneVal && id != JsonVal(Null) {
          s := s + " " + ShowAttr(id);
        }
      }
      s := s + ">";
    }

    /** `__str__` is the representation. */
    function ToString(): (s: string)
      reads this
      ensures s == Repr()
    {
      Repr()
    }

    /** `_read_string` */
    method ReadString(data: map<string, Value>, key: string, optional: bool := false,
                      default: Value := Null, attr: Option<string> := None)
      returns (err: Option<InvalidObjectError>)
      modifies this
      ensures Outcome(attrs, err) == Step(StringField(key, optional, default, attr), objectName, data, old(attrs))
    {
      var value := GetField(objectName, data, key, StringKind, optional, default);
      if value.Err? {
        return Some(value.error);
      }
      var target := if attr.Some? then attr.value else key;
      attrs := attrs[target := FromJson(value.value)];
      return None;
    }

    /** `_read_datetime`: a present string must be accepted by the ISO-8601 parser. */
    method ReadDatetime(data: map<string, Value>, key: string, parse: Parser, optional: bool := false,
                        default: Option<DateTime> := None, attr: Option<string> := None)
      returns (err: Option<InvalidObjectError>)
      modifies this
      ensures Outcome(attrs, err) == Step(DatetimeField(key, parse, optional, default, attr), objectName, data, old(attrs))
    {
      var str := GetField(objectName, data, key, StringKind, optional, Null);
      if str.Err? {
        return Some(str.error);
      }
      var value := TimeOrNone(default);
      if str.value.Str? {
        var parsed := parse(str.value.s);
        if parsed.None? {
          return Some(InvalidObjectError(objectName, str.value, InvalidDatetimeReason(key)));
        }
        value := TimeVal(parsed.value);
      }
      var target := if attr.Some? then attr.value else key;
      attrs := attrs[target := value];
      return None;
    }

    /** `_read_integer`: the default default is False, which isinstance accepts as an int. */
    method ReadInteger(data: map<string, Value>, key: string, optional: bool := false,
                       default: Value := Bool(false), attr: Option<string> := None)
      returns (err: Option<InvalidObjectError>)
      modifies this
      ensures Outcome(attrs, err) == Step(IntegerField(key, optional, default, attr), objectName, data, old(attrs))
    {
      var value := GetField(objectName, data, key, IntegerKind, optional, default);
      if value.Err? {
        return Some(value.error);
      }
      var target := if attr.Some? then attr.value else key;
      attrs := attrs[target := FromJson(value.value)];
      return None;
    }

    /** `_read_boolean` */
    method ReadBoolean(data: map<string, Value>, key: string, optional: bool := false,
                       default: Value := Bool(false), attr: Option<string> := None)
      returns (err: Option<InvalidObjectError>)
      modifies this
      ensures Outcome(attrs, err) == Step(BooleanField(key, optional, default, attr), objectName, data, old(attrs))
    {
      var value := GetField(objectName, data, key, BooleanKind, optional, default);
      if value.Err? {
        return Some(value.error);
      }
      var target := if attr.Some? then attr.value else key;
      attrs := attrs[target := FromJson(value.value)];
      return None;
    }

    /** `_read_object`: a present object is decoded by `decode` into a nested API object. */
    method ReadObject(data: map<string, Value>, key: string, decode: Decoder, optional: bool := false,
                      attr: Option<string> := None)
      returns (err: Option<InvalidObjectError>)
      modifies this
      ensures Outcome(attrs, err) == Step(ObjectField(key, decode, optional, attr), objectName, data, old(attrs))
    {
      var obj := GetField(objectName, data, key, ObjectKind, optional, Null);
      if obj.Err? {
        return Some(obj.error);
      }
      var value := NoneVal;
      if obj.value.Obj? {
        var nested := decode(obj.value.fields);
        if nested.Err? {
          return Some(nested.error);
        }
        value := ObjectVal(nested.value);
      }
      var target := if attr.Some? then attr.value else key;
      attrs := attrs[target := value];
      return None;
    }

    /** `_read_object_array`: each element must be an object and is decoded in turn. */
    method ReadObjectArray(data: map<string, Value>, key: string, decode: Decoder, optional: bool := false,
                           attr: Option<string> := None)
      returns (err: Option<InvalidObjectError>)
      modifies this
      ensures Outcome(attrs, err) == Step(ObjectArrayField(key, decode, optional, attr), objectName, data, old(attrs))
    {
      var list := GetField(objectName, data, key, ArrayKind, optional, Null);
      if list.Err? {
        return Some(list.error);
      }
      var value := NoneVal;
      if list.value.Arr? {
        var es := list.value.elems;
        var decoded: seq<Record> := [];
        var i := 0;
        PrependNothing(DecodeFrom(objectName, key, decode, es, 0));
        while i < |es|
          invariant 0 <= i <= |es|
          invariant attrs == old(attrs)
          invariant DecodeFrom(objectName, key, decode, es, 0) ==
                    Prepend(decoded, DecodeFrom(objectName, key, decode, es, i))
        {
          var element := es[i];
          if !element.Obj? {
            return Some(InvalidObjectError(objectName, element, ElementNotObjectReason(i, key)));
          }
          var elementValue := decode(element.fields);
          if elementValue.Err? {
            return Some(elementValue.error);
          }
          PrependStep(decoded, elementValue.value, DecodeFrom(objectName, key, decode, es, i + 1));
          decoded := decoded + [elementValue.value];
          i := i + 1;
        }
        assert decoded + [] == decoded;
        value := ArrayVal(decoded);
      }
      var target := if attr.Some? then attr.value else key;
      attrs := attrs[target := value];
      return None;
    }
  }
}
