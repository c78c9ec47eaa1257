/**
 * The pagination objects: a `Cursor` marking a position in a listing, and a `Page` holding the
 * decoded elements of one listing together with the cursors to the pages around it.
 */
module Pagination {
  import opened Wrappers
  import opened Json
  import opened ApiObject

  const CursorName: string := "cursor"
  const PageName: string := "page"

  /** `Cursor.read_data`: five optional reads. */
  function CursorFields(): (fields: seq<Field>) {
    [ StringField("before", optional := true),
      StringField("after", optional := true),
      IntegerField("size", optional := true),
      StringField("sort", optional := true),
      StringField("order", optional := true) ]
  }

  /** A cursor decoded from `data`. */
  function DecodeCursor(data: map<string, Value>): (r: Result<Record, InvalidObjectError>) {
    Finish(CursorName, RunFrom(CursorFields(), 0, CursorName, data, map[]))
  }

  /**
   * `Page.read_data`, with the class of the elements and the decoding of the two cursors as
   * decoders. `BaseHook(CursorName)` is what the empty `_read_data` hook leaves on a cursor
   * constructed without data; the corrected program decodes the cursors with `DecodeCursor`.
   */
  function PageFields(element: Decoder, link: Decoder): (fields: seq<Field>) {
    [ ObjectArrayField("elements", element),
      ObjectField("previous", link, optional := true),
      ObjectField("next", link, optional := true) ]
  }

  /** A page decoded from `data`, its elements decoded by `element` and its cursors as cursors. */
  function DecodePage(element: Decoder, data: map<string, Value>): (r: Result<Record, InvalidObjectError>) {
    Finish(PageName, RunFrom(PageFields(element, DecodeCursor), 0, PageName, data, map[]))
  }

  /** `Cursor.read_data`, in place on `o`. */
  method ReadCursor(o: ReadableObject, data: map<string, Value>) returns (err: Option<InvalidObjectError>)
    modifies o
    ensures Outcome(o.attrs, err) == RunFrom(CursorFields(), 0, o.objectName, data, old(o.attrs))
  {
    ghost var fields := CursorFields();
    ghost var before := o.attrs;
    err := o.ReadString(data, "before", optional := true);
    RunFromNext(fields, 0, o.objectName, data, before);
    if err.Some? { return; }
    before := o.attrs;
    err := o.ReadString(data, "after", optional := true);
    RunFromNext(fields, 1, o.objectName, data, before);
    if err.Some? { return; }
    before := o.attrs;
    err := o.ReadInteger(data, "size", optional := true);
    RunFromNext(fields, 2, o.objectName, data, before);
    if err.Some? { return; }
    before := o.attrs;
    err := o.ReadString(data, "sort", optional := true);
    RunFromNext(fields, 3, o.objectName, data, before);
    if err.Some? { return; }
    before := o.attrs;
    err := o.ReadString(data, "order", optional := true);
    RunFromNext(fields, 4, o.objectName, data, before);
    assert RunFrom(fields, 5, o.objectName, data, o.attrs) == Outcome(o.attrs, None);
  }

  /** `Cursor.__init__`: a new cursor is read from `data` at once. */
  method NewCursor(data: map<string, Value>) returns (o: ReadableObject, err: Option<InvalidObjectError>)
    ensures fresh(o) && o.objectName == CursorName
    ensures Outcome(o.attrs, err) == RunFrom(CursorFields(), 0, CursorName, data, map[])
  {
    o := new ReadableObject(CursorName);
    err := ReadCursor(o, data);
  }

  /** `Page.read_data`, in place on `o`. */
  method ReadPage(o: ReadableObject, element: Decoder, link: Decoder, data: map<string, Value>)
    returns (err: Option<InvalidObjectError>)
    modifies o
    ensures Outcome(o.attrs, err) == RunFrom(PageFields(element, link), 0, o.objectName, data, old(o.attrs))
  {
    ghost var fields := PageFields(element, link);
    ghost var before := o.attrs;
    err := o.ReadObjectArray(data, "elements", element);
    RunFromNext(fields, 0, o.objectName, data, before);
    if err.Some? { return; }
    before := o.attrs;
    err := o.ReadObject(data, "previous", link, optional := true);
    RunFromNext(fields, 1, o.objectName, data, before);
    if err.Some? { return; }
    before := o.attrs;
    err := o.ReadObject(data, "next", link, optional := true);
    RunFromNext(fields, 2, o.objectName, data, before);
    assert RunFrom(fields, 3, o.objectName, data, o.attrs) == Outcome(o.attrs, None);
  }

  /** `Page.__init__`: a new page is read from `data` at once, its elements by `element`, its cursors by `link`. */
  method NewPage(element: Decoder, link: Decoder, data: map<string, Value>)
    returns (o: ReadableObject, err: Option<InvalidObjectError>)
    ensures fresh(o) && o.objectName == PageName
    ensures Outcome(o.attrs, err) == RunFrom(PageFields(element, link), 0, PageName, data, map[])
  {
    o := new ReadableObject(PageName);
    err := ReadPage(o, element, link, data);
  }

  /** Absent, null, or an instance of the kind: what an optional read accepts. */
  predicate OptionalOf(data: map<string, Value>, key: string, k: Kind) {
    key !in data || data[key] == Null || IsInstance(data[key], k)
  }

  /** The cursor fields that decode: strings, and an integer (or boolean) size, each optional. */
  predicate CursorWellTyped(data: map<string, Value>) {
    && OptionalOf(data, "before", StringKind)
    && OptionalOf(data, "after", StringKind)
    && OptionalOf(data, "size", IntegerKind)
    && OptionalOf(data, "sort", StringKind)
    && OptionalOf(data, "order", StringKind)
  }

  /** A cursor decodes exactly when each of its five fields is absent, null or of its type. */
  lemma CursorDecodesIff(data: map<string, Value>)
    ensures DecodeCursor(data).Ok? <==> CursorWellTyped(data)
  {
    var fields := CursorFields();
    RunFromSucceedsIff(fields, 0, CursorName, data, map[]);
    ReadFieldOptionalScalar(fields[0], CursorName, data);
    ReadFieldOptionalScalar(fields[1], CursorName, data);
    ReadFieldOptionalScalar(fields[2], CursorName, data);
    ReadFieldOptionalScalar(fields[3], CursorName, data);
    ReadFieldOptionalScalar(fields[4], CursorName, data);
    assert SucceedsBefore(fields, 0, 5, CursorName, data) <==>
      forall j | 0 <= j < 5 :: ReadField(fields[j], CursorName, data).Ok?;
  }

  /** Each read of `Cursor.read_data` writes its own attribute. */
  lemma CursorTargetsDistinct()
    ensures DistinctTargets(CursorFields())
  {
  }

  /** A decoded cursor has exactly the five attributes it reads. */
  lemma CursorKeys(data: map<string, Value>)
    requires DecodeCursor(data).Ok?
    ensures DecodeCursor(data).value.objectName == CursorName
    ensures DecodeCursor(data).value.attrs.Keys == {"before", "after", "size", "sort", "order"}
  {
    RunFromKeysExact(CursorFields(), CursorName, data);
    assert Targets(CursorFields()) == {"before", "after", "size", "sort", "order"};
  }

  /**
   * A decoded cursor holds the five fields as read: None where absent or null, and False for an
   * absent size, the integer reader's default.
   */
  lemma CursorValues(data: map<string, Value>)
    requires DecodeCursor(data).Ok?
    ensures var a := DecodeCursor(data).value.attrs;
      && "before" in a && a["before"] == FromJson(Lookup(data, "before", Null))
      && "after" in a && a["after"] == FromJson(Lookup(data, "after", Null))
      && "size" in a && a["size"] == FromJson(Lookup(data, "size", Bool(false)))
      && "sort" in a && a["sort"] == FromJson(Lookup(data, "sort", Null))
      && "order" in a && a["order"] == FromJson(Lookup(data, "order", Null))
  {
    var fields := CursorFields();
    CursorTargetsDistinct();
    RunFromOptionalScalar(fields, CursorName, data, map[], 0);
    RunFromOptionalScalar(fields, CursorName, data, map[], 1);
    RunFromOptionalScalar(fields, CursorName, data, map[], 2);
    RunFromOptionalScalar(fields, CursorName, data, map[], 3);
    RunFromOptionalScalar(fields, CursorName, data, map[], 4);
  }

  /** An empty object decodes to a cursor with no bounds and the default size False. */
  lemma EmptyCursor()
    ensures DecodeCursor(map[]) ==
      Ok(Record(CursorName, map["before" := NoneVal, "after" := NoneVal, "size" := JsonVal(Bool(false)),
                                "sort" := NoneVal, "order" := NoneVal]))
  {
    CursorDecodesIff(map[]);
    CursorKeys(map[]);
    CursorValues(map[]);
  }

  /** A page without `elements` is rejected, whatever else it holds. */
  lemma PageMissingElements(element: Decoder, data: map<string, Value>)
    requires "elements" !in data
    ensures DecodePage(element, data) == Err(InvalidObjectError(PageName, Obj(data), MissingFieldReason("elements")))
  {
    var fields := PageFields(element, DecodeCursor);
    RunFromMissingRequired(fields, PageName, data, map[], 0);
  }

  /** The first element that is not an object rejects the page, naming its index. */
  lemma PageElementNotObject(element: Decoder, data: map<string, Value>, k: nat)
    requires "elements" in data && data["elements"].Arr?
    requires k < |data["elements"].elems| && !data["elements"].elems[k].Obj?
    requires forall j :: 0 <= j < k ==>
      data["elements"].elems[j].Obj? && element(data["elements"].elems[j].fields).Ok?
    ensures DecodePage(element, data) ==
      Err(InvalidObjectError(PageName, data["elements"].elems[k], ElementNotObjectReason(k, "elements")))
  {
    var fields := PageFields(element, DecodeCursor);
    DecodeFromFirstNonObject(PageName, "elements", element, data["elements"].elems, 0, k);
    ReadFieldObjectArray(fields[0], PageName, data);
    RunFromReportsFailure(fields, PageName, data, map[], 0);
  }

  /**
   * The elements of a decoded page: None for a present null, otherwise one decoded element per
   * array element, in order, each array element an object.
   */
  lemma PageElements(element: Decoder, data: map<string, Value>)
    requires DecodePage(element, data).Ok?
    ensures "elements" in data
    ensures var a := DecodePage(element, data).value.attrs;
      && "elements" in a
      && (data["elements"] == Null ==> a["elements"] == NoneVal)
      && (data["elements"] != Null ==>
            && data["elements"].Arr?
            && a["elements"].ArrayVal?
            && |a["elements"].records| == |data["elements"].elems|
            && forall j :: 0 <= j < |data["elements"].elems| ==>
                 data["elements"].elems[j].Obj? &&
                 element(data["elements"].elems[j].fields) == Ok(a["elements"].records[j]))
  {
    var fields := PageFields(element, DecodeCursor);
    assert DistinctTargets(fields);
    RunFromRequiredPresent(fields, PageName, data, map[], 0);
    RunFromValueAt(fields, PageName, data, map[], 0);
  }

  /**
   * A link of a decoded page (`previous` or `next`): None when absent or null, otherwise the
   * decoded cursor of an object.
   */
  lemma PageLink(element: Decoder, data: map<string, Value>, i: nat)
    requires i == 1 || i == 2
    requires DecodePage(element, data).Ok?
    ensures var key := PageFields(element, DecodeCursor)[i].key;
            var a := DecodePage(element, data).value.attrs;
      && key in a
      && (key !in data || data[key] == Null ==> a[key] == NoneVal)
      && (key in data && data[key] != Null ==>
            data[key].Obj? && DecodeCursor(data[key].fields).Ok? &&
            a[key] == ObjectVal(DecodeCursor(data[key].fields).value))
  {
    var fields := PageFields(element, DecodeCursor);
    assert DistinctTargets(fields);
    RunFromValueAt(fields, PageName, data, map[], i);
  }

  /** A link that is present, not null and not an object rejects the page once its elements decode. */
  lemma PageLinkNotObject(element: Decoder, data: map<string, Value>, i: nat)
    requires i == 1 || i == 2
    requires var key := PageFields(element, DecodeCursor)[i].key;
      key in data && data[key] != Null && !data[key].Obj?
    ensures DecodePage(element, data).Err?
    ensures SucceedsBefore(PageFields(element, DecodeCursor), 0, i, PageName, data) ==>
      var key := PageFields(element, DecodeCursor)[i].key;
      DecodePage(element, data).error == InvalidObjectError(PageName, data[key], WrongTypeReason(key, ObjectKind))
  {
    var fields := PageFields(element, DecodeCursor);
    ReadFieldWrongType(fields[i], PageName, data);
    RunFromReportsFailure(fields, PageName, data, map[], i);
  }
}
