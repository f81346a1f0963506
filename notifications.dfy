/** The create pipeline of the notification worker: batch shaping,
    per-element validation and normalisation, and the canonical record
    (createNotifications in src/index.js). */
module Notifications {
  import opened Wrappers
  import opened JsValues

  /** The three notification types. */
  datatype Kind = Alert | Info | Success

  function KindName(k: Kind): string {
    match k
    case Alert => "alert"
    case Info => "info"
    case Success => "success"
  }

  /** `['alert', 'info', 'success'].includes(v)`, telling which one matched. */
  function ParseKind(v: Option<Json>): (r: Option<Kind>)
    ensures r.Some? ==> v == Some(JStr(KindName(r.value)))
    ensures r.None? ==> forall k: Kind :: v != Some(JStr(KindName(k)))
  {
    match v
    case Some(JStr(s)) =>
      if s == "alert" then Some(Alert)
      else if s == "info" then Some(Info)
      else if s == "success" then Some(Success)
      else None
    case _ => None
  }

  /** A kind's own name parses back to it. */
  lemma ParseKindName(k: Kind)
    ensures ParseKind(Some(JStr(KindName(k)))) == Some(k)
  {
    match k
    case Alert =>
    case Info =>
    case Success =>
  }

  /** The type a created record gets from the input's `type` property. */
  function NormalisedKind(v: Option<Json>): (k: Kind)
    ensures forall kind: Kind :: v == Some(JStr(KindName(kind))) ==> k == kind
    ensures (forall kind: Kind :: v != Some(JStr(KindName(kind)))) ==> k == Info
  {
    ParseKind(v).GetOr(Info)
  }

  /** The `read` flag a created record gets from the input's `read` property. */
  function ReadValue(v: Option<Json>): (b: bool)
    ensures b <==> v == Some(JBool(true))
    ensures v.Some? && v.value.JBool? ==> b == v.value.b
  {
    match v
    case Some(JBool(b)) => b
    case _ => false
  }

  /** `notif.content.text` when content is a non-null object and text a
      string; None when that check fails. Only a plain object passes. */
  function ContentText(notif: Json): (t: Option<string>)
    ensures t.Some? ==> notif.JObj?
    ensures t.Some? ==> exists c :: Prop(notif, "content") == Some(c) && Prop(c, "text") == Some(JStr(t.value))
    ensures forall c: Json, text: string ::
              Prop(notif, "content") == Some(c) && Prop(c, "text") == Some(JStr(text)) ==> t == Some(text)
  {
    match Prop(notif, "content")
    case None => None
    case Some(c) =>
      if !IsObject(c) then None
      else
        match Prop(c, "text")
        case Some(JStr(t)) => Some(t)
        case _ => None
  }

  /** A notification as stored and returned: exactly the fields id, type,
      content (holding only text), timestamp and read. */
  datatype Notification = Notification(id: string, kind: Kind, text: string, timestamp: int, read: bool)

  /** The JSON object JSON.stringify is given for a record. */
  function ToJson(n: Notification): Json {
    JObj([("id", JStr(n.id)),
          ("type", JStr(KindName(n.kind))),
          ("content", JObj([("text", JStr(n.text))])),
          ("timestamp", JNum(n.timestamp)),
          ("read", JBool(n.read))])
  }

  /** Reads a record back out of a JSON object, as a client of the list
      endpoint does: None unless id, type, content.text, timestamp and read
      all have their record form. */
  function RecordOf(j: Json): Option<Notification> {
    if !j.JObj? then None
    else
      match (Get(j.props, "id"), ParseKind(Get(j.props, "type")), ContentText(j),
             Get(j.props, "timestamp"), Get(j.props, "read"))
      case (Some(JStr(id)), Some(kind), Some(text), Some(JNum(ts)), Some(JBool(read))) =>
        Some(Notification(id, kind, text, ts, read))
      case _ => None
  }

  /** A record's JSON object reads back as the same record, so no two
      records share a JSON form. */
  lemma RecordOfToJson(n: Notification)
    ensures RecordOf(ToJson(n)) == Some(n)
  {
    var props := ToJson(n).props;
    assert Get(props, "id") == Some(JStr(n.id));
    assert Get(props, "type") == Get(props[1..], "type") == Some(JStr(KindName(n.kind)));
    assert Get(props, "timestamp") == Get(props[1..], "timestamp") == Get(props[2..], "timestamp")
        == Get(props[3..], "timestamp") == Some(JNum(n.timestamp));
    assert Get(props, "read") == Get(props[1..], "read") == Get(props[2..], "read")
        == Get(props[3..], "read") == Get(props[4..], "read") == Some(JBool(n.read));
    ParseKindName(n.kind);
    RecordJsonFields(n);
  }

  /** `j` is exactly the object JSON.stringify is given for record `n`: its
      keys are id, type, content, timestamp and read in that order,
      content holds only the text, and it reads back as `n`. */
  predicate IsRecordJson(j: Json, n: Notification) {
    && j.JObj?
    && OwnKeys(j.props) == ["id", "type", "content", "timestamp", "read"]
    && Prop(j, "content") == Some(JObj([("text", JStr(n.text))]))
    && RecordOf(j) == Some(n)
  }

  lemma ToJsonIsRecordJson(n: Notification)
    ensures IsRecordJson(ToJson(n), n)
  {
    var props := ToJson(n).props;
    assert Get(props, "content") == Get(props[1..], "content") == Get(props[2..], "content")
        == Some(JObj([("text", JStr(n.text))]));
    RecordOwnKeys(n);
    RecordOfToJson(n);
  }

  lemma RecordsReadBack(records: seq<Notification>)
    ensures forall i :: 0 <= i < |records| ==> IsRecordJson(ToJson(records[i]), records[i])
  {
    forall i | 0 <= i < |records| ensures IsRecordJson(ToJson(records[i]), records[i]) {
      ToJsonIsRecordJson(records[i]);
    }
  }

  /** The array JSON.stringify is given for a list of records: element i is
      exactly the object of record i. */
  function RecordsJson(records: seq<Notification>): (items: seq<Json>)
    ensures |items| == |records|
    ensures forall i :: 0 <= i < |records| ==> IsRecordJson(items[i], records[i])
  {
    RecordsReadBack(records);
    seq(|records|, i requires 0 <= i < |records| => ToJson(records[i]))
  }

  /** The errors the create handler throws; each becomes a 400 response. */
  datatype Error =
    | EmptyBatch
    | NotAnObject
    | MissingText
    | UnexpectedFields(keys: seq<string>)

  /** Array.prototype.join. */
  function Join(parts: seq<string>, sep: string): string {
    if parts == [] then ""
    else if |parts| == 1 then parts[0]
    else parts[0] + sep + Join(parts[1..], sep)
  }

  /** One part joins to itself; each further part is added after a
      separator. */
  lemma {:induction false} JoinSnoc(parts: seq<string>, p: string, sep: string)
    ensures Join([p], sep) == p
    ensures |parts| > 0 ==> Join(parts + [p], sep) == Join(parts, sep) + sep + p
  {
    if |parts| > 1 {
      assert (parts + [p])[1..] == parts[1..] + [p];
      JoinSnoc(parts[1..], p, sep);
    } else if |parts| == 1 {
      assert (parts + [p])[1..] == [p];
    }
  }

  /** The message of the thrown Error, which is the 400 response's body. */
  function Message(e: Error): string {
    match e
    case EmptyBatch => "Notification array cannot be empty."
    case NotAnObject => "Notification must be an object."
    case MissingText => "Notification content must include " + "a 'text' field of type string."
    case UnexpectedFields(keys) => "Unexpected field(s): " + Join(keys, ", ")
  }

  /** The response body tells which check failed; for the first three
      errors it is the error itself. */
  lemma MessageIdentifiesError(e1: Error, e2: Error)
    requires Message(e1) == Message(e2)
    ensures e1.UnexpectedFields? <==> e2.UnexpectedFields?
    ensures !e1.UnexpectedFields? ==> e1 == e2
  {
    MessageHead(e1);
    MessageHead(e2);
  }

  /** The first character of a message, and the lengths of the three fixed
      ones, which tell the four kinds apart. */
  lemma MessageHead(e: Error)
    ensures |Message(e)| > 0
    ensures Message(e)[0] == if e.UnexpectedFields? then 'U' else 'N'
    ensures e == EmptyBatch ==> |Message(e)| == 35
    ensures e == NotAnObject ==> |Message(e)| == 31
    ensures e == MissingText ==> |Message(e)| == 64
  {
    match e
    case UnexpectedFields(keys) =>
      var prefix := "Unexpected field(s): ";
      assert Message(e) == prefix + Join(keys, ", ");
      assert (prefix + Join(keys, ", "))[0] == prefix[0];
    case MissingText =>
      var head := "Notification content must include ";
      var tail := "a 'text' field of type string.";
      assert Message(e) == head + tail;
      assert (head + tail)[0] == head[0];
    case _ =>
  }

  // ---------------------------------------------------------------------
  // Unexpected fields

  predicate IsAllowedField(k: string) {
    k == "type" || k == "content" || k == "read"
  }

  /** `keys.filter(key => !allowedFields.includes(key))`. */
  function Unexpected(ks: seq<string>): seq<string> {
    if ks == [] then []
    else
      var last := ks[|ks| - 1];
      Unexpected(ks[..|ks| - 1]) + (if IsAllowedField(last) then [] else [last])
  }

  lemma UnexpectedSnoc(ks: seq<string>, k: string)
    ensures Unexpected(ks + [k]) == Unexpected(ks) + (if IsAllowedField(k) then [] else [k])
  {
    assert (ks + [k])[..|ks|] == ks;
  }

  /** The unexpected fields of the element as the client sent it, in
      Object.keys order. */
  function InputUnexpected(notif: Json): seq<string> {
    if notif.JObj? then Unexpected(OwnKeys(notif.props)) else []
  }

  lemma {:induction false} UnexpectedMembers(ks: seq<string>, k: string)
    ensures k in Unexpected(ks) <==> k in ks && !IsAllowedField(k)
  {
    if ks != [] {
      var init, last := ks[..|ks| - 1], ks[|ks| - 1];
      assert ks == init + [last];
      UnexpectedMembers(init, k);
    }
  }

  /** Exactly the input's keys outside {type, content, read} are reported. */
  lemma InputUnexpectedExactly(notif: Json, k: string)
    requires notif.JObj?
    ensures k in InputUnexpected(notif) <==> k in Keys(notif.props) && !IsAllowedField(k)
  {
    UnexpectedMembers(OwnKeys(notif.props), k);
    KeyOrderMembers(Keys(notif.props), k);
  }

  lemma AllowedNotIndex(k: string)
    requires IsAllowedField(k)
    ensures !IsArrayIndex(k)
  {
    assert !IsDigit(k[0]);
  }

  /** Assigning `type` or `read` never changes the unexpected-field list. */
  lemma CoercionKeepsUnexpected(props: seq<(string, Json)>, key: string, v: Json)
    requires IsAllowedField(key)
    ensures Unexpected(OwnKeys(SetProp(props, key, v))) == Unexpected(OwnKeys(props))
  {
    AllowedNotIndex(key);
    OwnKeysAfterSet(props, key, v);
    if key !in Keys(props) {
      UnexpectedSnoc(OwnKeys(props), key);
    }
  }

  // ---------------------------------------------------------------------
  // One element

  /** The in-place coercion of an element that passed the shape checks:
      `type` becomes "info" unless it names a kind, and `read` becomes a
      boolean. */
  function Coerce(props: seq<(string, Json)>): seq<(string, Json)> {
    var typed :=
      if ParseKind(Get(props, "type")).Some? then props
      else SetProp(props, "type", JStr("info"));
    SetProp(typed, "read", JBool(ReadValue(Get(typed, "read"))))
  }

  /** After the coercion `type` always names a kind, the one the element
      named or Info, and `read` is the element's boolean or false. */
  lemma CoerceValues(props: seq<(string, Json)>)
    ensures Get(Coerce(props), "type") == Some(JStr(KindName(NormalisedKind(Get(props, "type")))))
    ensures Get(Coerce(props), "read") == Some(JBool(ReadValue(Get(props, "read"))))
  {
    var kind := ParseKind(Get(props, "type"));
    var typed := if kind.Some? then props else SetProp(props, "type", JStr("info"));
    GetAfterSet(props, "type", JStr("info"), "read");
    GetAfterSet(typed, "read", JBool(ReadValue(Get(typed, "read"))), "type");
  }

  /** The coercion never changes the unexpected-field list. */
  lemma CoerceKeepsUnexpected(props: seq<(string, Json)>)
    ensures Unexpected(OwnKeys(Coerce(props))) == Unexpected(OwnKeys(props))
  {
    var typed :=
      if ParseKind(Get(props, "type")).Some? then props
      else SetProp(props, "type", JStr("info"));
    if ParseKind(Get(props, "type")).None? {
      CoercionKeepsUnexpected(props, "type", JStr("info"));
    }
    CoercionKeepsUnexpected(typed, "read", JBool(ReadValue(Get(typed, "read"))));
  }

  /** The callback of `notifications.map`: the two shape checks, the
      in-place coercion of `type` and `read`, the unexpected-field check on
      the coerced object, then the canonical record with the supplied id
      and timestamp. */
  function ValidateOne(notif: Json, id: string, now: int): Result<Notification, Error> {
    if !IsObject(notif) then Err(NotAnObject)
    else
      match ContentText(notif)
      case None => Err(MissingText)
      case Some(text) =>
        var coerced := Coerce(notif.props);
        var unexpected := Unexpected(OwnKeys(coerced));
        if unexpected != [] then Err(UnexpectedFields(unexpected))
        else
          // after the coercion, coerced's type always names a kind
          Ok(Notification(id, ParseKind(Get(coerced, "type")).GetOr(Info), text, now,
                          ReadValue(Get(coerced, "read"))))
  }

  /** Error precedence for one element: the object check, then the content
      check, then the unexpected fields of the element as sent. */
  lemma {:induction false} ValidateOneErrors(notif: Json, id: string, now: int)
    ensures ValidateOne(notif, id, now) == Err(NotAnObject) <==> !IsObject(notif)
    ensures ValidateOne(notif, id, now) == Err(MissingText) <==> IsObject(notif) && ContentText(notif).None?
    ensures ValidateOne(notif, id, now) != Err(EmptyBatch)
    ensures IsObject(notif) && ContentText(notif).Some? ==>
              (ValidateOne(notif, id, now).Err? <==> InputUnexpected(notif) != [])
    ensures ValidateOne(notif, id, now).Err? && ValidateOne(notif, id, now).error.UnexpectedFields? ==>
              ValidateOne(notif, id, now).error.keys == InputUnexpected(notif)
  {
    if IsObject(notif) && ContentText(notif).Some? {
      CoerceKeepsUnexpected(notif.props);
    }
  }

  /** A created record takes its type, text and read flag from the element
      as sent, normalised; its id and timestamp are the supplied ones. */
  lemma {:induction false} ValidateOneRecord(notif: Json, id: string, now: int)
    requires ValidateOne(notif, id, now).Ok?
    ensures ValidateOne(notif, id, now).value
         == Notification(id, NormalisedKind(Prop(notif, "type")), ContentText(notif).value, now,
                         ReadValue(Prop(notif, "read")))
  {
    var coerced := Coerce(notif.props);
    CoerceValues(notif.props);
    var k := NormalisedKind(Get(notif.props, "type"));
    ParseKindName(k);
    assert ParseKind(Get(coerced, "type")) == Some(k);
  }

  /** The unexpected fields among a record's keys, in creation order. */
  lemma RecordKeysUnexpected()
    ensures Unexpected(["id", "type", "content", "timestamp", "read"]) == ["id", "timestamp"]
  {
    var k1, k2, k3, k4 := ["id"], ["id", "type"], ["id", "type", "content"], ["id", "type", "content", "timestamp"];
    UnexpectedSnoc([], "id");
    assert [] + ["id"] == k1;
    UnexpectedSnoc(k1, "type");
    assert k1 + ["type"] == k2;
    UnexpectedSnoc(k2, "content");
    assert k2 + ["content"] == k3;
    UnexpectedSnoc(k3, "timestamp");
    assert k3 + ["timestamp"] == k4;
    UnexpectedSnoc(k4, "read");
    assert k4 + ["read"] == ["id", "type", "content", "timestamp", "read"];
  }

  /** A record's keys are listed by Object.keys in creation order. */
  lemma RecordOwnKeys(n: Notification)
    ensures OwnKeys(ToJson(n).props) == ["id", "type", "content", "timestamp", "read"]
  {
    var ks := Keys(ToJson(n).props);
    assert ks == ["id", "type", "content", "timestamp", "read"];
    forall i | 0 <= i < |ks| ensures !IsArrayIndex(ks[i]) {
      assert !IsDigit(ks[i][0]);
    }
    KeyOrderWithoutIndices(ks);
  }

  lemma RecordJsonFields(n: Notification)
    ensures ContentText(ToJson(n)) == Some(n.text)
    ensures InputUnexpected(ToJson(n)) == ["id", "timestamp"]
  {
    var props := ToJson(n).props;
    var content := JObj([("text", JStr(n.text))]);
    assert Get(props, "content") == Get(props[1..], "content") == Get(props[2..], "content") == Some(content);
    RecordOwnKeys(n);
    RecordKeysUnexpected();
  }

  /** A stored record sent back as input is refused: id and timestamp are
      not accepted fields. */
  lemma ResubmittedRecordRejected(n: Notification, id: string, now: int)
    ensures ValidateOne(ToJson(n), id, now) == Err(UnexpectedFields(["id", "timestamp"]))
  {
    RecordJsonFields(n);
    ValidateOneErrors(ToJson(n), id, now);
  }

  /** The part of a record a client sends: its type, content and read flag. */
  function InputOf(n: Notification): Json {
    JObj([("type", JStr(KindName(n.kind))), ("content", JObj([("text", JStr(n.text))])), ("read", JBool(n.read))])
  }

  /** The keys a client sends are all accepted fields. */
  lemma InputKeysUnexpected()
    ensures Unexpected(["type", "content", "read"]) == []
  {
    var k1, k2 := ["type"], ["type", "content"];
    UnexpectedSnoc([], "type");
    assert [] + ["type"] == k1;
    UnexpectedSnoc(k1, "content");
    assert k1 + ["content"] == k2;
    UnexpectedSnoc(k2, "read");
    assert k2 + ["read"] == ["type", "content", "read"];
  }

  lemma InputOwnKeys(n: Notification)
    ensures OwnKeys(InputOf(n).props) == ["type", "content", "read"]
  {
    var ks := Keys(InputOf(n).props);
    assert ks == ["type", "content", "read"];
    forall i | 0 <= i < |ks| ensures !IsArrayIndex(ks[i]) {
      AllowedNotIndex(ks[i]);
    }
    KeyOrderWithoutIndices(ks);
  }

  lemma InputOfFields(n: Notification)
    ensures ContentText(InputOf(n)) == Some(n.text)
    ensures Prop(InputOf(n), "type") == Some(JStr(KindName(n.kind)))
    ensures Prop(InputOf(n), "read") == Some(JBool(n.read))
    ensures InputUnexpected(InputOf(n)) == []
  {
    var props := InputOf(n).props;
    var content := JObj([("text", JStr(n.text))]);
    assert Get(props, "content") == Get(props[1..], "content") == Some(content);
    assert Get(props, "read") == Get(props[1..], "read") == Get(props[2..], "read") == Some(JBool(n.read));
    InputOwnKeys(n);
    InputKeysUnexpected();
  }

  /** Any content object holding a string text is accepted, whatever other
      subfields it has; the record keeps only the text, and the absent type
      and read become Info and false. */
  lemma ContentSubfieldsDropped(content: Json, text: string, id: string, now: int)
    requires content.JObj? && Get(content.props, "text") == Some(JStr(text))
    ensures ValidateOne(JObj([("content", content)]), id, now) == Ok(Notification(id, Info, text, now, false))
  {
    var notif := JObj([("content", content)]);
    assert Get(notif.props, "content") == Some(content);
    assert ContentText(notif) == Some(text);
    AllowedNotIndex("content");
    assert Keys(notif.props) == ["content"];
    KeyOrderWithoutIndices(["content"]);
    UnexpectedSnoc([], "content");
    assert [] + ["content"] == ["content"];
    ValidateOneErrors(notif, id, now);
    ValidateOneRecord(notif, id, now);
    assert Get(notif.props[1..], "type") == None;
    assert Get(notif.props[1..], "read") == None;
  }

  /** Normalisation is idempotent: sending a record's own fields back
      creates the same record under the new id and timestamp. */
  lemma RecordInputAccepted(n: Notification, id: string, now: int)
    ensures ValidateOne(InputOf(n), id, now) == Ok(n.(id := id, timestamp := now))
  {
    InputOfFields(n);
    ValidateOneErrors(InputOf(n), id, now);
    ValidateOneRecord(InputOf(n), id, now);
  }

  // ---------------------------------------------------------------------
  // The batch

  /** `Array.isArray(data) ? data : [data]`. */
  function Elements(body: Json): seq<Json> {
    if body.JArr? then body.items else [body]
  }

  /** `xs.map(f)` for a callback that may throw: every result in order, or
      the error of the first element whose callback throws. */
  function MapUntilError<T, U, E>(xs: seq<T>, f: T -> Result<U, E>): (r: Result<seq<U>, E>)
    ensures r.Ok? <==> forall i :: 0 <= i < |xs| ==> f(xs[i]).Ok?
    ensures r.Ok? ==> |r.value| == |xs|
    ensures r.Ok? ==> forall i :: 0 <= i < |xs| ==> f(xs[i]) == Ok(r.value[i])
  {
    if xs == [] then Ok([])
    else
      match f(xs[0])
      case Err(e) => Err(e)
      case Ok(first) =>
        match MapUntilError(xs[1..], f)
        case Err(e) => Err(e)
        case Ok(rest) => Ok([first] + rest)
  }

  /** A failed map reports the error of its first failing element. */
  lemma {:induction false} FirstErrorReported<T, U, E>(xs: seq<T>, f: T -> Result<U, E>)
    requires MapUntilError(xs, f).Err?
    ensures exists i :: && 0 <= i < |xs|
                        && f(xs[i]) == Err(MapUntilError(xs, f).error)
                        && forall j :: 0 <= j < i ==> f(xs[j]).Ok?
  {
    var e := MapUntilError(xs, f).error;
    if f(xs[0]).Err? {
      assert f(xs[0]) == Err(e);
    } else {
      FirstErrorReported(xs[1..], f);
      var i :| && 0 <= i < |xs| - 1
               && f(xs[1..][i]) == Err(e)
               && forall j :: 0 <= j < i ==> f(xs[1..][j]).Ok?;
      forall j | 0 <= j < i + 1 ensures f(xs[j]).Ok? {
        if j > 0 {
          assert xs[j] == xs[1..][j - 1];
        }
      }
      assert f(xs[i + 1]) == Err(e);
    }
  }

  /** An element with the id and timestamp its callback run obtains. */
  datatype Stamped = Stamped(notif: Json, id: string, now: int)

  function Stamp(elems: seq<Json>, ids: nat -> string, clock: nat -> int): seq<Stamped> {
    seq(|elems|, i requires 0 <= i < |elems| => Stamped(elems[i], ids(i), clock(i)))
  }

  function ValidateStamped(x: Stamped): Result<Notification, Error> {
    ValidateOne(x.notif, x.id, x.now)
  }

  /** `notifications.map(...)` over the batch: element i takes ids(i) and
      clock(i), the values uuidv4() and Date.now() give during its callback. */
  function ValidateAll(elems: seq<Json>, ids: nat -> string, clock: nat -> int): Result<seq<Notification>, Error>
  {
    MapUntilError(Stamp(elems, ids, clock), ValidateStamped)
  }

  /** The whole validation step of a create request, before the store is
      touched. */
  function CreateBatch(body: Json, ids: nat -> string, clock: nat -> int): Result<seq<Notification>, Error>
  {
    var elems := Elements(body);
    if |elems| == 0 then Err(EmptyBatch) else ValidateAll(elems, ids, clock)
  }

  /** Only an empty array is refused as an empty batch. */
  lemma EmptyBatchOnlyForEmptyArray(body: Json, ids: nat -> string, clock: nat -> int)
    ensures CreateBatch(body, ids, clock) == Err(EmptyBatch) <==> body == JArr([])
  {
    var elems := Elements(body);
    if |elems| > 0 {
      var xs := Stamp(elems, ids, clock);
      var r := MapUntilError(xs, ValidateStamped);
      if r.Err? {
        FirstErrorReported(xs, ValidateStamped);
        var i :| 0 <= i < |xs| && ValidateStamped(xs[i]) == Err(r.error);
        ValidateOneErrors(elems[i], ids(i), clock(i));
      }
    }
  }

  /** A body that is not an array is validated as a batch of one. */
  lemma SingleObjectBatch(body: Json, ids: nat -> string, clock: nat -> int)
    requires !body.JArr?
    ensures CreateBatch(body, ids, clock) ==
              match ValidateOne(body, ids(0), clock(0))
              case Ok(n) => Ok([n])
              case Err(e) => Err(e)
  {
    var xs := Stamp([body], ids, clock);
    var r := MapUntilError(xs, ValidateStamped);
    assert ValidateStamped(xs[0]) == ValidateOne(body, ids(0), clock(0));
    if r.Ok? {
      assert r.value == [r.value[0]];
    } else {
      FirstErrorReported(xs, ValidateStamped);
    }
  }

  /** A successful batch has one record per element, in order, each the
      record its element validates to with its own id and timestamp. */
  lemma BatchRecords(body: Json, ids: nat -> string, clock: nat -> int)
    requires CreateBatch(body, ids, clock).Ok?
    ensures |CreateBatch(body, ids, clock).value| == |Elements(body)|
    ensures forall i :: 0 <= i < |Elements(body)| ==>
              ValidateOne(Elements(body)[i], ids(i), clock(i)) == Ok(CreateBatch(body, ids, clock).value[i])
  {
    var elems := Elements(body);
    var xs := Stamp(elems, ids, clock);
    var r := MapUntilError(xs, ValidateStamped);
    forall i | 0 <= i < |elems|
      ensures ValidateOne(elems[i], ids(i), clock(i)) == Ok(r.value[i])
    {
      assert ValidateStamped(xs[i]) == Ok(r.value[i]);
    }
  }

  /** A refused non-empty batch reports the error of its first failing
      element; every element before it was valid. */
  lemma BatchFirstError(body: Json, ids: nat -> string, clock: nat -> int)
    requires CreateBatch(body, ids, clock).Err?
    requires body != JArr([])
    ensures exists i :: && 0 <= i < |Elements(body)|
                        && ValidateOne(Elements(body)[i], ids(i), clock(i)) == Err(CreateBatch(body, ids, clock).error)
                        && forall j :: 0 <= j < i ==> ValidateOne(Elements(body)[j], ids(j), clock(j)).Ok?
  {
    var elems := Elements(body);
    var xs := Stamp(elems, ids, clock);
    FirstErrorReported(xs, ValidateStamped);
    var i :| && 0 <= i < |xs|
             && ValidateStamped(xs[i]) == Err(MapUntilError(xs, ValidateStamped).error)
             && forall j :: 0 <= j < i ==> ValidateStamped(xs[j]).Ok?;
    forall j | 0 <= j < i ensures ValidateOne(elems[j], ids(j), clock(j)).Ok? {
      assert ValidateStamped(xs[j]).Ok?;
    }
  }
}
