/**
  The unit tests of the message builder, one method per test case. Each method
  drives a Message the way its test does and returns what the test inspects;
  its postcondition is the test's expectation, proved from the mutators'
  contracts and the definitions of the read-only views.
 */
module MessageSpec {
  import opened Wrappers
  import opened JsValue
  import opened Gcm

  /**
    The wire object of a message whose six recognised properties are known:
    `expected` holds each defined one under its wire key and nothing else.
    This is Gcm.ToJsonDetermined with its quantifier unrolled into one
    requirement per field, which keeps the scenario proofs below cheap.
   */
  lemma ExpectJson(m: Message, expected: map<string, Value>)
    requires forall w :: w in expected ==> IsWireKey(w)
    requires Lookup(expected, "collapse_key") == m.Property(CollapseKey)
    requires Lookup(expected, "delay_while_idle") == m.Property(DelayWhileIdle)
    requires Lookup(expected, "time_to_live") == m.Property(TimeToLive)
    requires Lookup(expected, "dry_run") == m.Property(DryRun)
    requires Lookup(expected, DataKey) == m.Property(DataKey)
    requires Lookup(expected, NotificationKey) == m.Property(NotificationKey)
    ensures m.ToJson() == expected
  {
    ToJsonDetermined(m, expected);
  }

  /** `{message: 'hello', key: 'value'}`, the payload most data tests use. */
  function HelloPayload(): map<string, Value>
  {
    map["message" := Str("hello"), "key" := Str("value")]
  }

  /** `new Message()`: every option undefined, `data` the empty object. */
  method ConstructWithoutConfig() returns (props: map<string, Value>)
    ensures props == map[DataKey := Obj(map[])]
  {
    var m := new Message(None);
    props := m.Fields();
    assert Lookup(props, DataKey) == m.Property(DataKey);
    assert forall k :: k in props ==> Lookup(props, k) == m.Property(k);
  }

  /** The config objects of the two constructor tests, as key/value lists in their literal order and as objects. */
  function AllFieldsEntries(): seq<(string, Value)>
  {
    [(CollapseKey, Str("Message")), (DelayWhileIdle, Bool(true)), (TimeToLive, Num(100)),
     (DryRun, Bool(true)), (DataKey, Obj(map["score" := Num(98)])), (NotificationKey, Obj(map[]))]
  }

  function SomeFieldsEntries(): seq<(string, Value)>
  {
    [(CollapseKey, Str("Message")), (DelayWhileIdle, Bool(true)),
     (DataKey, Obj(map["score" := Num(98)])), (NotificationKey, Obj(map[]))]
  }

  function AllFieldsConfig(): map<string, Value>
  {
    map[CollapseKey := Str("Message"), DelayWhileIdle := Bool(true), TimeToLive := Num(100),
        DryRun := Bool(true), DataKey := Obj(map["score" := Num(98)]), NotificationKey := Obj(map[])]
  }

  function SomeFieldsConfig(): map<string, Value>
  {
    map[CollapseKey := Str("Message"), DelayWhileIdle := Bool(true),
        DataKey := Obj(map["score" := Num(98)]), NotificationKey := Obj(map[])]
  }

  /** Both test configs list their keys in the message's field order, so serialising the message keeps that order. */
  lemma ConfigsAreInFieldOrder()
    ensures InOrder(FieldNames, AllFieldsConfig()) == AllFieldsEntries()
    ensures InOrder(FieldNames, SomeFieldsConfig()) == SomeFieldsEntries()
  {
    var all, some := AllFieldsConfig(), SomeFieldsConfig();
    assert InOrder(FieldNames[5..], all) == AllFieldsEntries()[5..];
    assert InOrder(FieldNames[4..], all) == AllFieldsEntries()[4..];
    assert InOrder(FieldNames[3..], all) == AllFieldsEntries()[3..];
    assert InOrder(FieldNames[2..], all) == AllFieldsEntries()[2..];
    assert InOrder(FieldNames[1..], all) == AllFieldsEntries()[1..];
    assert InOrder(FieldNames[5..], some) == SomeFieldsEntries()[3..];
    assert InOrder(FieldNames[4..], some) == SomeFieldsEntries()[2..];
    assert InOrder(FieldNames[2..], some) == SomeFieldsEntries()[2..];
    assert InOrder(FieldNames[1..], some) == SomeFieldsEntries()[1..];
  }

  /** `new Message(obj)` with all six fields serialises like `obj` itself, key order included. */
  method ConstructWithAllFields() returns (own: seq<(string, Value)>)
    ensures own == AllFieldsEntries()
  {
    var config := AllFieldsConfig();
    var m := new Message(Some(config));
    FieldsDetermined(m, config);
    own := m.OwnProperties();
    ConfigsAreInFieldOrder();
  }

  /** `new Message(obj)` with four fields: the same four, in order, and the other two stay undefined. */
  method ConstructWithSomeFields() returns (own: seq<(string, Value)>, timeToLive: Option<Value>, dryRun: Option<Value>)
    ensures own == SomeFieldsEntries()
    ensures timeToLive == None && dryRun == None
  {
    var config := SomeFieldsConfig();
    var m := new Message(Some(config));
    FieldsDetermined(m, config);
    own := m.OwnProperties();
    ConfigsAreInFieldOrder();
    timeToLive, dryRun := m.Property(TimeToLive), m.Property(DryRun);
  }

  // addData()

  /** `addData('myKey', 'Message')` on a new message sets `data.myKey`. */
  method AddDataKeyValue() returns (myKey: Option<Value>)
    ensures myKey == Some(Str("Message"))
  {
    var m := new Message(None);
    m.AddData(KeyValue("myKey", Str("Message")));
    myKey := Lookup(m.data.value, "myKey");
  }

  /** `addData('collapseKey', 'Message')` sets `data.collapseKey`, not the collapseKey option. */
  method AddDataKeepsTopLevel() returns (collapseKey: Option<Value>, inData: Option<Value>)
    ensures collapseKey != Some(Str("Message"))
    ensures inData == Some(Str("Message"))
  {
    var m := new Message(None);
    m.AddData(KeyValue(CollapseKey, Str("Message")));
    collapseKey, inData := m.Property(CollapseKey), Lookup(m.data.value, CollapseKey);
  }

  /** `addData(obj)` on a new message makes `data` deep-equal to `obj`. */
  method AddDataObject() returns (data: map<string, Value>)
    ensures data == HelloPayload()
  {
    var m := new Message(None);
    m.AddData(Single(Obj(HelloPayload())));
    data := m.data.value;
  }

  /** `addData(obj)` discards the data the message was built with. */
  method AddDataObjectOverwrites() returns (data: map<string, Value>)
    ensures data == HelloPayload()
  {
    var m := new Message(Some(map[DataKey := Obj(map["message" := Str("bye"), "prop" := Str("none")])]));
    assert m.Property(DataKey) == Some(Obj(map["message" := Str("bye"), "prop" := Str("none")]));
    m.AddData(Single(Obj(HelloPayload())));
    data := m.data.value;
  }

  /** `addData('adding')` leaves `data` as it was. */
  method AddDataNonObject() returns (data: map<string, Value>)
    ensures data == HelloPayload()
  {
    var m := new Message(Some(map[DataKey := Obj(HelloPayload())]));
    assert m.Property(DataKey) == Some(Obj(HelloPayload()));
    m.AddData(Single(Str("adding")));
    data := m.data.value;
  }

  /** `addData({})` leaves `data` as it was. */
  method AddDataEmptyObject() returns (data: map<string, Value>)
    ensures data == HelloPayload()
  {
    var m := new Message(Some(map[DataKey := Obj(HelloPayload())]));
    assert m.Property(DataKey) == Some(Obj(HelloPayload()));
    m.AddData(Single(Obj(map[])));
    data := m.data.value;
  }

  // addDataWithKeyValue()

  /** `addDataWithKeyValue('myKey', 'Message')` on a new message sets `data.myKey`. */
  method AddDataWithKeyValueSets() returns (myKey: Option<Value>)
    ensures myKey == Some(Str("Message"))
  {
    var m := new Message(None);
    m.AddDataWithKeyValue("myKey", Str("Message"));
    myKey := Lookup(m.data.value, "myKey");
  }

  /** `addDataWithKeyValue('collapseKey', 'Message')` sets `data.collapseKey`, not the collapseKey option. */
  method AddDataWithKeyValueKeepsTopLevel() returns (collapseKey: Option<Value>, inData: Option<Value>)
    ensures collapseKey != Some(Str("Message"))
    ensures inData == Some(Str("Message"))
  {
    var m := new Message(None);
    m.AddDataWithKeyValue(CollapseKey, Str("Message"));
    collapseKey, inData := m.Property(CollapseKey), Lookup(m.data.value, CollapseKey);
  }

  // addDataWithObject()

  /** `addDataWithObject(obj)` on a new message makes `data` deep-equal to `obj`. */
  method AddDataWithObjectSets() returns (data: map<string, Value>)
    ensures data == HelloPayload()
  {
    var m := new Message(None);
    m.AddDataWithObject(Obj(HelloPayload()));
    data := m.data.value;
  }

  /** `addDataWithObject(obj)` discards the data the message was built with. */
  method AddDataWithObjectOverwrites() returns (data: map<string, Value>)
    ensures data == HelloPayload()
  {
    var m := new Message(Some(map[DataKey := Obj(map["message" := Str("bye"), "prop" := Str("none")])]));
    assert m.Property(DataKey) == Some(Obj(map["message" := Str("bye"), "prop" := Str("none")]));
    m.AddDataWithObject(Obj(HelloPayload()));
    data := m.data.value;
  }

  /** `addDataWithObject('adding')` leaves `data` as it was. */
  method AddDataWithObjectNonObject() returns (data: map<string, Value>)
    ensures data == HelloPayload()
  {
    var m := new Message(Some(map[DataKey := Obj(HelloPayload())]));
    assert m.Property(DataKey) == Some(Obj(HelloPayload()));
    m.AddDataWithObject(Str("adding"));
    data := m.data.value;
  }

  /** `addDataWithObject({})` leaves `data` as it was. */
  method AddDataWithObjectEmptyObject() returns (data: map<string, Value>)
    ensures data == HelloPayload()
  {
    var m := new Message(Some(map[DataKey := Obj(HelloPayload())]));
    assert m.Property(DataKey) == Some(Obj(HelloPayload()));
    m.AddDataWithObject(Obj(map[]));
    data := m.data.value;
  }

  // addNotification()

  /** Three `addNotification(key, value)` calls on a new message build the notification key by key. */
  method AddNotificationKeyValues() returns (notification: map<string, Value>)
    ensures notification == map["title" := Str("hello"), "icon" := Str("ic_launcher"), "body" := Str("world")]
  {
    var m := new Message(None);
    m.AddNotification(KeyValue("title", Str("hello")));
    AfterOneMoreNotification(None, [], "title", Str("hello"));
    m.AddNotification(KeyValue("icon", Str("ic_launcher")));
    AfterOneMoreNotification(None, [("title", Str("hello"))], "icon", Str("ic_launcher"));
    m.AddNotification(KeyValue("body", Str("world")));
    ghost var pairs := [("title", Str("hello")), ("icon", Str("ic_launcher")), ("body", Str("world"))];
    AfterOneMoreNotification(None, pairs[..2], "body", Str("world"));
    assert m.notification == AfterNotifications(None, pairs);
    NotificationAccumulates(None, pairs);
    notification := m.notification.value;
  }

  /** `addNotification(obj)` makes the notification deep-equal to `obj`. */
  method AddNotificationObject() returns (notification: map<string, Value>)
    ensures notification == map["title" := Str("hello"), "icon" := Str("ic_launcher"), "body" := Str("world")]
  {
    var m := new Message(None);
    m.AddNotification(Single(Obj(map["title" := Str("hello"), "icon" := Str("ic_launcher"), "body" := Str("world")])));
    notification := m.notification.value;
  }

  // toJson()

  /** The options are renamed to snake_case, data passes through, and the camelCase names are gone. */
  method ToJsonRenamesOptions() returns (json: map<string, Value>)
    ensures json == map["delay_while_idle" := Bool(true), "dry_run" := Bool(true), DataKey := Obj(map["hello" := Str("world")])]
    ensures DelayWhileIdle !in json && DryRun !in json
  {
    var m := new Message(Some(map[DelayWhileIdle := Bool(true), DryRun := Bool(true), DataKey := Obj(map["hello" := Str("world")])]));
    assert m.Property(CollapseKey) == None && m.Property(TimeToLive) == None && m.Property(NotificationKey) == None;
    assert m.Property(DelayWhileIdle) == Some(Bool(true)) && m.Property(DryRun) == Some(Bool(true));
    assert m.Property(DataKey) == Some(Obj(map["hello" := Str("world")]));
    var expected := map["delay_while_idle" := Bool(true), "dry_run" := Bool(true), DataKey := Obj(map["hello" := Str("world")])];
    ExpectJson(m, expected);
    json := m.ToJson();
  }

  /** A notification set after construction is serialised unchanged beside the options. */
  method ToJsonWithNotification() returns (json: map<string, Value>)
    ensures json == map["delay_while_idle" := Bool(true), NotificationKey := Obj(NotificationPayload())]
  {
    var m := new Message(Some(map[DelayWhileIdle := Bool(true)]));
    assert m.Property(CollapseKey) == None && m.Property(TimeToLive) == None && m.Property(DryRun) == None;
    assert m.Property(DelayWhileIdle) == Some(Bool(true)) && m.Property(DataKey) == None;
    m.AddNotification(Single(Obj(NotificationPayload())));
    var expected := map["delay_while_idle" := Bool(true), NotificationKey := Obj(NotificationPayload())];
    ExpectJson(m, expected);
    json := m.ToJson();
  }

  function NotificationPayload(): map<string, Value>
  {
    map["title" := Str("Hello, World"), "icon" := Str("ic_launcher"), "body" := Str("This is a quick notification.")]
  }

  /** Keys the constructor does not recognise never reach the wire: one option set, one key out. */
  method ToJsonIgnoresUnknownFields() returns (json: map<string, Value>)
    ensures json == map["time_to_live" := Num(60 * 60 * 24)]
    ensures |json| == 1
  {
    var m := new Message(Some(map[
      TimeToLive := Num(60 * 60 * 24),
      "wrongField" := Str("should be excluded"),
      "alsoThisFieldIsWrong" := Str("and should not show up")]));
    assert m.Property(CollapseKey) == None && m.Property(DelayWhileIdle) == None && m.Property(DryRun) == None;
    assert m.Property(TimeToLive) == Some(Num(60 * 60 * 24));
    assert m.Property(DataKey) == None && m.Property(NotificationKey) == None;
    var expected := map["time_to_live" := Num(60 * 60 * 24)];
    ExpectJson(m, expected);
    json := m.ToJson();
  }
}
