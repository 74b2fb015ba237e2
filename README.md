# node-gcm Message builder, modelled in Dafny

node-gcm is a Node.js client for Google Cloud Messaging. Its `Message` object
collects the options of one push message — `collapseKey`, `delayWhileIdle`,
`timeToLive`, `dryRun` — and two string-keyed objects, the `data` payload and
the `notification`. The add* methods change these in place. `toJson()` renders
the message as a GCM request body: the options get snake_case keys and only
the fields that are set appear.

The behaviour modelled here is the one the unit tests in
`test/unit/messageSpec.js` pin down. The implementation those tests load,
`lib/message.js`, is not part of this model.

- `wrappers.dfy` — `Option`. A JavaScript property that is `undefined` is `None`.
- `js_value.dfy` — `JsValue.Value`. These are the JavaScript values a message
  holds: strings, integers, booleans and objects. An object is a map, so two
  objects are equal when they are deep-equal, as chai's `deep.equal` checks.
- `message.dfy` — module `Gcm`. `Message` is a class with one `Option` field
  per recognised property. It has:
  - the constructor;
  - the mutators `AddDataWithKeyValue`, `AddDataWithObject`, `AddData` and
    `AddNotification`, each with `modifies this`;
  - the read-only views `Property` (`message[key]`), `Fields` (the own
    properties as an object), `OwnProperties` (the same in serialisation
    order) and `ToJson`.

  The lemmas after the class prove properties of these views.
- `message_spec.dfy` — module `MessageSpec`. There is one method per test
  case. Each method drives a `Message` the way its test does and returns what
  the test inspects. Its postcondition is the test's expectation, proved from
  the mutators' contracts and the definitions of the read-only views.

The two call shapes of `addData(...)` and `addNotification(...)` are the
datatype `Gcm.Arguments`: `KeyValue(key, value)` or `Single(arg)`.

`data` is an ordinary optional field. Only `new Message()` sets it to `{}`. A
message built from a config without `data` has no `data`, so `toJson()`
emits one key for `{timeToLive, wrongField, alsoThisFieldIsWrong}`
(messageSpec.js:230-241). The tests do not support the stricter reading in
which `data` always exists and is always serialised.

## Model

| member | source | states |
|---|---|---|
| `Gcm.Message.constructor` | test/unit/messageSpec.js:8-53 | With no config, every option is undefined and `data` is `{}`. With a config, each recognised property equals the config's property of that name, or is undefined when the config lacks it. Other keys never become properties (see `Property`). |
| `Gcm.Message.Property` | test/unit/messageSpec.js:11-14 | The own data property `message[key]` is defined only for a recognised field, and its value has that field's documented type. No other key is an own data property (the prototype methods such as `toJson` are not). |
| `Gcm.Message.Fields` | test/unit/messageSpec.js:35-36 | The message's own properties as an object: a key is present exactly when `message[key]` is defined, with that value. The object is a well-typed config. |
| `Gcm.FieldsDetermined` | test/unit/messageSpec.js:35-36 | Any object that agrees with `message[key]` on every key equals the message's own-property object. |
| `Gcm.Message.OwnProperties` | test/unit/messageSpec.js:36-49 | `JSON.stringify(message)` lists exactly the defined properties with their values, each key once, in the field order collapseKey, delayWhileIdle, timeToLive, dryRun, data, notification. |
| `Gcm.FieldIndex` | test/unit/messageSpec.js:25-32 | A key's position in the field order: below six exactly for the recognised fields, and the field at that position is the key. |
| `Gcm.InOrderEntries` | test/unit/messageSpec.js:39-49 | Listing an object's entries in a given key order keeps exactly the entries whose keys are in that order, with their values, and no more entries than the order has. |
| `Gcm.InOrderSorted` | test/unit/messageSpec.js:39-49 | When the key order is strictly increasing in a rank (for the message, the field position), the listed keys are too, so none is listed twice. |
| `Gcm.Message.AddDataWithKeyValue` | test/unit/messageSpec.js:112-124 | `data[key]` becomes `value` and every other data entry is kept. No other property changes, even when `key` is `"collapseKey"`. |
| `Gcm.Message.AddDataWithObject` | test/unit/messageSpec.js:129-168 | A non-empty object replaces `data` entirely. A non-object or `{}` leaves `data` unchanged. No other property changes. |
| `Gcm.Message.AddData` | test/unit/messageSpec.js:55-107 | `addData(key, value)` has the effect of `addDataWithKeyValue`. `addData(obj)` has the effect of `addDataWithObject`, including its no-op cases. |
| `Gcm.Message.AddNotification` | test/unit/messageSpec.js:171-191 | `(key, value)` creates the notification if it is absent and sets `key`. A single object replaces the notification with exactly that object. The options and `data` do not change. |
| `Gcm.WithKey` | test/unit/messageSpec.js:172-180 | Setting a key on a notification that may be absent yields an object with that key and value, whose other keys are exactly the earlier ones with their values. |
| `Gcm.AfterOneMoreNotification` | test/unit/messageSpec.js:172-180 | One more `addNotification(k, v)` call after a sequence of them sets `k` on the notification the sequence built. |
| `Gcm.NotificationAccumulates` | test/unit/messageSpec.js:172-180 | Successive `addNotification(k, v)` calls always leave a notification. Its keys are the earlier keys plus every key set. A key ends with the value of its last call, and keys no call mentions keep their values. |
| `Gcm.Message.ToJson` | test/unit/messageSpec.js:194-241 | Under each recognised field's wire key, the output holds exactly that field's value, or nothing when the field is undefined. No key other than a wire key appears, and the camelCase names of renamed options never appear. |
| `Gcm.WireName` | test/unit/messageSpec.js:206-210 | `delayWhileIdle`, `dryRun`, `timeToLive` and `collapseKey` get snake_case wire keys. Only `data` and `notification` keep their names, and no renamed key is a field name. |
| `Gcm.FieldName` | test/unit/messageSpec.js:206-210 | Every wire key is the wire name of exactly one recognised field (the inverse of `WireName`). |
| `Gcm.WireNamesDistinct` | test/unit/messageSpec.js:206-210 | Two recognised fields never share a wire key. |
| `Gcm.WireImageSize` | test/unit/messageSpec.js:237-240 | Renaming a set of recognised fields keeps its size. |
| `Gcm.ToJsonKeyCount` | test/unit/messageSpec.js:230-241 | `Object.keys(message.toJson()).length` equals the number of defined properties of the message. |
| `Gcm.ToJsonDetermined` | test/unit/messageSpec.js:204-227 | Any object whose keys are wire keys and that carries each field's value under its wire key equals `toJson()`. |
| `MessageSpec.ConstructWithoutConfig` | test/unit/messageSpec.js:9-16 | `new Message()` has exactly one own property, `data: {}`. |
| `MessageSpec.ConfigsAreInFieldOrder` | test/unit/messageSpec.js:24-52 | Both constructor test configs list their keys in the message's field order. |
| `MessageSpec.ConstructWithAllFields` | test/unit/messageSpec.js:24-37 | A message built from all six fields serialises to the config's own entries, in the config's order. |
| `MessageSpec.ConstructWithSomeFields` | test/unit/messageSpec.js:39-52 | A message built from four fields serialises to those four entries in order, and `timeToLive` and `dryRun` are undefined. |
| `MessageSpec.AddDataKeyValue` | test/unit/messageSpec.js:56-60 | After `addData('myKey', 'Message')`, `data.myKey` is `'Message'`. |
| `MessageSpec.AddDataKeepsTopLevel` | test/unit/messageSpec.js:62-67 | `addData('collapseKey', 'Message')` sets `data.collapseKey` and not the `collapseKey` option. |
| `MessageSpec.AddDataObject` | test/unit/messageSpec.js:69-77 | `addData(obj)` makes `data` deep-equal to `obj`. |
| `MessageSpec.AddDataObjectOverwrites` | test/unit/messageSpec.js:79-87 | `addData(obj)` discards the data given to the constructor. |
| `MessageSpec.AddDataNonObject` | test/unit/messageSpec.js:89-97 | `addData('adding')` leaves `data` unchanged. |
| `MessageSpec.AddDataEmptyObject` | test/unit/messageSpec.js:99-107 | `addData({})` leaves `data` unchanged. |
| `MessageSpec.AddDataWithKeyValueSets` | test/unit/messageSpec.js:113-117 | After `addDataWithKeyValue('myKey', 'Message')`, `data.myKey` is `'Message'`. |
| `MessageSpec.AddDataWithKeyValueKeepsTopLevel` | test/unit/messageSpec.js:119-124 | `addDataWithKeyValue('collapseKey', 'Message')` sets `data.collapseKey` and not the option. |
| `MessageSpec.AddDataWithObjectSets` | test/unit/messageSpec.js:130-138 | `addDataWithObject(obj)` makes `data` deep-equal to `obj`. |
| `MessageSpec.AddDataWithObjectOverwrites` | test/unit/messageSpec.js:140-148 | `addDataWithObject(obj)` discards the data given to the constructor. |
| `MessageSpec.AddDataWithObjectNonObject` | test/unit/messageSpec.js:150-158 | `addDataWithObject('adding')` leaves `data` unchanged. |
| `MessageSpec.AddDataWithObjectEmptyObject` | test/unit/messageSpec.js:160-168 | `addDataWithObject({})` leaves `data` unchanged. |
| `MessageSpec.AddNotificationKeyValues` | test/unit/messageSpec.js:172-180 | Three `addNotification(key, value)` calls yield `{title, icon, body}` with the three values. The resulting notification is the accumulation that `Gcm.NotificationAccumulates` describes. |
| `MessageSpec.AddNotificationObject` | test/unit/messageSpec.js:182-191 | `addNotification(obj)` makes the notification deep-equal to `obj`. |
| `MessageSpec.ToJsonRenamesOptions` | test/unit/messageSpec.js:195-211 | The output is exactly `{delay_while_idle: true, dry_run: true, data: {hello: 'world'}}`, with no camelCase keys. |
| `MessageSpec.ToJsonWithNotification` | test/unit/messageSpec.js:213-228 | The output is exactly `{delay_while_idle: true, notification: <the object passed>}`. |
| `MessageSpec.ToJsonIgnoresUnknownFields` | test/unit/messageSpec.js:230-241 | The output is exactly `{time_to_live: 86400}`, one key. |

## Left out

- `lib/message.js`, the implementation, is not part of this model. Its behaviour is taken from the assertions of `test/unit/messageSpec.js`.
- Calling `Message(...)` without `new` (messageSpec.js:18-22) is JavaScript constructor ergonomics. A Dafny constructor always yields a fresh object.
- The JSON text that `JSON.stringify` produces (messageSpec.js:36, 49) is not modelled, nor is string escaping. The serialised form is the ordered key/value list `OwnProperties`.
- The two skipped tests (messageSpec.js:109, 126) specify nothing.
- Gcm.Message.constructor: requires each recognised config key to hold a value of its documented type (string, boolean, integer, object). JavaScript would copy an ill-typed value as it is, and the tests never pass one.
- Gcm.Message.constructor: `new Message({})` copies nothing and leaves `data` undefined, because a config object is present. No test covers this case.
- Gcm.Message.AddDataWithKeyValue: requires `data` to exist. Setting a key on an undefined `data` would fail in JavaScript, and the tests always call it on a message that has `data`.
- Gcm.Message.AddData: the `(key, value)` form inherits the requirement above.
- Gcm.Message.AddNotification: requires the single argument to be an object. The tests never pass anything else, so no guard or error is invented for that case.
- Gcm.Message.OwnProperties: lists the defined fields in declaration order (collapseKey, delayWhileIdle, timeToLive, dryRun, data, notification). JavaScript uses insertion order. The model assumes the constructor sets the fields in declaration order. Every config the tests pass is in that order (`MessageSpec.ConfigsAreInFieldOrder`), so the tests cannot tell this apart from copying the keys in the config's own order. Insertion order would also put `data` after `notification` when `data` is added later to a message built without it. No test does that.
- Gcm.Message.ToJson: the `collapse_key` rename and the output for a message built with no argument (`{data: {}}`) follow the same rule as the tested fields, but no test asserts them.
- Numbers are mathematical integers. JavaScript numbers are floating point, but every number in the tests is a small integer.
- Sending messages, retries, authentication and GCM responses are network I/O and are not modelled.
- Object identity and aliasing are not modelled. Objects are values compared by deep equality, as the tests compare them.
