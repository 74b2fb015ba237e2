/**
  The node-gcm message builder: a record of optional delivery options and two
  optional string-keyed objects (`data`, `notification`), mutated in place by
  the add* methods and rendered to the GCM wire format by `ToJson`.
 */
module Gcm {
  import opened Wrappers
  import opened JsValue

  // Property names of the recognised fields, as the message object carries them.
  const CollapseKey: string := "collapseKey"
  const DelayWhileIdle: string := "delayWhileIdle"
  const TimeToLive: string := "timeToLive"
  const DryRun: string := "dryRun"
  const DataKey: string := "data"
  const NotificationKey: string := "notification"

  /** The recognised fields, in the order the message lists them. */
  const FieldNames: seq<string> :=
    [CollapseKey, DelayWhileIdle, TimeToLive, DryRun, DataKey, NotificationKey]

  /** Membership in FieldNames, spelt out as a disjunction so that proofs need not search the sequence (see FieldIndex). */
  predicate IsField(key: string)
  {
    key == CollapseKey || key == DelayWhileIdle || key == TimeToLive || key == DryRun
    || key == DataKey || key == NotificationKey
  }

  /** The position of `key` in FieldNames, or |FieldNames| when it is not a recognised field. */
  function FieldIndex(key: string): (i: nat)
    ensures i <= |FieldNames|
    ensures IsField(key) <==> i < |FieldNames|
    ensures i < |FieldNames| ==> FieldNames[i] == key
  {
    if key == CollapseKey then 0
    else if key == DelayWhileIdle then 1
    else if key == TimeToLive then 2
    else if key == DryRun then 3
    else if key == DataKey then 4
    else if key == NotificationKey then 5
    else 6
  }

  /** The keys a GCM request body may carry. */
  predicate IsWireKey(key: string)
  {
    key == "collapse_key" || key == "delay_while_idle" || key == "time_to_live" || key == "dry_run"
    || key == DataKey || key == NotificationKey
  }

  /**
    The wire key of a recognised field: the four delivery options are renamed
    to snake_case, `data` and `notification` keep their names.
   */
  function WireName(field: string): (w: string)
    requires IsField(field)
    ensures IsWireKey(w)
    ensures w == field <==> field == DataKey || field == NotificationKey
    ensures IsField(w) ==> w == field
  {
    if field == CollapseKey then "collapse_key"
    else if field == DelayWhileIdle then "delay_while_idle"
    else if field == TimeToLive then "time_to_live"
    else if field == DryRun then "dry_run"
    else field
  }

  /** The field a wire key carries: the inverse of WireName. */
  function FieldName(wire: string): (f: string)
    requires IsWireKey(wire)
    ensures IsField(f) && WireName(f) == wire
  {
    if wire == "collapse_key" then CollapseKey
    else if wire == "delay_while_idle" then DelayWhileIdle
    else if wire == "time_to_live" then TimeToLive
    else if wire == "dry_run" then DryRun
    else wire
  }

  /** Distinct fields never share a wire key. */
  lemma WireNamesDistinct()
    ensures forall f, g :: IsField(f) && IsField(g) && WireName(f) == WireName(g) ==> f == g
  {
  }

  /** A config value has the type the message documents for that field; other keys may hold anything. */
  predicate HasFieldType(key: string, v: Value)
  {
    if key == CollapseKey then v.Str?
    else if key == DelayWhileIdle || key == DryRun then v.Bool?
    else if key == TimeToLive then v.Num?
    else if key == DataKey || key == NotificationKey then v.Obj?
    else true
  }

  predicate WellTyped(config: map<string, Value>)
  {
    forall k :: k in config ==> HasFieldType(k, config[k])
  }

  /** The property `key` of the object `m`, or undefined. */
  function Lookup(m: map<string, Value>, key: string): Option<Value>
  {
    if key in m then Some(m[key]) else None
  }

  /**
    The entries of `m` whose keys appear in `names`, in the order of `names`:
    the key order `JSON.stringify` follows for an object whose properties were
    set in that order.
   */
  function InOrder(names: seq<string>, m: map<string, Value>): seq<(string, Value)>
  {
    if names == [] then []
    else if names[0] in m then [(names[0], m[names[0]])] + InOrder(names[1..], m)
    else InOrder(names[1..], m)
  }

  /** InOrder lists exactly the entries of `m` whose key `names` mentions, and no more entries than `names` has. */
  lemma {:induction false} InOrderEntries(names: seq<string>, m: map<string, Value>)
    ensures |InOrder(names, m)| <= |names|
    ensures forall e :: e in InOrder(names, m) ==> e.0 in names && e.0 in m && e.1 == m[e.0]
    ensures forall k :: k in names && k in m ==> (k, m[k]) in InOrder(names, m)
  {
    if names != [] {
      InOrderEntries(names[1..], m);
      assert names == [names[0]] + names[1..];
    }
  }

  /** `keys` is strictly increasing in `rank`, so no key occurs twice. */
  predicate Ranked(keys: seq<string>, rank: string -> nat)
  {
    forall i, j :: 0 <= i < j < |keys| ==> rank(keys[i]) < rank(keys[j])
  }

  /** In a list of names of strictly increasing rank, the first name ranks below every key InOrder lists from the rest. */
  lemma RankedHead(names: seq<string>, m: map<string, Value>, rank: string -> nat)
    requires names != [] && Ranked(names, rank)
    ensures forall k :: 0 <= k < |InOrder(names[1..], m)| ==> rank(names[0]) < rank(InOrder(names[1..], m)[k].0)
  {
    var rest, r' := names[1..], InOrder(names[1..], m);
    InOrderEntries(rest, m);
    forall k | 0 <= k < |r'|
      ensures rank(names[0]) < rank(r'[k].0)
    {
      assert r'[k] in r';
      var p :| 0 <= p < |rest| && rest[p] == r'[k].0;
      assert names[p + 1] == r'[k].0;
    }
  }

  /**
    Listing the entries of `m` in a key order that is strictly increasing in
    `rank` keeps that order, so no key is listed twice.
   */
  lemma {:induction false} InOrderSorted(names: seq<string>, m: map<string, Value>, rank: string -> nat)
    requires Ranked(names, rank)
    ensures forall i, j :: 0 <= i < j < |InOrder(names, m)| ==> rank(InOrder(names, m)[i].0) < rank(InOrder(names, m)[j].0)
  {
    if names != [] {
      var rest := names[1..];
      assert Ranked(rest, rank) by {
        forall i, j | 0 <= i < j < |rest|
          ensures rank(rest[i]) < rank(rest[j])
        {
          assert rest[i] == names[i + 1] && rest[j] == names[j + 1];
        }
      }
      InOrderSorted(rest, m, rank);
      RankedHead(names, m, rank);
      var r' := InOrder(rest, m);
      if names[0] in m {
        var r := InOrder(names, m);
        assert r == [(names[0], m[names[0]])] + r';
        forall i, j | 0 <= i < j < |r|
          ensures rank(r[i].0) < rank(r[j].0)
        {
          assert r[j] == r'[j - 1];
          if i > 0 {
            assert r[i] == r'[i - 1];
          }
        }
      }
    }
  }

  /** The two call shapes of `addData` and `addNotification`: `(key, value)` or a single argument. */
  datatype Arguments =
    | KeyValue(key: string, value: Value)
    | Single(arg: Value)

  /**
    The notification object after `addNotification(key, value)`: created empty
    when absent, then `key` set to `value`; every other key keeps its value.
   */
  function WithKey(n: Option<map<string, Value>>, key: string, value: Value): (r: map<string, Value>)
    ensures key in r && r[key] == value
    ensures n.None? ==> r.Keys == {key}
    ensures n.Some? ==> r.Keys == n.value.Keys + {key}
    ensures forall k :: k in r && k != key ==> n.Some? && r[k] == n.value[k]
  {
    (if n.Some? then n.value else map[])[key := value]
  }

  class Message {
    var collapseKey: Option<string>
    var delayWhileIdle: Option<bool>
    var timeToLive: Option<int>
    var dryRun: Option<bool>
    var data: Option<map<string, Value>>
    var notification: Option<map<string, Value>>

    /** The four delivery options together; the add* methods never change them. */
    function Options(): (Option<string>, Option<bool>, Option<int>, Option<bool>)
      reads this
    {
      (collapseKey, delayWhileIdle, timeToLive, dryRun)
    }

    /**
      The own data property `message[key]`: the value of a present recognised
      field, undefined for an absent one and for every other key (the prototype
      methods such as `toJson` and `addData` are not data properties).
     */
    function Property(key: string): (v: Option<Value>)
      reads this
      ensures v.Some? ==> IsField(key) && HasFieldType(key, v.value)
    {
      if key == CollapseKey then (if collapseKey.Some? then Some(Str(collapseKey.value)) else None)
      else if key == DelayWhileIdle then (if delayWhileIdle.Some? then Some(Bool(delayWhileIdle.value)) else None)
      else if key == TimeToLive then (if timeToLive.Some? then Some(Num(timeToLive.value)) else None)
      else if key == DryRun then (if dryRun.Some? then Some(Bool(dryRun.value)) else None)
      else if key == DataKey then (if data.Some? then Some(Obj(data.value)) else None)
      else if key == NotificationKey then (if notification.Some? then Some(Obj(notification.value)) else None)
      else None
    }

    /** The message's own properties as a JavaScript object: exactly the defined properties. */
    function Fields(): (p: map<string, Value>)
      reads this
      ensures forall k :: Lookup(p, k) == Property(k)
      ensures WellTyped(p)
    {
      map k | k in FieldNames && Property(k).Some? :: Property(k).value
    }

    /**
      The message's own properties in the order `JSON.stringify(message)` lists
      them: every defined property exactly once, in the order of FieldNames.
     */
    function OwnProperties(): (props: seq<(string, Value)>)
      reads this
      ensures forall e :: e in props ==> Property(e.0) == Some(e.1)
      ensures forall k :: Property(k).Some? ==> (k, Property(k).value) in props
      ensures forall i, j :: 0 <= i < j < |props| ==> FieldIndex(props[i].0) < FieldIndex(props[j].0)
      ensures forall i, j :: 0 <= i < j < |props| ==> props[i].0 != props[j].0
    {
      var own := Fields();
      InOrderEntries(FieldNames, own);
      assert Ranked(FieldNames, FieldIndex);
      InOrderSorted(FieldNames, own, FieldIndex);
      var props := InOrder(FieldNames, own);
      props
    }

    /**
      `new Message()` (config None) holds only `data = {}`; `new Message(obj)`
      copies exactly the recognised keys present in `obj` and drops the rest.
     */
    constructor (config: Option<map<string, Value>>)
      requires config.Some? ==> WellTyped(config.value)
      ensures config.None? ==> Options() == (None, None, None, None) && data == Some(map[]) && notification == None
      ensures config.Some? ==>
        && Property(CollapseKey) == Lookup(config.value, CollapseKey)
        && Property(DelayWhileIdle) == Lookup(config.value, DelayWhileIdle)
        && Property(TimeToLive) == Lookup(config.value, TimeToLive)
        && Property(DryRun) == Lookup(config.value, DryRun)
        && Property(DataKey) == Lookup(config.value, DataKey)
        && Property(NotificationKey) == Lookup(config.value, NotificationKey)
    {
      if config.None? {
        collapseKey, delayWhileIdle, timeToLive, dryRun := None, None, None, None;
        data, notification := Some(map[]), None;
      } else {
        var c := config.value;
        collapseKey := if CollapseKey in c then Some(c[CollapseKey].s) else None;
        delayWhileIdle := if DelayWhileIdle in c then Some(c[DelayWhileIdle].b) else None;
        timeToLive := if TimeToLive in c then Some(c[TimeToLive].n) else None;
        dryRun := if DryRun in c then Some(c[DryRun].b) else None;
        data := if DataKey in c then Some(c[DataKey].fields) else None;
        notification := if NotificationKey in c then Some(c[NotificationKey].fields) else None;
      }
    }

    /** `addDataWithKeyValue(key, value)`: sets one key of `data`; no top-level property changes, whatever `key` is. */
    method AddDataWithKeyValue(key: string, value: Value)
      requires data.Some?
      modifies this
      ensures data == Some(old(data.value)[key := value])
      ensures Options() == old(Options()) && notification == old(notification)
      ensures forall k :: k != DataKey ==> Property(k) == old(Property(k))
    {
      data := Some(data.value[key := value]);
    }

    /** `addDataWithObject(obj)`: replaces `data` by a non-empty object; anything else leaves it as it was. */
    method AddDataWithObject(obj: Value)
      modifies this
      ensures data == if IsNonEmptyObject(obj) then Some(obj.fields) else old(data)
      ensures Options() == old(Options()) && notification == old(notification)
      ensures forall k :: k != DataKey ==> Property(k) == old(Property(k))
    {
      if IsNonEmptyObject(obj) {
        data := Some(obj.fields);
      }
    }

    /** `addData(key, value)` and `addData(obj)`: the two primitives above, chosen by the call's shape. */
    method AddData(args: Arguments)
      requires args.KeyValue? ==> data.Some?
      modifies this
      ensures args.KeyValue? ==> data == Some(old(data.value)[args.key := args.value])
      ensures args.Single? ==> data == if IsNonEmptyObject(args.arg) then Some(args.arg.fields) else old(data)
      ensures Options() == old(Options()) && notification == old(notification)
    {
      match args
      case KeyValue(key, value) => AddDataWithKeyValue(key, value);
      case Single(obj) => AddDataWithObject(obj);
    }

    /**
      `addNotification(key, value)` creates the notification object if needed and
      sets one key; `addNotification(obj)` makes the notification exactly `obj`.
     */
    method AddNotification(args: Arguments)
      requires args.Single? ==> args.arg.Obj?
      modifies this
      ensures args.KeyValue? ==> notification == Some(WithKey(old(notification), args.key, args.value))
      ensures args.Single? ==> notification == Some(args.arg.fields)
      ensures Options() == old(Options()) && data == old(data)
    {
      match args
      case KeyValue(key, value) =>
        var n := if notification.Some? then notification.value else map[];
        notification := Some(n[key := value]);
      case Single(obj) =>
        notification := Some(obj.fields);
    }

    /**
      `toJson()`: the GCM request body. The wire key of each recognised field
      carries exactly that field's value, absent when the field is undefined;
      no other key is ever emitted.
     */
    function ToJson(): (json: map<string, Value>)
      reads this
      ensures forall w :: w in json ==> IsWireKey(w)
      ensures forall f :: IsField(f) ==> Lookup(json, WireName(f)) == Property(f)
      ensures forall f :: IsField(f) && WireName(f) != f ==> f !in json
    {
      var own := Fields();
      WireNamesDistinct();
      map f | f in own :: WireName(f) := own[f]
    }
  }

  /** The keys a sequence of `(key, value)` calls sets. */
  function KeysOf(pairs: seq<(string, Value)>): set<string>
  {
    set e | e in pairs :: e.0
  }

  /** The notification object after `addNotification(k, v)` for each pair of `pairs`, in order. */
  function AfterNotifications(n: Option<map<string, Value>>, pairs: seq<(string, Value)>): Option<map<string, Value>>
    decreases |pairs|
  {
    if pairs == [] then n
    else AfterNotifications(Some(WithKey(n, pairs[0].0, pairs[0].1)), pairs[1..])
  }

  /** One more `addNotification(k, v)` call after a sequence of them applies WithKey to the notification so far. */
  lemma {:induction false} AfterOneMoreNotification(n: Option<map<string, Value>>, pairs: seq<(string, Value)>, key: string, value: Value)
    decreases |pairs|
    ensures AfterNotifications(n, pairs + [(key, value)]) == Some(WithKey(AfterNotifications(n, pairs), key, value))
  {
    if pairs != [] {
      assert (pairs + [(key, value)])[1..] == pairs[1..] + [(key, value)];
      AfterOneMoreNotification(Some(WithKey(n, pairs[0].0, pairs[0].1)), pairs[1..], key, value);
    }
  }

  /**
    Successive `addNotification(k, v)` calls create the notification object when
    it is missing and accumulate every key: each key ends with the value of its
    last call, and keys no call mentions keep their earlier value.
   */
  lemma {:induction false} NotificationAccumulates(n: Option<map<string, Value>>, pairs: seq<(string, Value)>)
    requires n.Some? || |pairs| > 0
    decreases |pairs|
    ensures AfterNotifications(n, pairs).Some?
    ensures AfterNotifications(n, pairs).value.Keys == (if n.Some? then n.value.Keys else {}) + KeysOf(pairs)
    ensures forall i :: 0 <= i < |pairs| && pairs[i].0 !in KeysOf(pairs[i + 1..]) ==>
      AfterNotifications(n, pairs).value[pairs[i].0] == pairs[i].1
    ensures forall k :: n.Some? && k in n.value && k !in KeysOf(pairs) ==>
      AfterNotifications(n, pairs).value[k] == n.value[k]
  {
    if pairs != [] {
      var first, rest := pairs[0], pairs[1..];
      var n' := Some(WithKey(n, first.0, first.1));
      NotificationAccumulates(n', rest);
      assert pairs == [first] + rest;
      assert KeysOf(pairs) == {first.0} + KeysOf(rest);
      var r := AfterNotifications(n, pairs).value;
      forall i | 0 <= i < |pairs| && pairs[i].0 !in KeysOf(pairs[i + 1..])
        ensures r[pairs[i].0] == pairs[i].1
      {
        if i > 0 {
          assert rest[i - 1] == pairs[i] && rest[i..] == pairs[i + 1..];
        } else {
          assert pairs[1..] == rest;
        }
      }
    }
  }

  /** Renaming keeps distinct fields distinct, so it never merges two keys. */
  lemma {:induction false} WireImageSize(fields: set<string>)
    requires forall f :: f in fields ==> IsField(f)
    ensures |set f | f in fields :: WireName(f)| == |fields|
  {
    if fields != {} {
      var f :| f in fields;
      var rest := fields - {f};
      var image, restImage := set g | g in fields :: WireName(g), set g | g in rest :: WireName(g);
      WireImageSize(rest);
      assert WireName(f) !in restImage by {
        WireNamesDistinct();
      }
      assert image == restImage + {WireName(f)};
    }
  }

  /**
    `toJson()` has one key per defined field of the message: a message built from
    `{timeToLive, wrongField, alsoThisFieldIsWrong}` serialises to a single key.
   */
  lemma ToJsonKeyCount(m: Message)
    ensures |m.ToJson()| == |m.Fields()|
  {
    var json, own := m.ToJson(), m.Fields();
    forall w | w in json
      ensures w in set f | f in own :: WireName(f)
    {
      var f := FieldName(w);
      assert Lookup(json, WireName(f)) == m.Property(f);
    }
    forall f | f in own
      ensures WireName(f) in json
    {
      assert Lookup(own, f) == m.Property(f);
    }
    assert json.Keys == set f | f in own :: WireName(f);
    WireImageSize(own.Keys);
  }

  /** The wire object is determined by the message's properties: any object that agrees with them on every wire key is `toJson()`. */
  lemma ToJsonDetermined(m: Message, expected: map<string, Value>)
    requires forall w :: w in expected ==> IsWireKey(w)
    requires forall f :: IsField(f) ==> Lookup(expected, WireName(f)) == m.Property(f)
    ensures m.ToJson() == expected
  {
    var json := m.ToJson();
    forall w | IsWireKey(w)
      ensures Lookup(json, w) == Lookup(expected, w)
    {
      var f := FieldName(w);
      assert Lookup(json, WireName(f)) == m.Property(f);
    }
    assert json.Keys == expected.Keys;
  }

  /** The own-property object is determined by the property reads: any object that agrees with them on every key is `Fields()`. */
  lemma FieldsDetermined(m: Message, expected: map<string, Value>)
    requires forall k :: Lookup(expected, k) == m.Property(k)
    ensures m.Fields() == expected
  {
    var own := m.Fields();
    forall k
      ensures k in own <==> k in expected
      ensures k in own ==> own[k] == expected[k]
    {
      assert Lookup(own, k) == m.Property(k);
    }
  }
}
