/** Widget settings against their JSON schema: a recursive fit check, and the
    repair of stored settings. */
module WidgetSettings {
  import opened Common
  import Json

  type Object = map<string, Json.Value>

  function NumberOf(v: Json.Value): Option<real> {
    match v
    case Int(i) => Some(i as real)
    case Float(r) => Some(r)
    case _ => None
  }

  function Field(o: Object, k: string): Option<Json.Value> {
    if k in o then Some(o[k]) else None
  }

  /** A numeric bound of the schema, if it is a number. */
  function Bound(prop: Object, k: string): Option<real> {
    if k in prop then NumberOf(prop[k]) else None
  }

  predicate Within(x: real, min: Option<real>, max: Option<real>) {
    (min.Some? ==> x >= min.value) && (max.Some? ==> x <= max.value)
  }

  predicate IsInteger(x: real) {
    x.Floor as real == x
  }

  /** JavaScript's SameValueZero between a stored value and a schema constant:
      numbers by value, objects and arrays never (they are different objects). */
  predicate SameValue(a: Json.Value, b: Json.Value) {
    match a
    case Obj(_) => false
    case Arr(_) => false
    case Int(_) => NumberOf(a) == NumberOf(b)
    case Float(_) => NumberOf(a) == NumberOf(b)
    case _ => a == b
  }

  predicate Includes(items: seq<Json.Value>, v: Json.Value) {
    exists i :: 0 <= i < |items| && SameValue(items[i], v)
  }

  /** Whether `value` satisfies the property schema `prop`. */
  predicate Fits(value: Json.Value, prop: Json.Value)
    requires prop.Obj?
    decreases prop
  {
    var o := prop.fields;
    if "enum" in o && o["enum"].Arr? && !value.Arr? then Includes(o["enum"].items, value)
    else
      var min, max := Bound(o, "minimum"), Bound(o, "maximum");
      match Field(o, "type")
      case Some(Str(t)) =>
        var x := NumberOf(value);
        if t == "integer" then x.Some? && IsInteger(x.value) && Within(x.value, min, max)
        else if t == "number" then x.Some? && Within(x.value, min, max)
        else if t == "string" then value.Str? && Within(|value.s| as real, Bound(o, "minLength"), Bound(o, "maxLength"))
        else if t == "boolean" then value.Bool?
        else if t == "object" then
          value.Obj? &&
          ("properties" in o && o["properties"].Obj? ==>
             FitsNested(value.fields, o["properties"], prop))
        else if t == "array" then
          value.Arr? && Within(|value.items| as real, Bound(o, "minItems"), Bound(o, "maxItems")) &&
          ("items" in o && o["items"].Obj? ==> forall i :: 0 <= i < |value.items| ==> Fits(value.items[i], o["items"]))
        else true
      case _ => true
  }

  /** No key that is both stored and declared holds a value its own schema refuses. */
  predicate FitsNested(value: Object, nested: Json.Value, prop: Json.Value)
    requires nested.Obj? && prop.Obj? && nested < prop
    decreases prop, 0
  {
    forall k :: k in nested.fields && k in value && nested.fields[k].Obj? ==> Fits(value[k], nested.fields[k])
  }

  /** What an integer property accepts: whole numbers in the closed range. */
  lemma IntegerRange(i: int, value: Json.Value, o: Object, lo: int, hi: int)
    requires "enum" !in o && Field(o, "type") == Some(Json.Str("integer"))
    requires Field(o, "minimum") == Some(Json.Int(lo)) && Field(o, "maximum") == Some(Json.Int(hi))
    ensures Fits(Json.Int(i), Json.Obj(o)) <==> lo <= i <= hi
    ensures NumberOf(value).None? ==> !Fits(value, Json.Obj(o))
  {
    assert (i as real).Floor == i;
  }

  /** Fitting is recursive: a value that does not fit somewhere inside a declared
      object or array makes the whole value unfit. */
  lemma UnfitInside(outer: Object, o: Object, k: string, nested: Json.Value)
    requires "enum" !in o && Field(o, "type") == Some(Json.Str("object")) && Field(o, "properties") == Some(nested) && nested.Obj?
    requires k in nested.fields && nested.fields[k].Obj? && k in outer && !Fits(outer[k], nested.fields[k])
    ensures !Fits(Json.Obj(outer), Json.Obj(o))
  {
    assert !FitsNested(outer, nested, Json.Obj(o));
  }

  // ---- repair ----

  /** An outdated settings object goes through `migrate`, which may throw. */
  datatype Migrated = Threw | Returned(value: Json.Value)

  datatype Definition = Definition(version: int, properties: Object, migrate: Option<(Object, int) -> Migrated>)

  function AsObject(v: Json.Value): Object {
    if v.Obj? then v.fields else map[]
  }

  /** The settings before the repair. */
  function Stored(def: Definition, settings: Json.Value, storedVersion: int): Object {
    var out := AsObject(settings);
    if def.migrate.Some? && storedVersion < def.version then
      match def.migrate.value(out, storedVersion)
      case Threw => map[]
      case Returned(v) => AsObject(v)
    else out
  }

  /** A key the schema declares with an object. */
  predicate Declared(props: Object, k: string) {
    k in props && props[k].Obj?
  }

  /** The value a declared key ends up with, if any. */
  function Repaired(prop: Json.Value, value: Option<Json.Value>): Option<Json.Value>
    requires prop.Obj?
  {
    if value.Some? && Fits(value.value, prop) then value else Field(prop.fields, "default")
  }

  /** What every key of the result is, whatever the order of the properties. */
  ghost predicate IsRepaired(props: Object, before: Object, after: Object, done: set<string>) {
    forall k :: Field(after, k) == if k in done && Declared(props, k) then Repaired(props[k], Field(before, k)) else Field(before, k)
  }

  method SettingsWithDefaults(def: Definition, settings: Json.Value, storedVersion: int) returns (out: Object)
    ensures IsRepaired(def.properties, Stored(def, settings, storedVersion), out, def.properties.Keys)
  {
    out := AsObject(settings);
    if def.migrate.Some? && storedVersion < def.version {
      var migrated := def.migrate.value(out, storedVersion);
      match migrated {
        case Threw => out := map[];
        case Returned(v) => out := AsObject(v);
      }
    }
    ghost var before := out;
    var todo := def.properties.Keys;
    while todo != {}
      invariant todo <= def.properties.Keys
      invariant IsRepaired(def.properties, before, out, def.properties.Keys - todo)
      decreases todo
    {
      var key :| key in todo;
      todo := todo - {key};
      var raw := def.properties[key];
      if !raw.Obj? { continue; }
      if key in out && Fits(out[key], raw) { continue; }
      if "default" in raw.fields {
        out := out[key := raw.fields["default"]];
      } else {
        out := out - {key};
      }
    }
  }

  /** The repaired object, as a value. */
  function Normalised(def: Definition, settings: Json.Value, storedVersion: int): Object {
    var before := Stored(def, settings, storedVersion);
    map k | k in before.Keys + def.properties.Keys && KeyValue(def, before, k).Some? :: KeyValue(def, before, k).value
  }

  function KeyValue(def: Definition, before: Object, k: string): Option<Json.Value> {
    if Declared(def.properties, k) then Repaired(def.properties[k], Field(before, k)) else Field(before, k)
  }

  /** The description pins the result down: the loop computes `Normalised`. */
  lemma RepairedUnique(def: Definition, settings: Json.Value, storedVersion: int, out: Object)
    requires IsRepaired(def.properties, Stored(def, settings, storedVersion), out, def.properties.Keys)
    ensures out == Normalised(def, settings, storedVersion)
  {
    var before := Stored(def, settings, storedVersion);
    var n := Normalised(def, settings, storedVersion);
    forall k
      ensures Field(out, k) == Field(n, k)
    {
      assert Field(out, k) == KeyValue(def, before, k);
    }
    forall k
      ensures (k in out <==> k in n) && (k in out ==> out[k] == n[k])
    {
      assert Field(out, k) == Field(n, k);
    }
  }

  lemma NormalisedKey(def: Definition, settings: Json.Value, storedVersion: int, k: string)
    ensures Field(Normalised(def, settings, storedVersion), k) == KeyValue(def, Stored(def, settings, storedVersion), k)
  {
  }

  /** A key without a declaration keeps its value, or stays absent. */
  lemma UndeclaredKept(def: Definition, settings: Json.Value, storedVersion: int, k: string)
    requires !Declared(def.properties, k)
    ensures Field(Normalised(def, settings, storedVersion), k) == Field(Stored(def, settings, storedVersion), k)
  {
    NormalisedKey(def, settings, storedVersion, k);
  }

  /** Repairing repaired settings at the current version changes nothing,
      whatever the schema, and whether or not the first repair migrated. */
  lemma RepairIdempotent(def: Definition, settings: Json.Value, storedVersion: int)
    ensures var once := Normalised(def, settings, storedVersion);
            Normalised(def, Json.Obj(once), def.version) == once
  {
    var once := Normalised(def, settings, storedVersion);
    var twice := Normalised(def, Json.Obj(once), def.version);
    assert Stored(def, Json.Obj(once), def.version) == once;
    forall k
      ensures Field(twice, k) == Field(once, k)
    {
      NormalisedKey(def, settings, storedVersion, k);
      NormalisedKey(def, Json.Obj(once), def.version, k);
    }
    forall k
      ensures (k in twice <==> k in once) && (k in once ==> twice[k] == once[k])
    {
      assert Field(twice, k) == Field(once, k);
    }
  }

  ghost predicate DefaultsFit(props: Object) {
    forall k :: Declared(props, k) && "default" in props[k].fields ==> Fits(props[k].fields["default"], props[k])
  }

  ghost predicate AllFit(props: Object, out: Object) {
    forall k :: Declared(props, k) && k in out ==> Fits(out[k], props[k])
  }

  /** Every declared key of every repaired object fits exactly when every
      declared default does. */
  lemma RepairFits(def: Definition)
    ensures DefaultsFit(def.properties) <==>
            forall settings: Json.Value, v: int :: AllFit(def.properties, Normalised(def, settings, v))
  {
    if DefaultsFit(def.properties) {
      forall settings: Json.Value, v: int
        ensures AllFit(def.properties, Normalised(def, settings, v))
      {
        DefaultsMakeItFit(def, settings, v);
      }
    } else {
      var k :| Declared(def.properties, k) && "default" in def.properties[k].fields &&
               !Fits(def.properties[k].fields["default"], def.properties[k]);
      var empty := Json.Obj(map[]);
      NormalisedKey(def, empty, def.version, k);
      assert Field(Stored(def, empty, def.version), k) == None;
      assert !AllFit(def.properties, Normalised(def, empty, def.version));
    }
  }

  lemma DefaultsMakeItFit(def: Definition, settings: Json.Value, v: int)
    requires DefaultsFit(def.properties)
    ensures AllFit(def.properties, Normalised(def, settings, v))
  {
    var out := Normalised(def, settings, v);
    forall k | Declared(def.properties, k) && k in out
      ensures Fits(out[k], def.properties[k])
    {
      NormalisedKey(def, settings, v, k);
    }
  }

  /** A stored value that fits is never replaced. */
  lemma FittingKept(def: Definition, settings: Json.Value, storedVersion: int, k: string)
    requires Declared(def.properties, k) && k in Stored(def, settings, storedVersion)
    requires Fits(Stored(def, settings, storedVersion)[k], def.properties[k])
    ensures Field(Normalised(def, settings, storedVersion), k) == Some(Stored(def, settings, storedVersion)[k])
  {
    NormalisedKey(def, settings, storedVersion, k);
  }
}
