/** What fitting a schema means: nothing on any path into the value breaks the
    constraints declared for that place. */
module WidgetPaths {
  import opened Common
  import opened WidgetSettings
  import Json

  /** One step into a value, along its declaration. */
  datatype Step = Into(key: string) | At(index: nat)

  // ---- the constraints of one place ----

  ghost predicate IsNumber(v: Json.Value, x: real) {
    (v.Int? && v.i as real == x) || (v.Float? && v.r == x)
  }

  ghost predicate Declares(o: Object, key: string, x: real) {
    key in o && IsNumber(o[key], x)
  }

  ghost predicate Between(o: Object, low: string, high: string, x: real) {
    && (forall y :: Declares(o, low, y) ==> y <= x)
    && (forall y :: Declares(o, high, y) ==> x <= y)
  }

  ghost predicate Typed(o: Object, name: string) {
    "type" in o && o["type"] == Json.Str(name)
  }

  ghost predicate Enumerated(o: Object, value: Json.Value) {
    "enum" in o && o["enum"].Arr? && !value.Arr?
  }

  /** Equal as JavaScript compares stored constants. */
  ghost predicate Same(a: Json.Value, b: Json.Value) {
    || (exists x :: IsNumber(a, x) && IsNumber(b, x))
    || (a == b && (a.Null? || a.Bool? || a.Str?))
  }

  ghost predicate WholeWithin(o: Object, value: Json.Value) {
    exists x :: IsNumber(value, x) && x == x.Floor as real && Between(o, "minimum", "maximum", x)
  }

  ghost predicate NumberWithin(o: Object, value: Json.Value) {
    exists x :: IsNumber(value, x) && Between(o, "minimum", "maximum", x)
  }

  /** The value itself, whatever is inside it. */
  ghost predicate FitsHere(value: Json.Value, o: Object) {
    if Enumerated(o, value) then exists i :: 0 <= i < |o["enum"].items| && Same(o["enum"].items[i], value)
    else
      && (Typed(o, "integer") ==> WholeWithin(o, value))
      && (Typed(o, "number") ==> NumberWithin(o, value))
      && (Typed(o, "string") ==> value.Str? && Between(o, "minLength", "maxLength", |value.s| as real))
      && (Typed(o, "boolean") ==> value.Bool?)
      && (Typed(o, "object") ==> value.Obj?)
      && (Typed(o, "array") ==> value.Arr? && Between(o, "minItems", "maxItems", |value.items| as real))
  }

  /** The part of the value a step leads to, and what is declared for it. */
  ghost function Inside(value: Json.Value, o: Object, step: Step): Option<(Json.Value, Object)> {
    if Enumerated(o, value) then None
    else match step
      case Into(k) =>
        if Typed(o, "object") && value.Obj? && k in value.fields && "properties" in o && o["properties"].Obj? &&
           k in o["properties"].fields && o["properties"].fields[k].Obj?
        then Some((value.fields[k], o["properties"].fields[k].fields)) else None
      case At(i) =>
        if Typed(o, "array") && value.Arr? && i < |value.items| && "items" in o && o["items"].Obj?
        then Some((value.items[i], o["items"].fields)) else None
  }

  /** The place at the end of the path breaks its constraints. */
  ghost predicate FailsAt(value: Json.Value, o: Object, path: seq<Step>)
    decreases |path|
  {
    if path == [] then !FitsHere(value, o)
    else match Inside(value, o, path[0])
      case None => false
      case Some(part) => FailsAt(part.0, part.1, path[1..])
  }

  // ---- one level of the check ----

  lemma BoundsExactly(o: Object, low: string, high: string, x: real)
    ensures Within(x, Bound(o, low), Bound(o, high)) <==> Between(o, low, high, x)
  {
    if low in o && NumberOf(o[low]).Some? {
      assert Declares(o, low, NumberOf(o[low]).value);
    }
    if high in o && NumberOf(o[high]).Some? {
      assert Declares(o, high, NumberOf(o[high]).value);
    }
  }

  lemma NumberExactly(v: Json.Value, x: real)
    ensures IsNumber(v, x) <==> NumberOf(v) == Some(x)
  {
  }

  lemma SameExactly(a: Json.Value, b: Json.Value)
    ensures SameValue(a, b) <==> Same(a, b)
  {
    if NumberOf(a).Some? {
      assert IsNumber(a, NumberOf(a).value);
      if NumberOf(b) == NumberOf(a) {
        assert IsNumber(b, NumberOf(a).value);
      }
    }
  }

  lemma EnumExactly(items: seq<Json.Value>, v: Json.Value)
    ensures Includes(items, v) <==> exists i :: 0 <= i < |items| && Same(items[i], v)
  {
    forall i | 0 <= i < |items|
      ensures SameValue(items[i], v) <==> Same(items[i], v)
    {
      SameExactly(items[i], v);
    }
  }

  lemma NumbersExactly(value: Json.Value, o: Object)
    ensures NumberWithin(o, value) <==> NumberOf(value).Some? && Within(NumberOf(value).value, Bound(o, "minimum"), Bound(o, "maximum"))
    ensures WholeWithin(o, value) <==>
            NumberOf(value).Some? && IsInteger(NumberOf(value).value) && Within(NumberOf(value).value, Bound(o, "minimum"), Bound(o, "maximum"))
  {
    if NumberOf(value).Some? {
      var x := NumberOf(value).value;
      BoundsExactly(o, "minimum", "maximum", x);
      assert IsNumber(value, x);
    }
  }

  /** A value fits exactly when it does itself and everything one step inside does. */
  lemma FitsLevel(value: Json.Value, prop: Json.Value)
    requires prop.Obj?
    ensures Fits(value, prop) <==>
            FitsHere(value, prop.fields) &&
            forall step :: Inside(value, prop.fields, step).Some? ==>
              Fits(Inside(value, prop.fields, step).value.0, Json.Obj(Inside(value, prop.fields, step).value.1))
  {
    var o := prop.fields;
    if Enumerated(o, value) {
      EnumExactly(o["enum"].items, value);
    } else if "type" in o && o["type"].Str? {
      FitsTyped(value, prop, o["type"].s);
    }
  }

  ghost predicate PartsFit(value: Json.Value, o: Object) {
    forall step :: Inside(value, o, step).Some? ==>
      Fits(Inside(value, o, step).value.0, Json.Obj(Inside(value, o, step).value.1))
  }

  lemma FitsTyped(value: Json.Value, prop: Json.Value, name: string)
    requires prop.Obj? && Typed(prop.fields, name) && !Enumerated(prop.fields, value)
    ensures Fits(value, prop) <==> FitsHere(value, prop.fields) && PartsFit(value, prop.fields)
  {
    var o := prop.fields;
    if name == "integer" || name == "number" {
      NumbersExactly(value, o);
    } else if name == "string" && value.Str? {
      BoundsExactly(o, "minLength", "maxLength", |value.s| as real);
    } else if name == "object" && value.Obj? {
      ObjectParts(value, prop);
    } else if name == "array" && value.Arr? {
      BoundsExactly(o, "minItems", "maxItems", |value.items| as real);
      ArrayParts(value, prop);
    }
  }

  lemma ObjectParts(value: Json.Value, prop: Json.Value)
    requires prop.Obj? && value.Obj? && Typed(prop.fields, "object") && !Enumerated(prop.fields, value)
    ensures PartsFit(value, prop.fields) <==>
            ("properties" in prop.fields && prop.fields["properties"].Obj? ==>
               FitsNested(value.fields, prop.fields["properties"], prop))
  {
    var o := prop.fields;
    if "properties" in o && o["properties"].Obj? {
      var nested := o["properties"].fields;
      if PartsFit(value, o) {
        forall k | k in nested && k in value.fields && nested[k].Obj?
          ensures Fits(value.fields[k], nested[k])
        {
          assert Inside(value, o, Into(k)) == Some((value.fields[k], nested[k].fields));
        }
      }
    }
  }

  lemma ArrayParts(value: Json.Value, prop: Json.Value)
    requires prop.Obj? && value.Arr? && Typed(prop.fields, "array") && !Enumerated(prop.fields, value)
    ensures PartsFit(value, prop.fields) <==>
            ("items" in prop.fields && prop.fields["items"].Obj? ==>
               forall i :: 0 <= i < |value.items| ==> Fits(value.items[i], prop.fields["items"]))
  {
    var o := prop.fields;
    if "items" in o && o["items"].Obj? && PartsFit(value, o) {
      forall i: nat | i < |value.items|
        ensures Fits(value.items[i], o["items"])
      {
        assert Inside(value, o, At(i)) == Some((value.items[i], o["items"].fields));
      }
    }
  }

  // ---- all levels ----

  lemma {:induction false} FittingFailsNowhere(value: Json.Value, o: Object, path: seq<Step>)
    requires Fits(value, Json.Obj(o))
    ensures !FailsAt(value, o, path)
    decreases |path|
  {
    FitsLevel(value, Json.Obj(o));
    if path != [] && Inside(value, o, path[0]).Some? {
      var part := Inside(value, o, path[0]).value;
      FittingFailsNowhere(part.0, part.1, path[1..]);
    }
  }

  lemma {:induction false} UnfitFailsSomewhere(value: Json.Value, prop: Json.Value) returns (path: seq<Step>)
    requires prop.Obj? && !Fits(value, prop)
    ensures FailsAt(value, prop.fields, path)
    decreases prop
  {
    var o := prop.fields;
    FitsLevel(value, prop);
    if !FitsHere(value, o) {
      path := [];
    } else {
      var step :| Inside(value, o, step).Some? &&
                  !Fits(Inside(value, o, step).value.0, Json.Obj(Inside(value, o, step).value.1));
      var part := Inside(value, o, step).value;
      var rest := UnfitFailsSomewhere(part.0, Json.Obj(part.1));
      path := [step] + rest;
      assert path[1..] == rest;
    }
  }

  ghost predicate FailsNowhere(value: Json.Value, o: Object) {
    forall path :: !FailsAt(value, o, path)
  }

  /** A value fits its schema exactly when no path fails. */
  lemma FitsExactly(value: Json.Value, prop: Json.Value)
    requires prop.Obj?
    ensures Fits(value, prop) <==> FailsNowhere(value, prop.fields)
  {
    if Fits(value, prop) {
      forall path
        ensures !FailsAt(value, prop.fields, path)
      {
        FittingFailsNowhere(value, prop.fields, path);
      }
    } else {
      var path := UnfitFailsSomewhere(value, prop);
      assert FailsAt(value, prop.fields, path);
    }
  }

  // ---- what the repair returns ----

  /** The settings the repair starts from: whatever is no object counts as empty;
      older ones are migrated, and a migration that throws leaves nothing. */
  ghost predicate StartsFrom(def: Definition, settings: Json.Value, version: int, before: Object) {
    var own := if settings.Obj? then settings.fields else map[];
    if def.migrate.None? || version >= def.version then before == own
    else match def.migrate.value(own, version)
      case Threw => before == map[]
      case Returned(v) => before == if v.Obj? then v.fields else map[]
  }

  /** Every key of the result: a declared one keeps a value that fails nowhere,
      else has the declared default if there is one; any other is as before. */
  lemma RepairExactly(def: Definition, settings: Json.Value, version: int, before: Object, k: string)
    requires StartsFrom(def, settings, version, before)
    ensures var out, props := Normalised(def, settings, version), def.properties;
            && (!(k in props && props[k].Obj?) ==>
                  (k in out <==> k in before) && (k in out ==> out[k] == before[k]))
            && (k in props && props[k].Obj? && k in before && FailsNowhere(before[k], props[k].fields) ==>
                  k in out && out[k] == before[k])
            && (k in props && props[k].Obj? && !(k in before && FailsNowhere(before[k], props[k].fields)) ==>
                  (k in out <==> "default" in props[k].fields) && (k in out ==> out[k] == props[k].fields["default"]))
  {
    assert Stored(def, settings, version) == before;
    NormalisedKey(def, settings, version, k);
    if k in def.properties && def.properties[k].Obj? && k in before {
      FitsExactly(before[k], def.properties[k]);
    }
  }
}
