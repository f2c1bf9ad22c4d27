/** The optional-to-nullable schema rewrite of `eval/recovery.py` and its inverse on payloads: a strict provider must
    emit every property of a closed object, so an optional property becomes required but nullable, and the nulls the
    rewrite made expressible are dropped before the original schema validates the payload. */
module SchemaRewrite {

  import opened JsonValues

  /** A closed object, an array with an optional `maxItems`, `anyOf` of a schema and null, or any other schema: one
      without `properties` and without an `items` mapping, which the rewrite never enters. */
  datatype Schema =
    | Object(properties: map<string, Schema>, required: set<string>)
    | Array(element: Schema, maxItems: Limit)
    | OrNull(base: Schema)
    | Other(accepts: Json -> bool)

  datatype Limit = Unlimited | AtMost(count: nat)

  /** JSON Schema validation. */
  ghost predicate Valid(p: Json, s: Schema) {
    match s
    case Object(properties, required) =>
      p.Dict? && required <= p.fields.Keys && p.fields.Keys <= properties.Keys
      && forall k | k in p.fields && k in properties :: Valid(p.fields[k], properties[k])
    case Array(element, maxItems) =>
      p.List? && (maxItems.AtMost? ==> |p.items| <= maxItems.count)
      && forall i | 0 <= i < |p.items| :: Valid(p.items[i], element)
    case OrNull(base) => p.Null? || Valid(p, base)
    case Other(accepts) => accepts(p)
  }

  /** The schemas the Actions declare: `required` names only declared properties, and `anyOf` is a rewrite's output or
      an `Other` schema, never something to rewrite again. */
  ghost predicate Declared(s: Schema) {
    match s
    case Object(properties, required) =>
      required <= properties.Keys && forall k | k in properties :: Declared(properties[k])
    case Array(element, _) => Declared(element)
    case OrNull(_) => false
    case Other(_) => true
  }

  /** `nullable`: only an object schema is rewritten; any other one is returned as it is. */
  function Nullable(s: Schema): Schema
    decreases s, 0
  {
    match s
    case Object(properties, required) =>
      Object(map k | k in properties :: if k in required then Nested(properties[k]) else OrNull(Nested(properties[k])),
             properties.Keys)
    case _ => s
  }

  /** `_nested`: a property's schema; an array's elements are rewritten by `nullable`, which does not enter an array of
      arrays. */
  function Nested(s: Schema): Schema
    decreases s, 1
  {
    match s
    case Array(element, maxItems) => Array(Nullable(element), maxItems)
    case _ => Nullable(s)
  }

  /** `drop_nulls`: only an optional declared property's null is dropped; arrays of arrays are entered. */
  function DropNulls(p: Json, s: Schema): Json
    decreases p
  {
    if p.Dict? && s.Object? then
      Dict(map k | k in p.fields && (!p.fields[k].Null? || k in s.required || k !in s.properties) ::
            if k in s.properties then DropNulls(p.fields[k], s.properties[k]) else p.fields[k])
    else if p.List? && s.Array? then
      List(seq(|p.items|, i requires 0 <= i < |p.items| => DropNulls(p.items[i], s.element)))
    else p
  }

  // ---- What the rewrite is for ----

  /** What a strict provider asks of a schema: every object requires all its properties. An array of arrays, which the
      rewrite does not enter, is not looked into. */
  ghost predicate Strict(s: Schema) {
    match s
    case Object(properties, required) =>
      required == properties.Keys && forall k | k in properties :: Strict(properties[k])
    case Array(element, _) => element.Array? || Strict(element)
    case OrNull(base) => Strict(base)
    case Other(_) => true
  }

  /** The rewrite of an object schema is strict, and declares the same properties. */
  lemma {:induction false} NullableStrict(s: Schema)
    requires Declared(s) && !s.Array?
    ensures Strict(Nullable(s))
    ensures s.Object? ==> Nullable(s).Object? && Nullable(s).properties.Keys == s.properties.Keys
    decreases s, 0
  {
    if s.Object? {
      forall k | k in s.properties
        ensures Strict(Nullable(s).properties[k])
      {
        NestedStrict(s.properties[k]);
      }
    }
  }

  lemma {:induction false} NestedStrict(s: Schema)
    requires Declared(s)
    ensures Strict(Nested(s))
    decreases s, 1
  {
    if !s.Array? {
      NullableStrict(s);
    } else if !s.element.Array? {
      NullableStrict(s.element);
    }
  }

  // ---- Soundness: what a strict provider may emit is valid after the nulls are dropped ----

  lemma {:induction false} NestedSound(p: Json, s: Schema)
    requires Declared(s) && Valid(p, Nested(s))
    ensures Valid(DropNulls(p, s), s)
    decreases p, 1
  {
    if s.Array? {
      forall i | 0 <= i < |p.items|
        ensures Valid(DropNulls(p.items[i], s.element), s.element)
      {
        NullableSound(p.items[i], s.element);
      }
    } else {
      NullableSound(p, s);
    }
  }

  /** Every payload valid under the rewritten schema becomes valid under the original one. */
  lemma {:induction false} NullableSound(p: Json, s: Schema)
    requires Declared(s) && Valid(p, Nullable(s))
    ensures Valid(DropNulls(p, s), s)
    decreases p, 0
  {
    if s.Object? {
      var t := Nullable(s);
      var q := DropNulls(p, s);
      forall k | k in q.fields
        ensures k in s.properties && Valid(q.fields[k], s.properties[k])
      {
        assert k in p.fields && Valid(p.fields[k], t.properties[k]);
        NestedSound(p.fields[k], s.properties[k]);
      }
    } else {
      ValidSound(p, s);
    }
  }

  /** Dropping keeps a payload valid that already was, whatever its nulls. */
  lemma {:induction false} ValidSound(p: Json, s: Schema)
    requires Declared(s) && Valid(p, s)
    ensures Valid(DropNulls(p, s), s)
    decreases p
  {
    if s.Object? {
      var q := DropNulls(p, s);
      forall k | k in q.fields
        ensures Valid(q.fields[k], s.properties[k])
      {
        ValidSound(p.fields[k], s.properties[k]);
      }
    } else if s.Array? {
      forall i | 0 <= i < |p.items|
        ensures Valid(DropNulls(p.items[i], s.element), s.element)
      {
        ValidSound(p.items[i], s.element);
      }
    }
  }

  // ---- Dropping twice is dropping once ----

  lemma {:induction false} DropIdempotent(p: Json, s: Schema)
    ensures DropNulls(DropNulls(p, s), s) == DropNulls(p, s)
    decreases p
  {
    if p.Dict? && s.Object? {
      var q := DropNulls(p, s);
      forall k | k in q.fields
        ensures k in DropNulls(q, s).fields && DropNulls(q, s).fields[k] == q.fields[k]
      {
        if k in s.properties {
          DropIdempotent(p.fields[k], s.properties[k]);
        }
      }
    } else if p.List? && s.Array? {
      var q := DropNulls(p, s);
      forall i | 0 <= i < |p.items|
        ensures DropNulls(q, s).items[i] == q.items[i]
      {
        DropIdempotent(p.items[i], s.element);
      }
    }
  }

  // ---- Completeness: which payloads a strict provider can express ----

  /** A null stands for an optional property somewhere the rewrite or the drop looks. */
  ghost predicate HasOptionalNull(p: Json, s: Schema)
    decreases p
  {
    (p.Dict? && s.Object? && exists k | k in p.fields && k in s.properties ::
       (p.fields[k].Null? && k !in s.required) || HasOptionalNull(p.fields[k], s.properties[k]))
    || (p.List? && s.Array? && exists i | 0 <= i < |p.items| :: HasOptionalNull(p.items[i], s.element))
  }

  /** A payload is fixed by dropping exactly when it holds no such null. */
  lemma {:induction false} FixedExactly(p: Json, s: Schema)
    ensures DropNulls(p, s) == p <==> !HasOptionalNull(p, s)
    decreases p
  {
    var q := DropNulls(p, s);
    if p.Dict? && s.Object? {
      forall k | k in p.fields && k in s.properties
        ensures DropNulls(p.fields[k], s.properties[k]) == p.fields[k] <==> !HasOptionalNull(p.fields[k], s.properties[k])
      {
        FixedExactly(p.fields[k], s.properties[k]);
      }
      if q == p {
        forall k | k in p.fields && k in s.properties
          ensures !(p.fields[k].Null? && k !in s.required) && !HasOptionalNull(p.fields[k], s.properties[k])
        {
          assert k in q.fields && q.fields[k] == p.fields[k];
        }
      }
      if !HasOptionalNull(p, s) {
        assert q.fields == p.fields;
      }
    } else if p.List? && s.Array? {
      forall i | 0 <= i < |p.items|
        ensures DropNulls(p.items[i], s.element) == p.items[i] <==> !HasOptionalNull(p.items[i], s.element)
      {
        FixedExactly(p.items[i], s.element);
      }
      if q == p {
        forall i | 0 <= i < |p.items|
          ensures !HasOptionalNull(p.items[i], s.element)
        {
          assert q.items[i] == p.items[i];
        }
      }
      if !HasOptionalNull(p, s) {
        assert q.items == p.items;
      }
    }
  }

  /** The payload as a strict provider emits it: every optional property the rewrite sees is present, null if unset. */
  function FillNulls(p: Json, s: Schema): Json
    decreases p, 0
  {
    if p.Dict? && s.Object? then
      Dict(map k | k in s.properties.Keys + p.fields.Keys ::
            if k !in p.fields then Null
            else if k in s.properties then FillNested(p.fields[k], s.properties[k])
            else p.fields[k])
    else p
  }

  function FillNested(p: Json, s: Schema): Json
    decreases p, 1
  {
    if p.List? && s.Array? then
      List(seq(|p.items|, i requires 0 <= i < |p.items| => FillNulls(p.items[i], s.element)))
    else FillNulls(p, s)
  }

  lemma {:induction false} FillNestedInverts(p: Json, s: Schema)
    requires Declared(s) && Valid(p, s) && !HasOptionalNull(p, s)
    ensures Valid(FillNested(p, s), Nested(s)) && DropNulls(FillNested(p, s), s) == p
    decreases p, 1
  {
    if s.Array? {
      var r := FillNested(p, s);
      forall i | 0 <= i < |p.items|
        ensures Valid(r.items[i], Nullable(s.element)) && DropNulls(r.items[i], s.element) == p.items[i]
      {
        FillInverts(p.items[i], s.element);
      }
      assert DropNulls(r, s).items == p.items;
    } else {
      FillInverts(p, s);
    }
  }

  lemma {:induction false} FillInverts(p: Json, s: Schema)
    requires Declared(s) && Valid(p, s) && !HasOptionalNull(p, s)
    ensures Valid(FillNulls(p, s), Nullable(s)) && DropNulls(FillNulls(p, s), s) == p
    decreases p, 0
  {
    if s.Object? {
      var r, t := FillNulls(p, s), Nullable(s);
      forall k | k in p.fields
        ensures Valid(r.fields[k], Nested(s.properties[k])) && DropNulls(r.fields[k], s.properties[k]) == p.fields[k]
        ensures r.fields[k].Null? ==> k in s.required
      {
        FillNestedInverts(p.fields[k], s.properties[k]);
      }
      assert DropNulls(r, s).fields == p.fields;
    } else {
      FixedExactly(p, s);
    }
  }

  /** Exactly the valid payloads without an optional null can be expressed through the rewritten schema. */
  lemma ImageExactly(q: Json, s: Schema)
    requires Declared(s)
    ensures (exists p :: Valid(p, Nullable(s)) && DropNulls(p, s) == q) <==> Valid(q, s) && !HasOptionalNull(q, s)
  {
    if Valid(q, s) && !HasOptionalNull(q, s) {
      FillInverts(q, s);
    }
    if p :| Valid(p, Nullable(s)) && DropNulls(p, s) == q {
      NullableSound(p, s);
      DropIdempotent(p, s);
      FixedExactly(q, s);
    }
  }

  // ---- Schemas whose optional properties never accept null ----

  ghost predicate NullFree(s: Schema) {
    match s
    case Object(properties, required) =>
      forall k | k in properties :: NullFree(properties[k]) && (k !in required ==> !Valid(Null, properties[k]))
    case Array(element, _) => NullFree(element)
    case _ => true
  }

  lemma {:induction false} NullFreeHasNone(p: Json, s: Schema)
    requires NullFree(s) && Valid(p, s)
    ensures !HasOptionalNull(p, s)
    decreases p
  {
    if p.Dict? && s.Object? {
      forall k | k in p.fields && k in s.properties
        ensures !(p.fields[k].Null? && k !in s.required) && !HasOptionalNull(p.fields[k], s.properties[k])
      {
        NullFreeHasNone(p.fields[k], s.properties[k]);
      }
    } else if p.List? && s.Array? {
      forall i | 0 <= i < |p.items|
        ensures !HasOptionalNull(p.items[i], s.element)
      {
        NullFreeHasNone(p.items[i], s.element);
      }
    }
  }

  /** The rewrite preserves meaning: for such a schema, what the provider can express is exactly what the original
      schema accepts, and dropping leaves those payloads alone. */
  lemma MeaningPreserved(q: Json, s: Schema)
    requires Declared(s) && NullFree(s)
    ensures Valid(q, s) <==> exists p :: Valid(p, Nullable(s)) && DropNulls(p, s) == q
    ensures Valid(q, s) ==> DropNulls(q, s) == q
  {
    ImageExactly(q, s);
    FixedExactly(q, s);
    if Valid(q, s) {
      NullFreeHasNone(q, s);
    }
  }

  /** Where an optional property accepts null, the rewrite loses the distinction between unset and null. */
  lemma NullableOptionalIsLost()
    ensures var s := Object(map["note" := Other(_ => true)], {});
            var q := Dict(map["note" := Null]);
            Declared(s) && Valid(q, s) && DropNulls(q, s) == Dict(map[])
            && !exists p :: Valid(p, Nullable(s)) && DropNulls(p, s) == q
  {
    var s := Object(map["note" := Other(_ => true)], {});
    var q := Dict(map["note" := Null]);
    assert "note" in q.fields && "note" in s.properties;
    ImageExactly(q, s);
  }
}
