/** Reading reported values out of a node's feature records (`getReportedValue` and
    `getReportedValues`). A feature record maps property names to leaf records
    `{ reportedValue, displayValue?, ... }`; any level may be missing. */
module FeatureReader {
  import opened Js

  /** `getReportedValue(feature, property, defaultValue)`: `property` is `None` for a
      null or undefined name. */
  function GetReportedValue(feature: Json, property: Option<string>, default: Json): (r: Json)
    ensures property.None? ==> r == default
    ensures property.Some? && !Truthy(feature) ==> r == default
    ensures property.Some? && !Truthy(Field(feature, property.value)) ==> r == default
    ensures property.Some? && Truthy(feature) && Truthy(Field(feature, property.value)) ==>
              r == Field(Field(feature, property.value), "reportedValue")
  {
    if property.None? then default
    else if Truthy(feature) && Truthy(Field(feature, property.value)) then
      Field(Field(feature, property.value), "reportedValue")
    else default
  }

  /** The value `getReportedValues` writes for one output key whose source property is
      `source`: a missing feature counts as `{}`. */
  function ReportedOrDefault(feature: Json, source: string, default: Json): Json {
    var f := if Nullish(feature) then Obj(map[]) else feature;
    if Truthy(Field(f, source)) then Field(Field(f, source), "reportedValue") else default
  }

  /** Each entry `getReportedValues` writes reads the same value `getReportedValue` would. */
  lemma ReportedOrDefaultAgrees(feature: Json, source: string, default: Json)
    ensures ReportedOrDefault(feature, source, default) == GetReportedValue(feature, Some(source), default)
  {
  }

  /** The output keys of a mapping, given as (output key, source property) pairs in the
      order `for...in` visits them. */
  function KeysOf(properties: seq<(string, string)>): set<string> {
    set p | p in properties :: p.0
  }

  /** The entries `getReportedValues` writes, in order: a later write of the same key
      replaces an earlier one. */
  function ValuesOf(feature: Json, properties: seq<(string, string)>, default: Json): map<string, Json>
    decreases |properties|
  {
    if properties == [] then map[]
    else
      var last := properties[|properties| - 1];
      ValuesOf(feature, properties[..|properties| - 1], default)[last.0 := ReportedOrDefault(feature, last.1, default)]
  }

  /** The keys written are exactly the output keys of the mapping. */
  lemma {:induction false} ValuesOfKeys(feature: Json, properties: seq<(string, string)>, default: Json)
    ensures ValuesOf(feature, properties, default).Keys == KeysOf(properties)
    decreases |properties|
  {
    if properties != [] {
      var init := properties[..|properties| - 1];
      ValuesOfKeys(feature, init, default);
      assert properties == init + [properties[|properties| - 1]];
      assert KeysOf(properties) == KeysOf(init) + {properties[|properties| - 1].0};
    }
  }

  /** The value stored under an output key is read from the source property of the last
      entry naming that key. */
  lemma {:induction false} ValuesOfAt(feature: Json, properties: seq<(string, string)>, default: Json, i: nat)
    requires i < |properties|
    requires forall j :: i < j < |properties| ==> properties[j].0 != properties[i].0
    ensures properties[i].0 in ValuesOf(feature, properties, default)
    ensures ValuesOf(feature, properties, default)[properties[i].0]
              == GetReportedValue(feature, Some(properties[i].1), default)
    decreases |properties|
  {
    var n := |properties|;
    if i < n - 1 {
      ValuesOfAt(feature, properties[..n - 1], default, i);
    }
  }

  /** One more entry of the mapping adds (or replaces) one key. */
  lemma ValuesOfStep(feature: Json, properties: seq<(string, string)>, default: Json, k: nat)
    requires k < |properties|
    ensures ValuesOf(feature, properties[..k + 1], default)
              == ValuesOf(feature, properties[..k], default)[properties[k].0 := ReportedOrDefault(feature, properties[k].1, default)]
  {
    assert properties[..k + 1][..k] == properties[..k];
  }

  lemma MergeUpdate(base: map<string, Json>, m: map<string, Json>, k: string, v: Json)
    ensures (base + m)[k := v] == base + m[k := v]
  {
  }

  /** `getReportedValues(feature, properties, props, defaultValue)`: writes one entry per
      key of the mapping into `props` (a fresh object when `props` is null) and leaves
      every other property of `props` as it was. */
  method GetReportedValues(feature: Json, properties: seq<(string, string)>, props: JsObject?, default: Json)
    returns (r: JsObject)
    modifies props
    ensures props != null ==> r == props
    ensures props == null ==> fresh(r)
    ensures r.fields == (if props == null then map[] else old(props.fields)) + ValuesOf(feature, properties, default)
    ensures r.fields.Keys == (if props == null then {} else old(props.fields.Keys)) + KeysOf(properties)
    ensures props != null ==>
              forall k :: k in old(props.fields) && k !in KeysOf(properties) ==> r.fields[k] == old(props.fields[k])
  {
    if props == null {
      r := new JsObject();
    } else {
      r := props;
    }
    var f := feature;
    if Nullish(f) {
      f := Obj(map[]);
    }
    ghost var base := r.fields;
    for i := 0 to |properties|
      invariant r.fields == base + ValuesOf(feature, properties[..i], default)
    {
      var key, source := properties[i].0, properties[i].1;
      var value := if Truthy(Field(f, source)) then Field(Field(f, source), "reportedValue") else default;
      assert properties[..i + 1][..i] == properties[..i];
      assert ValuesOf(feature, properties[..i + 1], default)
          == ValuesOf(feature, properties[..i], default)[key := ReportedOrDefault(feature, source, default)];
      MergeUpdate(base, ValuesOf(feature, properties[..i], default), key, value);
      r.fields := r.fields[key := value];
    }
    assert properties[..|properties|] == properties;
    ValuesOfKeys(feature, properties, default);
    assert r.fields == base + ValuesOf(feature, properties, default);
  }
}
