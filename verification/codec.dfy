/** The JSON codec of a simple qubit: the fixed schema, `serialize`'s data
    tree and `from_json`'s validate-then-construct. `json.dumps` and
    `json.loads` are taken as the identity on the tree. */
module Codec {
  import opened Wrappers
  import opened JsonTree
  import opened JsonSchema
  import opened Parameters

  /** The exception `cls(**...)` raises on an unexpected keyword, a keyword
      given twice, or a missing argument. */
  datatype Error = TypeError

  const JunctionSchema := Schema(Some(ObjectType),
    [Property("junction_width", NumberSchema),
     Property("junction_height", NumberSchema),
     Property("junction_offset", NumberSchema)],
    ["junction_width", "junction_height", "junction_offset"])

  const WireSchema := Schema(Some(ObjectType),
    [Property("wire_width", NumberSchema),
     Property("wire_height", NumberSchema)],
    ["wire_width", "wire_height"])

  const ConnectionSchema := Schema(Some(ObjectType),
    [Property("connection_radius", NumberSchema)],
    ["connection_radius"])

  const LayersSchema := Schema(Some(ObjectType),
    [Property("junction_layer", NumberSchema),
     Property("connection_layer", NumberSchema),
     Property("wire_layer", NumberSchema)],
    ["junction_layer", "connection_layer", "wire_layer"])

  /** The schema `get_json_schema` returns. */
  const QubitSchema := Schema(Some(ObjectType),
    [Property("junction", JunctionSchema),
     Property("wire", WireSchema),
     Property("connection", ConnectionSchema),
     Property("layers", LayersSchema)],
    ["junction", "wire", "connection", "layers"])

  /** The order in which `from_json` unpacks the groups into keywords. */
  const GroupOrder: seq<string> := ["junction", "wire", "connection", "layers"]

  /** What the schema demands, stated directly: an object whose four groups
      are objects holding every one of their keys with a number. */
  predicate Conforms(j: Json) {
    && j.JObject?
    && forall g :: g in Groups ==>
         && g in j.obj
         && j.obj[g].JObject?
         && forall k :: k in Groups[g] ==> k in j.obj[g].obj && j.obj[g].obj[k].JNumber?
  }

  /** A conforming document whose groups hold their own keys and nothing else. */
  predicate ExactGroups(j: Json) {
    && Conforms(j)
    && forall g :: g in Groups ==> j.obj[g].obj.Keys == Groups[g]
  }

  /** The schema of group `g` accepts exactly the objects holding a number
      under each of the group's keys. */
  lemma GroupSchemaMeaning(j: Json, s: Schema, g: string)
    requires g in Groups
    requires g == "junction" ==> s == JunctionSchema
    requires g == "wire" ==> s == WireSchema
    requires g == "connection" ==> s == ConnectionSchema
    requires g == "layers" ==> s == LayersSchema
    ensures Validates(j, s) <==>
              j.JObject? && forall k :: k in Groups[g] ==> k in j.obj && j.obj[k].JNumber?
  {
    NumberGroup(j, s);
    assert forall k :: k in Groups[g] <==> k in s.required;
  }

  /** The fixed schema accepts exactly the conforming documents. */
  lemma SchemaMeaning(j: Json)
    ensures Validates(j, QubitSchema) <==> Conforms(j)
  {
    if j.JObject? {
      var ps := QubitSchema.properties;
      forall i | 0 <= i < |ps| && ps[i].name in j.obj
        ensures Validates(j.obj[ps[i].name], ps[i].schema) <==>
                  j.obj[ps[i].name].JObject? &&
                  forall k :: k in Groups[ps[i].name] ==> k in j.obj[ps[i].name].obj && j.obj[ps[i].name].obj[k].JNumber?
      {
        GroupSchemaMeaning(j.obj[ps[i].name], ps[i].schema, ps[i].name);
      }
      assert forall g :: g in Groups <==> g in QubitSchema.required;
      assert forall g :: g in Groups <==> exists i :: 0 <= i < |ps| && ps[i].name == g by {
        forall g ensures g in Groups <==> exists i :: 0 <= i < |ps| && ps[i].name == g {
          if g in Groups {
            var i :| 0 <= i < |GroupOrder| && GroupOrder[i] == g;
            assert ps[i].name == g;
          }
        }
      }
    }
  }

  /** `serialize`'s data tree: the nine fields grouped by concern. */
  function Serialize(q: Qubit): (r: Json)
    ensures ExactGroups(r)
    ensures r.obj.Keys == Groups.Keys
  {
    JObject(map[
      "junction" := JObject(map[
        "junction_width" := JNumber(q.junctionWidth),
        "junction_height" := JNumber(q.junctionHeight),
        "junction_offset" := JNumber(q.junctionOffset)]),
      "wire" := JObject(map[
        "wire_width" := JNumber(q.wireWidth),
        "wire_height" := JNumber(q.wireHeight)]),
      "connection" := JObject(map[
        "connection_radius" := JNumber(q.connectionRadius)]),
      "layers" := JObject(map[
        "junction_layer" := JNumber(q.junctionLayer),
        "wire_layer" := JNumber(q.wireLayer),
        "connection_layer" := JNumber(q.connectionLayer)])])
  }

  /** Each serialized key holds the number stored in its like-named field. */
  lemma SerializeFields(q: Qubit)
    ensures forall g, k :: g in Groups && k in Groups[g] ==> Serialize(q).obj[g].obj[k] == JNumber(Field(q, k))
  {
  }

  /** No key occurs in two of the dictionaries. */
  predicate PairwiseDisjoint(dicts: seq<map<string, Json>>) {
    forall i, j :: 0 <= i < j < |dicts| ==> dicts[i].Keys !! dicts[j].Keys
  }

  /** Splitting off the last dictionary: the whole is pairwise disjoint
      exactly when the front is and the last meets none of the front. */
  lemma DisjointSplit(dicts: seq<map<string, Json>>)
    requires |dicts| > 0
    ensures PairwiseDisjoint(dicts) <==>
              && PairwiseDisjoint(dicts[..|dicts| - 1])
              && forall i :: 0 <= i < |dicts| - 1 ==> dicts[i].Keys !! dicts[|dicts| - 1].Keys
  {
  }

  /** Python's `f(**d0, **d1, ...)`: the keyword dictionaries are merged left
      to right, and a key met a second time raises TypeError. */
  function MergeKwargs(dicts: seq<map<string, Json>>): Result<map<string, Json>, Error>
    decreases |dicts|
  {
    if |dicts| == 0 then Success(map[])
    else
      var merged :- MergeKwargs(dicts[..|dicts| - 1]);
      var last := dicts[|dicts| - 1];
      if merged.Keys !! last.Keys then Success(merged + last) else Failure(TypeError)
  }

  /** The union of the dictionaries, later ones winning: what the merge
      yields when it does not raise. */
  function UnionAll(dicts: seq<map<string, Json>>): (u: map<string, Json>)
    decreases |dicts|
  {
    if |dicts| == 0 then map[] else UnionAll(dicts[..|dicts| - 1]) + dicts[|dicts| - 1]
  }

  /** A key is in the union exactly when some dictionary holds it. */
  lemma {:induction false} UnionKeys(dicts: seq<map<string, Json>>, k: string)
    ensures k in UnionAll(dicts) <==> exists i :: 0 <= i < |dicts| && k in dicts[i]
    decreases |dicts|
  {
    if |dicts| > 0 {
      var front := dicts[..|dicts| - 1];
      UnionKeys(front, k);
      assert forall i :: 0 <= i < |front| ==> front[i] == dicts[i];
      if k in dicts[|dicts| - 1] {
        assert k in UnionAll(dicts);
      }
    }
  }

  /** The merge raises exactly when some key is repeated, and otherwise
      yields the union of the dictionaries. */
  lemma {:induction false} MergeSpec(dicts: seq<map<string, Json>>)
    ensures MergeKwargs(dicts).Success? <==> PairwiseDisjoint(dicts)
    ensures MergeKwargs(dicts).Success? ==> MergeKwargs(dicts).value == UnionAll(dicts)
    decreases |dicts|
  {
    if |dicts| > 0 {
      var front := dicts[..|dicts| - 1];
      var last := dicts[|dicts| - 1];
      MergeSpec(front);
      assert forall i :: 0 <= i < |front| ==> front[i] == dicts[i];
      DisjointSplit(dicts);
      if MergeKwargs(front).Success? {
        if !(UnionAll(front).Keys !! last.Keys) {
          var k :| k in UnionAll(front) && k in last;
          UnionKeys(front, k);
          var i :| 0 <= i < |front| && k in front[i];
          assert !(dicts[i].Keys !! last.Keys);
        } else if !PairwiseDisjoint(dicts) {
          var i :| 0 <= i < |front| && !(dicts[i].Keys !! last.Keys);
          var k :| k in dicts[i] && k in last;
          UnionKeys(front, k);
          assert false;
        }
      }
    }
  }

  /** Binding the merged keywords to the constructor's parameters: a keyword
      that is not a parameter, or a parameter left unsupplied, raises
      TypeError; otherwise each value lands in its like-named field. */
  function Bind(kwargs: map<string, Json>): (r: Result<Qubit, Error>)
    requires forall n :: n in ParamNames && n in kwargs ==> kwargs[n].JNumber?
    ensures r.Success? <==> kwargs.Keys == ParamNames
    ensures r.Success? ==> forall n :: n in ParamNames ==> Field(r.value, n) == kwargs[n].num
  {
    if kwargs.Keys != ParamNames then Failure(TypeError)
    else
      Success(Qubit(
        connectionRadius := kwargs["connection_radius"].num,
        junctionWidth := kwargs["junction_width"].num,
        junctionHeight := kwargs["junction_height"].num,
        wireWidth := kwargs["wire_width"].num,
        wireHeight := kwargs["wire_height"].num,
        junctionOffset := kwargs["junction_offset"].num,
        wireLayer := kwargs["wire_layer"].num,
        junctionLayer := kwargs["junction_layer"].num,
        connectionLayer := kwargs["connection_layer"].num))
  }

  /** The four group objects of a conforming document, in unpacking order. */
  function GroupDicts(j: Json): (ds: seq<map<string, Json>>)
    requires Conforms(j)
    ensures |ds| == |GroupOrder|
    ensures forall i :: 0 <= i < |ds| ==> ds[i] == j.obj[GroupOrder[i]].obj
  {
    [j.obj["junction"].obj, j.obj["wire"].obj, j.obj["connection"].obj, j.obj["layers"].obj]
  }

  /** The union of the four groups, spelled out. */
  lemma GroupUnion(j: Json)
    requires Conforms(j)
    ensures UnionAll(GroupDicts(j)) ==
              j.obj["junction"].obj + j.obj["wire"].obj + j.obj["connection"].obj + j.obj["layers"].obj
  {
    var ds := GroupDicts(j);
    var d3, d2, d1 := ds[..3], ds[..3][..2], ds[..3][..2][..1];
    assert UnionAll(d1) == map[] + ds[0] by {
      assert d1[..0] == [];
    }
    assert UnionAll(d2) == UnionAll(d1) + ds[1];
    assert UnionAll(d3) == UnionAll(d2) + ds[2];
    assert UnionAll(ds) == UnionAll(d3) + ds[3];
  }

  /** Where a group sits in the unpacking order; every group sits there once. */
  function OrderIndex(g: string): (i: nat)
    requires g in Groups
    ensures i < |GroupOrder| && GroupOrder[i] == g
    ensures forall k :: 0 <= k < |GroupOrder| && GroupOrder[k] == g ==> k == i
  {
    if g == "junction" then 0 else if g == "wire" then 1 else if g == "connection" then 2 else 3
  }

  /** The unpacking order lists only groups. */
  lemma GroupOrderInGroups()
    ensures forall i :: 0 <= i < |GroupOrder| ==> GroupOrder[i] in Groups
  {
  }

  /** When the merge of a conforming document's groups succeeds, each
      parameter's value comes from its own group and so is a number. */
  lemma MergedParamsAreNumbers(j: Json, kwargs: map<string, Json>)
    requires Conforms(j)
    requires MergeKwargs(GroupDicts(j)) == Success(kwargs)
    ensures forall n :: n in ParamNames && n in kwargs ==> kwargs[n].JNumber?
  {
    forall n | n in ParamNames && n in kwargs
      ensures kwargs[n].JNumber?
    {
      MergedValue(j, kwargs, GroupOf(n), n);
    }
  }

  /** `from_json`: a document the schema rejects yields None; an accepted
      one is unpacked group by group into the constructor, which may raise. */
  function FromJson(j: Json): (r: Result<Option<Qubit>, Error>)
    ensures r.Success? && r.value.Some? ==> Conforms(j)
  {
    if !Validates(j, QubitSchema) then Success(None)
    else
      SchemaMeaning(j);
      var kwargs :- MergeKwargs(GroupDicts(j));
      MergedParamsAreNumbers(j, kwargs);
      var q :- Bind(kwargs);
      Success(Some(q))
  }

  /** Every serialized record passes the schema. */
  lemma SerializeValidates(q: Qubit)
    ensures Validates(Serialize(q), QubitSchema)
  {
  }

  /** Groups holding exactly their own keys share no key. */
  lemma ExactGroupsDisjoint(j: Json)
    requires ExactGroups(j)
    ensures PairwiseDisjoint(GroupDicts(j))
  {
  }

  /** Groups holding exactly their own keys merge into the nine parameters. */
  lemma ExactGroupsBind(j: Json)
    requires ExactGroups(j)
    ensures MergeKwargs(GroupDicts(j)).Success?
    ensures MergeKwargs(GroupDicts(j)).value.Keys == ParamNames
  {
    ExactGroupsDisjoint(j);
    MergeSpec(GroupDicts(j));
    var kwargs := MergeKwargs(GroupDicts(j)).value;
    forall n | n in ParamNames
      ensures n in kwargs
    {
      MergedValue(j, kwargs, GroupOf(n), n);
    }
    forall n | n in kwargs
      ensures n in ParamNames
    {
      MergedKeyIsOwn(j, kwargs, n);
    }
  }

  /** A merged key of an exact document is a parameter name. */
  lemma MergedKeyIsOwn(j: Json, kwargs: map<string, Json>, n: string)
    requires ExactGroups(j)
    requires MergeKwargs(GroupDicts(j)) == Success(kwargs)
    requires n in kwargs
    ensures n in ParamNames
  {
    MergeSpec(GroupDicts(j));
    GroupUnion(j);
    if n in j.obj["junction"].obj {
      KeyIsParam("junction", n);
    } else if n in j.obj["wire"].obj {
      KeyIsParam("wire", n);
    } else if n in j.obj["connection"].obj {
      KeyIsParam("connection", n);
    } else {
      KeyIsParam("layers", n);
    }
  }

  /** Conversely, a conforming document whose groups merge and bind cleanly
      has no stray key in any group. */
  lemma BindableGroupsExact(j: Json)
    requires Conforms(j)
    requires MergeKwargs(GroupDicts(j)).Success?
    requires MergeKwargs(GroupDicts(j)).value.Keys == ParamNames
    ensures ExactGroups(j)
  {
    var ds := GroupDicts(j);
    var kwargs := MergeKwargs(ds).value;
    MergeSpec(ds);
    forall g | g in Groups
      ensures j.obj[g].obj.Keys == Groups[g]
    {
      forall k | k in j.obj[g].obj
        ensures k in Groups[g]
      {
        MergedValue(j, kwargs, g, k);
        var a := OrderIndex(g);
        var b := OrderIndex(GroupOf(k));
        assert k in ds[a] && k in ds[b];
        assert a == b;
      }
    }
  }

  /** `from_json` returns None exactly when the schema rejects the document. */
  lemma RejectedIffNonconforming(j: Json)
    ensures FromJson(j) == Success(None) <==> !Conforms(j)
  {
    SchemaMeaning(j);
  }

  /** `from_json` raises exactly when the document passes the schema but some
      group carries a key that is not one of that group's own. */
  lemma RaisesIffStrayKey(j: Json)
    ensures FromJson(j).Failure? <==> Conforms(j) && !ExactGroups(j)
  {
    SchemaMeaning(j);
    if ExactGroups(j) {
      ExactGroupsBind(j);
    } else if Conforms(j) && MergeKwargs(GroupDicts(j)).Success? {
      MergedParamsAreNumbers(j, MergeKwargs(GroupDicts(j)).value);
      if MergeKwargs(GroupDicts(j)).value.Keys == ParamNames {
        BindableGroupsExact(j);
      }
    }
  }

  /** A document whose groups hold exactly their own keys yields a record
      that stores, in each field, the number found under its keyword. */
  lemma ExactGroupsConstruct(j: Json) returns (q: Qubit)
    requires ExactGroups(j)
    ensures FromJson(j) == Success(Some(q))
    ensures forall g, k :: g in Groups && k in Groups[g] ==> Field(q, k) == j.obj[g].obj[k].num
  {
    ExactGroupsBind(j);
    var kwargs := MergeKwargs(GroupDicts(j)).value;
    q := ConstructsBound(j, kwargs);
    BoundFieldsFromGroups(j, kwargs, q);
  }

  /** A record bound from a clean merge holds, in each field, the number its
      key carries in its own group. */
  lemma BoundFieldsFromGroups(j: Json, kwargs: map<string, Json>, q: Qubit)
    requires Conforms(j)
    requires MergeKwargs(GroupDicts(j)) == Success(kwargs)
    requires kwargs.Keys == ParamNames
    requires forall n :: n in ParamNames ==> JNumber(Field(q, n)) == kwargs[n]
    ensures forall g, k :: g in Groups && k in Groups[g] ==> Field(q, k) == j.obj[g].obj[k].num
  {
    forall g, k | g in Groups && k in Groups[g]
      ensures Field(q, k) == j.obj[g].obj[k].num
    {
      MergedValue(j, kwargs, g, k);
      KeyIsParam(g, k);
    }
  }

  /** A conforming document whose groups merge into exactly the parameter
      names constructs the record that binding those keywords gives. */
  lemma ConstructsBound(j: Json, kwargs: map<string, Json>) returns (q: Qubit)
    requires Conforms(j)
    requires MergeKwargs(GroupDicts(j)) == Success(kwargs)
    requires kwargs.Keys == ParamNames
    ensures FromJson(j) == Success(Some(q))
    ensures forall n :: n in ParamNames ==> JNumber(Field(q, n)) == kwargs[n]
  {
    SchemaMeaning(j);
    MergedParamsAreNumbers(j, kwargs);
    q := Bind(kwargs).value;
  }

  /** After a clean merge, a key of a group carries that group's value. */
  lemma MergedValue(j: Json, kwargs: map<string, Json>, g: string, k: string)
    requires Conforms(j)
    requires MergeKwargs(GroupDicts(j)) == Success(kwargs)
    requires g in Groups && k in j.obj[g].obj
    ensures k in kwargs && kwargs[k] == j.obj[g].obj[k]
  {
    var ds := GroupDicts(j);
    MergeSpec(ds);
    GroupUnion(j);
    assert ds[0].Keys !! ds[1].Keys && ds[0].Keys !! ds[2].Keys && ds[0].Keys !! ds[3].Keys;
    assert ds[1].Keys !! ds[2].Keys && ds[1].Keys !! ds[3].Keys && ds[2].Keys !! ds[3].Keys;
    assert k in ds[OrderIndex(g)];
  }

  /** Round trip: reading back a serialized record gives the same nine fields. */
  lemma RoundTrip(q: Qubit)
    ensures FromJson(Serialize(q)) == Success(Some(q))
  {
    var j := Serialize(q);
    var p := ExactGroupsConstruct(j);
    SerializeFields(q);
    forall n | n in ParamNames
      ensures Field(p, n) == Field(q, n)
    {
      var g := GroupOf(n);
    }
    FieldsDetermine(p, q);
  }

  /** The schema failures, case by case: each yields None. */
  lemma Rejections(j: Json, g: string, k: string)
    ensures !j.JObject? ==> FromJson(j) == Success(None)
    ensures j.JObject? && g in Groups && g !in j.obj ==> FromJson(j) == Success(None)
    ensures j.JObject? && g in Groups && g in j.obj && !j.obj[g].JObject? ==> FromJson(j) == Success(None)
    ensures j.JObject? && g in Groups && g in j.obj && j.obj[g].JObject? && k in Groups[g] && k !in j.obj[g].obj ==>
              FromJson(j) == Success(None)
    ensures (j.JObject? && g in Groups && g in j.obj && j.obj[g].JObject? && k in Groups[g] && k in j.obj[g].obj &&
             !j.obj[g].obj[k].JNumber?) ==> FromJson(j) == Success(None)
  {
    RejectedIffNonconforming(j);
  }

  /** A top-level key other than the four groups changes nothing. */
  lemma UnknownTopLevelKeyIgnored(o: map<string, Json>, key: string, v: Json)
    requires key !in Groups
    ensures FromJson(JObject(o[key := v])) == FromJson(JObject(o))
  {
    var j, j' := JObject(o), JObject(o[key := v]);
    SchemaMeaning(j);
    SchemaMeaning(j');
    assert Conforms(j) <==> Conforms(j');
    if Conforms(j) {
      assert GroupDicts(j) == GroupDicts(j');
    }
  }

  /** An extra key inside a group passes the schema but makes the keyword
      construction raise. */
  lemma UnknownGroupKeyRaises(j: Json, g: string, key: string, v: Json)
    requires Conforms(j)
    requires g in Groups && key !in Groups[g]
    ensures Validates(JObject(j.obj[g := JObject(j.obj[g].obj[key := v])]), QubitSchema)
    ensures FromJson(JObject(j.obj[g := JObject(j.obj[g].obj[key := v])])).Failure?
  {
    var j' := JObject(j.obj[g := JObject(j.obj[g].obj[key := v])]);
    assert Conforms(j');
    SchemaMeaning(j');
    RaisesIffStrayKey(j');
    assert key in j'.obj[g].obj;
  }
}
