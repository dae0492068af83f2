/** The guarantees of schema expansion as a whole, and its work budget. */
module SchemaWork {
  import opened Wrappers
  import opened Json
  import opened SchemaExpansion
  import opened SchemaMeaning

  // ---------- Schema nodes ----------

  function SchemaNodes(v: Value): nat
    decreases Size(v), 20
  {
    if v.Object? then 1 + NodesUnder(v.fields, KEYWORDS) else 1
  }

  function NodesUnder(fields: Fields, ks: seq<Keyword>): nat
    requires |ks| <= 17
    decreases Size(Object(fields)), |ks|
  {
    if ks == [] then 0
    else if !Has(fields, ks[0].name) then NodesUnder(fields, ks[1..])
    else
      LookupSmaller(fields, ks[0].name);
      NodesOfChild(ks[0].kind, Lookup(fields, ks[0].name).value) + NodesUnder(fields, ks[1..])
  }

  function NodesOfChild(kind: Kind, v: Value): nat
    decreases Size(v), 21
  {
    match kind
    case Single => SchemaNodes(v)
    case Items => if v.Array? then NodesOfItems(v.items) else SchemaNodes(v)
    case Many => if v.Array? then NodesOfItems(v.items) else 0
    case Named => if v.Object? then NodesOfMembers(v.fields, false) else 0
    case Dependent => if v.Object? then NodesOfMembers(v.fields, true) else 0
  }

  function NodesOfItems(items: seq<Value>): nat
    decreases SizeOfItems(items), 22
  {
    if items == [] then 0 else SchemaNodes(items[0]) + NodesOfItems(items[1..])
  }

  function NodesOfMembers(fields: Fields, skipArrays: bool): nat
    decreases SizeOfFields(fields), 22
  {
    if fields == [] then 0
    else (if skipArrays && fields[0].value.Array? then 0 else SchemaNodes(fields[0].value)) + NodesOfMembers(fields[1..], skipArrays)
  }

  // ---------- Every node of the result was paid for ----------

  lemma {:induction false} WorkOfValue(c: Context, v: Value, active: set<string>, work: nat)
    requires Refs(v) <= Refs(c.root) && Expand(c, v, active, work).Done?
    ensures var r := Expand(c, v, active, work); work + SchemaNodes(r.value) <= r.work <= BUDGET
    decreases |Refs(c.root) - active|, Size(v), 20
  {
    hide Expand, ExpandKeywords, NodePolicy, ReferenceOf, Resolve, KEYWORDS, NodesUnder, Refs;
    OnlySchemas(c, v, active, work);
    if v.Bool? {
      WorkOfBool(c, v, active, work);
    } else if Has(v.fields, "$ref") {
      ReferenceStep(c, v, active, work);
      var p := ReferenceOf(v.fields).value;
      WorkOfValue(c, Resolve(c.root, p).value, active + {p}, work + NodePolicy(v.fields, c.compiles).value);
    } else {
      ObjectStep(c, v, active, work);
      var w := work + NodePolicy(v.fields, c.compiles).value;
      assert KEYWORDS[0..] == KEYWORDS;
      WorkOfKeywords(c, v.fields, 0, v.fields, active, w);
    }
  }

  lemma WorkOfBool(c: Context, v: Value, active: set<string>, work: nat)
    requires Refs(v) <= Refs(c.root) && v.Bool? && Expand(c, v, active, work).Done?
    ensures Expand(c, v, active, work) == Done(v, work + 1) && work + 1 <= BUDGET
  {
  }

  lemma {:induction false} WorkOfKeywords(c: Context, fields: Fields, k: nat, copy: Fields, active: set<string>, work: nat)
    requires Refs(Object(fields)) <= Refs(c.root) && k <= |KEYWORDS| == 17 && work <= BUDGET
    requires ExpandKeywords(c, fields, KEYWORDS[k..], copy, active, work).Done?
    requires forall j :: k <= j < |KEYWORDS| ==> Lookup(copy, KEYWORDS[j].name) == Lookup(fields, KEYWORDS[j].name)
    ensures var r := ExpandKeywords(c, fields, KEYWORDS[k..], copy, active, work);
            work + NodesUnder(r.value, KEYWORDS[k..]) <= r.work <= BUDGET
    decreases |Refs(c.root) - active|, Size(Object(fields)), |KEYWORDS| - k
  {
    hide KEYWORDS, ExpandChild, Expand, ExpandKeywords, NodesOfChild, NodesUnder, Refs;
    if k == |KEYWORDS| {
      assert KEYWORDS[k..] == [];
      NoKeywords(c, fields, copy, active, work);
      NodesOfNone(copy);
    } else {
      KeywordStep(c, fields, k, copy, active, work);
      var keyword := KEYWORDS[k];
      var whole := ExpandKeywords(c, fields, KEYWORDS[k..], copy, active, work);
      NodesStep(whole.value, k);
      forall j | k + 1 <= j < |KEYWORDS| ensures keyword.name != KEYWORDS[j].name { CodesDiffer(k, j); }
      if Has(fields, keyword.name) {
        var child := Lookup(fields, keyword.name).value;
        var r := ExpandChild(c, keyword.kind, child, active, work);
        LookupSmaller(fields, keyword.name);
        WorkOfChild(c, keyword.kind, child, active, work);
        var next := Replace(copy, keyword.name, r.value);
        forall name ensures Lookup(next, name) == if name == keyword.name then Some(r.value) else Lookup(copy, name) {
          LookupReplaced(copy, keyword.name, r.value, name);
        }
        WorkOfKeywords(c, fields, k + 1, next, active, r.work);
        KeywordsExpanded(c, fields, k + 1, next, active, r.work);
        Kept(c, active, fields, k + 1, next, whole.value, keyword.name);
      } else {
        WorkOfKeywords(c, fields, k + 1, copy, active, work);
        KeywordsExpanded(c, fields, k + 1, copy, active, work);
        Kept(c, active, fields, k + 1, copy, whole.value, keyword.name);
      }
    }
  }

  lemma Kept(c: Context, active: set<string>, fields: Fields, k: nat, copy: Fields, out: Fields, name: string)
    requires Processed(c, active, fields, k, copy, out) && forall j :: k <= j < |KEYWORDS| ==> name != KEYWORDS[j].name
    ensures Lookup(out, name) == Lookup(copy, name)
  {
    hide KEYWORDS, ExpandsChild, Shape, Lookup;
  }

  lemma NodesOfNone(fields: Fields)
    ensures NodesUnder(fields, []) == 0
  {
  }

  lemma NodesStep(fields: Fields, k: nat)
    requires k < |KEYWORDS| == 17
    ensures NodesUnder(fields, KEYWORDS[k..]) ==
            (if Has(fields, KEYWORDS[k].name) then NodesOfChild(KEYWORDS[k].kind, Lookup(fields, KEYWORDS[k].name).value) else 0)
            + NodesUnder(fields, KEYWORDS[k + 1..])
  {
    assert KEYWORDS[k..][0] == KEYWORDS[k] && KEYWORDS[k..][1..] == KEYWORDS[k + 1..];
    hide KEYWORDS, NodesOfChild;
  }

  lemma {:induction false} WorkOfChild(c: Context, kind: Kind, v: Value, active: set<string>, work: nat)
    requires Refs(v) <= Refs(c.root) && ExpandChild(c, kind, v, active, work).Done? && work <= BUDGET
    ensures var r := ExpandChild(c, kind, v, active, work); work + NodesOfChild(kind, r.value) <= r.work <= BUDGET
    decreases |Refs(c.root) - active|, Size(v), 21
  {
    hide Expand, ExpandChild, ExpandItems, ExpandMembers, Refs, SchemaNodes, NodesOfItems, NodesOfMembers;
    ChildStep(c, kind, v, active, work);
    if kind.Single? || (kind.Items? && !v.Array?) {
      WorkOfValue(c, v, active, work);
      ResultIsSchema(c, v, active, work);
    } else if kind.Items? || kind.Many? {
      WorkOfItems(c, v.items, active, work);
    } else {
      WorkOfMembers(c, v.fields, active, work, kind.Dependent?);
    }
  }

  lemma {:induction false} WorkOfItems(c: Context, items: seq<Value>, active: set<string>, work: nat)
    requires RefsOfItems(items) <= Refs(c.root) && ExpandItems(c, items, active, work).Done? && work <= BUDGET
    ensures var r := ExpandItems(c, items, active, work); work + NodesOfItems(r.value) <= r.work <= BUDGET
    decreases |Refs(c.root) - active|, SizeOfItems(items), 22
  {
    hide Expand, SchemaNodes, Refs;
    if items != [] {
      WorkOfValue(c, items[0], active, work);
      var first := Expand(c, items[0], active, work);
      WorkOfItems(c, items[1..], active, first.work);
      var rest := ExpandItems(c, items[1..], active, first.work);
      assert ([first.value] + rest.value)[1..] == rest.value;
    }
  }

  lemma {:induction false} WorkOfMembers(c: Context, fields: Fields, active: set<string>, work: nat, skipArrays: bool)
    requires RefsOfFields(fields) <= Refs(c.root) && ExpandMembers(c, fields, active, work, skipArrays).Done? && work <= BUDGET
    ensures var r := ExpandMembers(c, fields, active, work, skipArrays); work + NodesOfMembers(r.value, skipArrays) <= r.work <= BUDGET
    decreases |Refs(c.root) - active|, SizeOfFields(fields), 22
  {
    hide Expand, SchemaNodes, Refs;
    if fields != [] {
      var skipped := skipArrays && fields[0].value.Array?;
      if !skipped {
        WorkOfValue(c, fields[0].value, active, work);
        ResultIsSchema(c, fields[0].value, active, work);
      }
      var first := if skipped then Done(fields[0].value, work) else Expand(c, fields[0].value, active, work);
      WorkOfMembers(c, fields[1..], active, first.work, skipArrays);
      var rest := ExpandMembers(c, fields[1..], active, first.work, skipArrays);
      assert ([Field(fields[0].name, first.value)] + rest.value)[1..] == rest.value;
    }
  }

  // ---------- The guarantees ----------

  /** If `expand_schema_references` succeeds, its result has no reference at any schema position, it
      accepts exactly the instances the schema accepts with every reference resolved in the schema
      itself, and has at most as many schema nodes as the work returned, which is within the budget. */
  lemma SchemaExpanded(c: Context, rules: Rules, unknown: iset<Value>, fuel: nat)
    requires ExpandSchema(c).Done? && fuel >= |Refs(c.root)|
    ensures var x := ExpandSchema(c).value;
            && RefFree(x)
            && Meaning(rules, c.root, fuel, c.root) == Meaning(rules.(unknown := unknown), x, 0, x)
            && SchemaNodes(x) <= ExpandSchema(c).work <= BUDGET
  {
    var x := ExpandSchema(c).value;
    hide Expand, Meaning, RefFree, Refs, SchemaNodes;
    assert Refs(c.root) - {} == Refs(c.root);
    ExpansionPreserves(c, c.root, {}, 0, rules, unknown, x, fuel, 0);
    WorkOfValue(c, c.root, {}, 0);
  }

  /** Expanding a schema object leaves everything in it alone that is not a schema: keywords that
      hold none, the order and the names of its members, array dependencies. */
  lemma OthersUntouched(c: Context, v: Value, active: set<string>, work: nat, name: string)
    requires Refs(v) <= Refs(c.root) && v.Object? && !Has(v.fields, "$ref") && Expand(c, v, active, work).Done?
    ensures var x := Expand(c, v, active, work).value;
            && x.Object? && Shape(x.fields) == Shape(v.fields)
            && (KindOf(name).None? ==> Lookup(x.fields, name) == Lookup(v.fields, name))
  {
    hide Expand, ExpandKeywords, KEYWORDS, NodePolicy, Shape, KindOf, Sub, Expands, Refs;
    ObjectStep(c, v, active, work);
    ObjectExpanded(c, v.fields, active, work + NodePolicy(v.fields, c.compiles).value);
  }
}
