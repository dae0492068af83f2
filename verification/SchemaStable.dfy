/** Expansion is idempotent: an expanded schema expands to itself. */
module SchemaStable {
  import opened Wrappers
  import opened Json
  import opened SchemaExpansion
  import opened SchemaMeaning
  import opened SchemaWork

  // ---------- The policy looks at nothing that expansion changes ----------

  lemma {:induction false} ShapeLookup(fields: Fields, name: string)
    ensures Lookup(Shape(fields), name) ==
            if Has(fields, name) then Some(EraseField(Field(name, Lookup(fields, name).value)).value) else None
  {
    hide KindOf;
    if fields != [] {
      assert Shape(fields)[1..] == Shape(fields[1..]);
      ShapeLookup(fields[1..], name);
    }
  }

  /** Only the patterns are counted, not the schemas under them. */
  lemma {:induction false} PatternWorkOfNames(a: Fields, b: Fields, compiles: string -> bool)
    requires Blank(a, false) == Blank(b, false)
    ensures PatternWork(a, compiles) == PatternWork(b, compiles)
  {
    hide LinearPattern;
    assert a == [] <==> b == [];
    if a != [] {
      assert Blank(a, false)[0] == Blank(b, false)[0];
      assert Blank(a, false)[1..] == Blank(a[1..], false) && Blank(b, false)[1..] == Blank(b[1..], false);
      PatternWorkOfNames(a[1..], b[1..], compiles);
    }
  }

  lemma NamedPatternsKept(a: Fields, b: Fields, compiles: string -> bool)
    requires Shape(a) == Shape(b)
    ensures NamedPatternWork(a, compiles) == NamedPatternWork(b, compiles)
  {
    ShapeLookup(a, "patternProperties");
    ShapeLookup(b, "patternProperties");
    NamedAreNoOthers();
    hide KindOf, Shape;
    var x, y := Lookup(a, "patternProperties"), Lookup(b, "patternProperties");
    if x.Some? && y.Some? && x.value.Object? && y.value.Object? {
      PatternWorkOfNames(x.value.fields, y.value.fields, compiles);
    }
  }

  lemma PolicyNamesNoSchemas()
    ensures KindOf("$id").None? && KindOf("$schema").None? && KindOf("$ref").None?
    ensures KindOf("format").None? && KindOf("pattern").None?
  {
    RefIsNoKeyword();
    assert "$id"[0] != "not"[0];
  }

  lemma PolicyKept(a: Fields, b: Fields, compiles: string -> bool)
    requires Shape(a) == Shape(b) && forall name :: KindOf(name).None? ==> Lookup(b, name) == Lookup(a, name)
    ensures NodePolicy(a, compiles) == NodePolicy(b, compiles)
  {
    hide *;
    PolicyNamesNoSchemas();
    NamedPatternsKept(a, b, compiles);
    SamePolicy(a, b, compiles);
  }

  lemma SamePolicy(a: Fields, b: Fields, compiles: string -> bool)
    requires NamedPatternWork(a, compiles) == NamedPatternWork(b, compiles)
    requires Lookup(a, "$id") == Lookup(b, "$id") && Lookup(a, "$schema") == Lookup(b, "$schema") && Lookup(a, "$ref") == Lookup(b, "$ref")
    requires Lookup(a, "format") == Lookup(b, "format") && Lookup(a, "pattern") == Lookup(b, "pattern")
    ensures NodePolicy(a, compiles) == NodePolicy(b, compiles)
  {
    hide NamedPatternWork, Lookup, LinearPattern;
  }

  // ---------- Expanding again ----------

  /** `x` expands to itself in `d`, after `from` units of work, with at most `upTo` in the end. */
  ghost predicate Fixed(d: Context, x: Value, active: set<string>, from: nat, upTo: nat) {
    && Refs(x) <= Refs(d.root)
    && var again := Expand(d, x, active, from); again.Done? && again.value == x && again.work <= upTo
  }

  lemma {:induction false} ReplaceSame(fields: Fields, name: string)
    requires Has(fields, name)
    ensures Replace(fields, name, Lookup(fields, name).value) == fields
  {
    if fields[0].name == name {
      assert fields == [fields[0]] + fields[1..];
    } else {
      ReplaceSame(fields[1..], name);
      assert fields == [fields[0]] + fields[1..];
    }
  }

  /** What a value expanded to expands to itself, in any document, with no more work. */
  lemma {:induction false} ValueFixed(c: Context, v: Value, active: set<string>, work: nat, d: Context, active': set<string>, from: nat)
    requires Refs(v) <= Refs(c.root) && Expand(c, v, active, work).Done? && from <= work && d.compiles == c.compiles
    requires Refs(Expand(c, v, active, work).value) <= Refs(d.root)
    ensures var r := Expand(c, v, active, work); Fixed(d, r.value, active', from, r.work)
    decreases |Refs(c.root) - active|, Size(v), 20
  {
    hide *;
    OnlySchemas(c, v, active, work);
    if v.Bool? {
      BoolFixed(c, v, active, work, d, active', from);
    } else if Has(v.fields, "$ref") {
      ReferenceStep(c, v, active, work);
      var p := ReferenceOf(v.fields).value;
      ValueFixed(c, Resolve(c.root, p).value, active + {p}, work + NodePolicy(v.fields, c.compiles).value, d, active', from);
    } else {
      ObjectStep(c, v, active, work);
      var amount := NodePolicy(v.fields, c.compiles).value;
      var r := ExpandKeywords(c, v.fields, KEYWORDS, v.fields, active, work + amount);
      ObjectExpanded(c, v.fields, active, work + amount);
      SameObject(c, active, v.fields, r.value);
      PolicyKept(v.fields, r.value, c.compiles);
      assert KEYWORDS[0..] == KEYWORDS;
      KeywordsFixed(c, v.fields, 0, v.fields, active, work + amount, d, active', from + amount);
      ObjectFixed(d, r.value, active', from, amount, r.work);
    }
  }

  lemma SameObject(c: Context, active: set<string>, a: Fields, b: Fields)
    requires ObjectExpands(c, active, a, b)
    ensures Shape(a) == Shape(b) && Has(b, "$ref") == Has(a, "$ref")
    ensures forall name :: KindOf(name).None? ==> Lookup(b, name) == Lookup(a, name)
  {
    hide Shape, Lookup, KindOf, Sub, Expands;
  }

  lemma BoolFixed(c: Context, v: Value, active: set<string>, work: nat, d: Context, active': set<string>, from: nat)
    requires Refs(v) <= Refs(c.root) && v.Bool? && Expand(c, v, active, work).Done? && from <= work
    ensures var r := Expand(c, v, active, work); Fixed(d, r.value, active', from, r.work)
  {
  }

  lemma ObjectFixed(d: Context, fields: Fields, active: set<string>, from: nat, amount: nat, upTo: nat)
    requires Refs(Object(fields)) <= Refs(d.root) && !Has(fields, "$ref") && NodePolicy(fields, d.compiles) == Some(amount)
    requires from + amount <= BUDGET && |KEYWORDS| == 17
    requires var again := ExpandKeywords(d, fields, KEYWORDS, fields, active, from + amount);
             again.Done? && again.value == fields && again.work <= upTo
    ensures Fixed(d, Object(fields), active, from, upTo)
  {
    hide ExpandKeywords, KEYWORDS, NodePolicy, Lookup, Refs;
  }

  lemma {:induction false} KeywordsFixed(c: Context, fields: Fields, k: nat, copy: Fields, active: set<string>, work: nat,
                                         d: Context, active': set<string>, from: nat)
    requires Refs(Object(fields)) <= Refs(c.root) && k <= |KEYWORDS| == 17 && from <= work <= BUDGET && d.compiles == c.compiles
    requires ExpandKeywords(c, fields, KEYWORDS[k..], copy, active, work).Done?
    requires forall j :: k <= j < |KEYWORDS| ==> Lookup(copy, KEYWORDS[j].name) == Lookup(fields, KEYWORDS[j].name)
    requires Refs(Object(ExpandKeywords(c, fields, KEYWORDS[k..], copy, active, work).value)) <= Refs(d.root)
    ensures var r := ExpandKeywords(c, fields, KEYWORDS[k..], copy, active, work);
            var again := ExpandKeywords(d, r.value, KEYWORDS[k..], r.value, active', from);
            again.Done? && again.value == r.value && again.work <= r.work
    decreases |Refs(c.root) - active|, Size(Object(fields)), |KEYWORDS| - k
  {
    hide KEYWORDS, ExpandChild, Expand, ExpandKeywords, Refs;
    var whole := ExpandKeywords(c, fields, KEYWORDS[k..], copy, active, work);
    if k == |KEYWORDS| {
      assert KEYWORDS[k..] == [];
      NoKeywords(c, fields, copy, active, work);
      NoKeywords(d, copy, copy, active', from);
    } else {
      KeywordStep(c, fields, k, copy, active, work);
      var keyword := KEYWORDS[k];
      forall j | k + 1 <= j < |KEYWORDS| ensures keyword.name != KEYWORDS[j].name { CodesDiffer(k, j); }
      if Has(fields, keyword.name) {
        var child := Lookup(fields, keyword.name).value;
        var r := ExpandChild(c, keyword.kind, child, active, work);
        LookupSmaller(fields, keyword.name);
        WorkOfChild(c, keyword.kind, child, active, work);
        var next := Replace(copy, keyword.name, r.value);
        forall name ensures Lookup(next, name) == if name == keyword.name then Some(r.value) else Lookup(copy, name) {
          LookupReplaced(copy, keyword.name, r.value, name);
        }
        KeywordsExpanded(c, fields, k + 1, next, active, r.work);
        Kept(c, active, fields, k + 1, next, whole.value, keyword.name);
        PartOf(whole.value, keyword.name);
        ChildFixed(c, keyword.kind, child, active, work, d, active', from);
        KeywordsFixed(c, fields, k + 1, next, active, r.work, d, active', ExpandChild(d, keyword.kind, r.value, active', from).work);
        ReplaceSame(whole.value, keyword.name);
        KeywordAgain(d, whole.value, k, active', from);
      } else {
        KeywordsExpanded(c, fields, k + 1, copy, active, work);
        Kept(c, active, fields, k + 1, copy, whole.value, keyword.name);
        KeywordsFixed(c, fields, k + 1, copy, active, work, d, active', from);
        KeywordAgain(d, whole.value, k, active', from);
      }
    }
  }

  lemma PartOf(fields: Fields, name: string)
    requires Has(fields, name)
    ensures Refs(Lookup(fields, name).value) <= Refs(Object(fields))
  {
    RefsOfLookup(fields, name);
  }

  /** One keyword of an object that is expanded in place. */
  lemma KeywordAgain(d: Context, fields: Fields, k: nat, active: set<string>, from: nat)
    requires Refs(Object(fields)) <= Refs(d.root) && k < |KEYWORDS| == 17
    ensures var name, whole := KEYWORDS[k].name, ExpandKeywords(d, fields, KEYWORDS[k..], fields, active, from);
            if Has(fields, name) then
              var child := Lookup(fields, name).value;
              && Refs(child) <= Refs(d.root)
              && var r := ExpandChild(d, KEYWORDS[k].kind, child, active, from);
                 r.Done? ==> whole == ExpandKeywords(d, fields, KEYWORDS[k + 1..], Replace(fields, name, r.value), active, r.work)
            else whole == ExpandKeywords(d, fields, KEYWORDS[k + 1..], fields, active, from)
  {
    assert KEYWORDS[k..][0] == KEYWORDS[k] && KEYWORDS[k..][1..] == KEYWORDS[k + 1..];
    PartIfPresent(fields, KEYWORDS[k].name);
    hide KEYWORDS, ExpandChild, Replace, Refs;
  }

  lemma PartIfPresent(fields: Fields, name: string)
    ensures Has(fields, name) ==> Refs(Lookup(fields, name).value) <= Refs(Object(fields))
  {
    if Has(fields, name) { PartOf(fields, name); }
  }

  lemma {:induction false} ChildFixed(c: Context, kind: Kind, v: Value, active: set<string>, work: nat,
                                      d: Context, active': set<string>, from: nat)
    requires Refs(v) <= Refs(c.root) && ExpandChild(c, kind, v, active, work).Done? && from <= work <= BUDGET && d.compiles == c.compiles
    requires Refs(ExpandChild(c, kind, v, active, work).value) <= Refs(d.root)
    ensures var r := ExpandChild(c, kind, v, active, work);
            var again := ExpandChild(d, kind, r.value, active', from);
            again.Done? && again.value == r.value && again.work <= r.work
    decreases |Refs(c.root) - active|, Size(v), 21
  {
    hide Expand, ExpandItems, ExpandMembers;
    ChildStep(c, kind, v, active, work);
    if kind.Single? || (kind.Items? && !v.Array?) {
      ValueFixed(c, v, active, work, d, active', from);
      ResultIsSchema(c, v, active, work);
    } else if kind.Items? || kind.Many? {
      ItemsFixed(c, v.items, active, work, d, active', from);
    } else {
      MembersFixed(c, v.fields, active, work, kind.Dependent?, d, active', from);
    }
  }

  lemma {:induction false} ItemsFixed(c: Context, items: seq<Value>, active: set<string>, work: nat,
                                      d: Context, active': set<string>, from: nat)
    requires RefsOfItems(items) <= Refs(c.root) && ExpandItems(c, items, active, work).Done? && from <= work <= BUDGET
    requires d.compiles == c.compiles && RefsOfItems(ExpandItems(c, items, active, work).value) <= Refs(d.root)
    ensures var r := ExpandItems(c, items, active, work);
            var again := ExpandItems(d, r.value, active', from);
            again.Done? && again.value == r.value && again.work <= r.work
    decreases |Refs(c.root) - active|, SizeOfItems(items), 22
  {
    hide Expand, Refs;
    if items != [] {
      var first := Expand(c, items[0], active, work);
      var rest := ExpandItems(c, items[1..], active, first.work);
      assert ([first.value] + rest.value)[1..] == rest.value;
      WorkOfValue(c, items[0], active, work);
      ValueFixed(c, items[0], active, work, d, active', from);
      ItemsFixed(c, items[1..], active, first.work, d, active', Expand(d, first.value, active', from).work);
    }
  }

  lemma {:induction false} MembersFixed(c: Context, fields: Fields, active: set<string>, work: nat, skipArrays: bool,
                                        d: Context, active': set<string>, from: nat)
    requires RefsOfFields(fields) <= Refs(c.root) && ExpandMembers(c, fields, active, work, skipArrays).Done? && from <= work <= BUDGET
    requires d.compiles == c.compiles && RefsOfFields(ExpandMembers(c, fields, active, work, skipArrays).value) <= Refs(d.root)
    ensures var r := ExpandMembers(c, fields, active, work, skipArrays);
            var again := ExpandMembers(d, r.value, active', from, skipArrays);
            again.Done? && again.value == r.value && again.work <= r.work
    decreases |Refs(c.root) - active|, SizeOfFields(fields), 22
  {
    hide Expand, Refs;
    if fields != [] {
      var v, skipped := fields[0].value, skipArrays && fields[0].value.Array?;
      var first := if skipped then Done(v, work) else Expand(c, v, active, work);
      var rest := ExpandMembers(c, fields[1..], active, first.work, skipArrays);
      assert ([Field(fields[0].name, first.value)] + rest.value)[1..] == rest.value;
      if skipped {
        MembersFixed(c, fields[1..], active, work, skipArrays, d, active', from);
      } else {
        WorkOfValue(c, v, active, work);
        ResultIsSchema(c, v, active, work);
        ValueFixed(c, v, active, work, d, active', from);
        MembersFixed(c, fields[1..], active, first.work, skipArrays, d, active', Expand(d, first.value, active', from).work);
      }
    }
  }

  /** Expanding an expanded schema succeeds, changes nothing and costs no more. In particular every
      schema node of the result satisfies the node policy, and no budget is needed beyond the first. */
  lemma ExpandedTwice(c: Context)
    requires ExpandSchema(c).Done?
    ensures var once := ExpandSchema(c);
            var twice := ExpandSchema(Context(once.value, c.compiles));
            twice.Done? && twice.value == once.value && twice.work <= once.work
  {
    hide Expand, Refs;
    ValueFixed(c, c.root, {}, 0, Context(ExpandSchema(c).value, c.compiles), {}, 0);
  }
}
