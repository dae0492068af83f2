/** What a Draft 7 schema accepts, and that expansion does not change it. */
module SchemaMeaning {
  import opened Wrappers
  import opened Json
  import opened SchemaExpansion

  // ---------- Where a schema object holds schemas ----------

  datatype Position = Whole(keyword: string) | At(keyword: string, index: nat) | Under(keyword: string, name: string)

  /** The keywords of Draft 7 that apply or hold schemas (and `$defs`, its later name for
      `definitions`), by the form of their value. */
  function KindOf(name: string): Option<Kind> {
    if name == "additionalItems" || name == "additionalProperties" || name == "contains" || name == "else" || name == "if"
       || name == "not" || name == "propertyNames" || name == "then" then Some(Single)
    else if name == "items" then Some(Items)
    else if name == "allOf" || name == "anyOf" || name == "oneOf" then Some(Many)
    else if name == "$defs" || name == "definitions" || name == "patternProperties" || name == "properties" then Some(Named)
    else if name == "dependencies" then Some(Dependent)
    else None
  }

  /** The schema at a position within the value of a keyword. */
  function SubOfChild(kind: Kind, child: Value, p: Position): (r: Option<Value>)
    ensures r.Some? ==> Size(r.value) <= Size(child)
  {
    match (kind, p)
    case (Single, Whole(_)) => Some(child)
    case (Items, Whole(_)) => if child.Array? then None else Some(child)
    case (Items, At(_, i)) => Element(child, i)
    case (Many, At(_, i)) => Element(child, i)
    case (Named, Under(_, n)) => MemberOf(child, n)
    case (Dependent, Under(_, n)) =>
      if MemberOf(child, n).Some? && !MemberOf(child, n).value.Array? then MemberOf(child, n) else None
    case _ => None
  }

  function Element(v: Value, i: nat): (r: Option<Value>)
    ensures r.Some? ==> Size(r.value) < Size(v)
  {
    if v.Array? && i < |v.items| then (ItemSmaller(v.items, i); Some(v.items[i])) else None
  }

  function MemberOf(v: Value, name: string): (r: Option<Value>)
    ensures r.Some? ==> Size(r.value) < Size(v)
  {
    if v.Object? && Has(v.fields, name) then (LookupSmaller(v.fields, name); Lookup(v.fields, name)) else None
  }

  function Sub(fields: Fields, p: Position): (r: Option<Value>)
    ensures r.Some? ==> Size(r.value) < Size(Object(fields))
  {
    var kind := KindOf(p.keyword);
    if kind.None? || !Has(fields, p.keyword) then None
    else
      LookupSmaller(fields, p.keyword);
      SubOfChild(kind.value, Lookup(fields, p.keyword).value, p)
  }

  // ---------- The rest of the object ----------

  function Blank(fields: Fields, keepArrays: bool): Fields {
    if fields == [] then []
    else [Field(fields[0].name, if keepArrays && fields[0].value.Array? then fields[0].value else Null)] + Blank(fields[1..], keepArrays)
  }

  /** The value of a keyword without the schemas in it. */
  function Erase(kind: Kind, child: Value): Value {
    match kind
    case Single => Null
    case Items => if child.Array? then Array(seq(|child.items|, _ => Null)) else Null
    case Many => if child.Array? then Array(seq(|child.items|, _ => Null)) else child
    case Named => if child.Object? then Object(Blank(child.fields, false)) else child
    case Dependent => if child.Object? then Object(Blank(child.fields, true)) else child
  }

  function EraseField(f: Field): Field {
    if KindOf(f.name).Some? then Field(f.name, Erase(KindOf(f.name).value, f.value)) else f
  }

  /** Everything in a schema object but the schemas: all other keywords, how many schemas each array
      holds, under which names, and the dependencies that are lists of names. */
  function Shape(fields: Fields): Fields {
    if fields == [] then [] else [EraseField(fields[0])] + Shape(fields[1..])
  }

  // ---------- Meaning ----------

  /** The parts of validation that are not about subschemas or references: the assertions of a
      single object (types, enumerations, bounds, formats, required names, ...), regular expressions,
      and what a reference that cannot be resolved is taken to accept. */
  datatype Rules = Rules(assertions: (Fields, Value) -> bool, matches: (string, string) -> bool, unknown: iset<Value>)

  type Meanings = imap<Position, iset<Value>>

  ghost predicate Allows(m: Meanings, p: Position, x: Value) { p in m ==> x in m[p] }

  /** Keywords that apply schemas to the instance itself. */
  ghost predicate InPlace(shape: Fields, m: Meanings, x: Value) {
    && (Whole("not") in m ==> x !in m[Whole("not")])
    && (Whole("if") in m ==> if x in m[Whole("if")] then Allows(m, Whole("then"), x) else Allows(m, Whole("else"), x))
    && (forall i :: Allows(m, At("allOf", i), x))
    && (Has(shape, "anyOf") ==> exists i :: At("anyOf", i) in m && x in m[At("anyOf", i)])
    && (Has(shape, "oneOf") ==> exists i :: At("oneOf", i) in m && x in m[At("oneOf", i)]
                                           && forall j :: At("oneOf", j) in m && x in m[At("oneOf", j)] ==> j == i)
  }

  /** Keywords that apply schemas to the elements of an array. */
  ghost predicate Elements(shape: Fields, m: Meanings, items: seq<Value>) {
    && (forall i :: 0 <= i < |items| ==> Allows(m, Whole("items"), items[i]) && Allows(m, At("items", i), items[i]))
    && (MemberOf(Object(shape), "items").Some? && MemberOf(Object(shape), "items").value.Array? ==>
          forall i :: 0 <= i < |items| && At("items", i) !in m ==> Allows(m, Whole("additionalItems"), items[i]))
    && (Whole("contains") in m ==> exists i :: 0 <= i < |items| && items[i] in m[Whole("contains")])
  }

  /** Keywords that apply schemas to the members of an object, or because a member is present. */
  ghost predicate Members(rules: Rules, m: Meanings, fields: Fields, x: Value) {
    && (forall i :: 0 <= i < |fields| ==> Member(rules, m, fields[i]))
    && (forall n :: Has(fields, n) ==> Allows(m, Under("dependencies", n), x))
  }

  ghost predicate Member(rules: Rules, m: Meanings, f: Field) {
    && Allows(m, Whole("propertyNames"), String(f.name))
    && Allows(m, Under("properties", f.name), f.value)
    && (forall r :: rules.matches(r, f.name) ==> Allows(m, Under("patternProperties", r), f.value))
    && (Under("properties", f.name) !in m && (forall r :: rules.matches(r, f.name) ==> Under("patternProperties", r) !in m) ==>
          Allows(m, Whole("additionalProperties"), f.value))
  }

  ghost predicate Accepts(rules: Rules, shape: Fields, m: Meanings, x: Value) {
    && rules.assertions(shape, x)
    && InPlace(shape, m, x)
    && (x.Array? ==> Elements(shape, m, x.items))
    && (x.Object? ==> Members(rules, m, x.fields, x))
  }

  ghost function Everything(): iset<Value> { iset x: Value | Size(x) >= 0 }

  ghost function ObjectMeaning(rules: Rules, shape: Fields, m: Meanings): iset<Value> {
    iset x: Value | Accepts(rules, shape, m, x)
  }

  /** The instances a schema accepts. A reference stands for what it points to in `root`, whatever
      else is beside it; `fuel` bounds how many references are followed one after another. */
  ghost function Meaning(rules: Rules, root: Value, fuel: nat, v: Value): iset<Value>
    decreases fuel, Size(v), 1
  {
    match v
    case Bool(b) => if b then Everything() else iset{}
    case Object(fields) =>
      if Has(fields, "$ref") then
        var p := ReferenceOf(fields);
        var target := if p.Some? then Resolve(root, p.value) else None;
        if fuel == 0 || target.None? then rules.unknown else Meaning(rules, root, fuel - 1, target.value)
      else ObjectMeaning(rules, Shape(fields), SubMeanings(rules, root, fuel, fields))
    case _ => rules.unknown
  }

  ghost function SubMeanings(rules: Rules, root: Value, fuel: nat, fields: Fields): Meanings
    decreases fuel, Size(Object(fields)), 0
  {
    imap p | Sub(fields, p).Some? :: Meaning(rules, root, fuel, Sub(fields, p).value)
  }

  /** No schema position holds a reference. */
  ghost predicate RefFree(v: Value)
    decreases Size(v)
  {
    match v
    case Bool(_) => true
    case Object(fields) =>
      && !Has(fields, "$ref")
      && forall p :: Sub(fields, p).Some? ==> RefFree(Sub(fields, p).value)
    case _ => false
  }

  // ---------- Keywords are distinct ----------

  /** Tells the keywords apart. */
  function Code(name: string): int {
    if |name| == 4 then (if name[0] == 'e' then -1 else if name[0] == 't' then -2 else -8)
    else if |name| == 5 then
      (if name[0] == 'i' then -3 else if name[0] == 'o' then -4 else if name[0] == '$' then -5
       else if name[1] == 'l' then -6 else -7)
    else |name|
  }

  lemma {:induction false} CodesDiffer(i: nat, j: nat)
    requires i < j < |KEYWORDS|
    ensures KEYWORDS[i].name != KEYWORDS[j].name
  {
    assert Code(KEYWORDS[i].name) != Code(KEYWORDS[j].name);
  }

  /** The expansion visits no keyword that does not hold schemas, and each in its proper form. */
  lemma KindFound(i: nat)
    requires i < |KEYWORDS|
    ensures KindOf(KEYWORDS[i].name) == Some(KEYWORDS[i].kind)
  {
    if i == 8 {
      ItemsIsNoOther();
    } else if 9 <= i < 12 {
      ManyAreNoOthers();
    } else if 12 <= i < 16 {
      NamedAreNoOthers();
    } else if i == 16 {
      DependenciesIsNoOther();
    }
  }

  lemma ItemsIsNoOther()
    ensures KindOf("items") == Some(Items)
  {
    assert Code("items") == -3;
  }

  lemma ManyAreNoOthers()
    ensures KindOf("allOf") == KindOf("anyOf") == KindOf("oneOf") == Some(Many)
  {
    assert Code("allOf") == -6 && Code("anyOf") == -7 && Code("oneOf") == -4 && Code("items") == -3;
  }

  lemma NamedAreNoOthers()
    ensures KindOf("$defs") == KindOf("definitions") == KindOf("patternProperties") == KindOf("properties") == Some(Named)
  {
    assert Code("allOf") == -6 && Code("anyOf") == -7 && Code("oneOf") == -4 && Code("items") == -3 && Code("$defs") == -5;
  }

  lemma DependenciesIsNoOther()
    ensures KindOf("dependencies") == Some(Dependent)
  {
  }

  /** The expansion visits every keyword that holds schemas. */
  lemma KeywordIndex(name: string)
    requires KindOf(name).Some?
    ensures exists j: nat :: j < |KEYWORDS| && KEYWORDS[j] == Keyword(name, KindOf(name).value)
  {
    var j: nat :| j < |KEYWORDS| && KEYWORDS[j].name == name by { NameIndex(name); }
    KindFound(j);
  }

  lemma NameIndex(name: string)
    requires KindOf(name).Some?
    ensures exists j: nat :: j < |KEYWORDS| && KEYWORDS[j].name == name
  {
    var j: nat := if name == "additionalItems" then 0 else if name == "additionalProperties" then 1 else if name == "contains" then 2
                  else if name == "else" then 3 else if name == "if" then 4 else if name == "not" then 5
                  else if name == "propertyNames" then 6 else if name == "then" then 7 else if name == "items" then 8
                  else if name == "allOf" then 9 else if name == "anyOf" then 10 else if name == "oneOf" then 11
                  else if name == "$defs" then 12 else if name == "definitions" then 13 else if name == "patternProperties" then 14
                  else if name == "properties" then 15 else 16;
    assert KEYWORDS[j].name == name;
  }

  // ---------- Results of successful expansions ----------

  /** `x` is the expansion of `v`, for some amount of work spent before. */
  ghost predicate Expands(c: Context, active: set<string>, v: Value, x: Value) {
    Refs(v) <= Refs(c.root) && exists w: nat, w': nat :: Expand(c, v, active, w) == Done(x, w')
  }

  ghost predicate ExpandsChild(c: Context, active: set<string>, kind: Kind, v: Value, x: Value) {
    Refs(v) <= Refs(c.root) && exists w: nat, w': nat :: ExpandChild(c, kind, v, active, w) == Done(x, w')
  }

  lemma ExpansionIsSchema(c: Context, active: set<string>, v: Value, x: Value)
    requires Expands(c, active, v, x)
    ensures x.Object? || x.Bool?
  {
    var w: nat, w': nat :| Expand(c, v, active, w) == Done(x, w');
    ResultIsSchema(c, v, active, w);
  }

  /** A successful expansion of a reference is that of its target. */
  lemma ReferenceStep(c: Context, v: Value, active: set<string>, work: nat)
    requires Refs(v) <= Refs(c.root) && v.Object? && Has(v.fields, "$ref") && Expand(c, v, active, work).Done?
    ensures ReferenceOf(v.fields).Some? && NodePolicy(v.fields, c.compiles).Some?
    ensures var p := ReferenceOf(v.fields).value;
            && p !in active && p in Refs(c.root) && |Refs(c.root) - (active + {p})| < |Refs(c.root) - active|
            && Resolve(c.root, p).Some? && Refs(Resolve(c.root, p).value) <= Refs(c.root)
            && Expand(c, v, active, work) == Expand(c, Resolve(c.root, p).value, active + {p}, work + NodePolicy(v.fields, c.compiles).value)
            && work < work + NodePolicy(v.fields, c.compiles).value <= BUDGET
  {
    hide NodePolicy, ReferenceOf, Resolve, ExpandKeywords, ExpandChild;
    var p := ReferenceOf(v.fields).value;
    FewerLeft(Refs(c.root), active, p);
    RefsOfTarget(c.root, p);
  }

  lemma ObjectStep(c: Context, v: Value, active: set<string>, work: nat)
    requires Refs(v) <= Refs(c.root) && v.Object? && !Has(v.fields, "$ref") && Expand(c, v, active, work).Done?
    ensures NodePolicy(v.fields, c.compiles).Some? && work < work + NodePolicy(v.fields, c.compiles).value <= BUDGET
    ensures |KEYWORDS| == 17
    ensures var r := ExpandKeywords(c, v.fields, KEYWORDS, v.fields, active, work + NodePolicy(v.fields, c.compiles).value);
            r.Done? && Expand(c, v, active, work) == Done(Object(r.value), r.work)
  {
    hide NodePolicy, ReferenceOf, Resolve, ExpandKeywords, ExpandChild;
  }

  lemma ChildStep(c: Context, kind: Kind, v: Value, active: set<string>, work: nat)
    requires Refs(v) <= Refs(c.root) && ExpandChild(c, kind, v, active, work).Done?
    ensures kind.Single? || (kind.Items? && !v.Array?) ==> ExpandChild(c, kind, v, active, work) == Expand(c, v, active, work)
    ensures (kind.Items? && v.Array?) || kind.Many? ==>
              && v.Array? && RefsOfItems(v.items) <= Refs(c.root) && ExpandItems(c, v.items, active, work).Done?
              && ExpandChild(c, kind, v, active, work)
                 == Done(Array(ExpandItems(c, v.items, active, work).value), ExpandItems(c, v.items, active, work).work)
    ensures kind.Named? || kind.Dependent? ==>
              && v.Object? && RefsOfFields(v.fields) <= Refs(c.root)
              && var r := ExpandMembers(c, v.fields, active, work, kind.Dependent?);
                 r.Done? && ExpandChild(c, kind, v, active, work) == Done(Object(r.value), r.work)
  {
    hide Expand, ExpandItems, ExpandMembers;
  }

  lemma {:induction false} ResultIsSchema(c: Context, v: Value, active: set<string>, work: nat)
    requires Refs(v) <= Refs(c.root) && Expand(c, v, active, work).Done?
    ensures Expand(c, v, active, work).value.Object? || Expand(c, v, active, work).value.Bool?
    decreases |Refs(c.root) - active|
  {
    if v.Object? && Has(v.fields, "$ref") {
      ReferenceStep(c, v, active, work);
      hide Expand;
      var p := ReferenceOf(v.fields).value;
      ResultIsSchema(c, Resolve(c.root, p).value, active + {p}, work + NodePolicy(v.fields, c.compiles).value);
    } else if v.Object? {
      ObjectStep(c, v, active, work);
      hide Expand;
    }
  }

  lemma {:induction false} ItemsExpanded(c: Context, items: seq<Value>, active: set<string>, work: nat)
    requires RefsOfItems(items) <= Refs(c.root) && ExpandItems(c, items, active, work).Done?
    ensures var r := ExpandItems(c, items, active, work).value;
            |r| == |items| && forall i :: 0 <= i < |items| ==> Expands(c, active, items[i], r[i])
    decreases items
  {
    if items != [] {
      var first := Expand(c, items[0], active, work);
      ItemsExpanded(c, items[1..], active, first.work);
      var r := ExpandItems(c, items, active, work).value;
      forall i | 0 <= i < |items| ensures Expands(c, active, items[i], r[i]) {
        if i > 0 { assert items[i] == items[1..][i - 1] && r[i] == r[1..][i - 1]; }
      }
    }
  }

  /** Member by member, keeping names, order and (for dependencies) lists of names. */
  ghost predicate MembersExpand(c: Context, active: set<string>, skipArrays: bool, a: Fields, b: Fields) {
    && |a| == |b|
    && forall i :: 0 <= i < |a| ==>
         && a[i].name == b[i].name
         && if skipArrays && a[i].value.Array? then b[i].value == a[i].value else Expands(c, active, a[i].value, b[i].value)
  }

  lemma {:induction false} MembersExpanded(c: Context, fields: Fields, active: set<string>, work: nat, skipArrays: bool)
    requires RefsOfFields(fields) <= Refs(c.root) && ExpandMembers(c, fields, active, work, skipArrays).Done?
    ensures MembersExpand(c, active, skipArrays, fields, ExpandMembers(c, fields, active, work, skipArrays).value)
    decreases fields
  {
    if fields != [] {
      var skipped := skipArrays && fields[0].value.Array?;
      var first := if skipped then Done(fields[0].value, work) else Expand(c, fields[0].value, active, work);
      MembersExpanded(c, fields[1..], active, first.work, skipArrays);
      var r := ExpandMembers(c, fields, active, work, skipArrays).value;
      assert r == [Field(fields[0].name, first.value)] + ExpandMembers(c, fields[1..], active, first.work, skipArrays).value;
      forall i | 0 <= i < |fields|
        ensures fields[i].name == r[i].name
        ensures if skipArrays && fields[i].value.Array? then r[i].value == fields[i].value else Expands(c, active, fields[i].value, r[i].value)
      {
        if i > 0 { assert fields[i] == fields[1..][i - 1] && r[i] == r[1..][i - 1]; }
      }
    }
  }

  lemma {:induction false} LookupExpanded(c: Context, active: set<string>, skipArrays: bool, a: Fields, b: Fields, name: string)
    requires MembersExpand(c, active, skipArrays, a, b)
    ensures Has(a, name) <==> Has(b, name)
    ensures Has(a, name) ==>
              var (x, y) := (Lookup(a, name).value, Lookup(b, name).value);
              if skipArrays && x.Array? then y == x else Expands(c, active, x, y)
    decreases a
  {
    if a != [] && a[0].name != name {
      assert MembersExpand(c, active, skipArrays, a[1..], b[1..]);
      LookupExpanded(c, active, skipArrays, a[1..], b[1..], name);
    }
  }

  lemma {:induction false} BlankExpanded(c: Context, active: set<string>, skipArrays: bool, a: Fields, b: Fields)
    requires MembersExpand(c, active, skipArrays, a, b)
    ensures Blank(a, skipArrays) == Blank(b, skipArrays)
    decreases a
  {
    if a != [] {
      assert MembersExpand(c, active, skipArrays, a[1..], b[1..]);
      BlankExpanded(c, active, skipArrays, a[1..], b[1..]);
      if skipArrays && !a[0].value.Array? { ExpansionIsSchema(c, active, a[0].value, b[0].value); }
    }
  }

  /** At every position the schema became its expansion; positions, and everything else, stayed. */
  ghost predicate SameBesides(c: Context, active: set<string>, kind: Kind, v: Value, x: Value) {
    && Erase(kind, x) == Erase(kind, v)
    && forall p :: SubOfChild(kind, v, p).Some? == SubOfChild(kind, x, p).Some?
                   && (SubOfChild(kind, v, p).Some? ==> Expands(c, active, SubOfChild(kind, v, p).value, SubOfChild(kind, x, p).value))
  }

  lemma ChildExpanded(c: Context, active: set<string>, kind: Kind, v: Value, x: Value)
    requires ExpandsChild(c, active, kind, v, x)
    ensures SameBesides(c, active, kind, v, x)
  {
    hide Expand, ExpandChild, ExpandItems, ExpandMembers, Refs;
    var w: nat, w': nat :| ExpandChild(c, kind, v, active, w) == Done(x, w');
    ChildStep(c, kind, v, active, w);
    if (kind.Items? && !v.Array?) || kind.Single? {
      assert Expands(c, active, v, x);
      ExpansionIsSchema(c, active, v, x);
    } else if kind.Items? || kind.Many? {
      ItemsExpanded(c, v.items, active, w);
      assert |v.items| == |x.items|;
    } else {
      MembersExpanded(c, v.fields, active, w, kind.Dependent?);
      BlankExpanded(c, active, kind.Dependent?, v.fields, x.fields);
      MembersSame(c, active, kind, v, x);
    }
  }

  lemma MembersSame(c: Context, active: set<string>, kind: Kind, v: Value, x: Value)
    requires (kind.Named? || kind.Dependent?) && v.Object? && x.Object?
    requires MembersExpand(c, active, kind.Dependent?, v.fields, x.fields)
    requires Blank(v.fields, kind.Dependent?) == Blank(x.fields, kind.Dependent?)
    ensures SameBesides(c, active, kind, v, x)
  {
    forall p ensures SubOfChild(kind, v, p).Some? == SubOfChild(kind, x, p).Some?
                     && (SubOfChild(kind, v, p).Some? ==> Expands(c, active, SubOfChild(kind, v, p).value, SubOfChild(kind, x, p).value))
    {
      if p.Under? {
        LookupExpanded(c, active, kind.Dependent?, v.fields, x.fields, p.name);
        if Has(v.fields, p.name) && kind.Dependent? && !Lookup(v.fields, p.name).value.Array? {
          ExpansionIsSchema(c, active, Lookup(v.fields, p.name).value, Lookup(x.fields, p.name).value);
        }
      }
    }
  }

  // ---------- All keywords of an object ----------

  lemma {:induction false} ShapeReplaced(fields: Fields, name: string, v: Value)
    requires KindOf(name).Some? && Has(fields, name)
    requires Erase(KindOf(name).value, v) == Erase(KindOf(name).value, Lookup(fields, name).value)
    ensures Shape(Replace(fields, name, v)) == Shape(fields)
  {
    hide KindOf, Erase;
    var r := Replace(fields, name, v);
    if fields[0].name == name {
      assert r[1..] == fields[1..];
    } else {
      ShapeReplaced(fields[1..], name, v);
      assert r[1..] == Replace(fields[1..], name, v);
    }
  }

  /** The object after the keywords from `k` on were expanded into `copy`. */
  ghost predicate Processed(c: Context, active: set<string>, fields: Fields, k: nat, copy: Fields, out: Fields) {
    && Shape(out) == Shape(copy)
    && (forall j :: k <= j < |KEYWORDS| && Has(fields, KEYWORDS[j].name) ==>
          && Has(out, KEYWORDS[j].name)
          && ExpandsChild(c, active, KEYWORDS[j].kind, Lookup(fields, KEYWORDS[j].name).value, Lookup(out, KEYWORDS[j].name).value))
    && (forall name :: (forall j :: k <= j < |KEYWORDS| ==> name != KEYWORDS[j].name) ==> Lookup(out, name) == Lookup(copy, name))
    && (forall j :: k <= j < |KEYWORDS| && !Has(fields, KEYWORDS[j].name) ==> Lookup(out, KEYWORDS[j].name) == Lookup(copy, KEYWORDS[j].name))
  }

  /** The first keyword is present: it is expanded and the rest follows. */
  lemma KeywordStep(c: Context, fields: Fields, k: nat, copy: Fields, active: set<string>, work: nat)
    requires Refs(Object(fields)) <= Refs(c.root) && k < |KEYWORDS| == 17
    requires ExpandKeywords(c, fields, KEYWORDS[k..], copy, active, work).Done?
    ensures var keyword, whole := KEYWORDS[k], ExpandKeywords(c, fields, KEYWORDS[k..], copy, active, work);
            if Has(fields, keyword.name) then
              var child := Lookup(fields, keyword.name).value;
              && Refs(child) <= Refs(c.root)
              && var r := ExpandChild(c, keyword.kind, child, active, work);
                 && r.Done?
                 && whole == ExpandKeywords(c, fields, KEYWORDS[k + 1..], Replace(copy, keyword.name, r.value), active, r.work)
            else whole == ExpandKeywords(c, fields, KEYWORDS[k + 1..], copy, active, work)
  {
    assert KEYWORDS[k..][0] == KEYWORDS[k] && KEYWORDS[k..][1..] == KEYWORDS[k + 1..];
    RefsOfLookup(fields, KEYWORDS[k].name);
    hide KEYWORDS, ExpandChild, Replace;
  }

  lemma {:induction false} KeywordsExpanded(c: Context, fields: Fields, k: nat, copy: Fields, active: set<string>, work: nat)
    requires Refs(Object(fields)) <= Refs(c.root) && k <= |KEYWORDS| == 17
    requires ExpandKeywords(c, fields, KEYWORDS[k..], copy, active, work).Done?
    requires forall j :: k <= j < |KEYWORDS| ==> Lookup(copy, KEYWORDS[j].name) == Lookup(fields, KEYWORDS[j].name)
    ensures Processed(c, active, fields, k, copy, ExpandKeywords(c, fields, KEYWORDS[k..], copy, active, work).value)
    decreases |KEYWORDS| - k
  {
    hide KEYWORDS, ExpandChild, Expand, ExpandKeywords, Processed;
    if k == |KEYWORDS| {
      NoKeywords(c, fields, copy, active, work);
      assert KEYWORDS[k..] == [];
    } else {
      KeywordStep(c, fields, k, copy, active, work);
      var keyword := KEYWORDS[k];
      var out := ExpandKeywords(c, fields, KEYWORDS[k..], copy, active, work).value;
      forall j | k + 1 <= j < |KEYWORDS| ensures keyword.name != KEYWORDS[j].name { CodesDiffer(k, j); }
      if Has(fields, keyword.name) {
        var child := Lookup(fields, keyword.name).value;
        var r := ExpandChild(c, keyword.kind, child, active, work);
        var next := Replace(copy, keyword.name, r.value);
        forall name ensures Lookup(next, name) == if name == keyword.name then Some(r.value) else Lookup(copy, name) {
          LookupReplaced(copy, keyword.name, r.value, name);
        }
        KeywordsExpanded(c, fields, k + 1, next, active, r.work);
        assert ExpandsChild(c, active, keyword.kind, child, r.value);
        ChildExpanded(c, active, keyword.kind, child, r.value);
        KindFound(k);
        ShapeReplaced(copy, keyword.name, r.value);
        ProcessedMore(c, active, fields, k, copy, next, out, r.value);
      } else {
        KeywordsExpanded(c, fields, k + 1, copy, active, work);
        ProcessedNone(c, active, fields, k, copy, out);
      }
    }
  }

  lemma NoKeywords(c: Context, fields: Fields, copy: Fields, active: set<string>, work: nat)
    requires Refs(Object(fields)) <= Refs(c.root)
    ensures ExpandKeywords(c, fields, [], copy, active, work) == Done(copy, work)
    ensures Processed(c, active, fields, |KEYWORDS|, copy, copy)
  {
    hide KEYWORDS;
  }

  lemma ProcessedMore(c: Context, active: set<string>, fields: Fields, k: nat, copy: Fields, next: Fields, out: Fields, v: Value)
    requires k < |KEYWORDS| && Processed(c, active, fields, k + 1, next, out) && Shape(next) == Shape(copy)
    requires Has(fields, KEYWORDS[k].name) && ExpandsChild(c, active, KEYWORDS[k].kind, Lookup(fields, KEYWORDS[k].name).value, v)
    requires forall name :: Lookup(next, name) == if name == KEYWORDS[k].name then Some(v) else Lookup(copy, name)
    requires forall j :: k + 1 <= j < |KEYWORDS| ==> KEYWORDS[k].name != KEYWORDS[j].name
    ensures Processed(c, active, fields, k, copy, out)
  {
    hide KEYWORDS, ExpandsChild, Shape, Lookup;
    assert Lookup(out, KEYWORDS[k].name) == Some(v);
  }

  lemma ProcessedNone(c: Context, active: set<string>, fields: Fields, k: nat, copy: Fields, out: Fields)
    requires k < |KEYWORDS| && Processed(c, active, fields, k + 1, copy, out) && !Has(fields, KEYWORDS[k].name)
    requires forall j :: k + 1 <= j < |KEYWORDS| ==> KEYWORDS[k].name != KEYWORDS[j].name
    ensures Processed(c, active, fields, k, copy, out)
  {
    hide KEYWORDS, ExpandsChild, Shape, Lookup;
  }

  /** An object and its expansion: the same besides the schemas, which are expanded one by one. */
  ghost predicate ObjectExpands(c: Context, active: set<string>, a: Fields, b: Fields) {
    && Shape(a) == Shape(b) && Has(b, "$ref") == Has(a, "$ref")
    && (forall name :: KindOf(name).None? ==> Lookup(b, name) == Lookup(a, name))
    && forall p :: Sub(a, p).Some? == Sub(b, p).Some? && (Sub(a, p).Some? ==> Expands(c, active, Sub(a, p).value, Sub(b, p).value))
  }

  lemma ObjectExpanded(c: Context, fields: Fields, active: set<string>, work: nat)
    requires Refs(Object(fields)) <= Refs(c.root) && |KEYWORDS| == 17
    requires ExpandKeywords(c, fields, KEYWORDS, fields, active, work).Done?
    ensures ObjectExpands(c, active, fields, ExpandKeywords(c, fields, KEYWORDS, fields, active, work).value)
  {
    hide *;
    assert KEYWORDS[0..] == KEYWORDS;
    KeywordsExpanded(c, fields, 0, fields, active, work);
    var out := ExpandKeywords(c, fields, KEYWORDS, fields, active, work).value;
    OthersKept(c, active, fields, out);
    forall p ensures Sub(fields, p).Some? == Sub(out, p).Some?
                     && (Sub(fields, p).Some? ==> Expands(c, active, Sub(fields, p).value, Sub(out, p).value)) {
      SubExpanded(c, active, fields, out, p);
    }
    ExpandsParts(c, active, fields, out);
  }

  lemma ExpandsParts(c: Context, active: set<string>, a: Fields, b: Fields)
    requires Shape(a) == Shape(b) && Has(b, "$ref") == Has(a, "$ref")
    requires forall name :: KindOf(name).None? ==> Lookup(b, name) == Lookup(a, name)
    requires forall p :: Sub(a, p).Some? == Sub(b, p).Some? && (Sub(a, p).Some? ==> Expands(c, active, Sub(a, p).value, Sub(b, p).value))
    ensures ObjectExpands(c, active, a, b)
  {
    hide Shape, Lookup, KindOf, Sub, Expands, Has;
  }

  lemma RefIsNoKeyword()
    ensures KindOf("$ref").None?
  {
    if KindOf("$ref").Some? {
      KeywordIndex("$ref");
      hide KindOf;
      var j: nat :| j < |KEYWORDS| && KEYWORDS[j].name == "$ref";
      assert Code(KEYWORDS[j].name) == -8;
      NoCode(j);
    }
  }

  lemma NoCode(j: nat)
    requires j < |KEYWORDS|
    ensures Code(KEYWORDS[j].name) != -8
  {
  }

  lemma OthersKept(c: Context, active: set<string>, fields: Fields, out: Fields)
    requires Processed(c, active, fields, 0, fields, out)
    ensures Shape(fields) == Shape(out) && Has(out, "$ref") == Has(fields, "$ref")
    ensures forall name :: KindOf(name).None? ==> Lookup(out, name) == Lookup(fields, name)
  {
    RefIsNoKeyword();
    hide KEYWORDS, KindOf, Expand, ExpandChild, ExpandsChild, Lookup, Shape;
    forall name | KindOf(name).None? ensures Lookup(out, name) == Lookup(fields, name) {
      forall j | 0 <= j < |KEYWORDS| ensures name != KEYWORDS[j].name { KindFound(j); }
    }
  }

  lemma SubExpanded(c: Context, active: set<string>, fields: Fields, out: Fields, p: Position)
    requires Processed(c, active, fields, 0, fields, out)
    ensures Sub(fields, p).Some? == Sub(out, p).Some? && (Sub(fields, p).Some? ==> Expands(c, active, Sub(fields, p).value, Sub(out, p).value))
  {
    hide KEYWORDS, Expand, ExpandChild, Shape, SubOfChild;
    if KindOf(p.keyword).Some? {
      KeywordIndex(p.keyword);
      var j: nat :| j < |KEYWORDS| && KEYWORDS[j] == Keyword(p.keyword, KindOf(p.keyword).value);
      hide KindOf;
      if Has(fields, p.keyword) {
        ChildExpanded(c, active, KEYWORDS[j].kind, Lookup(fields, p.keyword).value, Lookup(out, p.keyword).value);
      } else {
        assert Lookup(out, KEYWORDS[j].name) == Lookup(fields, KEYWORDS[j].name);
      }
    }
  }


  // ---------- The theorems ----------

  /** The result of expanding a schema has references nowhere a schema may stand, and accepts exactly
      what the schema accepts with its references resolved; whatever the assertions and regular
      expressions mean, and however unresolvable references are treated. */
  lemma {:induction false} ExpansionPreserves(c: Context, v: Value, active: set<string>, work: nat, rules: Rules, unknown: iset<Value>,
                                              root: Value, fuel: nat, fuel': nat)
    requires Refs(v) <= Refs(c.root) && Expand(c, v, active, work).Done? && fuel >= |Refs(c.root) - active|
    ensures var x := Expand(c, v, active, work).value;
            RefFree(x) && Meaning(rules, c.root, fuel, v) == Meaning(rules.(unknown := unknown), root, fuel', x)
    decreases |Refs(c.root) - active|, Size(v)
  {
    hide *;
    OnlySchemas(c, v, active, work);
    if v.Bool? {
      BoolPreserved(c, v, active, work, rules, unknown, root, fuel, fuel');
    } else if Has(v.fields, "$ref") {
      ReferenceStep(c, v, active, work);
      var p := ReferenceOf(v.fields).value;
      MeaningOfReference(rules, c.root, fuel, v);
      ExpansionPreserves(c, Resolve(c.root, p).value, active + {p}, work + NodePolicy(v.fields, c.compiles).value,
                         rules, unknown, root, fuel - 1, fuel');
    } else {
      ObjectStep(c, v, active, work);
      var w := work + NodePolicy(v.fields, c.compiles).value;
      var out := ExpandKeywords(c, v.fields, KEYWORDS, v.fields, active, w).value;
      ObjectExpanded(c, v.fields, active, w);
      SubsExpand(c, active, v.fields, out);
      forall p | Sub(v.fields, p).Some?
        ensures RefFree(Sub(out, p).value)
        ensures Meaning(rules, c.root, fuel, Sub(v.fields, p).value) == Meaning(rules.(unknown := unknown), root, fuel', Sub(out, p).value)
      {
        var before := Before(c, active, Sub(v.fields, p).value, Sub(out, p).value);
        ExpansionPreserves(c, Sub(v.fields, p).value, active, before, rules, unknown, root, fuel, fuel');
      }
      ObjectRefFree(out);
      SameMeaning(rules, unknown, c.root, root, fuel, fuel', v.fields, out);
    }
  }

  lemma OnlySchemas(c: Context, v: Value, active: set<string>, work: nat)
    requires Refs(v) <= Refs(c.root) && Expand(c, v, active, work).Done?
    ensures v.Bool? || v.Object?
  {
    hide ExpandKeywords, NodePolicy, Resolve, ReferenceOf;
  }

  lemma Before(c: Context, active: set<string>, v: Value, x: Value) returns (w: nat)
    requires Expands(c, active, v, x)
    ensures Refs(v) <= Refs(c.root) && Expand(c, v, active, w).Done? && Expand(c, v, active, w).value == x
  {
    var a: nat, b: nat :| Expand(c, v, active, a) == Done(x, b);
    w := a;
  }

  lemma SubsExpand(c: Context, active: set<string>, a: Fields, b: Fields)
    requires ObjectExpands(c, active, a, b)
    ensures Shape(a) == Shape(b) && Has(a, "$ref") == Has(b, "$ref")
    ensures forall p :: Sub(a, p).Some? == Sub(b, p).Some? && (Sub(a, p).Some? ==> Expands(c, active, Sub(a, p).value, Sub(b, p).value))
  {
    hide Shape, Sub, Expands, Lookup, KindOf;
  }

  lemma BoolPreserved(c: Context, v: Value, active: set<string>, work: nat, rules: Rules, unknown: iset<Value>,
                      root: Value, fuel: nat, fuel': nat)
    requires Refs(v) <= Refs(c.root) && Expand(c, v, active, work).Done? && v.Bool?
    ensures Expand(c, v, active, work).value == v && RefFree(v)
    ensures Meaning(rules, c.root, fuel, v) == Meaning(rules.(unknown := unknown), root, fuel', v)
  {
  }

  lemma MeaningOfReference(rules: Rules, root: Value, fuel: nat, v: Value)
    requires v.Object? && Has(v.fields, "$ref") && ReferenceOf(v.fields).Some? && Resolve(root, ReferenceOf(v.fields).value).Some? && fuel > 0
    ensures Meaning(rules, root, fuel, v) == Meaning(rules, root, fuel - 1, Resolve(root, ReferenceOf(v.fields).value).value)
  {
    hide Accepts, ReferenceOf, Resolve;
  }

  lemma ObjectRefFree(out: Fields)
    requires !Has(out, "$ref") && forall p :: Sub(out, p).Some? ==> RefFree(Sub(out, p).value)
    ensures RefFree(Object(out))
  {
    hide Sub;
  }

  lemma SameMeaning(rules: Rules, unknown: iset<Value>, root: Value, root': Value, fuel: nat, fuel': nat, a: Fields, b: Fields)
    requires !Has(a, "$ref") && !Has(b, "$ref") && Shape(a) == Shape(b)
    requires forall p :: Sub(a, p).Some? == Sub(b, p).Some?
    requires forall p :: Sub(a, p).Some? ==>
               Meaning(rules, root, fuel, Sub(a, p).value) == Meaning(rules.(unknown := unknown), root', fuel', Sub(b, p).value)
    ensures Meaning(rules, root, fuel, Object(a)) == Meaning(rules.(unknown := unknown), root', fuel', Object(b))
  {
    hide *;
    var r := rules.(unknown := unknown);
    SubMeaningsAre(rules, root, fuel, a);
    SubMeaningsAre(r, root', fuel', b);
    assert SubMeanings(rules, root, fuel, a) == SubMeanings(r, root', fuel', b);
    MeaningOfObject(rules, root, fuel, a);
    MeaningOfObject(r, root', fuel', b);
    SameObjectMeaning(rules, unknown, Shape(a), SubMeanings(rules, root, fuel, a));
  }

  lemma SubMeaningsAre(rules: Rules, root: Value, fuel: nat, fields: Fields)
    ensures forall p :: p in SubMeanings(rules, root, fuel, fields) <==> Sub(fields, p).Some?
    ensures forall p :: Sub(fields, p).Some? ==> SubMeanings(rules, root, fuel, fields)[p] == Meaning(rules, root, fuel, Sub(fields, p).value)
  {
    hide Sub, Shape, ObjectMeaning;
  }

  lemma MeaningOfObject(rules: Rules, root: Value, fuel: nat, fields: Fields)
    requires !Has(fields, "$ref")
    ensures Meaning(rules, root, fuel, Object(fields)) == ObjectMeaning(rules, Shape(fields), SubMeanings(rules, root, fuel, fields))
  {
    hide Shape, Sub, ObjectMeaning;
  }

  lemma SameObjectMeaning(rules: Rules, unknown: iset<Value>, shape: Fields, m: Meanings)
    ensures ObjectMeaning(rules, shape, m) == ObjectMeaning(rules.(unknown := unknown), shape, m)
  {
    forall x: Value ensures Accepts(rules, shape, m, x) == Accepts(rules.(unknown := unknown), shape, m, x) {
      RulesAgree(rules, unknown, shape, m, x);
    }
    hide Accepts;
  }

  /** Acceptance does not look at how unresolvable references are treated. */
  lemma RulesAgree(rules: Rules, unknown: iset<Value>, shape: Fields, m: Meanings, x: Value)
    ensures Accepts(rules, shape, m, x) == Accepts(rules.(unknown := unknown), shape, m, x)
  {
  }
}
