/** Exactly which schemas expand, and at what cost. */
module SchemaVerdict {
  import opened Wrappers
  import opened Json
  import opened SchemaExpansion
  import opened SchemaMeaning
  import opened SchemaExpander

  // ---------- Nodes that are allowed ----------

  /** A pattern of at most 1024 characters that compiles. */
  predicate Linear(pattern: string, compiles: string -> bool) { |pattern| <= 1024 && compiles(pattern) }

  /** No identifier; a supported dialect, if one is named; a textual reference or else only linear
      patterns and no format that stands for a regular expression. */
  ghost predicate Allowed(fields: Fields, compiles: string -> bool) {
    && !Has(fields, "$id")
    && (Has(fields, "$schema") ==> Lookup(fields, "$schema").value in {String("http://json-schema.org/draft-07/schema#"),
                                                                       String("https://json-schema.org/draft-07/schema")})
    && if Has(fields, "$ref") then Lookup(fields, "$ref").value.String?
       else
         && (Has(fields, "pattern") ==> Lookup(fields, "pattern").value.String? && Linear(Lookup(fields, "pattern").value.s, compiles))
         && (Has(fields, "patternProperties") ==>
               var v := Lookup(fields, "patternProperties").value;
               v.Object? && forall i :: 0 <= i < |v.fields| ==> Linear(v.fields[i].name, compiles))
         && (Has(fields, "format") ==> Lookup(fields, "format").value.String? && Lookup(fields, "format").value != String("regex"))
  }

  function NamesLength(fields: Fields): nat { if fields == [] then 0 else |fields[0].name| + NamesLength(fields[1..]) }

  /** The length of all patterns of a node. */
  function PatternsLength(fields: Fields): nat {
    (match Lookup(fields, "pattern") case Some(String(s)) => |s| case _ => 0)
    + (match Lookup(fields, "patternProperties") case Some(Object(patterns)) => NamesLength(patterns) case _ => 0)
  }

  lemma {:induction false} PatternsExactly(patterns: Fields, compiles: string -> bool)
    ensures PatternWork(patterns, compiles).Some? <==> forall i :: 0 <= i < |patterns| ==> Linear(patterns[i].name, compiles)
    ensures PatternWork(patterns, compiles).Some? ==> PatternWork(patterns, compiles).value == NamesLength(patterns)
  {
    if patterns != [] {
      PatternsExactly(patterns[1..], compiles);
      assert forall i :: 0 < i < |patterns| ==> patterns[i] == patterns[1..][i - 1];
      assert forall i :: 0 <= i < |patterns[1..]| ==> patterns[1..][i] == patterns[i + 1];
    }
  }

  /** The policy allows exactly such nodes, and a node costs one plus the length of its patterns. */
  lemma PolicyExactly(fields: Fields, compiles: string -> bool)
    ensures NodePolicy(fields, compiles).Some? <==> Allowed(fields, compiles)
    ensures NodePolicy(fields, compiles).Some? ==>
              NodePolicy(fields, compiles).value == 1 + if Has(fields, "$ref") then 0 else PatternsLength(fields)
  {
    var v := Lookup(fields, "patternProperties");
    if v.Some? && v.value.Object? { PatternsExactly(v.value.fields, compiles); }
    hide Lookup, PatternWork, NamesLength;
  }

  // ---------- Schemas that are allowed ----------

  function Values(fields: Fields, skipArrays: bool): (r: seq<Value>)
    ensures SizeOfItems(r) <= SizeOfFields(fields)
  {
    if fields == [] then []
    else if skipArrays && fields[0].value.Array? then Values(fields[1..], skipArrays)
    else [fields[0].value] + Values(fields[1..], skipArrays)
  }

  /** The schemas in the value of a keyword. */
  function Subs(kind: Kind, v: Value): (r: seq<Value>)
    ensures SizeOfItems(r) <= Size(v)
  {
    match v
    case Array(items) => if kind.Items? || kind.Many? then items else if kind.Single? then [v] else []
    case Object(fields) => if kind.Named? || kind.Dependent? then Values(fields, kind.Dependent?) else if kind.Many? then [] else [v]
    case _ => if kind.Single? || kind.Items? then [v] else []
  }

  lemma {:induction false} PartSmaller(vs: seq<Value>, i: nat)
    requires i < |vs|
    ensures Size(vs[i]) <= SizeOfItems(vs)
  {
    if i > 0 { PartSmaller(vs[1..], i - 1); }
  }

  /** The value of a keyword has the form the keyword asks for. */
  predicate Formed(kind: Kind, v: Value) {
    (kind.Many? ==> v.Array?) && (kind.Named? || kind.Dependent? ==> v.Object?)
  }

  /** A schema whose every node, also behind its references, is allowed; whose every reference is a
      local pointer to something in the root and not to a schema it is itself part of. A reference in
      anything reached from the root is one that occurs in the root. */
  ghost predicate Legal(c: Context, v: Value, active: set<string>)
    decreases |Refs(c.root) - active|, Size(v), 0
  {
    match v
    case Bool(_) => true
    case Object(fields) =>
      && NodePolicy(fields, c.compiles).Some?
      && if Has(fields, "$ref") then
           var p := ReferenceOf(fields);
           && p.Some? && p.value in Refs(c.root) && p.value !in active && Resolve(c.root, p.value).Some?
           && (FewerLeft(Refs(c.root), active, p.value); Legal(c, Resolve(c.root, p.value).value, active + {p.value}))
         else forall name :: KindOf(name).Some? && Has(fields, name) ==>
                (LookupSmaller(fields, name); LegalUnder(c, KindOf(name).value, Lookup(fields, name).value, active))
    case _ => false
  }

  ghost predicate LegalUnder(c: Context, kind: Kind, v: Value, active: set<string>)
    decreases |Refs(c.root) - active|, Size(v), 1
  {
    Formed(kind, v) && forall i :: 0 <= i < |Subs(kind, v)| ==> (PartSmaller(Subs(kind, v), i); Legal(c, Subs(kind, v)[i], active))
  }

  // ---------- The cost of a schema ----------

  /** The sum over all nodes, counting what is behind a reference once for each time it is referred to. */
  function Cost(c: Context, v: Value, active: set<string>): nat
    decreases |Refs(c.root) - active|, Size(v), 2
  {
    match v
    case Bool(_) => 1
    case Object(fields) =>
      var amount := NodePolicy(fields, c.compiles);
      (if amount.Some? then amount.value else 0)
      + if Has(fields, "$ref") then
          var p := ReferenceOf(fields);
          if p.Some? && p.value in Refs(c.root) && p.value !in active && Resolve(c.root, p.value).Some? then
            FewerLeft(Refs(c.root), active, p.value);
            Cost(c, Resolve(c.root, p.value).value, active + {p.value})
          else 0
        else CostOfKeywords(c, fields, KEYWORDS, active)
    case _ => 0
  }

  function CostOfKeywords(c: Context, fields: Fields, ks: seq<Keyword>, active: set<string>): nat
    decreases |Refs(c.root) - active|, Size(Object(fields)), 1, |ks|
  {
    if ks == [] then 0
    else
      (if Has(fields, ks[0].name) then
         LookupSmaller(fields, ks[0].name);
         CostOfAll(c, Subs(ks[0].kind, Lookup(fields, ks[0].name).value), active)
       else 0)
      + CostOfKeywords(c, fields, ks[1..], active)
  }

  function CostOfAll(c: Context, vs: seq<Value>, active: set<string>): nat
    decreases |Refs(c.root) - active|, SizeOfItems(vs), 3
  {
    if vs == [] then 0 else Cost(c, vs[0], active) + CostOfAll(c, vs[1..], active)
  }

  // ---------- The verdict, piece by piece ----------

  /** A part of the expansion succeeds exactly if what it covers is legal and affordable. */
  ghost predicate Verdict<T>(r: Outcome<T>, legal: bool, work: nat, cost: nat) {
    && (r.Done? <==> legal && work + cost <= BUDGET)
    && (r.Done? ==> r.work == work + cost)
  }

  ghost predicate LegalFrom(c: Context, fields: Fields, k: nat, active: set<string>) {
    forall j :: k <= j < |KEYWORDS| && Has(fields, KEYWORDS[j].name) ==>
      LegalUnder(c, KEYWORDS[j].kind, Lookup(fields, KEYWORDS[j].name).value, active)
  }

  ghost predicate LegalAll(c: Context, vs: seq<Value>, active: set<string>) {
    forall i :: 0 <= i < |vs| ==> Legal(c, vs[i], active)
  }

  /** By name or by position in the list of keywords. */
  lemma LegalByName(c: Context, fields: Fields, active: set<string>)
    ensures LegalFrom(c, fields, 0, active) <==>
            forall name :: KindOf(name).Some? && Has(fields, name) ==> LegalUnder(c, KindOf(name).value, Lookup(fields, name).value, active)
  {
    hide KEYWORDS, KindOf, LegalUnder, Lookup;
    forall j | 0 <= j < |KEYWORDS| ensures KindOf(KEYWORDS[j].name) == Some(KEYWORDS[j].kind) { KindFound(j); }
    if LegalFrom(c, fields, 0, active) {
      forall name | KindOf(name).Some? && Has(fields, name) ensures LegalUnder(c, KindOf(name).value, Lookup(fields, name).value, active) {
        KeywordIndex(name);
        var j: nat :| j < |KEYWORDS| && KEYWORDS[j] == Keyword(name, KindOf(name).value);
      }
    }
  }

  /** Legality and cost of an object, one level deep. */
  lemma ObjectIs(c: Context, fields: Fields, active: set<string>)
    requires NodePolicy(fields, c.compiles).Some? && !Has(fields, "$ref")
    ensures Legal(c, Object(fields), active) <==> LegalFrom(c, fields, 0, active)
    ensures Cost(c, Object(fields), active) == NodePolicy(fields, c.compiles).value + CostOfKeywords(c, fields, KEYWORDS, active)
  {
    LegalByName(c, fields, active);
    hide LegalFrom, LegalUnder, CostOfKeywords, KEYWORDS, KindOf, NodePolicy, Lookup;
  }

  lemma ReferenceIs(c: Context, fields: Fields, active: set<string>)
    requires NodePolicy(fields, c.compiles).Some? && Has(fields, "$ref")
    ensures var p := ReferenceOf(fields);
            if p.Some? && p.value in Refs(c.root) && p.value !in active && Resolve(c.root, p.value).Some? then
              var target := Resolve(c.root, p.value).value;
              && |Refs(c.root) - (active + {p.value})| < |Refs(c.root) - active|
              && (Legal(c, Object(fields), active) <==> Legal(c, target, active + {p.value}))
              && Cost(c, Object(fields), active) == NodePolicy(fields, c.compiles).value + Cost(c, target, active + {p.value})
            else !Legal(c, Object(fields), active)
  {
    var p := ReferenceOf(fields);
    if p.Some? && p.value in Refs(c.root) && p.value !in active { FewerLeft(Refs(c.root), active, p.value); }
    hide NodePolicy, ReferenceOf, Resolve, Lookup, Refs;
  }

  lemma NodeIs(c: Context, v: Value, active: set<string>)
    ensures v.Bool? ==> Legal(c, v, active) && Cost(c, v, active) == 1
    ensures !v.Bool? && !v.Object? ==> !Legal(c, v, active)
    ensures v.Object? && NodePolicy(v.fields, c.compiles).None? ==> !Legal(c, v, active)
    ensures v.Object? && NodePolicy(v.fields, c.compiles).Some? ==> Cost(c, v, active) >= NodePolicy(v.fields, c.compiles).value
  {
    hide NodePolicy, ReferenceOf, Resolve, CostOfKeywords, KEYWORDS;
  }

  lemma {:induction false} VerdictOfValue(c: Context, v: Value, active: set<string>, work: nat)
    requires Refs(v) <= Refs(c.root)
    ensures Verdict(Expand(c, v, active, work), Legal(c, v, active), work, Cost(c, v, active))
    decreases |Refs(c.root) - active|, Size(v), 20
  {
    hide Expand, ExpandKeywords, NodePolicy, ReferenceOf, Resolve, KEYWORDS, Refs, Legal, Cost, CostOfKeywords, LegalFrom, Lookup;
    ExpandStep(c, v, active, work);
    NodeIs(c, v, active);
    if v.Object? && NodePolicy(v.fields, c.compiles).Some? && work + NodePolicy(v.fields, c.compiles).value <= BUDGET {
      var w := work + NodePolicy(v.fields, c.compiles).value;
      if Has(v.fields, "$ref") {
        ReferenceIs(c, v.fields, active);
        var p := ReferenceOf(v.fields);
        if p.Some? && p.value !in active && Resolve(c.root, p.value).Some? {
          VerdictOfValue(c, Resolve(c.root, p.value).value, active + {p.value}, w);
        }
      } else {
        ObjectIs(c, v.fields, active);
        assert KEYWORDS[0..] == KEYWORDS;
        VerdictOfKeywords(c, v.fields, 0, v.fields, active, w);
      }
    }
  }

  lemma CostStep(c: Context, fields: Fields, k: nat, active: set<string>)
    requires k < |KEYWORDS|
    ensures CostOfKeywords(c, fields, KEYWORDS[k..], active) ==
            (if Has(fields, KEYWORDS[k].name) then CostOfAll(c, Subs(KEYWORDS[k].kind, Lookup(fields, KEYWORDS[k].name).value), active) else 0)
            + CostOfKeywords(c, fields, KEYWORDS[k + 1..], active)
  {
    assert KEYWORDS[k..][0] == KEYWORDS[k] && KEYWORDS[k..][1..] == KEYWORDS[k + 1..];
    hide KEYWORDS, CostOfAll, Subs;
  }

  lemma LegalStep(c: Context, fields: Fields, k: nat, active: set<string>)
    requires k < |KEYWORDS|
    ensures LegalFrom(c, fields, k, active) <==>
            (Has(fields, KEYWORDS[k].name) ==> LegalUnder(c, KEYWORDS[k].kind, Lookup(fields, KEYWORDS[k].name).value, active))
            && LegalFrom(c, fields, k + 1, active)
  {
    hide KEYWORDS, LegalUnder, Lookup;
  }

  lemma KeywordsDone(c: Context, fields: Fields, copy: Fields, active: set<string>, work: nat)
    requires Refs(Object(fields)) <= Refs(c.root)
    ensures ExpandKeywords(c, fields, [], copy, active, work) == Done(copy, work)
    ensures CostOfKeywords(c, fields, [], active) == 0 && LegalFrom(c, fields, |KEYWORDS|, active)
  {
    hide KEYWORDS;
  }

  lemma {:induction false} VerdictOfKeywords(c: Context, fields: Fields, k: nat, copy: Fields, active: set<string>, work: nat)
    requires Refs(Object(fields)) <= Refs(c.root) && k <= |KEYWORDS| == 17 && work <= BUDGET
    ensures Verdict(ExpandKeywords(c, fields, KEYWORDS[k..], copy, active, work), LegalFrom(c, fields, k, active),
                    work, CostOfKeywords(c, fields, KEYWORDS[k..], active))
    decreases |Refs(c.root) - active|, Size(Object(fields)), |KEYWORDS| - k
  {
    hide KEYWORDS, ExpandChild, ExpandKeywords, Refs, LegalFrom, LegalUnder, CostOfKeywords, CostOfAll, Subs;
    if k == |KEYWORDS| {
      assert KEYWORDS[k..] == [];
      KeywordsDone(c, fields, copy, active, work);
    } else {
      KeywordStepOf(c, fields, k, copy, active, work);
      CostStep(c, fields, k, active);
      LegalStep(c, fields, k, active);
      var keyword := KEYWORDS[k];
      if Has(fields, keyword.name) {
        var child := Lookup(fields, keyword.name).value;
        LookupSmaller(fields, keyword.name);
        VerdictOfChild(c, keyword.kind, child, active, work);
        var r := ExpandChild(c, keyword.kind, child, active, work);
        if r.Done? { VerdictOfKeywords(c, fields, k + 1, Replace(copy, keyword.name, r.value), active, r.work); }
      } else {
        VerdictOfKeywords(c, fields, k + 1, copy, active, work);
      }
    }
  }

  /** A keyword of the specification, whether or not it succeeds. */
  lemma ChildStepOf(c: Context, kind: Kind, v: Value, active: set<string>, work: nat)
    requires Refs(v) <= Refs(c.root)
    ensures kind.Single? || (kind.Items? && !v.Array?) ==> ExpandChild(c, kind, v, active, work) == Expand(c, v, active, work) && Subs(kind, v) == [v]
    ensures (kind.Items? || kind.Many?) && v.Array? ==>
              && RefsOfItems(v.items) <= Refs(c.root) && Subs(kind, v) == v.items
              && var r := ExpandItems(c, v.items, active, work);
                 ExpandChild(c, kind, v, active, work) == if r.Failed? then Failed else Done(Array(r.value), r.work)
    ensures (kind.Named? || kind.Dependent?) && v.Object? ==>
              && RefsOfFields(v.fields) <= Refs(c.root) && Subs(kind, v) == Values(v.fields, kind.Dependent?)
              && var r := ExpandMembers(c, v.fields, active, work, kind.Dependent?);
                 ExpandChild(c, kind, v, active, work) == if r.Failed? then Failed else Done(Object(r.value), r.work)
    ensures !Formed(kind, v) ==> ExpandChild(c, kind, v, active, work).Failed?
  {
    hide Expand, ExpandItems, ExpandMembers, Values;
  }

  lemma AllOfOne(c: Context, v: Value, active: set<string>)
    ensures LegalAll(c, [v], active) <==> Legal(c, v, active)
    ensures CostOfAll(c, [v], active) == Cost(c, v, active)
  {
    hide Legal, Cost;
    assert [v][1..] == [] && [v][0] == v;
  }

  lemma LegalUnderIs(c: Context, kind: Kind, v: Value, active: set<string>)
    ensures LegalUnder(c, kind, v, active) <==> Formed(kind, v) && LegalAll(c, Subs(kind, v), active)
  {
    hide Legal, Subs, Formed;
  }

  lemma {:induction false} VerdictOfChild(c: Context, kind: Kind, v: Value, active: set<string>, work: nat)
    requires Refs(v) <= Refs(c.root) && work <= BUDGET
    ensures Verdict(ExpandChild(c, kind, v, active, work), LegalUnder(c, kind, v, active), work, CostOfAll(c, Subs(kind, v), active))
    decreases |Refs(c.root) - active|, Size(v), 21
  {
    hide Expand, ExpandChild, ExpandItems, ExpandMembers, Refs, LegalUnder, LegalAll, CostOfAll, Subs, Legal;
    ChildStepOf(c, kind, v, active, work);
    LegalUnderIs(c, kind, v, active);
    if !Formed(kind, v) {
    } else if kind.Single? || (kind.Items? && !v.Array?) {
      AllOfOne(c, v, active);
      VerdictOfValue(c, v, active, work);
    } else if kind.Items? || kind.Many? {
      VerdictOfItems(c, v.items, active, work);
    } else {
      VerdictOfMembers(c, v.fields, active, work, kind.Dependent?);
    }
  }

  lemma AllStep(c: Context, first: Value, rest: seq<Value>, active: set<string>)
    ensures LegalAll(c, [first] + rest, active) <==> Legal(c, first, active) && LegalAll(c, rest, active)
    ensures CostOfAll(c, [first] + rest, active) == Cost(c, first, active) + CostOfAll(c, rest, active)
  {
    hide Legal, Cost;
    var all := [first] + rest;
    assert all[1..] == rest && all[0] == first;
    assert forall i :: 0 < i < |all| ==> all[i] == rest[i - 1];
    assert forall i :: 0 <= i < |rest| ==> rest[i] == all[i + 1];
  }

  lemma NothingCosts(c: Context, active: set<string>)
    ensures LegalAll(c, [], active) && CostOfAll(c, [], active) == 0
  {
  }

  lemma {:induction false} VerdictOfItems(c: Context, items: seq<Value>, active: set<string>, work: nat)
    requires RefsOfItems(items) <= Refs(c.root) && work <= BUDGET
    ensures Verdict(ExpandItems(c, items, active, work), LegalAll(c, items, active), work, CostOfAll(c, items, active))
    decreases |Refs(c.root) - active|, SizeOfItems(items), 22
  {
    hide Expand, Refs, LegalAll, CostOfAll, Legal, Cost;
    if items == [] {
      NothingCosts(c, active);
    } else {
      assert items == [items[0]] + items[1..];
      AllStep(c, items[0], items[1..], active);
      VerdictOfValue(c, items[0], active, work);
      var first := Expand(c, items[0], active, work);
      if first.Done? { VerdictOfItems(c, items[1..], active, first.work); }
    }
  }

  lemma {:induction false} VerdictOfMembers(c: Context, fields: Fields, active: set<string>, work: nat, skipArrays: bool)
    requires RefsOfFields(fields) <= Refs(c.root) && work <= BUDGET
    ensures Verdict(ExpandMembers(c, fields, active, work, skipArrays), LegalAll(c, Values(fields, skipArrays), active),
                    work, CostOfAll(c, Values(fields, skipArrays), active))
    decreases |Refs(c.root) - active|, SizeOfFields(fields), 22
  {
    hide Expand, Refs, LegalAll, CostOfAll, Legal, Cost;
    if fields == [] {
      NothingCosts(c, active);
    } else if skipArrays && fields[0].value.Array? {
      VerdictOfMembers(c, fields[1..], active, work, skipArrays);
    } else {
      AllStep(c, fields[0].value, Values(fields[1..], skipArrays), active);
      VerdictOfValue(c, fields[0].value, active, work);
      var first := Expand(c, fields[0].value, active, work);
      if first.Done? { VerdictOfMembers(c, fields[1..], active, first.work, skipArrays); }
    }
  }

  /** A schema expands if and only if every node it has, also behind its references, is allowed, every
      reference is local, leads somewhere and not back into itself, every keyword that holds schemas
      has its proper form, and all nodes together cost at most the budget. The work returned is that
      cost, whatever the order in which the nodes are visited. */
  lemma ExpandsExactly(c: Context)
    ensures var r := ExpandSchema(c);
            && (r.Done? <==> Legal(c, c.root, {}) && Cost(c, c.root, {}) <= 256)
            && (r.Done? ==> r.work == Cost(c, c.root, {}))
  {
    hide Expand, Legal, Cost;
    VerdictOfValue(c, c.root, {}, 0);
  }
}
