/** Expansion of local references in a Draft 7 schema. */
module SchemaExpansion {
  import opened Wrappers
  import opened Json

  const BUDGET: nat := 256

  const MAX_PATTERN: nat := 1024

  // ---------- Keywords that hold schemas ----------

  /** One schema; one schema or an array of them; an array; an object; an object whose array members
      are lists of names instead of schemas. */
  datatype Kind = Single | Items | Many | Named | Dependent

  datatype Keyword = Keyword(name: string, kind: Kind)

  /** In the order in which they are expanded. */
  const KEYWORDS: seq<Keyword> := [
    Keyword("additionalItems", Single), Keyword("additionalProperties", Single), Keyword("contains", Single),
    Keyword("else", Single), Keyword("if", Single), Keyword("not", Single), Keyword("propertyNames", Single),
    Keyword("then", Single),
    Keyword("items", Items),
    Keyword("allOf", Many), Keyword("anyOf", Many), Keyword("oneOf", Many),
    Keyword("$defs", Named), Keyword("definitions", Named), Keyword("patternProperties", Named), Keyword("properties", Named),
    Keyword("dependencies", Dependent)
  ]

  // ---------- Policy of one schema object ----------

  predicate LinearPattern(pattern: string, compiles: string -> bool) {
    |pattern| <= MAX_PATTERN && compiles(pattern)
  }

  function PatternWork(patterns: Fields, compiles: string -> bool): Option<nat> {
    if patterns == [] then Some(0)
    else if !LinearPattern(patterns[0].name, compiles) then None
    else
      var rest := PatternWork(patterns[1..], compiles);
      if rest.None? then None else Some(|patterns[0].name| + rest.value)
  }

  predicate DialectAllowed(fields: Fields) {
    match Lookup(fields, "$schema")
    case None => true
    case Some(String(s)) => s == "http://json-schema.org/draft-07/schema#" || s == "https://json-schema.org/draft-07/schema"
    case _ => false
  }

  predicate FormatAllowed(fields: Fields) {
    match Lookup(fields, "format")
    case None => true
    case Some(String(s)) => s != "regex"
    case _ => false
  }

  function OwnPatternWork(fields: Fields, compiles: string -> bool): Option<nat> {
    match Lookup(fields, "pattern")
    case None => Some(0)
    case Some(String(s)) => if LinearPattern(s, compiles) then Some(|s|) else None
    case _ => None
  }

  function NamedPatternWork(fields: Fields, compiles: string -> bool): Option<nat> {
    match Lookup(fields, "patternProperties")
    case None => Some(0)
    case Some(Object(patterns)) => PatternWork(patterns, compiles)
    case _ => None
  }

  /** `validate_schema_node_policy`: the validation work of one node, or nothing if it is not allowed. */
  function NodePolicy(fields: Fields, compiles: string -> bool): (work: Option<nat>)
    ensures work.Some? ==> work.value >= 1
  {
    if Has(fields, "$id") || !DialectAllowed(fields) then None
    else match Lookup(fields, "$ref")
      case Some(String(_)) => Some(1)
      case Some(_) => None
      case None =>
        var own, named := OwnPatternWork(fields, compiles), NamedPatternWork(fields, compiles);
        if own.None? || named.None? || !FormatAllowed(fields) then None else Some(1 + own.value + named.value)
  }

  // ---------- References ----------

  /** `reference_pointer`: only pointers into the same document. */
  function LocalPointer(reference: string): Option<string> {
    if reference == "#" then Some("")
    else if '%' in reference then None
    else if |reference| >= 2 && reference[0] == '#' && reference[1] == '/' then Some(reference[1..])
    else None
  }

  function ReferenceOf(fields: Fields): Option<string> {
    match Lookup(fields, "$ref")
    case Some(String(s)) => LocalPointer(s)
    case _ => None
  }

  /** All pointers that occur as references anywhere in a value. */
  function Refs(v: Value): set<string>
    decreases v, 1
  {
    match v
    case Array(items) => RefsOfItems(items)
    case Object(fields) => (if ReferenceOf(fields).Some? then {ReferenceOf(fields).value} else {}) + RefsOfFields(fields)
    case _ => {}
  }

  function RefsOfItems(items: seq<Value>): set<string>
    decreases items, 0
  {
    if items == [] then {} else Refs(items[0]) + RefsOfItems(items[1..])
  }

  function RefsOfFields(fields: Fields): set<string>
    decreases fields, 0
  {
    if fields == [] then {} else Refs(fields[0].value) + RefsOfFields(fields[1..])
  }

  lemma {:induction false} RefsOfLookup(fields: Fields, name: string)
    ensures Has(fields, name) ==> Refs(Lookup(fields, name).value) <= RefsOfFields(fields)
  {
    if fields != [] && fields[0].name != name { RefsOfLookup(fields[1..], name); }
  }

  lemma {:induction false} RefsOfItem(items: seq<Value>, i: nat)
    ensures i < |items| ==> Refs(items[i]) <= RefsOfItems(items)
  {
    if 0 < i < |items| { RefsOfItem(items[1..], i - 1); }
  }

  lemma RefsOfChild(v: Value, token: string)
    ensures Child(v, token).Some? ==> Refs(Child(v, token).value) <= Refs(v)
  {
    match v
    case Object(fields) => RefsOfLookup(fields, token);
    case Array(items) => if Index(token).Some? { RefsOfItem(items, Index(token).value); }
    case _ =>
  }

  lemma {:induction false} RefsOfWalk(v: Value, tokens: seq<string>)
    ensures Walk(v, tokens).Some? ==> Refs(Walk(v, tokens).value) <= Refs(v)
    decreases |tokens|
  {
    if tokens != [] {
      RefsOfChild(v, tokens[0]);
      if Child(v, tokens[0]).Some? { RefsOfWalk(Child(v, tokens[0]).value, tokens[1..]); }
    }
  }

  /** What a reference leads to has no references the document does not have. */
  lemma RefsOfTarget(v: Value, pointer: string)
    ensures Resolve(v, pointer).Some? ==> Refs(Resolve(v, pointer).value) <= Refs(v)
  {
    if pointer != "" && pointer[0] == '/' { RefsOfWalk(v, Tokens(Split(pointer[1..]))); }
  }

  lemma FewerLeft(all: set<string>, active: set<string>, p: string)
    requires p in all && p !in active
    ensures |all - (active + {p})| < |all - active|
  {
    assert all - (active + {p}) == (all - active) - {p};
  }

  // ---------- Expansion ----------

  datatype Context = Context(root: Value, compiles: string -> bool)

  /** A result with the work spent so far, or an error. */
  datatype Outcome<T> = Done(value: T, work: nat) | Failed

  /** Termination does not rest on the budget: each reference followed is one fewer that may still be
      followed, and every other step goes to a smaller value. */
  function Expand(c: Context, v: Value, active: set<string>, work: nat): Outcome<Value>
    requires Refs(v) <= Refs(c.root)
    decreases |Refs(c.root) - active|, Size(v), 20
  {
    match v
    case Object(fields) =>
      var amount := NodePolicy(fields, c.compiles);
      if amount.None? || work + amount.value > BUDGET then Failed
      else if Has(fields, "$ref") then
        var p := ReferenceOf(fields);
        if p.None? || p.value in active then Failed
        else
          var target := Resolve(c.root, p.value);
          if target.None? then Failed
          else
            FewerLeft(Refs(c.root), active, p.value);
            RefsOfTarget(c.root, p.value);
            Expand(c, target.value, active + {p.value}, work + amount.value)
      else
        var r := ExpandKeywords(c, fields, KEYWORDS, fields, active, work + amount.value);
        if r.Failed? then Failed else Done(Object(r.value), r.work)
    case Bool(_) => if work + 1 > BUDGET then Failed else Done(v, work + 1)
    case _ => Failed
  }

  /** Expand the schemas under the given keywords of an object, into a copy of it. */
  function ExpandKeywords(c: Context, fields: Fields, ks: seq<Keyword>, copy: Fields, active: set<string>, work: nat): Outcome<Fields>
    requires Refs(Object(fields)) <= Refs(c.root) && |ks| <= 17
    decreases |Refs(c.root) - active|, Size(Object(fields)), |ks|
  {
    if ks == [] then Done(copy, work)
    else
      var child := Lookup(fields, ks[0].name);
      if child.None? then ExpandKeywords(c, fields, ks[1..], copy, active, work)
      else
        LookupSmaller(fields, ks[0].name);
        RefsOfLookup(fields, ks[0].name);
        var r := ExpandChild(c, ks[0].kind, child.value, active, work);
        if r.Failed? then Failed
        else ExpandKeywords(c, fields, ks[1..], Replace(copy, ks[0].name, r.value), active, r.work)
  }

  function ExpandChild(c: Context, kind: Kind, child: Value, active: set<string>, work: nat): Outcome<Value>
    requires Refs(child) <= Refs(c.root)
    decreases |Refs(c.root) - active|, Size(child), 21
  {
    match kind
    case Single => Expand(c, child, active, work)
    case Items => if child.Array? then ExpandArray(c, child, active, work) else Expand(c, child, active, work)
    case Many => if child.Array? then ExpandArray(c, child, active, work) else Failed
    case Named => if child.Object? then ExpandObject(c, child, active, work, false) else Failed
    case Dependent => if child.Object? then ExpandObject(c, child, active, work, true) else Failed
  }

  function ExpandArray(c: Context, child: Value, active: set<string>, work: nat): Outcome<Value>
    requires Refs(child) <= Refs(c.root) && child.Array?
    decreases |Refs(c.root) - active|, Size(child), 20
  {
    var r := ExpandItems(c, child.items, active, work);
    if r.Failed? then Failed else Done(Array(r.value), r.work)
  }

  function ExpandObject(c: Context, child: Value, active: set<string>, work: nat, skipArrays: bool): Outcome<Value>
    requires Refs(child) <= Refs(c.root) && child.Object?
    decreases |Refs(c.root) - active|, Size(child), 20
  {
    var r := ExpandMembers(c, child.fields, active, work, skipArrays);
    if r.Failed? then Failed else Done(Object(r.value), r.work)
  }

  function ExpandItems(c: Context, items: seq<Value>, active: set<string>, work: nat): Outcome<seq<Value>>
    requires RefsOfItems(items) <= Refs(c.root)
    decreases |Refs(c.root) - active|, SizeOfItems(items), 22
  {
    if items == [] then Done([], work)
    else
      var first := Expand(c, items[0], active, work);
      if first.Failed? then Failed
      else
        var rest := ExpandItems(c, items[1..], active, first.work);
        if rest.Failed? then Failed else Done([first.value] + rest.value, rest.work)
  }

  function ExpandMembers(c: Context, fields: Fields, active: set<string>, work: nat, skipArrays: bool): Outcome<Fields>
    requires RefsOfFields(fields) <= Refs(c.root)
    decreases |Refs(c.root) - active|, SizeOfFields(fields), 22
  {
    if fields == [] then Done([], work)
    else
      var first := if skipArrays && fields[0].value.Array? then Done(fields[0].value, work) else Expand(c, fields[0].value, active, work);
      if first.Failed? then Failed
      else
        var rest := ExpandMembers(c, fields[1..], active, first.work, skipArrays);
        if rest.Failed? then Failed else Done([Field(fields[0].name, first.value)] + rest.value, rest.work)
  }

  /** `expand_schema_references`. */
  function ExpandSchema(c: Context): Outcome<Value> {
    Expand(c, c.root, {}, 0)
  }
}
