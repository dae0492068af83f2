/** Schema expansion as it runs: one set of active references and one work counter, updated in place. */
module SchemaExpander {
  import opened Wrappers
  import opened Json
  import opened SchemaExpansion
  import opened SchemaMeaning

  /** A result behind what was already collected. */
  function Behind<T>(out: seq<T>, r: Outcome<seq<T>>): Outcome<seq<T>> {
    if r.Failed? then Failed else Done(out + r.value, r.work)
  }

  lemma BehindNothing<T>(r: Outcome<seq<T>>)
    ensures Behind([], r) == r
  {
    if r.Done? { assert [] + r.value == r.value; }
  }

  lemma BehindMore<T>(out: seq<T>, x: T, r: Outcome<seq<T>>)
    ensures Behind(out, Behind([x], r)) == Behind(out + [x], r)
  {
    if r.Done? { assert out + ([x] + r.value) == out + [x] + r.value; }
  }

  class Expander {
    const context: Context
    var active: set<string>
    var work: nat

    constructor (context: Context)
      ensures this.context == context && active == {} && work == 0
    {
      this.context, active, work := context, {}, 0;
    }

    /** `add_work`. */
    method AddWork(amount: nat) returns (ok: bool)
      modifies this`work
      ensures work == old(work) + amount && ok == (work <= BUDGET)
    {
      work := work + amount;
      ok := work <= BUDGET;
    }

    /** On success the value is the specified one, and the active references are as before. */
    method ExpandValue(v: Value) returns (ok: bool, x: Value)
      requires Refs(v) <= Refs(context.root)
      modifies this
      ensures ok == Expand(context, v, old(active), old(work)).Done?
      ensures ok ==> Expand(context, v, old(active), old(work)) == Done(x, work) && active == old(active)
      decreases |Refs(context.root) - active|, Size(v), 20
    {
      hide *;
      ExpandStep(context, v, active, work);
      x := v;
      match v {
        case Object(fields) =>
          var amount := NodePolicy(fields, context.compiles);
          if amount.None? { return false, v; }
          ok := AddWork(amount.value);
          if !ok { return; }
          if Has(fields, "$ref") {
            var pointer := ReferenceOf(fields);
            if pointer.None? || pointer.value in active { return false, v; }
            var before := active;
            active := active + {pointer.value};
            var target := Resolve(context.root, pointer.value);
            if target.None? { return false, v; }
            FewerLeft(Refs(context.root), before, pointer.value);
            ok, x := ExpandValue(target.value);
            if !ok { return; }
            active := active - {pointer.value};
            assert active == before;
          } else {
            var copy;
            ok, copy := ExpandObjectKeywords(fields);
            x := Object(copy);
          }
        case Bool(_) => ok := AddWork(1);
        case _ => ok := false;
      }
    }

    method ExpandObjectKeywords(fields: Fields) returns (ok: bool, copy: Fields)
      requires Refs(Object(fields)) <= Refs(context.root) && |KEYWORDS| == 17
      modifies this
      ensures var r := ExpandKeywords(context, fields, KEYWORDS, fields, old(active), old(work));
              ok == r.Done? && (ok ==> r == Done(copy, work) && active == old(active))
      decreases |Refs(context.root) - active|, Size(Object(fields)), 18
    {
      hide KEYWORDS, ExpandKeywords, ExpandChild, Refs;
      copy := fields;
      assert KEYWORDS[0..] == KEYWORDS;
      ghost var before, spent := active, work;
      for k := 0 to |KEYWORDS|
        invariant active == before
        invariant ExpandKeywords(context, fields, KEYWORDS, fields, before, spent) == ExpandKeywords(context, fields, KEYWORDS[k..], copy, before, work)
      {
        KeywordStepOf(context, fields, k, copy, active, work);
        var child := Lookup(fields, KEYWORDS[k].name);
        if child.Some? {
          LookupSmaller(fields, KEYWORDS[k].name);
          var x;
          ok, x := ExpandKeyword(KEYWORDS[k].kind, child.value);
          if !ok { return; }
          copy := Replace(copy, KEYWORDS[k].name, x);
        }
      }
      assert KEYWORDS[|KEYWORDS|..] == [];
      NoKeywords(context, fields, copy, before, work);
      ok := true;
    }

    method ExpandKeyword(kind: Kind, child: Value) returns (ok: bool, x: Value)
      requires Refs(child) <= Refs(context.root)
      modifies this
      ensures var r := ExpandChild(context, kind, child, old(active), old(work));
              ok == r.Done? && (ok ==> r == Done(x, work) && active == old(active))
      decreases |Refs(context.root) - active|, Size(child), 21
    {
      hide Expand, ExpandItems, ExpandMembers;
      x := child;
      if kind.Single? || (kind.Items? && !child.Array?) {
        ok, x := ExpandValue(child);
      } else if (kind.Items? || kind.Many?) && child.Array? {
        var items;
        ok, items := ExpandEach(child.items);
        x := Array(items);
      } else if (kind.Named? || kind.Dependent?) && child.Object? {
        var fields;
        ok, fields := ExpandMembersOf(child.fields, kind.Dependent?);
        x := Object(fields);
      } else {
        ok := false;
      }
    }

    method ExpandEach(items: seq<Value>) returns (ok: bool, out: seq<Value>)
      requires RefsOfItems(items) <= Refs(context.root)
      modifies this
      ensures var r := ExpandItems(context, items, old(active), old(work));
              ok == r.Done? && (ok ==> r == Done(out, work) && active == old(active))
      decreases |Refs(context.root) - active|, SizeOfItems(items), 22
    {
      hide Expand, Refs;
      out := [];
      ghost var before, spent := active, work;
      assert items[0..] == items;
      BehindNothing(ExpandItems(context, items, before, spent));
      for i := 0 to |items|
        invariant active == before && RefsOfItems(items[i..]) <= Refs(context.root) && SizeOfItems(items[i..]) <= SizeOfItems(items)
        invariant ExpandItems(context, items, before, spent) == Behind(out, ExpandItems(context, items[i..], before, work))
      {
        assert items[i..][0] == items[i] && items[i..][1..] == items[i + 1..];
        var x;
        ok, x := ExpandValue(items[i]);
        if !ok { return; }
        BehindMore(out, x, ExpandItems(context, items[i + 1..], before, work));
        out := out + [x];
      }
      assert items[|items|..] == [] && out + [] == out;
      ok := true;
    }

    method ExpandMembersOf(fields: Fields, skipArrays: bool) returns (ok: bool, out: Fields)
      requires RefsOfFields(fields) <= Refs(context.root)
      modifies this
      ensures var r := ExpandMembers(context, fields, old(active), old(work), skipArrays);
              ok == r.Done? && (ok ==> r == Done(out, work) && active == old(active))
      decreases |Refs(context.root) - active|, SizeOfFields(fields), 22
    {
      hide Expand, Refs;
      out := [];
      ghost var before, spent := active, work;
      assert fields[0..] == fields;
      BehindNothing(ExpandMembers(context, fields, before, spent, skipArrays));
      for i := 0 to |fields|
        invariant active == before && RefsOfFields(fields[i..]) <= Refs(context.root) && SizeOfFields(fields[i..]) <= SizeOfFields(fields)
        invariant ExpandMembers(context, fields, before, spent, skipArrays)
                  == Behind(out, ExpandMembers(context, fields[i..], before, work, skipArrays))
      {
        assert fields[i..][0] == fields[i] && fields[i..][1..] == fields[i + 1..];
        var x := fields[i].value;
        if !(skipArrays && x.Array?) {
          ok, x := ExpandValue(x);
          if !ok { return; }
        }
        BehindMore(out, Field(fields[i].name, x), ExpandMembers(context, fields[i + 1..], before, work, skipArrays));
        out := out + [Field(fields[i].name, x)];
      }
      assert fields[|fields|..] == [] && out + [] == out;
      ok := true;
    }
  }

  /** The specification, one level deep. */
  lemma ExpandStep(c: Context, v: Value, active: set<string>, work: nat)
    requires Refs(v) <= Refs(c.root)
    ensures v.Object? ==>
              var amount := NodePolicy(v.fields, c.compiles);
              if amount.None? || work + amount.value > BUDGET then Expand(c, v, active, work).Failed?
              else if Has(v.fields, "$ref") then
                var p := ReferenceOf(v.fields);
                if p.None? || p.value in active || Resolve(c.root, p.value).None? then Expand(c, v, active, work).Failed?
                else
                  && p.value in Refs(c.root) && Refs(Resolve(c.root, p.value).value) <= Refs(c.root)
                  && Expand(c, v, active, work) == Expand(c, Resolve(c.root, p.value).value, active + {p.value}, work + amount.value)
              else
                && |KEYWORDS| == 17
                && var r := ExpandKeywords(c, v.fields, KEYWORDS, v.fields, active, work + amount.value);
                   Expand(c, v, active, work) == if r.Failed? then Failed else Done(Object(r.value), r.work)
    ensures v.Bool? ==> Expand(c, v, active, work) == if work + 1 > BUDGET then Failed else Done(v, work + 1)
    ensures !v.Object? && !v.Bool? ==> Expand(c, v, active, work).Failed?
  {
    hide NodePolicy, ReferenceOf, Resolve, ExpandKeywords, ExpandChild, KEYWORDS;
    assert |KEYWORDS| == 17 by { CountKeywords(); }
    if v.Object? && ReferenceOf(v.fields).Some? { RefsOfTarget(c.root, ReferenceOf(v.fields).value); }
  }

  lemma CountKeywords()
    ensures |KEYWORDS| == 17
  {
  }

  /** One keyword of the specification, whether or not it succeeds. */
  lemma KeywordStepOf(c: Context, fields: Fields, k: nat, copy: Fields, active: set<string>, work: nat)
    requires Refs(Object(fields)) <= Refs(c.root) && k < |KEYWORDS| == 17
    ensures var keyword, whole := KEYWORDS[k], ExpandKeywords(c, fields, KEYWORDS[k..], copy, active, work);
            if Has(fields, keyword.name) then
              var child := Lookup(fields, keyword.name).value;
              && Refs(child) <= Refs(c.root)
              && var r := ExpandChild(c, keyword.kind, child, active, work);
                 whole == if r.Failed? then Failed
                          else ExpandKeywords(c, fields, KEYWORDS[k + 1..], Replace(copy, keyword.name, r.value), active, r.work)
            else whole == ExpandKeywords(c, fields, KEYWORDS[k + 1..], copy, active, work)
  {
    assert KEYWORDS[k..][0] == KEYWORDS[k] && KEYWORDS[k..][1..] == KEYWORDS[k + 1..];
    RefsOfLookup(fields, KEYWORDS[k].name);
    hide KEYWORDS, ExpandChild, Replace;
  }

  /** `expand_schema_references`. */
  method ExpandReferences(root: Value, compiles: string -> bool) returns (ok: bool, expanded: Value, work: nat)
    ensures ok == ExpandSchema(Context(root, compiles)).Done?
    ensures ok ==> ExpandSchema(Context(root, compiles)) == Done(expanded, work)
  {
    hide Expand;
    var expander := new Expander(Context(root, compiles));
    ok, expanded := expander.ExpandValue(root);
    work := expander.work;
  }
}
