/** What a reference names: the value at the path that its pointer spells. */
module SchemaReferences {
  import opened Wrappers
  import opened Json
  import opened SchemaExpansion
  import opened SchemaExpander

  // ---------- Array indices ----------

  function DigitOf(n: nat): char
    requires n < 10
  {
    '0' + n as char
  }

  /** The decimal numeral, without leading zeros. */
  function Numeral(n: nat): string { if n < 10 then [DigitOf(n)] else Numeral(n / 10) + [DigitOf(n % 10)] }

  lemma {:induction false} NumeralDigits(n: nat)
    ensures IsDigits(Numeral(n)) && Numeral(n) != "" && Decimal(Numeral(n)) == n
    ensures Numeral(n)[0] == '0' ==> n == 0
  {
    if n < 10 {
      assert Numeral(n)[..0] == "";
    } else {
      NumeralDigits(n / 10);
      var s := Numeral(n);
      assert s[..|s| - 1] == Numeral(n / 10);
    }
  }

  lemma OneDigit()
    ensures forall n: nat :: n < 10 ==> Numeral(n) == [DigitOf(n)]
  {
  }

  lemma {:induction false} NumeralOfDecimal(s: string)
    requires IsDigits(s) && s != "" && (s[0] == '0' ==> |s| == 1)
    ensures Numeral(Decimal(s)) == s
  {
    hide Numeral;
    OneDigit();
    var t, last := s[..|s| - 1], s[|s| - 1];
    var d := last as int - '0' as int;
    if t == "" {
      assert s == [last] && Decimal(t) == 0 && Decimal(s) == d;
    } else {
      NumeralOfDecimal(t);
      PositiveDecimal(t);
      NumeralStep(Decimal(t), d);
      assert Decimal(s) == 10 * Decimal(t) + d && s == t + [last];
    }
  }

  lemma NumeralStep(n: nat, d: nat)
    requires 0 < n && d < 10
    ensures Numeral(10 * n + d) == Numeral(n) + [DigitOf(d)]
  {
    assert (10 * n + d) / 10 == n && (10 * n + d) % 10 == d;
  }

  lemma {:induction false} PositiveDecimal(s: string)
    requires IsDigits(s) && s != "" && s[0] != '0'
    ensures Decimal(s) > 0
  {
    if |s| > 1 { PositiveDecimal(s[..|s| - 1]); }
  }

  /** A token is an index exactly if it is the numeral of the number. */
  lemma IndexExactly(s: string, n: nat)
    ensures Index(s) == Some(n) <==> s == Numeral(n)
  {
    NumeralDigits(n);
    if Index(s) == Some(n) { NumeralOfDecimal(s); }
    if s == Numeral(n) && n == 0 { assert s == "0"; }
    hide Decimal;
  }

  // ---------- Paths ----------

  /** Into an object by name, or into an array by position. */
  datatype Into = Name(name: string) | Position(index: nat)

  function ValueAt(v: Value, path: seq<Into>): Option<Value>
    decreases |path|
  {
    if path == [] then Some(v)
    else match (v, path[0])
      case (Object(fields), Name(n)) => if Has(fields, n) then ValueAt(Lookup(fields, n).value, path[1..]) else None
      case (Array(items), Position(i)) => if i < |items| then ValueAt(items[i], path[1..]) else None
      case _ => None
  }

  function TokensOf(path: seq<Into>): seq<string> {
    if path == [] then [] else [if path[0].Name? then path[0].name else Numeral(path[0].index)] + TokensOf(path[1..])
  }

  /** The pointer that spells a path leads to the value at the path. */
  lemma {:induction false} WalkFinds(v: Value, path: seq<Into>)
    requires ValueAt(v, path).Some?
    ensures Walk(v, TokensOf(path)) == ValueAt(v, path)
    decreases |path|
  {
    if path != [] {
      assert TokensOf(path)[1..] == TokensOf(path[1..]);
      match (v, path[0])
      case (Object(fields), Name(n)) => WalkFinds(Lookup(fields, n).value, path[1..]);
      case (Array(items), Position(i)) =>
        IndexExactly(Numeral(i), i);
        WalkFinds(items[i], path[1..]);
    }
  }

  function Pointer(path: seq<Into>): string { PointerTo(TokensOf(path)) }

  lemma PathFound(v: Value, path: seq<Into>)
    requires ValueAt(v, path).Some?
    ensures Resolve(v, Pointer(path)) == ValueAt(v, path)
  {
    hide Resolve, Walk;
    PointerFinds(v, TokensOf(path));
    WalkFinds(v, path);
  }

  // ---------- References ----------

  /** A reference names the pointer that follows its fragment sign, if that is empty or starts with a
      slash and nothing in it is percent-encoded; every other reference is refused. */
  lemma PointerOfReference(reference: string, pointer: string)
    ensures LocalPointer(reference) == Some(pointer) <==>
            reference == "#" + pointer && (pointer == "" || (pointer[0] == '/' && '%' !in pointer))
  {
    if reference == "#" + pointer {
      assert reference[1..] == pointer;
      assert '%' in reference <==> '%' in pointer by {
        if '%' in reference { var i :| 0 <= i < |reference| && reference[i] == '%'; assert pointer[i - 1] == '%'; }
        if '%' in pointer { var i :| 0 <= i < |pointer| && pointer[i] == '%'; assert reference[i + 1] == '%'; }
      }
    }
    if LocalPointer(reference) == Some(pointer) && reference != "#" { assert reference == "#" + reference[1..]; }
  }

  lemma PointerStarts(path: seq<Into>)
    ensures Pointer(path) == "" || Pointer(path)[0] == '/'
  {
  }

  /** An object whose reference spells a path without percent signs is expanded as the value at that
      path is, with the pointer active; the reference itself costs one unit of work. */
  lemma ExpandsAsTarget(c: Context, fields: Fields, path: seq<Into>, active: set<string>, work: nat)
    requires Refs(Object(fields)) <= Refs(c.root) && NodePolicy(fields, c.compiles).Some? && work < BUDGET
    requires Lookup(fields, "$ref") == Some(String("#" + Pointer(path))) && '%' !in Pointer(path)
    requires ValueAt(c.root, path).Some? && Pointer(path) !in active
    ensures Refs(ValueAt(c.root, path).value) <= Refs(c.root)
    ensures Expand(c, Object(fields), active, work) == Expand(c, ValueAt(c.root, path).value, active + {Pointer(path)}, work + 1)
  {
    hide Expand, Resolve, Pointer, LocalPointer, ValueAt, Refs;
    PointerStarts(path);
    PointerOfReference("#" + Pointer(path), Pointer(path));
    PathFound(c.root, path);
    ExpandStep(c, Object(fields), active, work);
    ReferenceCost(fields, c.compiles);
  }

  lemma ReferenceCost(fields: Fields, compiles: string -> bool)
    requires Has(fields, "$ref") && NodePolicy(fields, compiles).Some?
    ensures NodePolicy(fields, compiles) == Some(1)
  {
    hide Lookup, PatternWork, LinearPattern;
  }

  /** A reference that is not a local pointer, or is active, or leads nowhere, is refused. */
  lemma ReferenceRefused(c: Context, fields: Fields, reference: string, active: set<string>, work: nat)
    requires Refs(Object(fields)) <= Refs(c.root) && Lookup(fields, "$ref") == Some(String(reference))
    requires || !(reference == "#" || (|reference| >= 2 && reference[..2] == "#/" && '%' !in reference))
             || reference[1..] in active || Resolve(c.root, reference[1..]).None?
    ensures Expand(c, Object(fields), active, work).Failed?
  {
    ExpandStep(c, Object(fields), active, work);
    hide Expand, Resolve, NodePolicy, Refs, ExpandKeywords, KEYWORDS;
    assert reference == "#" ==> reference[1..] == "";
  }
}
