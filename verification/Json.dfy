/** JSON values, and pointers into them as section 4 of RFC 6901 evaluates them. */
module Json {
  import opened Wrappers

  datatype Value =
    | Null
    | Bool(b: bool)
    | Number(n: real)
    | String(s: string)
    | Array(items: seq<Value>)
    | Object(fields: Fields)

  datatype Field = Field(name: string, value: Value)

  /** Members in iteration order. */
  type Fields = seq<Field>

  // ---------- Size ----------

  function Size(v: Value): nat
    decreases v, 1
  {
    match v
    case Array(items) => 1 + SizeOfItems(items)
    case Object(fields) => 1 + SizeOfFields(fields)
    case _ => 1
  }

  function SizeOfItems(items: seq<Value>): nat
    decreases items, 0
  {
    if items == [] then 0 else Size(items[0]) + SizeOfItems(items[1..])
  }

  function SizeOfFields(fields: Fields): nat
    decreases fields, 0
  {
    if fields == [] then 0 else Size(fields[0].value) + 1 + SizeOfFields(fields[1..])
  }

  lemma {:induction false} ItemSmaller(items: seq<Value>, i: nat)
    requires i < |items|
    ensures Size(items[i]) < Size(Array(items))
  {
    if i > 0 { ItemSmaller(items[1..], i - 1); }
  }

  // ---------- Members ----------

  function Lookup(fields: Fields, name: string): Option<Value> {
    if fields == [] then None
    else if fields[0].name == name then Some(fields[0].value)
    else Lookup(fields[1..], name)
  }

  predicate Has(fields: Fields, name: string) { Lookup(fields, name).Some? }

  /** `insert` at a name that is present. */
  function Replace(fields: Fields, name: string, v: Value): Fields {
    if fields == [] then []
    else if fields[0].name == name then [Field(name, v)] + fields[1..]
    else [fields[0]] + Replace(fields[1..], name, v)
  }

  lemma {:induction false} LookupSmaller(fields: Fields, name: string)
    requires Has(fields, name)
    ensures Size(Lookup(fields, name).value) < Size(Object(fields))
  {
    if fields[0].name != name { LookupSmaller(fields[1..], name); }
  }

  lemma {:induction false} LookupReplaced(fields: Fields, name: string, v: Value, other: string)
    ensures Lookup(Replace(fields, name, v), other) ==
            if other == name && Has(fields, name) then Some(v) else Lookup(fields, other)
  {
    if fields != [] {
      if fields[0].name != name { LookupReplaced(fields[1..], name, v, other); }
      assert Replace(fields, name, v)[1..] == if fields[0].name == name then fields[1..] else Replace(fields[1..], name, v);
    }
  }

  // ---------- Pointers ----------

  /** Replace every occurrence of `~` followed by `digit` by `c`. */
  function Unescape(s: string, digit: char, c: char): string {
    if s == "" then ""
    else if |s| >= 2 && s[0] == '~' && s[1] == digit then [c] + Unescape(s[2..], digit, c)
    else [s[0]] + Unescape(s[1..], digit, c)
  }

  function Token(s: string): string { Unescape(Unescape(s, '1', '/'), '0', '~') }

  /** The pieces between separators; one more than there are separators. */
  function Split(s: string): seq<string> {
    if s == "" then [""]
    else
      var rest := Split(s[1..]);
      if s[0] == '/' then [""] + rest else [[s[0]] + rest[0]] + rest[1..]
  }

  function IsDigits(s: string): bool { forall i :: 0 <= i < |s| ==> '0' <= s[i] <= '9' }

  function Decimal(s: string): nat
    requires IsDigits(s)
  {
    if s == "" then 0 else 10 * Decimal(s[..|s| - 1]) + (s[|s| - 1] as int - '0' as int)
  }

  /** Array indices have no sign and no leading zero. */
  function Index(s: string): Option<nat> {
    if s == "" || (s[0] == '0' && |s| != 1) || !IsDigits(s) then None else Some(Decimal(s))
  }

  function Child(v: Value, token: string): Option<Value> {
    match v
    case Object(fields) => Lookup(fields, token)
    case Array(items) =>
      var i := Index(token);
      if i.Some? && i.value < |items| then Some(items[i.value]) else None
    case _ => None
  }

  function Walk(v: Value, tokens: seq<string>): Option<Value>
    decreases |tokens|
  {
    if tokens == [] then Some(v)
    else
      var next := Child(v, tokens[0]);
      if next.None? then None else Walk(next.value, tokens[1..])
  }

  function Tokens(pieces: seq<string>): seq<string> { seq(|pieces|, i requires 0 <= i < |pieces| => Token(pieces[i])) }

  /** `Value::pointer`. */
  function Resolve(v: Value, pointer: string): Option<Value> {
    if pointer == "" then Some(v)
    else if pointer[0] != '/' then None
    else Walk(v, Tokens(Split(pointer[1..])))
  }

  // ---------- Pointers name what they were made from ----------

  function Escape(s: string): string {
    if s == "" then ""
    else (if s[0] == '~' then "~0" else if s[0] == '/' then "~1" else [s[0]]) + Escape(s[1..])
  }

  function PointerTo(tokens: seq<string>): string {
    if tokens == [] then "" else "/" + Escape(tokens[0]) + PointerTo(tokens[1..])
  }

  /** With slashes restored first, only the escaped tildes are left. */
  function HalfEscaped(s: string): string {
    if s == "" then "" else (if s[0] == '~' then "~0" else [s[0]]) + HalfEscaped(s[1..])
  }

  lemma {:induction false} SlashesRestored(s: string)
    ensures Unescape(Escape(s), '1', '/') == HalfEscaped(s)
  {
    if s != "" {
      SlashesRestored(s[1..]);
      var rest := Escape(s[1..]);
      if s[0] == '~' {
        assert ("~0" + rest)[1..] == "0" + rest;
        assert ("0" + rest)[1..] == rest;
        assert Unescape("0" + rest, '1', '/') == "0" + Unescape(rest, '1', '/');
        assert Unescape("~0" + rest, '1', '/') == "~" + ("0" + Unescape(rest, '1', '/'));
        assert "~" + ("0" + HalfEscaped(s[1..])) == "~0" + HalfEscaped(s[1..]);
      } else if s[0] == '/' {
        assert ("~1" + rest)[2..] == rest;
      } else {
        assert ([s[0]] + rest)[1..] == rest;
      }
    }
  }

  lemma {:induction false} TildesRestored(s: string)
    ensures Unescape(HalfEscaped(s), '0', '~') == s
  {
    if s != "" {
      TildesRestored(s[1..]);
      var rest := HalfEscaped(s[1..]);
      if s[0] == '~' {
        assert ("~0" + rest)[2..] == rest;
      } else {
        assert ([s[0]] + rest)[1..] == rest;
      }
    }
  }

  /** Reading an escaped name gives the name back. */
  lemma TokenOfEscape(s: string)
    ensures Token(Escape(s)) == s
  {
    SlashesRestored(s);
    TildesRestored(s);
  }

  lemma {:induction false} SplitEscaped(s: string, rest: string)
    ensures Split(Escape(s)) == [Escape(s)]
    ensures Split(Escape(s) + "/" + rest) == [Escape(s)] + Split(rest)
  {
    SplitPlain(Escape(s), rest);
    NoSlash(s);
  }

  lemma {:induction false} NoSlash(s: string)
    ensures '/' !in Escape(s)
  {
    if s != "" { NoSlash(s[1..]); }
  }

  lemma {:induction false} SplitPlain(t: string, rest: string)
    ensures '/' !in t ==> Split(t) == [t] && Split(t + "/" + rest) == [t] + Split(rest)
  {
    if t == "" {
      assert "" + "/" + rest == "/" + rest && ("/" + rest)[1..] == rest;
    } else {
      SplitPlain(t[1..], rest);
      assert (t + "/" + rest)[1..] == t[1..] + "/" + rest;
      if '/' !in t {
        assert [t[0]] + t[1..] == t;
      }
    }
  }

  /** Every value is found by the pointer spelled from its path, whatever characters its names have. */
  lemma {:induction false} PointerFinds(v: Value, tokens: seq<string>)
    ensures Resolve(v, PointerTo(tokens)) == Walk(v, tokens)
  {
    if tokens != [] {
      PiecesOf(tokens);
      var p := PointerTo(tokens);
      assert p[0] == '/';
      assert Tokens(Split(p[1..])) == tokens;
    }
  }

  lemma {:induction false} PiecesOf(tokens: seq<string>)
    requires tokens != []
    ensures PointerTo(tokens) != "" && Tokens(Split(PointerTo(tokens)[1..])) == tokens
  {
    hide Split, Token, Tokens, Escape;
    var e := Escape(tokens[0]);
    var rest := PointerTo(tokens[1..]);
    assert PointerTo(tokens)[1..] == e + rest;
    TokenOfEscape(tokens[0]);
    TokensCons(e, []);
    NoTokens();
    assert [e] + [] == [e];
    if tokens[1..] == [] {
      assert e + rest == e;
      SplitEscaped(tokens[0], "");
      assert tokens == [tokens[0]];
    } else {
      PiecesOf(tokens[1..]);
      assert rest[0] == '/' && rest == "/" + rest[1..];
      assert e + rest == e + "/" + rest[1..];
      SplitEscaped(tokens[0], rest[1..]);
      assert tokens == [tokens[0]] + tokens[1..];
      TokensCons(e, Split(rest[1..]));
    }
  }

  lemma NoTokens()
    ensures Tokens([]) == []
  {
  }

  lemma TokensCons(piece: string, pieces: seq<string>)
    ensures Tokens([piece] + pieces) == [Token(piece)] + Tokens(pieces)
  {
  }
}
