/** The part of Python's `str.format(**data)` that event message templates use:
    literal text, `{{` and `}}` escapes, and `{name}` replacement fields looked up in
    an insertion-ordered variable dict. The template is processed from left to right
    and the first problem met decides the outcome, as in Python's formatter. */
module Template {
  import opened Common
  import opened Decimal

  /** A template variable: an integer, a string, or a float together with the text
      Python's `str()` gives for it (float printing is not modelled). */
  datatype Value = IntVal(i: int) | StrVal(s: string) | FloatVal(x: real, shown: string)

  /** What `format` writes for a value with no format spec. */
  function Show(v: Value): string {
    match v
    case IntVal(i) => IntText(i)
    case StrVal(s) => s
    case FloatVal(_, shown) => shown
  }

  /** A Python dict of variables: the keys in insertion order (what `list(data)`
      yields) and the key-to-value mapping. */
  datatype Vars = Vars(names: seq<string>, values: map<string, Value>)

  predicate Valid(d: Vars) {
    && (forall i, j :: 0 <= i < j < |d.names| ==> d.names[i] != d.names[j])
    && d.values.Keys == set k | k in d.names
  }

  const NoVars: Vars := Vars([], map[])

  /** `d.setdefault(k, v)`: adds `k` at the end of the order when it is absent and
      never overwrites a value that is already there. */
  function SetDefault(d: Vars, k: string, v: Value): (r: Vars)
    requires Valid(d)
    ensures Valid(r)
    ensures r.values.Keys == d.values.Keys + {k}
    ensures k in d.values ==> r.values[k] == d.values[k]
    ensures k !in d.values ==> r.values[k] == v
    ensures forall j :: j in d.values ==> r.values[j] == d.values[j]
    ensures |d.names| <= |r.names| && r.names[..|d.names|] == d.names
  {
    if k in d.values then d else Vars(d.names + [k], d.values[k := v])
  }

  /** `d[k] = v`: the value is replaced, a new key goes to the end of the order. */
  function Assign(d: Vars, k: string, v: Value): (r: Vars)
    requires Valid(d)
    ensures Valid(r)
    ensures r.values.Keys == d.values.Keys + {k} && r.values[k] == v
    ensures forall j :: j in d.values && j != k ==> r.values[j] == d.values[j]
    ensures |d.names| <= |r.names| && r.names[..|d.names|] == d.names
  {
    if k in d.values then Vars(d.names, d.values[k := v]) else Vars(d.names + [k], d.values[k := v])
  }

  datatype FormatResult =
    | Formatted(text: string)
      /** Python raises `KeyError(name)`. */
    | MissingKey(name: string)
      /** Python raises `ValueError` (a lone brace, an unclosed field) or
          `IndexError` (an empty or all-digit field: positional arguments are never
          passed). */
    | Malformed
      /** A conversion, format spec, attribute, index or nested field: outside the
          modelled part of `str.format`. */
    | Unmodelled

  function Prefix(p: string, r: FormatResult): FormatResult {
    if r.Formatted? then Formatted(p + r.text) else r
  }

  predicate IsBrace(c: char) {
    c == '{' || c == '}'
  }

  /** Length of the text before the first brace of `s`. */
  function FieldLength(s: string): (n: nat)
    ensures n <= |s|
    ensures forall k :: 0 <= k < n ==> !IsBrace(s[k])
    ensures n < |s| ==> IsBrace(s[n])
  {
    if |s| == 0 || IsBrace(s[0]) then 0 else 1 + FieldLength(s[1..])
  }

  /** Characters that would make a field more than a bare keyword name. */
  predicate IsFieldSyntax(c: char) {
    c == '!' || c == ':' || c == '.' || c == '[' || c == ']'
  }

  /** A field name that Python looks up as a keyword argument, with nothing after it. */
  predicate PlainName(n: string) {
    && n != ""
    && !AllDigits(n)
    && (forall k :: 0 <= k < |n| ==> !IsBrace(n[k]) && !IsFieldSyntax(n[k]))
  }

  /** `t.format(**d)` over the modelled subset. Text without braces comes out
      unchanged, and a `KeyError` names a plain keyword the variables lack. */
  function Format(t: string, d: Vars): (r: FormatResult)
    ensures (forall k :: 0 <= k < |t| ==> !IsBrace(t[k])) ==> r == Formatted(t)
    ensures r.MissingKey? ==> PlainName(r.name) && r.name !in d.values
    decreases |t|
  {
    if |t| == 0 then Formatted("")
    else if t[0] == '{' then
      if |t| > 1 && t[1] == '{' then Prefix("{", Format(t[2..], d))
      else
        var n := FieldLength(t[1..]);
        var name := t[1..1 + n];
        if 1 + n == |t| then Malformed
        else if t[1 + n] == '{' then Unmodelled
        else if name == "" || AllDigits(name) then Malformed
        else if !PlainName(name) then Unmodelled
        else if name !in d.values then MissingKey(name)
        else Prefix(Show(d.values[name]), Format(t[2 + n..], d))
    else if t[0] == '}' then
      if |t| > 1 && t[1] == '}' then Prefix("}", Format(t[2..], d)) else Malformed
    else
      assert [t[0]] + t[1..] == t;
      Prefix([t[0]], Format(t[1..], d))
  }

  // An independent description of templates: a sequence of literal pieces and
  // named fields, written out with braces doubled in the literal text.

  datatype Piece = Lit(text: string) | Field(name: string)

  /** Literal text with every brace doubled, so that `format` prints it back. */
  function Escape(text: string): string {
    if |text| == 0 then ""
    else if IsBrace(text[0]) then [text[0], text[0]] + Escape(text[1..])
    else [text[0]] + Escape(text[1..])
  }

  function EmitPiece(p: Piece): string {
    match p
    case Lit(text) => Escape(text)
    case Field(name) => "{" + name + "}"
  }

  function Emit(ps: seq<Piece>): string {
    if |ps| == 0 then "" else EmitPiece(ps[0]) + Emit(ps[1..])
  }

  predicate Plain(ps: seq<Piece>) {
    forall i :: 0 <= i < |ps| ==> ps[i].Field? ==> PlainName(ps[i].name)
  }

  /** What formatting a piece sequence must give: the literal text and the shown
      values in order, or a `KeyError` naming the first field that has no variable. */
  function Expected(ps: seq<Piece>, d: Vars): FormatResult {
    if |ps| == 0 then Formatted("")
    else match ps[0]
      case Lit(text) => Prefix(text, Expected(ps[1..], d))
      case Field(name) =>
        if name in d.values then Prefix(Show(d.values[name]), Expected(ps[1..], d))
        else MissingKey(name)
  }

  lemma PrefixPrefix(a: string, b: string, r: FormatResult)
    ensures Prefix(a, Prefix(b, r)) == Prefix(a + b, r)
  {
    if r.Formatted? {
      assert a + (b + r.text) == (a + b) + r.text;
    }
  }

  /** Escaped literal text formats back to itself, and the rest of the template is
      formatted independently of it. */
  lemma {:induction false} FormatEscaped(text: string, rest: string, d: Vars)
    ensures Format(Escape(text) + rest, d) == Prefix(text, Format(rest, d))
    decreases |text|
  {
    if |text| == 0 {
      assert Escape(text) + rest == rest;
      assert Prefix("", Format(rest, d)) == Format(rest, d);
    } else {
      var c := text[0];
      var e := Escape(text[1..]);
      assert Format(Escape(text) + rest, d) == Prefix([c], Format(e + rest, d)) by {
        if IsBrace(c) {
          assert Escape(text) + rest == [c, c] + (e + rest);
          FormatDoubledBrace(c, e + rest, d);
        } else {
          assert Escape(text) + rest == [c] + (e + rest);
          FormatOrdinaryChar(c, e + rest, d);
        }
      }
      FormatEscaped(text[1..], rest, d);
      PrefixPrefix([c], text[1..], Format(rest, d));
      assert [c] + text[1..] == text;
    }
  }

  lemma FormatDoubledBrace(c: char, u: string, d: Vars)
    requires IsBrace(c)
    ensures Format([c, c] + u, d) == Prefix([c], Format(u, d))
  {
    assert ([c, c] + u)[2..] == u;
  }

  lemma FormatOrdinaryChar(c: char, u: string, d: Vars)
    requires !IsBrace(c)
    ensures Format([c] + u, d) == Prefix([c], Format(u, d))
  {
    assert ([c] + u)[1..] == u;
  }

  /** A plain field is looked up, and the rest of the template is formatted only when
      the lookup succeeds. */
  lemma FormatField(name: string, rest: string, d: Vars)
    requires PlainName(name)
    ensures Format("{" + name + "}" + rest, d)
         == if name in d.values then Prefix(Show(d.values[name]), Format(rest, d)) else MissingKey(name)
  {
    var t := "{" + name + "}" + rest;
    FieldLengthOfName(name, "}" + rest);
    assert t[1..] == name + ("}" + rest);
    assert t[1..1 + |name|] == name;
    assert t[2 + |name|..] == rest;
  }

  lemma {:induction false} FieldLengthOfName(name: string, rest: string)
    requires forall k :: 0 <= k < |name| ==> !IsBrace(name[k])
    requires |rest| > 0 && IsBrace(rest[0])
    ensures FieldLength(name + rest) == |name|
    decreases |name|
  {
    if |name| > 0 {
      assert (name + rest)[1..] == name[1..] + rest;
      FieldLengthOfName(name[1..], rest);
    } else {
      assert name + rest == rest;
    }
  }

  /** Formatting the written-out form of a piece sequence gives exactly the expected
      text, or the `KeyError` of the first missing variable. */
  lemma {:induction false} FormatEmit(ps: seq<Piece>, d: Vars)
    requires Plain(ps)
    ensures Format(Emit(ps), d) == Expected(ps, d)
    decreases |ps|
  {
    if |ps| == 0 {
    } else {
      var rest := Emit(ps[1..]);
      assert Plain(ps[1..]) by {
        forall i | 0 <= i < |ps[1..]| ensures ps[1..][i].Field? ==> PlainName(ps[1..][i].name) {
          assert ps[1..][i] == ps[i + 1];
        }
      }
      FormatEmit(ps[1..], d);
      match ps[0]
      case Lit(text) =>
        FormatEscaped(text, rest, d);
      case Field(name) =>
        assert PlainName(name) by { assert ps[0].Field?; }
        FormatField(name, rest, d);
    }
  }
}
