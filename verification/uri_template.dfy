/** `format_uri`: `str.format(**value_dict)` restricted to templates whose only
    braces are `{identifier}` placeholders. */
module UriTemplate {
  import opened Wrappers

  /** One character of literal text, or one `{name}` placeholder. */
  datatype Piece = Literal(c: char) | Field(name: string)

  predicate IsNameChar(c: char) {
    'a' <= c <= 'z' || 'A' <= c <= 'Z' || '0' <= c <= '9' || c == '_'
  }

  /** A keyword field name: a non-empty identifier not starting with a digit. */
  predicate IsFieldName(s: string) {
    |s| > 0 && !('0' <= s[0] <= '9') && forall i :: 0 <= i < |s| ==> IsNameChar(s[i])
  }

  predicate ValidPiece(p: Piece) {
    match p
    case Literal(c) => c != '{' && c != '}'
    case Field(n) => IsFieldName(n)
  }

  predicate ValidPieces(ps: seq<Piece>) {
    forall i :: 0 <= i < |ps| ==> ValidPiece(ps[i])
  }

  function PieceText(p: Piece): string {
    match p
    case Literal(c) => [c]
    case Field(n) => "{" + n + "}"
  }

  /** The template text a sequence of pieces spells. */
  function Unparse(ps: seq<Piece>): string
    decreases |ps|
  {
    if ps == [] then "" else PieceText(ps[0]) + Unparse(ps[1..])
  }

  /** The length of the run of name characters that starts `s`. */
  function NameLength(s: string): (n: nat)
    ensures n <= |s|
    ensures forall i :: 0 <= i < n ==> IsNameChar(s[i])
    ensures n < |s| ==> !IsNameChar(s[n])
    decreases |s|
  {
    if |s| == 0 || !IsNameChar(s[0]) then 0 else 1 + NameLength(s[1..])
  }

  lemma ConsPiece(p: Piece, rest: seq<Piece>)
    requires ValidPiece(p) && ValidPieces(rest)
    ensures ValidPieces([p] + rest)
    ensures Unparse([p] + rest) == PieceText(p) + Unparse(rest)
  {
    assert ([p] + rest)[1..] == rest;
    forall i | 0 <= i < |[p] + rest| ensures ValidPiece(([p] + rest)[i]) {
      if i > 0 { assert ([p] + rest)[i] == rest[i - 1]; }
    }
  }

  lemma FieldSplit(t: string, n: nat)
    requires 1 + n < |t| && t[0] == '{' && t[1 + n] == '}'
    ensures t == "{" + t[1..1 + n] + "}" + t[n + 2..]
  {
  }

  lemma HeadSplit(t: string)
    requires |t| > 0
    ensures t == [t[0]] + t[1..]
  {
  }

  /** Reads a template as pieces; None when a brace is not part of a `{identifier}`
      placeholder. What it accepts spells the template back. */
  function Tokenize(t: string): (r: Option<seq<Piece>>)
    ensures r.Some? ==> ValidPieces(r.value) && Unparse(r.value) == t
    decreases |t|
  {
    if t == [] then Some([])
    else if t[0] == '}' then None
    else if t[0] == '{' then
      var n := NameLength(t[1..]);
      if 1 + n < |t| && t[1 + n] == '}' && IsFieldName(t[1..1 + n]) then
        match Tokenize(t[n + 2..])
        case None => None
        case Some(rest) =>
          ConsPiece(Field(t[1..1 + n]), rest);
          FieldSplit(t, n);
          Some([Field(t[1..1 + n])] + rest)
      else None
    else
      match Tokenize(t[1..])
      case None => None
      case Some(rest) =>
        ConsPiece(Literal(t[0]), rest);
        HeadSplit(t);
        Some([Literal(t[0])] + rest)
  }

  lemma {:induction false} NameLengthStopsAtBrace(n: string, u: string)
    requires forall i :: 0 <= i < |n| ==> IsNameChar(n[i])
    ensures NameLength(n + "}" + u) == |n|
    decreases |n|
  {
    if |n| > 0 {
      assert (n + "}" + u)[1..] == n[1..] + "}" + u;
      NameLengthStopsAtBrace(n[1..], u);
    }
  }

  lemma TokenizeLiteralCons(c: char, u: string)
    requires c != '{' && c != '}' && Tokenize(u).Some?
    ensures Tokenize([c] + u) == Some([Literal(c)] + Tokenize(u).value)
  {
    assert ([c] + u)[1..] == u;
  }

  lemma TokenizeFieldCons(n: string, u: string)
    requires IsFieldName(n) && Tokenize(u).Some?
    ensures Tokenize("{" + n + "}" + u) == Some([Field(n)] + Tokenize(u).value)
  {
    var t := "{" + n + "}" + u;
    assert t[1..] == n + "}" + u;
    NameLengthStopsAtBrace(n, u);
    assert t[1 + |n|] == '}';
    assert t[1..1 + |n|] == n;
    assert t[|n| + 2..] == u;
  }

  /** Valid pieces are read back from the text they spell: with `Tokenize`'s own
      contract, `Tokenize` is exactly the grammar of valid pieces. */
  lemma {:induction false} TokenizeUnparse(ps: seq<Piece>)
    requires ValidPieces(ps)
    ensures Tokenize(Unparse(ps)) == Some(ps)
    decreases |ps|
  {
    if ps != [] {
      var u := Unparse(ps[1..]);
      assert ValidPieces(ps[1..]) by {
        forall i | 0 <= i < |ps[1..]| ensures ValidPiece(ps[1..][i]) {
          assert ps[1..][i] == ps[i + 1];
        }
      }
      TokenizeUnparse(ps[1..]);
      assert ValidPiece(ps[0]);
      assert [ps[0]] + ps[1..] == ps;
      match ps[0]
      case Literal(c) =>
        TokenizeLiteralCons(c, u);
      case Field(n) =>
        TokenizeFieldCons(n, u);
    }
  }

  /** The placeholder names of the pieces, in order, repeats kept. */
  function Names(ps: seq<Piece>): (names: seq<string>)
    ensures forall n :: n in names <==> exists i :: 0 <= i < |ps| && ps[i] == Field(n)
    decreases |ps|
  {
    if ps == [] then []
    else
      var rest := Names(ps[1..]);
      assert forall i :: 1 <= i < |ps| ==> ps[i] == ps[1..][i - 1];
      match ps[0]
      case Literal(_) => rest
      case Field(n) => [n] + rest
  }

  /** The placeholder names of a template (none outside the grammar). */
  function FieldNames(t: string): seq<string> {
    match Tokenize(t)
    case None => []
    case Some(ps) => Names(ps)
  }

  /** A placeholder whose name is not a key. */
  predicate Missing(p: Piece, values: map<string, string>) {
    p.Field? && p.name !in values
  }

  /** The text a piece contributes: the character itself, or the placeholder's value. */
  function Substitute(p: Piece, values: map<string, string>): string
    requires !Missing(p, values)
  {
    match p
    case Literal(c) => [c]
    case Field(n) => values[n]
  }

  /** Substitutes placeholders left to right; the first name that is not a key is the
      KeyError `str.format` raises. */
  function Render(ps: seq<Piece>, values: map<string, string>): (r: Result<string, string>)
    ensures r.Ok? <==> forall i :: 0 <= i < |ps| ==> !Missing(ps[i], values)
    ensures r.Err? ==> r.error in Names(ps) && r.error !in values
    decreases |ps|
  {
    if ps == [] then Ok("")
    else if Missing(ps[0], values) then Err(ps[0].name)
    else
      var head := Substitute(ps[0], values);
      var rest := Render(ps[1..], values);
      assert forall i :: 1 <= i < |ps| ==> ps[i] == ps[1..][i - 1];
      match rest
      case Err(e) => Err(e)
      case Ok(s) => Ok(head + s)
  }

  /** The name reported is that of the first placeholder without a key. */
  lemma {:induction false} RenderFirstMissing(ps: seq<Piece>, values: map<string, string>, i: nat)
    requires i < |ps| && Missing(ps[i], values)
    requires forall j :: 0 <= j < i ==> !Missing(ps[j], values)
    ensures Render(ps, values) == Err(ps[i].name)
    decreases i
  {
    if i > 0 {
      assert forall j :: 0 <= j < i - 1 ==> ps[1..][j] == ps[j + 1];
      RenderFirstMissing(ps[1..], values, i - 1);
      assert !Missing(ps[0], values);
    }
  }

  /** The result of `format_uri`: the formatted URI or None, with the warnings printed;
      `OutsideGrammar` for templates this model does not cover. */
  datatype FormatOutcome = Done(uri: Option<string>, warnings: seq<string>) | OutsideGrammar

  /** `format_uri(uri, value_dict)`: the template with every placeholder substituted;
      when a placeholder name is not a key, None and one warning naming it, with no
      exception escaping. */
  function FormatUri(t: string, values: map<string, string>): (r: FormatOutcome)
    ensures r.OutsideGrammar? <==> Tokenize(t).None?
    ensures r.Done? ==> (r.uri.Some? <==> forall n :: n in FieldNames(t) ==> n in values)
    ensures r.Done? && r.uri.Some? ==> r.warnings == []
    ensures r.Done? && r.uri.None? ==>
              |r.warnings| == 1 && r.warnings[0] in FieldNames(t) && r.warnings[0] !in values
  {
    match Tokenize(t)
    case None => OutsideGrammar
    case Some(ps) =>
      match Render(ps, values)
      case Ok(s) => Done(Some(s), [])
      case Err(k) =>
        assert Missing(Field(k), values);
        Done(None, [k])
  }

  lemma {:induction false} RenderIgnoresUnusedKeys(ps: seq<Piece>, v1: map<string, string>, v2: map<string, string>)
    requires forall n :: n in Names(ps) ==> (n in v1 <==> n in v2) && (n in v1 ==> v1[n] == v2[n])
    ensures Render(ps, v1) == Render(ps, v2)
    decreases |ps|
  {
    if ps != [] {
      assert forall n :: n in Names(ps[1..]) ==> n in Names(ps) by {
        forall n | n in Names(ps[1..]) ensures n in Names(ps) {
          var i :| 0 <= i < |ps[1..]| && ps[1..][i] == Field(n);
          assert ps[i + 1] == Field(n);
        }
      }
      RenderIgnoresUnusedKeys(ps[1..], v1, v2);
      if ps[0].Field? {
        assert ps[0].name in Names(ps);
      }
    }
  }

  /** Keys the template does not mention have no effect on the result. */
  lemma FormatIgnoresUnusedKeys(t: string, v1: map<string, string>, v2: map<string, string>)
    requires forall n :: n in FieldNames(t) ==> (n in v1 <==> n in v2) && (n in v1 ==> v1[n] == v2[n])
    ensures FormatUri(t, v1) == FormatUri(t, v2)
  {
    if Tokenize(t).Some? {
      RenderIgnoresUnusedKeys(Tokenize(t).value, v1, v2);
    }
  }

  lemma {:induction false} RenderSelfValues(ps: seq<Piece>, values: map<string, string>)
    requires forall n :: n in Names(ps) ==> n in values && values[n] == "{" + n + "}"
    ensures Render(ps, values) == Ok(Unparse(ps))
    decreases |ps|
  {
    if ps != [] {
      assert forall n :: n in Names(ps[1..]) ==> n in Names(ps) by {
        forall n | n in Names(ps[1..]) ensures n in Names(ps) {
          var i :| 0 <= i < |ps[1..]| && ps[1..][i] == Field(n);
          assert ps[i + 1] == Field(n);
        }
      }
      RenderSelfValues(ps[1..], values);
      if ps[0].Field? {
        assert ps[0].name in Names(ps);
      }
    }
  }

  /** Substituting each placeholder by its own `{name}` text gives the template back. */
  lemma FormatRestoresTemplate(t: string, values: map<string, string>)
    requires Tokenize(t).Some?
    requires forall n :: n in FieldNames(t) ==> n in values && values[n] == "{" + n + "}"
    ensures FormatUri(t, values) == Done(Some(t), [])
  {
    RenderSelfValues(Tokenize(t).value, values);
  }

  /** A template without placeholders formats to itself whatever the values. */
  lemma FormatPlaceholderFree(t: string, values: map<string, string>)
    requires Tokenize(t).Some? && FieldNames(t) == []
    ensures FormatUri(t, values) == Done(Some(t), [])
  {
    RenderSelfValues(Tokenize(t).value, values);
  }

  lemma {:induction false} RenderHasNoBraces(ps: seq<Piece>, values: map<string, string>)
    requires ValidPieces(ps)
    requires forall n :: n in Names(ps) && n in values ==> '{' !in values[n] && '}' !in values[n]
    requires Render(ps, values).Ok?
    ensures '{' !in Render(ps, values).value && '}' !in Render(ps, values).value
    decreases |ps|
  {
    if ps != [] {
      assert forall n :: n in Names(ps[1..]) ==> n in Names(ps) by {
        forall n | n in Names(ps[1..]) ensures n in Names(ps) {
          var i :| 0 <= i < |ps[1..]| && ps[1..][i] == Field(n);
          assert ps[i + 1] == Field(n);
        }
      }
      assert ValidPiece(ps[0]);
      assert ValidPieces(ps[1..]) by {
        forall i | 0 <= i < |ps[1..]| ensures ValidPiece(ps[1..][i]) {
          assert ps[1..][i] == ps[i + 1];
        }
      }
      RenderHasNoBraces(ps[1..], values);
      if ps[0].Field? {
        assert ps[0].name in Names(ps);
      }
    }
  }

  /** With brace-free values, a formatted URI has no residual `{...}` token. */
  lemma FormatLeavesNoBraces(t: string, values: map<string, string>)
    requires forall n :: n in FieldNames(t) && n in values ==> '{' !in values[n] && '}' !in values[n]
    requires FormatUri(t, values).Done? && FormatUri(t, values).uri.Some?
    ensures '{' !in FormatUri(t, values).uri.value && '}' !in FormatUri(t, values).uri.value
  {
    RenderHasNoBraces(Tokenize(t).value, values);
  }

  lemma {:induction false} UnparseAppend(p: seq<Piece>, q: seq<Piece>)
    ensures Unparse(p + q) == Unparse(p) + Unparse(q)
    decreases |p|
  {
    if p != [] {
      assert (p + q)[1..] == p[1..] + q;
      assert (p + q)[0] == p[0];
      UnparseAppend(p[1..], q);
      calc {
        Unparse(p + q);
        PieceText(p[0]) + Unparse(p[1..] + q);
        PieceText(p[0]) + (Unparse(p[1..]) + Unparse(q));
        (PieceText(p[0]) + Unparse(p[1..])) + Unparse(q);
      }
    } else {
      assert p + q == q;
    }
  }

  lemma RenderCons(p: seq<Piece>, values: map<string, string>)
    requires p != [] && !Missing(p[0], values) && Render(p[1..], values).Ok?
    ensures Render(p, values) == Ok(Substitute(p[0], values) + Render(p[1..], values).value)
  {
  }

  lemma RenderOkTail(p: seq<Piece>, values: map<string, string>)
    requires p != [] && Render(p, values).Ok?
    ensures !Missing(p[0], values) && Render(p[1..], values).Ok?
  {
  }

  lemma ConsAppend(p: seq<Piece>, q: seq<Piece>)
    requires p != []
    ensures (p + q)[0] == p[0] && (p + q)[1..] == p[1..] + q
  {
  }

  lemma AppendAssociates(a: string, b: string, c: string)
    ensures a + (b + c) == (a + b) + c
  {
  }

  lemma RenderAppendStep(p: seq<Piece>, q: seq<Piece>, values: map<string, string>)
    requires p != [] && !Missing(p[0], values)
    requires Render(p[1..], values).Ok? && Render(q, values).Ok?
    requires Render(p[1..] + q, values) == Ok(Render(p[1..], values).value + Render(q, values).value)
    ensures Render(p + q, values) == Ok(Render(p, values).value + Render(q, values).value)
  {
    ConsAppend(p, q);
    RenderCons(p, values);
    RenderCons(p + q, values);
    AppendAssociates(Substitute(p[0], values), Render(p[1..], values).value, Render(q, values).value);
  }

  lemma {:induction false} RenderAppend(p: seq<Piece>, q: seq<Piece>, values: map<string, string>)
    requires Render(p, values).Ok? && Render(q, values).Ok?
    ensures Render(p + q, values) == Ok(Render(p, values).value + Render(q, values).value)
    decreases |p|
  {
    if p != [] {
      RenderOkTail(p, values);
      RenderAppend(p[1..], q, values);
      RenderAppendStep(p, q, values);
    } else {
      assert p + q == q;
      assert "" + Render(q, values).value == Render(q, values).value;
    }
  }

  /** Formatting distributes over concatenation of templates: literal text and
      substituted values keep their order. */
  lemma FormatAppend(a: string, b: string, values: map<string, string>)
    requires FormatUri(a, values).Done? && FormatUri(a, values).uri.Some?
    requires FormatUri(b, values).Done? && FormatUri(b, values).uri.Some?
    ensures FormatUri(a + b, values)
              == Done(Some(FormatUri(a, values).uri.value + FormatUri(b, values).uri.value), [])
  {
    var pa := Tokenize(a).value;
    var pb := Tokenize(b).value;
    UnparseAppend(pa, pb);
    assert ValidPieces(pa + pb) by {
      forall i | 0 <= i < |pa + pb| ensures ValidPiece((pa + pb)[i]) {
        if i < |pa| { assert (pa + pb)[i] == pa[i]; } else { assert (pa + pb)[i] == pb[i - |pa|]; }
      }
    }
    TokenizeUnparse(pa + pb);
    RenderAppend(pa, pb, values);
  }

  /** Brace-free text formats to itself whatever the values. */
  lemma {:induction false} BraceFreeIsLiteral(s: string, values: map<string, string>)
    requires '{' !in s && '}' !in s
    ensures FormatUri(s, values) == Done(Some(s), [])
    decreases |s|
  {
    if s != [] {
      var c := [s[0]];
      assert Tokenize([]) == Some([]);
      TokenizeLiteralCons(s[0], []);
      assert [s[0]] + [] == c;
      assert [Literal(s[0])] + [] == [Literal(s[0])];
      assert Tokenize(c) == Some([Literal(s[0])]);
      assert [Literal(s[0])][1..] == [];
      assert Render([Literal(s[0])], values) == Ok(c);
      BraceFreeIsLiteral(s[1..], values);
      FormatAppend(c, s[1..], values);
      assert c + s[1..] == s;
    }
  }

  /** A lone placeholder formats to its value when the name is a key. */
  lemma PlaceholderIsValue(n: string, values: map<string, string>)
    requires IsFieldName(n) && n in values
    ensures FormatUri("{" + n + "}", values) == Done(Some(values[n]), [])
  {
    TokenizeUnparse([Field(n)]);
    assert Unparse([Field(n)]) == "{" + n + "}";
    assert Render([Field(n)], values) == Ok(values[n] + "");
    assert values[n] + "" == values[n];
  }
}
