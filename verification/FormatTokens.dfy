/** What format strings mean: tokens, what they print, and that the scanner prints that. */
module FormatTokens {
  import opened Options
  import opened Formats

  /** A numbered field has an index text and, after a colon, a specification. */
  datatype Token = Text(s: string) | Open | Close | Auto | Manual(index: string, spec: Option<string>)

  function FieldText(index: string, spec: Option<string>): string {
    if spec.Some? then index + (":" + spec.value) else index
  }

  predicate TokenOk(t: Token) {
    match t
    case Text(s) => '{' !in s && '}' !in s
    case Manual(index, spec) =>
      var field := FieldText(index, spec);
      ':' !in index && '}' !in field && field != "" && field[0] != '{'
    case _ => true
  }

  ghost predicate WellFormed(ts: seq<Token>) {
    forall i | 0 <= i < |ts| :: TokenOk(ts[i])
  }

  function Written(t: Token): string {
    match t
    case Text(s) => s
    case Open => "{{"
    case Close => "}}"
    case Auto => "{}"
    case Manual(index, spec) => "{" + FieldText(index, spec) + "}"
  }

  function Unlex(ts: seq<Token>): string {
    if ts == [] then "" else Written(ts[0]) + Unlex(ts[1..])
  }

  /** How a format string may break off: with a brace that has no partner. */
  datatype Tail = Fine | LoneOpen(text: string) | LoneClose(text: string)

  predicate TailOk(tail: Tail) {
    match tail
    case Fine => true
    case LoneOpen(text) => '}' !in text && (text != "" ==> text[0] != '{')
    case LoneClose(text) => text != "" ==> text[0] != '}'
  }

  function TailText(tail: Tail): string {
    match tail
    case Fine => ""
    case LoneOpen(text) => "{" + text
    case LoneClose(text) => "}" + text
  }

  /** What a specification that is not there stands for. */
  function SpecOf(spec: Option<string>): string {
    if spec.Some? then spec.value else ""
  }

  /** What tokens print, or the first thing that goes wrong: the `{}` take the arguments in
      order, a numbered field the argument its index names, and all must be taken by `{}`. */
  function Meaning(env: Env, ts: seq<Token>, used: nat, tail: Tail): Result {
    if ts == [] then
      match tail
      case Fine => if used < env.args then Err(TooMany) else Ok("")
      case LoneOpen(_) => Err(UnmatchedOpen)
      case LoneClose(_) => Err(UnmatchedClose)
    else
      match ts[0]
      case Text(s) => After(s, Meaning(env, ts[1..], used, tail))
      case Open => After("{", Meaning(env, ts[1..], used, tail))
      case Close => After("}", Meaning(env, ts[1..], used, tail))
      case Auto =>
        if used >= env.args then Err(TooFew)
        else After(env.render(used, ""), Meaning(env, ts[1..], used + 1, tail))
      case Manual(index, spec) =>
        match env.stoul(index)
        case None => Err(InvalidIndex(index))
        case Some(i) =>
          if i >= env.args then Err(OutOfRange(i))
          else After(env.render(i, SpecOf(spec)), Meaning(env, ts[1..], used, tail))
  }

  // ---------------------------------------------------------------- one round of the scanner

  lemma FirstIs(s: string, chars: set<char>, i: nat)
    requires i < |s| && s[i] in chars && forall j | 0 <= j < i :: s[j] !in chars
    ensures FirstOf(s, chars) == Some(i)
  {
    FirstOfIs(s, chars);
    var r := FirstOf(s, chars);
    assert r.Some? && r.value == i;
  }

  /** What one token prints. */
  function TokenPiece(env: Env, t: Token, used: nat): Piece {
    match t
    case Text(s) => Piece(s, |s|, used)
    case Open => Piece("{", 2, used)
    case Close => Piece("}", 2, used)
    case Auto => if used >= env.args then Fails(TooFew) else Piece(env.render(used, ""), 2, used + 1)
    case Manual(index, spec) =>
      match env.stoul(index)
      case None => Fails(InvalidIndex(index))
      case Some(i) =>
        if i >= env.args then Fails(OutOfRange(i))
        else Piece(env.render(i, SpecOf(spec)), |FieldText(index, spec)| + 2, used)
  }

  /** The scanner takes a numbered field apart at its first colon. */
  lemma FieldParts(index: string, spec: Option<string>)
    requires ':' !in index
    ensures FirstOf(FieldText(index, spec), {':'}) == if spec.Some? then Some(|index|) else None
    ensures spec.Some? ==> FieldText(index, spec)[..|index|] == index && FieldText(index, spec)[|index| + 1..] == spec.value
  {
    var field := FieldText(index, spec);
    if spec.Some? {
      assert field[..|index|] == index;
      FirstIs(field, {':'}, |index|);
    } else {
      assert FirstOf(field, {':'}) == None;
    }
  }

  lemma FieldIs(env: Env, used: nat, index: string, spec: Option<string>)
    requires TokenOk(Manual(index, spec))
    ensures Field(env, used, FieldText(index, spec)) == TokenPiece(env, Manual(index, spec), used)
  {
    FieldParts(index, spec);
  }

  lemma AtField(env: Env, field: string, rest: string, used: nat)
    requires '}' !in field && (field != "" ==> field[0] != '{')
    ensures AtBrace(env, "{" + field + "}" + rest, used) == Field(env, used, field)
  {
    var s := "{" + field + "}" + rest;
    assert s[1..] == field + "}" + rest;
    FirstIs(s[1..], {'}'}, |field|);
    assert s[1..|field| + 1] == field;
  }

  lemma AtToken(env: Env, t: Token, rest: string, used: nat)
    requires TokenOk(t) && !t.Text?
    ensures (Written(t) + rest)[0] in BRACES
    ensures AtBrace(env, Written(t) + rest, used) == TokenPiece(env, t, used)
  {
    match t
    case Open =>
    case Close =>
    case Auto =>
      assert "{" + "" + "}" + rest == "{}" + rest;
      AtField(env, "", rest, used);
    case Manual(index, spec) =>
      AtField(env, FieldText(index, spec), rest, used);
      FieldIs(env, used, index, spec);
  }

  lemma NextAtBrace(env: Env, s: string, used: nat)
    requires s != "" && s[0] in BRACES
    ensures Next(env, s, used) == AtBrace(env, s, used)
  {
    FirstIs(s, BRACES, 0);
    assert s[0..] == s;
    var p := AtBrace(env, s, used);
    if p.Piece? {
      assert s[..0] + p.text == p.text;
    }
  }

  lemma FirstAfter(s: string, rest: string)
    requires '{' !in s && '}' !in s
    ensures FirstOf(rest, BRACES).None? ==> FirstOf(s + rest, BRACES) == None
    ensures FirstOf(rest, BRACES).Some? ==> FirstOf(s + rest, BRACES) == Some(|s| + FirstOf(rest, BRACES).value)
  {
    FirstOfIs(rest, BRACES);
    match FirstOf(rest, BRACES)
    case None => assert FirstOf(s + rest, BRACES) == None;
    case Some(b) => FirstIs(s + rest, BRACES, |s| + b);
  }

  lemma CutAfter(s: string, rest: string, b: nat, text: string)
    requires b <= |rest|
    ensures (s + rest)[|s| + b..] == rest[b..]
    ensures (s + rest)[..|s| + b] + text == s + (rest[..b] + text)
  {
  }

  lemma NextAt(env: Env, whole: string, used: nat, b: nat, tail: string)
    requires FirstOf(whole, BRACES) == Some(b) && whole[b..] == tail
    ensures var p := AtBrace(env, tail, used);
            Next(env, whole, used) == if p.Piece? then Piece(whole[..b] + p.text, b + p.length, p.used) else p
  {
  }

  /** Text without braces is copied along with what the next round prints. */
  lemma {:induction false} NextText(env: Env, s: string, rest: string, used: nat)
    requires '{' !in s && '}' !in s && rest != ""
    ensures var p := Next(env, rest, used);
            Next(env, s + rest, used) == if p.Piece? then Piece(s + p.text, |s| + p.length, p.used) else p
  {
    FirstAfter(s, rest);
    if FirstOf(rest, BRACES).Some? {
      var b := FirstOf(rest, BRACES).value;
      var p := AtBrace(env, rest[b..], used);
      CutAfter(s, rest, b, if p.Piece? then p.text else "");
      NextAt(env, rest, used, b, rest[b..]);
      NextAt(env, s + rest, used, |s| + b, rest[b..]);
    }
  }

  lemma NextAllText(env: Env, s: string, used: nat)
    requires '{' !in s && '}' !in s && s != ""
    ensures Next(env, s, used) == Piece(s, |s|, used)
  {
    assert FirstOf(s, BRACES) == None;
  }

  // ---------------------------------------------------------------- the scanner on tokens

  /** What comes after a piece. */
  function Follow(env: Env, p: Piece, rest: string): Result {
    match p
    case Fails(error) => Err(error)
    case Piece(text, _, used) => After(text, Scan(env, rest, used))
  }

  lemma ScanIs(env: Env, s: string, used: nat, p: Piece, rest: string)
    requires s != "" && Next(env, s, used) == p && (p.Piece? ==> s[p.length..] == rest)
    ensures Scan(env, s, used) == Follow(env, p, rest)
  {
  }

  lemma ScanTextBefore(env: Env, s: string, rest: string, used: nat)
    requires '{' !in s && '}' !in s && s != "" && rest != ""
    ensures Scan(env, s + rest, used) == After(s, Scan(env, rest, used))
  {
    NextText(env, s, rest, used);
    var p := Next(env, rest, used);
    var tail := if p.Piece? then rest[p.length..] else "";
    ScanIs(env, rest, used, p, tail);
    if p.Piece? {
      CutAfter(s, rest, p.length, "");
      ScanIs(env, s + rest, used, Piece(s + p.text, |s| + p.length, p.used), tail);
      AfterAfter(s, p.text, Scan(env, tail, p.used));
    } else {
      ScanIs(env, s + rest, used, p, tail);
    }
  }

  lemma ScanText(env: Env, s: string, rest: string, used: nat)
    requires '{' !in s && '}' !in s
    ensures Scan(env, s + rest, used) == After(s, Scan(env, rest, used))
  {
    if s == "" {
      assert s + rest == rest;
      var r := Scan(env, rest, used);
      assert r.Ok? ==> s + r.text == r.text;
    } else if rest == "" {
      assert s + rest == s;
      NextAllText(env, s, used);
      ScanIs(env, s, used, Piece(s, |s|, used), "");
    } else {
      ScanTextBefore(env, s, rest, used);
    }
  }

  /** The scanner on the text of one token and what follows. */
  lemma ScanToken(env: Env, t: Token, rest: string, used: nat)
    requires TokenOk(t)
    ensures Scan(env, Written(t) + rest, used) == Follow(env, TokenPiece(env, t, used), rest)
  {
    if t.Text? {
      ScanText(env, t.s, rest, used);
    } else {
      var s := Written(t) + rest;
      AtToken(env, t, rest, used);
      NextAtBrace(env, s, used);
      assert s[|Written(t)|..] == rest;
      ScanIs(env, s, used, TokenPiece(env, t, used), rest);
    }
  }

  // ---------------------------------------------------------------- all tokens

  lemma ScanTail(env: Env, tail: Tail, used: nat)
    requires TailOk(tail)
    ensures Scan(env, TailText(tail), used) == Meaning(env, [], used, tail)
  {
    if !tail.Fine? {
      var s := TailText(tail);
      assert s[1..] == tail.text;
      if tail.LoneOpen? {
        assert FirstOf(s[1..], {'}'}) == None;
      }
      NextAtBrace(env, s, used);
      ScanIs(env, s, used, Fails(if tail.LoneOpen? then UnmatchedOpen else UnmatchedClose), "");
    }
  }

  lemma MeaningStep(env: Env, ts: seq<Token>, used: nat, tail: Tail)
    requires ts != []
    ensures var p := TokenPiece(env, ts[0], used);
            Meaning(env, ts, used, tail)
            == if p.Piece? then After(p.text, Meaning(env, ts[1..], p.used, tail)) else Err(p.error)
  {
  }

  lemma Regroup(a: string, b: string, c: string)
    ensures a + (b + c) == (a + b) + c
  {
  }

  /** The scanner says what the tokens mean, errors included, from any number of used arguments. */
  lemma {:induction false} ScanTokens(env: Env, ts: seq<Token>, used: nat, tail: Tail)
    requires WellFormed(ts) && TailOk(tail)
    ensures Scan(env, Unlex(ts) + TailText(tail), used) == Meaning(env, ts, used, tail)
    decreases |ts|
  {
    var end := TailText(tail);
    if ts == [] {
      assert "" + end == end;
      ScanTail(env, tail, used);
    } else {
      var rest := Unlex(ts[1..]) + end;
      MeaningStep(env, ts, used, tail);
      ScanToken(env, ts[0], rest, used);
      Regroup(Written(ts[0]), Unlex(ts[1..]), end);
      var p := TokenPiece(env, ts[0], used);
      if p.Piece? {
        ScanTokens(env, ts[1..], p.used, tail);
      }
    }
  }
}
