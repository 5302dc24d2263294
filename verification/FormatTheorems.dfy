/** Every format string has a reading, so what the scanner does is known for all of them. */
module FormatTheorems {
  import opened Options
  import opened Formats
  import opened FormatTokens

  // ---------------------------------------------------------------- every string reads

  lemma UnlexOne(t: Token)
    ensures Unlex([t]) == Written(t)
  {
    assert Unlex([t][1..]) == "";
  }

  lemma {:induction false} UnlexFirst(ts: seq<Token>, us: seq<Token>)
    requires ts != []
    ensures Unlex(ts + us) == Written(ts[0]) + Unlex(ts[1..] + us)
  {
    assert (ts + us)[1..] == ts[1..] + us;
  }

  lemma {:induction false} UnlexConcat(ts: seq<Token>, us: seq<Token>)
    ensures Unlex(ts + us) == Unlex(ts) + Unlex(us)
  {
    if ts == [] {
      assert ts + us == us;
    } else {
      UnlexConcat(ts[1..], us);
      UnlexFirst(ts, us);
      Regroup(Written(ts[0]), Unlex(ts[1..]), Unlex(us));
    }
  }

  lemma {:induction false} WellFormedConcat(ts: seq<Token>, us: seq<Token>)
    requires WellFormed(ts) && WellFormed(us)
    ensures WellFormed(ts + us)
  {
  }

  lemma {:induction false} JoinedTokens(ts: seq<Token>, us: seq<Token>, s: string, n: nat)
    requires n <= |s| && Unlex(ts) == s[..n] && Unlex(us) == s[n..]
    ensures Unlex(ts + us) == s
  {
    calc {
      Unlex(ts + us);
      { UnlexConcat(ts, us); }
      s[..n] + s[n..];
      s;
    }
  }

  /** A field's text, taken apart at its first colon. */
  lemma FieldToken(field: string) returns (t: Token)
    requires '}' !in field && (field != "" ==> field[0] != '{')
    ensures TokenOk(t) && Written(t) == "{" + field + "}"
  {
    if field == "" {
      t := Auto;
      assert "{" + "" + "}" == "{}";
    } else {
      FirstOfIs(field, {':'});
      match FirstOf(field, {':'})
      case None => t := Manual(field, None);
      case Some(c) =>
        t := Manual(field[..c], Some(field[c + 1..]));
        assert FieldText(t.index, t.spec) == field;
    }
  }

  /** What stands at a brace: a token and what follows it, or a brace without partner. */
  lemma BraceReads(rest: string) returns (t: Token, more: string, tail: Tail)
    requires rest != "" && rest[0] in BRACES
    ensures TailOk(tail)
    ensures tail.Fine? ==> TokenOk(t) && rest == Written(t) + more && |more| < |rest|
    ensures !tail.Fine? ==> rest == TailText(tail)
  {
    t, more, tail := Open, "", Fine;
    assert rest == [rest[0]] + rest[1..];
    if |rest| > 1 && rest[1] == rest[0] {
      t := if rest[0] == '{' then Open else Close;
      more := rest[2..];
      assert rest == Written(t) + more;
    } else if rest[0] == '}' {
      tail := LoneClose(rest[1..]);
    } else {
      FirstOfIs(rest[1..], {'}'});
      match FirstOf(rest[1..], {'}'})
      case None => tail := LoneOpen(rest[1..]);
      case Some(n) =>
        var field := rest[1..][..n];
        t := FieldToken(field);
        more := rest[n + 2..];
        assert rest[1..][n] == '}';
        assert rest == "{" + field + "}" + more;
    }
  }

  lemma ReadingOfThree(text: string, t: Token, ts: seq<Token>)
    requires TokenOk(Text(text)) && TokenOk(t) && WellFormed(ts)
    ensures WellFormed([Text(text)] + [t] + ts)
    ensures Unlex([Text(text)] + [t] + ts) == text + Written(t) + Unlex(ts)
  {
    UnlexOne(Text(text));
    UnlexOne(t);
    UnlexConcat([Text(text)], [t]);
    UnlexConcat([Text(text)] + [t], ts);
  }

  /** Every string is the text of some tokens, broken off or not. */
  lemma {:induction false} EveryStringReads(fmt: string) returns (ts: seq<Token>, tail: Tail)
    ensures WellFormed(ts) && TailOk(tail) && Unlex(ts) + TailText(tail) == fmt
    decreases |fmt|
  {
    FirstOfIs(fmt, BRACES);
    match FirstOf(fmt, BRACES)
    case None =>
      ts, tail := [Text(fmt)], Fine;
      UnlexOne(Text(fmt));
      assert fmt + "" == fmt;
    case Some(b) =>
      var text, rest := fmt[..b], fmt[b..];
      assert fmt == text + rest;
      var t, more;
      t, more, tail := BraceReads(rest);
      if tail.Fine? {
        var us;
        us, tail := EveryStringReads(more);
        ts := [Text(text)] + [t] + us;
        ReadingOfThree(text, t, us);
        FourParts(text, Written(t), Unlex(us), TailText(tail));
      } else {
        ts := [Text(text)];
        UnlexOne(Text(text));
      }
  }

  lemma FourParts(a: string, b: string, c: string, d: string)
    ensures (a + b + c) + d == a + (b + (c + d))
  {
  }

  // ---------------------------------------------------------------- success, exactly

  function Autos(ts: seq<Token>): nat {
    if ts == [] then 0 else (if ts[0].Auto? then 1 else 0) + Autos(ts[1..])
  }

  ghost predicate NamesArgument(env: Env, t: Token) {
    t.Manual? ==> env.stoul(t.index).Some? && env.stoul(t.index).value < env.args
  }

  /** Every numbered field names an argument. */
  ghost predicate FieldsOk(env: Env, ts: seq<Token>) {
    forall i | 0 <= i < |ts| :: NamesArgument(env, ts[i])
  }

  /** The tokens' texts one after the other; the `{}` take the arguments in order. */
  ghost function Rendered(env: Env, ts: seq<Token>, used: nat): string
    requires FieldsOk(env, ts)
  {
    if ts == [] then ""
    else
      assert NamesArgument(env, ts[0]);
      var rest := Rendered(env, ts[1..], if ts[0].Auto? then used + 1 else used);
      match ts[0]
      case Text(s) => s + rest
      case Open => "{" + rest
      case Close => "}" + rest
      case Auto => env.render(used, "") + rest
      case Manual(index, spec) => env.render(env.stoul(index).value, SpecOf(spec)) + rest
  }

  /** Tokens succeed exactly with all numbered fields in range and as many `{}` as arguments left. */
  lemma {:induction false} MeaningSucceeds(env: Env, ts: seq<Token>, used: nat)
    requires used <= env.args
    ensures Meaning(env, ts, used, Fine).Ok? <==> used + Autos(ts) == env.args && FieldsOk(env, ts)
    ensures FieldsOk(env, ts) && Meaning(env, ts, used, Fine).Ok? ==>
              Meaning(env, ts, used, Fine) == Ok(Rendered(env, ts, used))
    decreases |ts|
  {
    if ts != [] {
      FieldsOkUnfolds(env, ts);
      MeaningStep(env, ts, used, Fine);
      var p := TokenPiece(env, ts[0], used);
      if p.Piece? {
        MeaningSucceeds(env, ts[1..], p.used);
      }
    }
  }

  lemma FieldsOkUnfolds(env: Env, ts: seq<Token>)
    requires ts != []
    ensures FieldsOk(env, ts) <==> NamesArgument(env, ts[0]) && FieldsOk(env, ts[1..])
  {
    assert forall i | 1 <= i < |ts| :: ts[i] == ts[1..][i - 1];
  }

  lemma {:induction false} BrokenFails(env: Env, ts: seq<Token>, used: nat, tail: Tail)
    requires !tail.Fine?
    ensures Meaning(env, ts, used, tail).Err?
    decreases |ts|
  {
    if ts != [] {
      MeaningStep(env, ts, used, tail);
      var p := TokenPiece(env, ts[0], used);
      if p.Piece? {
        BrokenFails(env, ts[1..], p.used, tail);
      }
    }
  }

  ghost predicate IsFormatOf(env: Env, ts: seq<Token>, fmt: string, text: string) {
    WellFormed(ts) && Unlex(ts) == fmt && Autos(ts) == env.args && FieldsOk(env, ts) && text == Rendered(env, ts, 0)
  }

  lemma TokensSucceed(env: Env, ts: seq<Token>)
    requires WellFormed(ts)
    ensures Scan(env, Unlex(ts), 0) == Meaning(env, ts, 0, Fine)
  {
    assert Unlex(ts) + "" == Unlex(ts);
    ScanTokens(env, ts, 0, Fine);
  }

  /** A successful string is the text of tokens that are not broken off. */
  lemma Lexed(env: Env, fmt: string) returns (ts: seq<Token>)
    requires Scan(env, fmt, 0).Ok?
    ensures WellFormed(ts) && Unlex(ts) == fmt
  {
    var tail;
    ts, tail := EveryStringReads(fmt);
    ScanTokens(env, ts, 0, tail);
    if !tail.Fine? {
      BrokenFails(env, ts, 0, tail);
    }
    assert Unlex(ts) + "" == Unlex(ts);
  }

  /** Formatting succeeds with a text exactly if the format string reads as tokens, with as
      many `{}` as arguments and every numbered field in range, that print that text. */
  lemma FormatIff(env: Env, fmt: string, text: string)
    ensures Scan(env, fmt, 0) == Ok(text) <==> exists ts :: IsFormatOf(env, ts, fmt, text)
  {
    if Scan(env, fmt, 0).Ok? {
      var ts := Lexed(env, fmt);
      TokensSucceed(env, ts);
      MeaningSucceeds(env, ts, 0);
      assert IsFormatOf(env, ts, fmt, Rendered(env, ts, 0));
    }
    forall ts | IsFormatOf(env, ts, fmt, text) ensures Scan(env, fmt, 0) == Ok(text) {
      TokensSucceed(env, ts);
      MeaningSucceeds(env, ts, 0);
    }
  }

  /** In every case, the result is what a reading of the string means; it always has one. */
  lemma FormatMeans(env: Env, fmt: string) returns (ts: seq<Token>, tail: Tail)
    ensures WellFormed(ts) && TailOk(tail) && Unlex(ts) + TailText(tail) == fmt
    ensures Scan(env, fmt, 0) == Meaning(env, ts, 0, tail)
  {
    ts, tail := EveryStringReads(fmt);
    ScanTokens(env, ts, 0, tail);
  }

  /** Numbered fields do not count as uses: with arguments, a string that has no reading with
      a `{}` in it fails, whether it has a reading or not. */
  lemma NumberedOnlyFails(env: Env, fmt: string)
    requires env.args > 0 && forall ts | WellFormed(ts) && Unlex(ts) == fmt :: Autos(ts) == 0
    ensures Scan(env, fmt, 0).Err?
  {
    if Scan(env, fmt, 0).Ok? {
      var ts := Lexed(env, fmt);
      TokensSucceed(env, ts);
      MeaningSucceeds(env, ts, 0);
    }
  }

  predicate PairAt(s: string, i: nat) {
    i + 1 < |s| && s[i] == '{' && s[i + 1] == '}'
  }

  lemma PairAfter(a: string, b: string, j: nat)
    requires PairAt(b, j)
    ensures PairAt(a + b, |a| + j)
  {
  }

  lemma {:induction false} AutoIsWritten(ts: seq<Token>) returns (i: nat)
    requires Autos(ts) > 0
    ensures PairAt(Unlex(ts), i)
  {
    if ts[0].Auto? {
      i := 0;
    } else {
      var j := AutoIsWritten(ts[1..]);
      i := |Written(ts[0])| + j;
      PairAfter(Written(ts[0]), Unlex(ts[1..]), j);
    }
  }

  /** In particular, with arguments every string fails in which the two characters `{}` do not
      stand next to each other. */
  lemma NoBracePairFails(env: Env, fmt: string)
    requires env.args > 0 && forall i: nat :: !PairAt(fmt, i)
    ensures Scan(env, fmt, 0).Err?
  {
    forall ts | WellFormed(ts) && Unlex(ts) == fmt ensures Autos(ts) == 0 {
      if Autos(ts) > 0 {
        var i := AutoIsWritten(ts);
      }
    }
    NumberedOnlyFails(env, fmt);
  }

  // ---------------------------------------------------------------- interleaving

  /** A literal with its braces doubled. */
  function Doubled(s: string): string {
    if s == "" then ""
    else (if s[0] == '{' then "{{" else if s[0] == '}' then "}}" else [s[0]]) + Doubled(s[1..])
  }

  /** A character of a literal as a token. */
  function CharToken(c: char): Token {
    if c == '{' then Open else if c == '}' then Close else Text([c])
  }

  function LiteralTokens(s: string): seq<Token> {
    if s == "" then [] else [CharToken(s[0])] + LiteralTokens(s[1..])
  }

  lemma CharTokenIs(env: Env, c: char, ts: seq<Token>, used: nat)
    requires WellFormed(ts) && FieldsOk(env, ts)
    ensures var us := [CharToken(c)] + ts;
            && WellFormed(us) && FieldsOk(env, us) && Autos(us) == Autos(ts)
            && Rendered(env, us, used) == [c] + Rendered(env, ts, used)
  {
    assert ([CharToken(c)] + ts)[1..] == ts;
  }

  lemma {:induction false} LiteralIsDoubled(s: string)
    ensures Unlex(LiteralTokens(s)) == Doubled(s)
  {
    if s != "" {
      LiteralIsDoubled(s[1..]);
      assert LiteralTokens(s)[1..] == LiteralTokens(s[1..]);
    }
  }

  lemma {:induction false} LiteralUnfolds(s: string, ts: seq<Token>, r: string)
    requires s != ""
    ensures LiteralTokens(s) + ts == [CharToken(s[0])] + (LiteralTokens(s[1..]) + ts)
    ensures [s[0]] + (s[1..] + r) == s + r
  {
  }

  lemma {:induction false} LiteralTokensAre(env: Env, s: string, ts: seq<Token>, used: nat)
    requires WellFormed(ts) && FieldsOk(env, ts)
    ensures var us := LiteralTokens(s) + ts;
            && WellFormed(us) && FieldsOk(env, us) && Autos(us) == Autos(ts)
            && Rendered(env, us, used) == s + Rendered(env, ts, used)
  {
    var r := Rendered(env, ts, used);
    if s == "" {
      assert LiteralTokens(s) + ts == ts && s + r == r;
    } else {
      LiteralTokensAre(env, s[1..], ts, used);
      CharTokenIs(env, s[0], LiteralTokens(s[1..]) + ts, used);
      LiteralUnfolds(s, ts, r);
    }
  }

  /** Doubled literals with `{}` between them. */
  function Template(literals: seq<string>): string
    requires literals != []
  {
    if |literals| == 1 then Doubled(literals[0])
    else Doubled(literals[0]) + ("{}" + Template(literals[1..]))
  }

  /** The literals with the arguments between them. */
  function Woven(env: Env, literals: seq<string>, used: nat): string
    requires literals != []
  {
    if |literals| == 1 then literals[0]
    else literals[0] + (env.render(used, "") + Woven(env, literals[1..], used + 1))
  }

  function TemplateTokens(literals: seq<string>): seq<Token>
    requires literals != []
  {
    if |literals| == 1 then LiteralTokens(literals[0]) + []
    else LiteralTokens(literals[0]) + ([Auto] + TemplateTokens(literals[1..]))
  }

  lemma AutoTokenIs(env: Env, ts: seq<Token>, used: nat)
    requires WellFormed(ts) && FieldsOk(env, ts)
    ensures WellFormed([Auto] + ts) && FieldsOk(env, [Auto] + ts) && Autos([Auto] + ts) == 1 + Autos(ts)
    ensures Unlex([Auto] + ts) == "{}" + Unlex(ts)
    ensures Rendered(env, [Auto] + ts, used) == env.render(used, "") + Rendered(env, ts, used + 1)
  {
    assert ([Auto] + ts)[1..] == ts;
  }

  lemma {:induction false} TemplateTokensAre(env: Env, literals: seq<string>, used: nat)
    requires literals != []
    ensures var ts := TemplateTokens(literals);
            && WellFormed(ts) && FieldsOk(env, ts) && Autos(ts) == |literals| - 1
            && Unlex(ts) == Template(literals) && Rendered(env, ts, used) == Woven(env, literals, used)
    decreases |literals|
  {
    if |literals| == 1 {
      LiteralTokensAre(env, literals[0], [], used);
      LiteralIsDoubled(literals[0]);
      UnlexConcat(LiteralTokens(literals[0]), []);
      assert Doubled(literals[0]) + "" == Doubled(literals[0]) && literals[0] + "" == literals[0];
    } else {
      TemplateTokensAre(env, literals[1..], used + 1);
      var more := TemplateTokens(literals[1..]);
      AutoTokenIs(env, more, used);
      LiteralTokensAre(env, literals[0], [Auto] + more, used);
      LiteralIsDoubled(literals[0]);
      UnlexConcat(LiteralTokens(literals[0]), [Auto] + more);
    }
  }

  /** For any literals and as many arguments as there are gaps, the arguments appear between
      the literals, in order. */
  lemma FormatInterleaves(env: Env, literals: seq<string>)
    requires literals != [] && env.args == |literals| - 1
    ensures Scan(env, Template(literals), 0) == Ok(Woven(env, literals, 0))
  {
    TemplateTokensAre(env, literals, 0);
    TokensSucceed(env, TemplateTokens(literals));
    MeaningSucceeds(env, TemplateTokens(literals), 0);
  }
}
