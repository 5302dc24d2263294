/** The format-string scanner `vformat` of `format.hpp`.  Rendering an argument and
    `std::stoul` belong to the library and are parameters. */
module Formats {
  import opened Options

  datatype Error =
    | UnmatchedOpen | UnmatchedClose | TooFew | TooMany | InvalidIndex(text: string) | OutOfRange(index: nat)

  datatype Result = Ok(text: string) | Err(error: Error)

  /** `args` is the number of arguments; `render(i, spec)` is argument `i` as text. */
  datatype Env = Env(args: nat, render: (nat, string) -> string, stoul: string -> Option<nat>)

  const BRACES := {'{', '}'}

  /** The first position, from the start, of one of the characters. */
  function FirstOf(s: string, chars: set<char>): (r: Option<nat>)
    ensures r.Some? ==> r.value < |s| && s[r.value] in chars
  {
    FirstFrom(s, chars, 0)
  }

  function FirstFrom(s: string, chars: set<char>, i: nat): (r: Option<nat>)
    requires i <= |s|
    ensures r.Some? ==> r.value < |s| && s[r.value] in chars
    decreases |s| - i
  {
    if i == |s| then None else if s[i] in chars then Some(i) else FirstFrom(s, chars, i + 1)
  }

  lemma {:induction false} FirstFromIs(s: string, chars: set<char>, i: nat)
    requires i <= |s|
    ensures var r := FirstFrom(s, chars, i);
            forall j | i <= j < (if r.Some? then r.value else |s|) :: s[j] !in chars
    decreases |s| - i
  {
    if i < |s| && s[i] !in chars {
      FirstFromIs(s, chars, i + 1);
    }
  }

  /** Nothing before it is one of them. */
  lemma FirstOfIs(s: string, chars: set<char>)
    ensures var r := FirstOf(s, chars);
            forall j | 0 <= j < (if r.Some? then r.value else |s|) :: s[j] !in chars
  {
    FirstFromIs(s, chars, 0);
  }

  /** What one round of the loop prints, how far it gets, and how many arguments are used up. */
  datatype Piece = Piece(text: string, length: nat, used: nat) | Fails(error: Error)

  /** A replacement field `{field}`. */
  function Field(env: Env, used: nat, field: string): Piece {
    if field == "" then
      if used >= env.args then Fails(TooFew) else Piece(env.render(used, ""), 2, used + 1)
    else
      var colon := FirstOf(field, {':'});
      var indexText := if colon.Some? then field[..colon.value] else field;
      var spec := if colon.Some? then field[colon.value + 1..] else "";
      match env.stoul(indexText)
      case None => Fails(InvalidIndex(indexText))
      case Some(i) => if i >= env.args then Fails(OutOfRange(i)) else Piece(env.render(i, spec), |field| + 2, used)
  }

  /** What stands at a brace. */
  function AtBrace(env: Env, rest: string, used: nat): (p: Piece)
    requires rest != "" && (rest[0] == '{' || rest[0] == '}')
    ensures p.Piece? ==> 0 < p.length <= |rest|
  {
    if rest[0] == '}' then
      if 1 < |rest| && rest[1] == '}' then Piece("}", 2, used) else Fails(UnmatchedClose)
    else if 1 < |rest| && rest[1] == '{' then Piece("{", 2, used)
    else
      match FirstOf(rest[1..], {'}'})
      case None => Fails(UnmatchedOpen)
      case Some(n) => Field(env, used, rest[1..n + 1])
  }

  function Next(env: Env, rest: string, used: nat): (p: Piece)
    requires rest != ""
    ensures p.Piece? ==> 0 < p.length <= |rest|
  {
    match FirstOf(rest, BRACES)
    case None => Piece(rest, |rest|, used)
    case Some(b) =>
      match AtBrace(env, rest[b..], used)
      case Fails(error) => Fails(error)
      case Piece(text, length, used') => Piece(rest[..b] + text, b + length, used')
  }

  function After(prefix: string, r: Result): Result {
    if r.Ok? then Ok(prefix + r.text) else r
  }

  /** Scanning what is left, with `used` arguments used up. */
  function Scan(env: Env, rest: string, used: nat): Result
    decreases |rest|
  {
    if rest == "" then
      if used < env.args then Err(TooMany) else Ok("")
    else
      match Next(env, rest, used)
      case Fails(error) => Err(error)
      case Piece(text, length, used') => After(text, Scan(env, rest[length..], used'))
  }

  lemma AfterAfter(a: string, b: string, r: Result)
    ensures After(a, After(b, r)) == After(a + b, r)
  {
    if r.Ok? {
      assert a + (b + r.text) == a + b + r.text;
    }
  }

  /** The part of a round from the brace on. */
  method ReadBrace(env: Env, fmt: string, b: nat, argIndex: nat) returns (p: Piece)
    requires b < |fmt| && (fmt[b] == '{' || fmt[b] == '}')
    ensures p == AtBrace(env, fmt[b..], argIndex)
  {
    if fmt[b] == '}' {
      if b + 1 < |fmt| && fmt[b + 1] == '}' {
        return Piece("}", 2, argIndex);
      }
      return Fails(UnmatchedClose);
    }
    if b + 1 < |fmt| && fmt[b + 1] == '{' {
      return Piece("{", 2, argIndex);
    }
    assert fmt[b..][1..] == fmt[b + 1..];
    var end := FirstOf(fmt[b + 1..], {'}'});
    if end.None? {
      return Fails(UnmatchedOpen);
    }
    assert fmt[b..][1..end.value + 1] == fmt[b + 1..b + 1 + end.value];
    return Field(env, argIndex, fmt[b + 1..b + 1 + end.value]);
  }

  method ReadPiece(env: Env, fmt: string, pos: nat, argIndex: nat) returns (p: Piece)
    requires pos < |fmt|
    ensures p == Next(env, fmt[pos..], argIndex)
  {
    var brace := FirstOf(fmt[pos..], BRACES);
    if brace.None? {
      return Piece(fmt[pos..], |fmt| - pos, argIndex);
    }
    var b := pos + brace.value;
    assert fmt[pos..][brace.value..] == fmt[b..];
    p := ReadBrace(env, fmt, b, argIndex);
    if p.Piece? {
      assert fmt[pos..][..brace.value] == fmt[pos..b];
      p := Piece(fmt[pos..b] + p.text, brace.value + p.length, p.used);
    }
  }

  lemma ScanStep(env: Env, fmt: string, pos: nat, used: nat, out: string)
    requires pos < |fmt|
    ensures match Next(env, fmt[pos..], used)
            case Fails(error) => After(out, Scan(env, fmt[pos..], used)) == Err(error)
            case Piece(text, length, used') =>
              After(out, Scan(env, fmt[pos..], used)) == After(out + text, Scan(env, fmt[pos + length..], used'))
  {
    var next := Next(env, fmt[pos..], used);
    if next.Piece? {
      assert fmt[pos..][next.length..] == fmt[pos + next.length..];
      AfterAfter(out, next.text, Scan(env, fmt[pos + next.length..], next.used));
    }
  }

  /** The loop.  Its position strictly advances. */
  method Vformat(env: Env, fmt: string) returns (r: Result)
    ensures r == Scan(env, fmt, 0)
  {
    var pos: nat, argIndex: nat, out := 0, 0, "";
    assert fmt[0..] == fmt;
    while pos < |fmt|
      invariant pos <= |fmt| && After(out, Scan(env, fmt[pos..], argIndex)) == Scan(env, fmt, 0)
      decreases |fmt| - pos
    {
      ScanStep(env, fmt, pos, argIndex, out);
      var piece := ReadPiece(env, fmt, pos, argIndex);
      if piece.Fails? {
        return Err(piece.error);
      }
      out, pos, argIndex := out + piece.text, pos + piece.length, piece.used;
    }
    if argIndex < env.args {
      return Err(TooMany);
    }
    return Ok(out);
  }
}
