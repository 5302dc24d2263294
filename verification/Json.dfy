/** `JsonParser` as functions on the text still to be read.  `std::stod` is the parameter
    `read`; it is applied to the scanned number text. */
module JsonParsing {
  import opened Options

  datatype Json =
    | Null
    | Bool(b: bool)
    | Number(n: real)
    | String(s: string)
    | Array(elems: seq<Json>)
    | Object(members: seq<Member>)

  datatype Member = Member(key: string, value: Json)

  datatype Error =
    | UnexpectedEnd
    | InvalidValue
    | ExpectedKey
    | ExpectedColon
    | EndInObject
    | ExpectedCommaOrBrace
    | EndInArray
    | ExpectedCommaOrBracket
    | BadEscape
    | InvalidNumber
    | InvalidBoolean
    | InvalidNull
    | ExtraCharacters

  datatype Parsed<+T> = Ok(value: T, rest: string) | Err(error: Error)

  type Reader = string -> Option<real>

  /** `isspace` in the C locale */
  predicate IsSpace(c: char) {
    c == ' ' || 9 <= c as int <= 13
  }

  /** `isdigit` */
  predicate IsDigit(c: char) {
    '0' <= c <= '9'
  }

  function SkipSpaces(s: string): (r: string)
    ensures |r| <= |s|
    ensures r != [] ==> !IsSpace(r[0])
  {
    if s != [] && IsSpace(s[0]) then SkipSpaces(s[1..]) else s
  }

  // ---------------------------------------------------------------- strings

  function Unescape(e: char): char {
    match e
    case 'b' => 8 as char
    case 'f' => 12 as char
    case 'n' => '\n'
    case 'r' => '\r'
    case 't' => '\t'
    case _ => e
  }

  function Prepend(c: char, r: Parsed<string>): Parsed<string> {
    if r.Ok? then Ok([c] + r.value, r.rest) else r
  }

  /** From just after the opening quote.  Running out of text also ends the string. */
  function ParseChars(s: string): (r: Parsed<string>)
    ensures r.Ok? ==> |r.rest| <= |s|
  {
    if s == [] then Ok([], [])
    else if s[0] == '"' then Ok([], s[1..])
    else if s[0] == '\\' then
      if |s| == 1 then Err(BadEscape) else Prepend(Unescape(s[1]), ParseChars(s[2..]))
    else Prepend(s[0], ParseChars(s[1..]))
  }

  // ---------------------------------------------------------------- numbers

  /** Number text as the scanner splits it. */
  datatype Num = Num(minus: bool, whole: string, frac: Option<string>, exp: Option<Exponent>)
  datatype Exponent = Exponent(mark: char, sign: string, digits: string)

  function SpanDigits(s: string): (r: (string, string))
    ensures r.0 + r.1 == s
    ensures forall c | c in r.0 :: IsDigit(c)
    ensures r.1 != [] ==> !IsDigit(r.1[0])
  {
    if s != [] && IsDigit(s[0]) then
      var (d, rest) := SpanDigits(s[1..]);
      ([s[0]] + d, rest)
    else ([], s)
  }

  function FracText(frac: Option<string>): string {
    if frac.Some? then "." + frac.value else ""
  }

  function ExpText(exp: Option<Exponent>): string {
    if exp.Some? then [exp.value.mark] + exp.value.sign + exp.value.digits else ""
  }

  function NumText(n: Num): string {
    (if n.minus then "-" else "") + n.whole + FracText(n.frac) + ExpText(n.exp)
  }

  function ScanFraction(s: string): (r: (Option<string>, string))
    ensures FracText(r.0) + r.1 == s
  {
    if s != [] && s[0] == '.' then
      var (d, rest) := SpanDigits(s[1..]);
      (Some(d), rest)
    else (None, s)
  }

  function ScanSign(s: string): (r: (string, string))
    ensures r.0 + r.1 == s
  {
    if s != [] && (s[0] == '+' || s[0] == '-') then ([s[0]], s[1..]) else ("", s)
  }

  function ScanExponent(s: string): (r: (Option<Exponent>, string))
    ensures ExpText(r.0) + r.1 == s
  {
    if s != [] && (s[0] == 'e' || s[0] == 'E') then
      var (sign, s1) := ScanSign(s[1..]);
      var (d, rest) := SpanDigits(s1);
      assert [s[0]] + sign + d + rest == [s[0]] + (sign + (d + rest));
      (Some(Exponent(s[0], sign, d)), rest)
    else (None, s)
  }

  lemma Regroup(a: string, b: string, c: string, d: string, e: string)
    ensures a + b + c + d + e == a + (b + (c + (d + e)))
  {
  }

  /** The scanner takes a prefix of the text. */
  function ScanNumber(s: string): (r: (Num, string))
    ensures NumText(r.0) + r.1 == s
  {
    var minus := s != [] && s[0] == '-';
    var (whole, s1) := SpanDigits(if minus then s[1..] else s);
    var (frac, s2) := ScanFraction(s1);
    var (exp, s3) := ScanExponent(s2);
    Regroup(if minus then "-" else "", whole, FracText(frac), ExpText(exp), s3);
    (Num(minus, whole, frac, exp), s3)
  }

  predicate StartsNumber(c: char) {
    c == '-' || IsDigit(c)
  }

  lemma ScanAdvances(s: string)
    requires s != [] && StartsNumber(s[0])
    ensures |ScanNumber(s).1| < |s|
  {
    if s[0] != '-' {
      assert SpanDigits(s).0 != [];
    }
  }

  function ParseNumber(read: Reader, s: string): (r: Parsed<Json>)
    requires s != [] && StartsNumber(s[0])
    ensures r.Ok? ==> |r.rest| < |s|
  {
    ScanAdvances(s);
    var (num, rest) := ScanNumber(s);
    match read(NumText(num))
    case Some(n) => Ok(Number(n), rest)
    case None => Err(InvalidNumber)
  }

  // ---------------------------------------------------------------- values

  function ParseBoolean(s: string): (r: Parsed<Json>)
    ensures r.Ok? ==> |r.rest| < |s|
  {
    if "true" <= s then Ok(Bool(true), s[4..])
    else if "false" <= s then Ok(Bool(false), s[5..])
    else Err(InvalidBoolean)
  }

  function ParseNull(s: string): (r: Parsed<Json>)
    ensures r.Ok? ==> |r.rest| < |s|
  {
    if "null" <= s then Ok(Null, s[4..]) else Err(InvalidNull)
  }

  /** Every successful parse consumes text, which is what makes the recursion end. */
  function ParseValue(read: Reader, text: string): (r: Parsed<Json>)
    ensures r.Ok? ==> |r.rest| < |text|
    decreases |text|, 0
  {
    var s := SkipSpaces(text);
    if s == [] then Err(UnexpectedEnd)
    else if s[0] == '{' then ParseObject(read, s[1..])
    else if s[0] == '[' then ParseArray(read, s[1..])
    else if s[0] == '"' then
      var r := ParseChars(s[1..]);
      if r.Ok? then Ok(String(r.value), r.rest) else Err(r.error)
    else if s[0] == 't' || s[0] == 'f' then ParseBoolean(s)
    else if s[0] == 'n' then ParseNull(s)
    else if StartsNumber(s[0]) then ParseNumber(read, s)
    else Err(InvalidValue)
  }

  /** From just after the opening brace. */
  function ParseObject(read: Reader, text: string): (r: Parsed<Json>)
    ensures r.Ok? ==> |r.rest| < |text|
    decreases |text|, 2
  {
    var s := SkipSpaces(text);
    if s != [] && s[0] == '}' then Ok(Object([]), s[1..])
    else
      var r := ParseMembers(read, s);
      if r.Ok? then Ok(Object(r.value), r.rest) else Err(r.error)
  }

  /** A quoted key and the colon after it. */
  function ParseKey(text: string): (r: Parsed<string>)
    ensures r.Ok? ==> |r.rest| < |text|
  {
    var s := SkipSpaces(text);
    if s == [] || s[0] != '"' then Err(ExpectedKey)
    else
      var k := ParseChars(s[1..]);
      if k.Err? then k
      else
        var s1 := SkipSpaces(k.rest);
        if s1 == [] || s1[0] != ':' then Err(ExpectedColon) else Ok(k.value, s1[1..])
  }

  /** One or more members and the closing brace. */
  function ParseMembers(read: Reader, text: string): (r: Parsed<seq<Member>>)
    ensures r.Ok? ==> |r.rest| < |text| && r.value != []
    decreases |text|, 1
  {
    var k := ParseKey(text);
    if k.Err? then Err(k.error)
    else
      var v := ParseValue(read, SkipSpaces(k.rest));
      if v.Err? then Err(v.error)
      else
        var s := SkipSpaces(v.rest);
        if s == [] then Err(EndInObject)
        else if s[0] == '}' then Ok([Member(k.value, v.value)], s[1..])
        else if s[0] == ',' then
          var r := ParseMembers(read, s[1..]);
          if r.Ok? then Ok([Member(k.value, v.value)] + r.value, r.rest) else r
        else Err(ExpectedCommaOrBrace)
  }

  /** From just after the opening bracket. */
  function ParseArray(read: Reader, text: string): (r: Parsed<Json>)
    ensures r.Ok? ==> |r.rest| < |text|
    decreases |text|, 2
  {
    var s := SkipSpaces(text);
    if s != [] && s[0] == ']' then Ok(Array([]), s[1..])
    else
      var r := ParseElements(read, s);
      if r.Ok? then Ok(Array(r.value), r.rest) else Err(r.error)
  }

  /** One or more elements and the closing bracket. */
  function ParseElements(read: Reader, text: string): (r: Parsed<seq<Json>>)
    ensures r.Ok? ==> |r.rest| < |text| && r.value != []
    decreases |text|, 1
  {
    var v := ParseValue(read, SkipSpaces(text));
    if v.Err? then Err(v.error)
    else
      var s := SkipSpaces(v.rest);
      if s == [] then Err(EndInArray)
      else if s[0] == ']' then Ok([v.value], s[1..])
      else if s[0] == ',' then
        var r := ParseElements(read, s[1..]);
        if r.Ok? then Ok([v.value] + r.value, r.rest) else r
      else Err(ExpectedCommaOrBracket)
  }

  /** `JsonParser::parse`: one value, spaces around it, nothing else. */
  function Parse(read: Reader, text: string): Parsed<Json> {
    var v := ParseValue(read, SkipSpaces(text));
    if v.Err? then v
    else if SkipSpaces(v.rest) != [] then Err(ExtraCharacters)
    else Ok(v.value, [])
  }
}
