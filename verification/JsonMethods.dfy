/** `JsonParser` and the printers as they run: the parser advances a position, the printers
    append to a string.  Each method is proved against the function of the same purpose. */
module JsonMethods {
  import opened JsonParsing
  import opened JsonPrinting

  datatype Outcome<+T> = Success(value: T) | Failure(error: Error)

  /** The method's outcome and final position say what the function says of the suffix. */
  ghost predicate Agrees<T>(spec: Parsed<T>, r: Outcome<T>, json: string, pos: nat) {
    match spec
    case Ok(v, rest) => r == Success(v) && pos <= |json| && json[pos..] == rest
    case Err(e) => r == Failure(e)
  }

  // ---------------------------------------------------------------- parser

  method SkipSpacesAt(json: string, start: nat) returns (pos: nat)
    requires start <= |json|
    ensures start <= pos <= |json| && json[pos..] == SkipSpaces(json[start..])
  {
    pos := start;
    while pos < |json| && IsSpace(json[pos])
      invariant start <= pos <= |json|
      invariant SkipSpaces(json[pos..]) == SkipSpaces(json[start..])
    {
      assert json[pos..][1..] == json[pos + 1..];
      pos := pos + 1;
    }
  }

  ghost function After(out: string, r: Parsed<string>): Parsed<string> {
    if r.Ok? then Ok(out + r.value, r.rest) else r
  }

  lemma AfterNothing(r: Parsed<string>)
    ensures After("", r) == r
  {
    if r.Ok? {
      assert "" + r.value == r.value;
    }
  }

  lemma AfterChar(out: string, c: char, r: Parsed<string>)
    ensures After(out, Prepend(c, r)) == After(out + [c], r)
  {
    if r.Ok? {
      assert out + ([c] + r.value) == (out + [c]) + r.value;
    }
  }

  /** From just after the opening quote. */
  method ParseStringAt(json: string, start: nat) returns (r: Outcome<string>, pos: nat)
    requires start <= |json|
    ensures Agrees(ParseChars(json[start..]), r, json, pos)
    ensures r.Success? ==> start <= pos
  {
    var out := "";
    pos := start;
    AfterNothing(ParseChars(json[start..]));
    while pos < |json|
      invariant start <= pos <= |json|
      invariant ParseChars(json[start..]) == After(out, ParseChars(json[pos..]))
    {
      var s := json[pos..];
      var c := json[pos];
      assert s[1..] == json[pos + 1..];
      pos := pos + 1;
      if c == '"' {
        assert out + [] == out;
        return Success(out), pos;
      }
      if c == '\\' {
        if pos >= |json| {
          return Failure(BadEscape), pos;
        }
        var e := json[pos];
        assert s[2..] == json[pos + 1..];
        AfterChar(out, Unescape(e), ParseChars(s[2..]));
        pos := pos + 1;
        out := out + [Unescape(e)];
      } else {
        AfterChar(out, c, ParseChars(s[1..]));
        out := out + [c];
      }
    }
    assert out + [] == out;
    return Success(out), pos;
  }

  method SkipDigitsAt(json: string, start: nat) returns (pos: nat)
    requires start <= |json|
    ensures start <= pos <= |json| && json[pos..] == SpanDigits(json[start..]).1
  {
    pos := start;
    while pos < |json| && IsDigit(json[pos])
      invariant start <= pos <= |json|
      invariant SpanDigits(json[pos..]).1 == SpanDigits(json[start..]).1
    {
      assert json[pos..][1..] == json[pos + 1..];
      pos := pos + 1;
    }
  }

  method SkipFractionAt(json: string, start: nat) returns (pos: nat)
    requires start <= |json|
    ensures start <= pos <= |json| && json[pos..] == ScanFraction(json[start..]).1
  {
    pos := start;
    if pos < |json| && json[pos] == '.' {
      assert json[start..][1..] == json[start + 1..];
      pos := SkipDigitsAt(json, pos + 1);
    }
  }

  method SkipExponentAt(json: string, start: nat) returns (pos: nat)
    requires start <= |json|
    ensures start <= pos <= |json| && json[pos..] == ScanExponent(json[start..]).1
  {
    pos := start;
    if pos < |json| && (json[pos] == 'e' || json[pos] == 'E') {
      assert json[start..][1..] == json[start + 1..];
      pos := pos + 1;
      if pos < |json| && (json[pos] == '+' || json[pos] == '-') {
        assert json[start + 1..][1..] == json[start + 2..];
        pos := pos + 1;
      }
      assert json[pos..] == ScanSign(json[start + 1..]).1;
      pos := SkipDigitsAt(json, pos);
    }
  }

  method ScanNumberAt(json: string, start: nat) returns (pos: nat)
    requires start < |json|
    ensures start <= pos <= |json| && json[pos..] == ScanNumber(json[start..]).1
  {
    pos := start;
    if json[pos] == '-' {
      assert json[start..][1..] == json[start + 1..];
      pos := pos + 1;
    }
    pos := SkipDigitsAt(json, pos);
    pos := SkipFractionAt(json, pos);
    pos := SkipExponentAt(json, pos);
  }

  lemma ConsumedText(json: string, start: nat, pos: nat, text: string)
    requires start <= pos <= |json| && text + json[pos..] == json[start..]
    ensures json[start..pos] == text
  {
    assert |text| == pos - start;
    assert json[start..pos] == json[start..][..|text|];
  }

  method ParseNumberAt(read: Reader, json: string, start: nat) returns (r: Outcome<Json>, pos: nat)
    requires start < |json| && StartsNumber(json[start])
    ensures Agrees(ParseNumber(read, json[start..]), r, json, pos)
    ensures r.Success? ==> start < pos
  {
    pos := ScanNumberAt(json, start);
    ScanAdvances(json[start..]);
    ConsumedText(json, start, pos, NumText(ScanNumber(json[start..]).0));
    match read(json[start..pos])
    case Some(n) => r := Success(Number(n));
    case None => r := Failure(InvalidNumber);
  }

  /** `json.compare(pos, |word|, word) == 0` */
  method WordAt(json: string, pos: nat, word: string) returns (found: bool)
    requires pos <= |json|
    ensures found <==> word <= json[pos..]
  {
    found := pos + |word| <= |json| && json[pos..pos + |word|] == word;
  }

  method ParseValueAt(read: Reader, json: string, start: nat) returns (r: Outcome<Json>, pos: nat)
    requires start <= |json|
    ensures Agrees(ParseValue(read, json[start..]), r, json, pos)
    ensures r.Success? ==> start < pos
    decreases |json| - start, 0
  {
    pos := SkipSpacesAt(json, start);
    if pos >= |json| {
      return Failure(UnexpectedEnd), pos;
    }
    var c := json[pos];
    ghost var s := json[pos..];
    assert s[1..] == json[pos + 1..];
    if c == '{' {
      r, pos := ParseObjectAt(read, json, pos + 1);
    } else if c == '[' {
      r, pos := ParseArrayAt(read, json, pos + 1);
    } else if c == '"' {
      var str;
      str, pos := ParseStringAt(json, pos + 1);
      r := if str.Success? then Success(String(str.value)) else Failure(str.error);
    } else if c == 't' || c == 'f' {
      r, pos := ParseBooleanAt(json, pos);
    } else if c == 'n' {
      r, pos := ParseNullAt(json, pos);
    } else if StartsNumber(c) {
      r, pos := ParseNumberAt(read, json, pos);
    } else {
      r := Failure(InvalidValue);
    }
  }

  method ParseBooleanAt(json: string, start: nat) returns (r: Outcome<Json>, pos: nat)
    requires start <= |json|
    ensures Agrees(ParseBoolean(json[start..]), r, json, pos)
    ensures r.Success? ==> start < pos
  {
    pos := start;
    var yes := WordAt(json, pos, "true");
    if yes {
      return Success(Bool(true)), pos + 4;
    }
    var no := WordAt(json, pos, "false");
    if no {
      return Success(Bool(false)), pos + 5;
    }
    r := Failure(InvalidBoolean);
  }

  method ParseNullAt(json: string, start: nat) returns (r: Outcome<Json>, pos: nat)
    requires start <= |json|
    ensures Agrees(ParseNull(json[start..]), r, json, pos)
    ensures r.Success? ==> start < pos
  {
    pos := start;
    var yes := WordAt(json, pos, "null");
    if yes {
      return Success(Null), pos + 4;
    }
    r := Failure(InvalidNull);
  }

  ghost function Followed<T>(front: seq<T>, r: Parsed<seq<T>>): Parsed<seq<T>> {
    if r.Ok? then Ok(front + r.value, r.rest) else r
  }

  lemma FollowedNothing<T>(r: Parsed<seq<T>>)
    ensures Followed([], r) == r
  {
    if r.Ok? {
      assert [] + r.value == r.value;
    }
  }

  lemma FollowedOne<T>(front: seq<T>, x: T, r: Parsed<seq<T>>)
    ensures Followed(front, Followed([x], r)) == Followed(front + [x], r)
  {
    if r.Ok? {
      assert front + ([x] + r.value) == (front + [x]) + r.value;
    }
  }

  /** What the text after an element or a member says to do. */
  datatype Next = AtEnd | Close | Comma | Unexpected

  ghost function NextAfter(text: string, close: char): (Next, string) {
    var s := SkipSpaces(text);
    if s == [] then (AtEnd, s)
    else if s[0] == close then (Close, s[1..])
    else if s[0] == ',' then (Comma, s[1..])
    else (Unexpected, s)
  }

  method NextAfterAt(json: string, start: nat, close: char) returns (next: Next, pos: nat)
    requires start <= |json|
    ensures start <= pos <= |json|
    ensures (next, json[pos..]) == NextAfter(json[start..], close)
    ensures next.Close? || next.Comma? ==> start < pos
  {
    pos := SkipSpacesAt(json, start);
    if pos >= |json| {
      return AtEnd, pos;
    }
    assert json[pos..][1..] == json[pos + 1..];
    if json[pos] == close {
      return Close, pos + 1;
    }
    if json[pos] == ',' {
      return Comma, pos + 1;
    }
    next := Unexpected;
  }

  lemma ElementsUnfold(read: Reader, text: string)
    ensures var v := ParseValue(read, SkipSpaces(text));
            ParseElements(read, text) ==
            if v.Err? then Err(v.error)
            else
              match NextAfter(v.rest, ']')
              case (AtEnd, _) => Err(EndInArray)
              case (Close, rest) => Ok([v.value], rest)
              case (Comma, rest) => Followed([v.value], ParseElements(read, rest))
              case (Unexpected, _) => Err(ExpectedCommaOrBracket)
  {
  }

  lemma MembersUnfold(read: Reader, text: string)
    ensures var m := ParsePair(read, text);
            ParseMembers(read, text) ==
            if m.Err? then Err(m.error)
            else
              match NextAfter(m.rest, '}')
              case (AtEnd, _) => Err(EndInObject)
              case (Close, rest) => Ok([m.value], rest)
              case (Comma, rest) => Followed([m.value], ParseMembers(read, rest))
              case (Unexpected, _) => Err(ExpectedCommaOrBrace)
  {
  }

  method ParseElementAt(read: Reader, json: string, start: nat) returns (r: Outcome<Json>, pos: nat)
    requires start <= |json|
    ensures Agrees(ParseValue(read, SkipSpaces(json[start..])), r, json, pos)
    ensures r.Success? ==> start < pos
    decreases |json| - start, 1
  {
    pos := SkipSpacesAt(json, start);
    r, pos := ParseValueAt(read, json, pos);
  }

  /** The loop of `parseArray`. */
  method ParseElementsAt(read: Reader, json: string, start: nat) returns (r: Outcome<seq<Json>>, pos: nat)
    requires start <= |json|
    ensures Agrees(ParseElements(read, json[start..]), r, json, pos)
    ensures r.Success? ==> start < pos
    decreases |json| - start, 2
  {
    var elems: seq<Json> := [];
    pos := start;
    ghost var spec := ParseElements(read, json[start..]);
    FollowedNothing(spec);
    while true
      invariant start <= pos <= |json|
      invariant spec == Followed(elems, ParseElements(read, json[pos..]))
      decreases |json| - pos
    {
      ElementsUnfold(read, json[pos..]);
      var v, next;
      v, pos := ParseElementAt(read, json, pos);
      if v.Failure? {
        return Failure(v.error), pos;
      }
      next, pos := NextAfterAt(json, pos, ']');
      match next {
        case AtEnd => return Failure(EndInArray), pos;
        case Close => return Success(elems + [v.value]), pos;
        case Unexpected => return Failure(ExpectedCommaOrBracket), pos;
        case Comma =>
      }
      FollowedOne(elems, v.value, ParseElements(read, json[pos..]));
      elems := elems + [v.value];
    }
  }

  method ParseArrayAt(read: Reader, json: string, start: nat) returns (r: Outcome<Json>, pos: nat)
    requires start <= |json|
    ensures Agrees(ParseArray(read, json[start..]), r, json, pos)
    ensures r.Success? ==> start < pos
    decreases |json| - start, 3
  {
    pos := SkipSpacesAt(json, start);
    if pos < |json| && json[pos] == ']' {
      assert json[pos..][1..] == json[pos + 1..];
      return Success(Array([])), pos + 1;
    }
    var elems;
    elems, pos := ParseElementsAt(read, json, pos);
    r := if elems.Success? then Success(Array(elems.value)) else Failure(elems.error);
  }

  method ParseKeyAt(json: string, start: nat) returns (r: Outcome<string>, pos: nat)
    requires start <= |json|
    ensures Agrees(ParseKey(json[start..]), r, json, pos)
    ensures r.Success? ==> start < pos
  {
    pos := SkipSpacesAt(json, start);
    if pos >= |json| || json[pos] != '"' {
      return Failure(ExpectedKey), pos;
    }
    assert json[pos..][1..] == json[pos + 1..];
    r, pos := ParseStringAt(json, pos + 1);
    if r.Failure? {
      return;
    }
    pos := SkipSpacesAt(json, pos);
    if pos >= |json| || json[pos] != ':' {
      return Failure(ExpectedColon), pos;
    }
    assert json[pos..][1..] == json[pos + 1..];
    pos := pos + 1;
  }

  /** A key, its colon, and the value. */
  ghost function ParsePair(read: Reader, text: string): Parsed<Member> {
    var k := ParseKey(text);
    if k.Err? then Err(k.error)
    else
      var v := ParseValue(read, SkipSpaces(k.rest));
      if v.Err? then Err(v.error) else Ok(Member(k.value, v.value), v.rest)
  }

  method ParsePairAt(read: Reader, json: string, start: nat) returns (r: Outcome<Member>, pos: nat)
    requires start <= |json|
    ensures Agrees(ParsePair(read, json[start..]), r, json, pos)
    ensures r.Success? ==> start < pos
    decreases |json| - start, 1
  {
    var k, v;
    k, pos := ParseKeyAt(json, start);
    if k.Failure? {
      return Failure(k.error), pos;
    }
    pos := SkipSpacesAt(json, pos);
    v, pos := ParseValueAt(read, json, pos);
    r := if v.Success? then Success(Member(k.value, v.value)) else Failure(v.error);
  }

  /** The loop of `parseObject`. */
  method ParseMembersAt(read: Reader, json: string, start: nat) returns (r: Outcome<seq<Member>>, pos: nat)
    requires start <= |json|
    ensures Agrees(ParseMembers(read, json[start..]), r, json, pos)
    ensures r.Success? ==> start < pos
    decreases |json| - start, 2
  {
    var members: seq<Member> := [];
    pos := start;
    ghost var spec := ParseMembers(read, json[start..]);
    FollowedNothing(spec);
    while true
      invariant start <= pos <= |json|
      invariant spec == Followed(members, ParseMembers(read, json[pos..]))
      decreases |json| - pos
    {
      MembersUnfold(read, json[pos..]);
      var m, next;
      m, pos := ParsePairAt(read, json, pos);
      if m.Failure? {
        return Failure(m.error), pos;
      }
      next, pos := NextAfterAt(json, pos, '}');
      match next {
        case AtEnd => return Failure(EndInObject), pos;
        case Close => return Success(members + [m.value]), pos;
        case Unexpected => return Failure(ExpectedCommaOrBrace), pos;
        case Comma =>
      }
      FollowedOne(members, m.value, ParseMembers(read, json[pos..]));
      members := members + [m.value];
    }
  }

  method ParseObjectAt(read: Reader, json: string, start: nat) returns (r: Outcome<Json>, pos: nat)
    requires start <= |json|
    ensures Agrees(ParseObject(read, json[start..]), r, json, pos)
    ensures r.Success? ==> start < pos
    decreases |json| - start, 3
  {
    pos := SkipSpacesAt(json, start);
    if pos < |json| && json[pos] == '}' {
      assert json[pos..][1..] == json[pos + 1..];
      return Success(Object([])), pos + 1;
    }
    var members;
    members, pos := ParseMembersAt(read, json, pos);
    r := if members.Success? then Success(Object(members.value)) else Failure(members.error);
  }

  /** `JsonParser::parse`; every index is in range and every call returns. */
  method ParseText(read: Reader, json: string) returns (r: Outcome<Json>)
    ensures Agrees(Parse(read, json), r, json, |json|)
  {
    assert json[0..] == json;
    var pos := SkipSpacesAt(json, 0);
    r, pos := ParseValueAt(read, json, pos);
    if r.Success? {
      pos := SkipSpacesAt(json, pos);
      if pos != |json| {
        r := Failure(ExtraCharacters);
      }
    }
  }

  // ---------------------------------------------------------------- printers

  /** `JsonString::toString` */
  method QuoteString(value: string) returns (out: string)
    ensures out == "\"" + Escape(value) + "\""
  {
    out := "\"";
    for i := 0 to |value|
      invariant out + Escape(value[i..]) == "\"" + Escape(value)
    {
      assert value[i..][1..] == value[i + 1..];
      assert out + (EscapeChar(value[i]) + Escape(value[i + 1..])) == (out + EscapeChar(value[i])) + Escape(value[i + 1..]);
      out := out + EscapeChar(value[i]);
    }
    assert out + [] == out;
    out := out + "\"";
  }

  ghost function ElementsLeft(show: Shower, elems: seq<Json>, i: nat): string
    requires i <= |elems|
  {
    (if 0 < i < |elems| then "," else "") + ElementsToString(show, elems[i..])
  }

  ghost function MembersLeft(show: Shower, members: seq<Member>, i: nat): string
    requires i <= |members|
  {
    (if 0 < i < |members| then "," else "") + MembersToString(show, members[i..])
  }

  lemma ElementsLeftStep(show: Shower, elems: seq<Json>, i: nat)
    requires i < |elems|
    ensures ElementsLeft(show, elems, i)
         == (if i > 0 then "," else "") + ToString(show, elems[i]) + ElementsLeft(show, elems, i + 1)
  {
    assert elems[i..][1..] == elems[i + 1..];
  }

  lemma MembersLeftStep(show: Shower, members: seq<Member>, i: nat)
    requires i < |members|
    ensures MembersLeft(show, members, i)
         == (if i > 0 then "," else "") + ("\"" + members[i].key + "\":" + ToString(show, members[i].value))
            + MembersLeft(show, members, i + 1)
  {
    assert members[i..][1..] == members[i + 1..];
  }

  lemma Appended(out: string, sep: string, item: string, left: string)
    ensures out + (sep + item + left) == (out + sep + item) + left
  {
  }

  /** `toString` of every node class */
  method PrintCompact(show: Shower, v: Json) returns (out: string)
    ensures out == ToString(show, v)
    decreases v
  {
    match v
    case Null => out := "null";
    case Bool(b) => out := if b then "true" else "false";
    case Number(n) => out := show(n);
    case String(s) => out := QuoteString(s);
    case Array(elems) => out := PrintArray(show, elems);
    case Object(members) => out := PrintObject(show, members);
  }

  method PrintArray(show: Shower, elems: seq<Json>) returns (out: string)
    ensures out == "[" + ElementsToString(show, elems) + "]"
    decreases elems
  {
    out := "[";
    var first := true;
    for i := 0 to |elems|
      invariant first <==> i == 0
      invariant out + ElementsLeft(show, elems, i) == "[" + ElementsToString(show, elems)
    {
      ElementsLeftStep(show, elems, i);
      var sep := if first then "" else ",";
      var text := PrintCompact(show, elems[i]);
      Appended(out, sep, text, ElementsLeft(show, elems, i + 1));
      out := out + sep + text;
      first := false;
    }
    out := out + "]";
  }

  method PrintObject(show: Shower, members: seq<Member>) returns (out: string)
    ensures out == "{" + MembersToString(show, members) + "}"
    decreases members
  {
    out := "{";
    var first := true;
    for i := 0 to |members|
      invariant first <==> i == 0
      invariant out + MembersLeft(show, members, i) == "{" + MembersToString(show, members)
    {
      MembersLeftStep(show, members, i);
      var sep := if first then "" else ",";
      var text := PrintCompact(show, members[i].value);
      var item := "\"" + members[i].key + "\":" + text;
      Appended(out, sep, item, MembersLeft(show, members, i + 1));
      out := out + sep + item;
      first := false;
    }
    out := out + "}";
  }

  lemma DumpElementsStep(show: Shower, elems: seq<Json>, indent: nat, depth: nat, i: nat)
    requires i < |elems|
    ensures DumpElements(show, elems[i..], indent, depth)
         == Pad((depth + 1) * indent) + Dump(show, elems[i], indent, depth + 1) +
            (if i + 1 < |elems| then "," else "") + "\n" + DumpElements(show, elems[i + 1..], indent, depth)
  {
    assert elems[i..][1..] == elems[i + 1..];
  }

  lemma DumpMembersStep(show: Shower, members: seq<Member>, indent: nat, depth: nat, i: nat)
    requires i < |members|
    ensures DumpMembers(show, members[i..], indent, depth)
         == Pad((depth + 1) * indent) + "\"" + members[i].key + "\": " + Dump(show, members[i].value, indent, depth + 1) +
            (if i + 1 < |members| then "," else "") + "\n" + DumpMembers(show, members[i + 1..], indent, depth)
  {
    assert members[i..][1..] == members[i + 1..];
  }

  /** `dump` of every node class */
  method PrintIndented(show: Shower, v: Json, indent: int, depth: nat) returns (out: string)
    ensures out == Dump(show, v, indent, depth)
    decreases v
  {
    if indent < 0 || !(v.Array? || v.Object?) {
      out := PrintCompact(show, v);
    } else if v.Array? {
      out := PrintIndentedArray(show, v.elems, indent, depth);
    } else {
      out := PrintIndentedObject(show, v.members, indent, depth);
    }
  }

  method PrintIndentedArray(show: Shower, elems: seq<Json>, indent: nat, depth: nat) returns (out: string)
    ensures out == "[\n" + DumpElements(show, elems, indent, depth) + Pad(depth * indent) + "]"
    decreases elems
  {
    var inside := Pad((depth + 1) * indent);
    out := "[\n";
    for i := 0 to |elems|
      invariant out + DumpElements(show, elems[i..], indent, depth) == "[\n" + DumpElements(show, elems, indent, depth)
    {
      DumpElementsStep(show, elems, indent, depth, i);
      var text := PrintIndented(show, elems[i], indent, depth + 1);
      var row := inside + text + (if i + 1 < |elems| then "," else "") + "\n";
      assert out + (row + DumpElements(show, elems[i + 1..], indent, depth))
          == (out + row) + DumpElements(show, elems[i + 1..], indent, depth);
      out := out + row;
    }
    assert out + "" == out;
    out := out + Pad(depth * indent) + "]";
  }

  method PrintIndentedObject(show: Shower, members: seq<Member>, indent: nat, depth: nat) returns (out: string)
    ensures out == "{\n" + DumpMembers(show, members, indent, depth) + Pad(depth * indent) + "}"
    decreases members
  {
    var inside := Pad((depth + 1) * indent);
    out := "{\n";
    for i := 0 to |members|
      invariant out + DumpMembers(show, members[i..], indent, depth) == "{\n" + DumpMembers(show, members, indent, depth)
    {
      DumpMembersStep(show, members, indent, depth, i);
      var text := PrintIndented(show, members[i].value, indent, depth + 1);
      var row := inside + "\"" + members[i].key + "\": " + text + (if i + 1 < |members| then "," else "") + "\n";
      assert out + (row + DumpMembers(show, members[i + 1..], indent, depth))
          == (out + row) + DumpMembers(show, members[i + 1..], indent, depth);
      out := out + row;
    }
    assert out + "" == out;
    out := out + Pad(depth * indent) + "}";
  }
}
