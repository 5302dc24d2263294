/** The HTTP message codec of `Http.hpp`: the message object, what `serialize_to_string`
    prints and what `parse_from_string` reads.  Characters stand for bytes. */
module HttpMessages {
  import opened Options

  datatype HttpMethod = GET | POST | PUT | DELETE | HEAD | OPTIONS | TRACE | CONNECT | PATCH | UnknownMethod

  datatype HttpVersion = Http10 | Http11 | Http20 | UnknownVersion

  datatype Message = Message(
    method_: HttpMethod, version: HttpVersion, url: string, headers: map<string, string>, body: string)

  const LINE_SEP := "\r\n"
  const HEADER_SEP := "\r\n\r\n"

  // ---------------------------------------------------------------- tables

  function ParseMethod(s: string): HttpMethod {
    if s == "GET" then GET
    else if s == "POST" then POST
    else if s == "PUT" then PUT
    else if s == "DELETE" then DELETE
    else if s == "HEAD" then HEAD
    else if s == "OPTIONS" then OPTIONS
    else if s == "TRACE" then TRACE
    else if s == "CONNECT" then CONNECT
    else if s == "PATCH" then PATCH
    else UnknownMethod
  }

  function ParseVersion(s: string): HttpVersion {
    if s == "HTTP/1.0" then Http10
    else if s == "HTTP/1.1" then Http11
    else if s == "HTTP/2.0" then Http20
    else UnknownVersion
  }

  function VersionText(v: HttpVersion): string {
    match v
    case Http10 => "HTTP/1.0"
    case Http11 => "HTTP/1.1"
    case Http20 => "HTTP/2.0"
    case UnknownVersion => "HTTP/1.1"
  }

  function MethodText(m: HttpMethod): string {
    match m
    case GET => "GET"
    case POST => "POST"
    case PUT => "PUT"
    case DELETE => "DELETE"
    case HEAD => "HEAD"
    case OPTIONS => "OPTIONS"
    case TRACE => "TRACE"
    case CONNECT => "CONNECT"
    case PATCH => "PATCH"
    case UnknownMethod => "UNKNOWN"
  }

  // ---------------------------------------------------------------- searching

  predicate Occurs(s: string, pattern: string, i: nat) {
    i + |pattern| <= |s| && s[i..i + |pattern|] == pattern
  }

  /** `std::string::find`: the first occurrence. */
  function Find(s: string, pattern: string): (r: Option<nat>)
    ensures r.Some? ==> Occurs(s, pattern, r.value) && forall j: nat | j < r.value :: !Occurs(s, pattern, j)
    ensures r.None? ==> forall j: nat :: !Occurs(s, pattern, j)
  {
    FindFrom(s, pattern, 0)
  }

  function FindFrom(s: string, pattern: string, i: nat): (r: Option<nat>)
    requires forall j: nat | j < i :: !Occurs(s, pattern, j)
    ensures r.Some? ==> Occurs(s, pattern, r.value) && forall j: nat | j < r.value :: !Occurs(s, pattern, j)
    ensures r.None? ==> forall j: nat :: !Occurs(s, pattern, j)
    decreases |s| - i
  {
    if i + |pattern| > |s| then None
    else if Occurs(s, pattern, i) then Some(i)
    else FindFrom(s, pattern, i + 1)
  }

  lemma FindIs(s: string, pattern: string, i: nat)
    requires Occurs(s, pattern, i) && forall j: nat | j < i :: !Occurs(s, pattern, j)
    ensures Find(s, pattern) == Some(i)
  {
    var r := Find(s, pattern);
    assert r.Some?;
    assert r.value == i;
  }

  method FindText(s: string, pattern: string) returns (r: Option<nat>)
    ensures r == Find(s, pattern)
  {
    var i := 0;
    while i + |pattern| <= |s|
      invariant forall j: nat | j < i :: !Occurs(s, pattern, j)
      decreases |s| - i
    {
      if s[i..i + |pattern|] == pattern {
        FindIs(s, pattern, i);
        return Some(i);
      }
      i := i + 1;
    }
    return None;
  }

  // ---------------------------------------------------------------- the start line

  /** `isspace` in the default locale. */
  predicate IsSpace(c: char) {
    c == ' ' || c == '\t' || c == '\n' || c == '\U{B}' || c == '\U{C}' || c == '\r'
  }

  function SkipSpaces(s: string): string {
    if s != "" && IsSpace(s[0]) then SkipSpaces(s[1..]) else s
  }

  function WordLength(s: string): (n: nat)
    ensures n <= |s| && forall i | 0 <= i < n :: !IsSpace(s[i])
    ensures n < |s| ==> IsSpace(s[n])
  {
    if s == "" || IsSpace(s[0]) then 0 else 1 + WordLength(s[1..])
  }

  /** What `>>` reads into a string, and what it leaves. */
  function Word(s: string): (string, string) {
    var t := SkipSpaces(s);
    (t[..WordLength(t)], t[WordLength(t)..])
  }

  method SkipSpacesFrom(s: string, from: nat) returns (i: nat)
    requires from <= |s|
    ensures from <= i <= |s| && SkipSpaces(s[from..]) == s[i..]
  {
    i := from;
    while i < |s| && IsSpace(s[i])
      invariant from <= i <= |s|
      invariant SkipSpaces(s[from..]) == SkipSpaces(s[i..])
    {
      assert s[i..][1..] == s[i + 1..];
      i := i + 1;
    }
  }

  method WordEnd(s: string, from: nat) returns (i: nat)
    requires from <= |s|
    ensures from <= i <= |s| && WordLength(s[from..]) == i - from
  {
    i := from;
    while i < |s| && !IsSpace(s[i])
      invariant from <= i <= |s|
      invariant WordLength(s[from..]) == i - from + WordLength(s[i..])
    {
      assert s[i..][1..] == s[i + 1..];
      i := i + 1;
    }
  }

  method ReadWord(s: string, from: nat) returns (word: string, next: nat)
    requires from <= |s|
    ensures from <= next <= |s| && Word(s[from..]) == (word, s[next..])
  {
    var i := SkipSpacesFrom(s, from);
    next := WordEnd(s, i);
    word := s[i..next];
    assert s[i..][..next - i] == word && s[i..][next - i..] == s[next..];
  }

  // ---------------------------------------------------------------- header lines

  function WithoutCr(line: string): string {
    if line != "" && line[|line| - 1] == '\r' then line[..|line| - 1] else line
  }

  function WithoutBlanks(s: string): string {
    if s != "" && s[0] == ' ' then WithoutBlanks(s[1..]) else s
  }

  /** One header line of the loop in `parse_from_string`; a line without a colon is passed over. */
  function AddLine(headers: map<string, string>, raw: string): map<string, string> {
    var line := WithoutCr(raw);
    match Find(line, ":")
    case None => headers
    case Some(colon) => headers[line[..colon] := WithoutBlanks(line[colon + 1..])]
  }

  function AddLines(headers: map<string, string>, block: string): map<string, string>
    decreases |block|
  {
    if block == "" then headers else
    match Find(block, "\n")
    case None => AddLine(headers, block)
    case Some(n) => AddLines(AddLine(headers, block[..n]), block[n + 1..])
  }

  method EraseBlanks(s: string) returns (r: string)
    ensures r == WithoutBlanks(s)
  {
    var i := 0;
    while i < |s| && s[i] == ' '
      invariant i <= |s| && WithoutBlanks(s) == WithoutBlanks(s[i..])
    {
      assert s[i..][1..] == s[i + 1..];
      i := i + 1;
    }
    r := s[i..];
  }

  // ---------------------------------------------------------------- the whole message

  /** The header section.  Without headers its length is computed as -2, which as an unsigned
      number makes `substr` take everything that is left. */
  function HeaderBlock(data: string, headerStart: nat, headerEnd: nat): string
    requires headerStart <= |data| && headerEnd <= |data|
  {
    if headerEnd < headerStart then data[headerStart..] else data[headerStart..headerEnd]
  }

  function WithStartLine(m: Message, line: string): Message {
    var (methodText, r1) := Word(line);
    var (url, r2) := Word(r1);
    var (versionText, _) := Word(r2);
    m.(method_ := ParseMethod(methodText), url := url, version := ParseVersion(versionText))
  }

  /** What a call does to the message it is called on.  A text without an empty line is
      refused after the start line has been stored. */
  function Parsed(m: Message, data: string): (bool, Message) {
    match Find(data, LINE_SEP)
    case None => (false, m)
    case Some(pos) =>
      var m' := WithStartLine(m, data[..pos]);
      match Find(data, HEADER_SEP)
      case None => (false, m')
      case Some(headerEnd) =>
        assert Occurs(data, LINE_SEP, pos) && Occurs(data, HEADER_SEP, headerEnd);
        (true, m'.(headers := AddLines(map[], HeaderBlock(data, pos + 2, headerEnd)), body := data[headerEnd + 4..]))
  }

  /** An order in which the hash map may list its keys. */
  ghost predicate IsOrder(order: seq<string>, headers: map<string, string>) {
    && (forall i, j | 0 <= i < j < |order| :: order[i] != order[j])
    && (forall k :: k in order <==> k in headers)
  }

  function HeaderLine(headers: map<string, string>, key: string): string
    requires key in headers
  {
    key + ": " + headers[key]
  }

  function HeaderText(headers: map<string, string>, order: seq<string>): string
    requires forall k | k in order :: k in headers
  {
    if order == [] then "" else HeaderLine(headers, order[0]) + LINE_SEP + HeaderText(headers, order[1..])
  }

  function StartLine(m: Message): string {
    MethodText(m.method_) + " " + m.url + " " + VersionText(m.version)
  }

  function Serialized(m: Message, order: seq<string>): string
    requires forall k | k in order :: k in m.headers
  {
    StartLine(m) + LINE_SEP + HeaderText(m.headers, order) + LINE_SEP + m.body
  }

  lemma {:induction false} HeaderTextSnoc(headers: map<string, string>, order: seq<string>, key: string)
    requires (forall k | k in order :: k in headers) && key in headers
    ensures HeaderText(headers, order + [key]) == HeaderText(headers, order) + HeaderLine(headers, key) + LINE_SEP
  {
    if order == [] {
      assert order + [key] == [key];
    } else {
      assert (order + [key])[1..] == order[1..] + [key];
      HeaderTextSnoc(headers, order[1..], key);
    }
  }

  class HttpMessage {
    var method_: HttpMethod
    var version: HttpVersion
    var url: string
    var headers: map<string, string>
    var body: string

    ghost function View(): Message
      reads this
    {
      Message(method_, version, url, headers, body)
    }

    constructor (method_: HttpMethod, version: HttpVersion, url: string, headers: map<string, string>, body: string)
      ensures View() == Message(method_, version, url, headers, body)
    {
      this.method_, this.version, this.url, this.headers, this.body := method_, version, url, headers, body;
    }

    method SerializeToString(order: seq<string>) returns (text: string)
      requires IsOrder(order, headers)
      ensures text == Serialized(View(), order)
    {
      text := MethodText(method_) + " " + url + " " + VersionText(version) + LINE_SEP;
      var i := 0;
      while i < |order|
        invariant i <= |order|
        invariant text == StartLine(View()) + LINE_SEP + HeaderText(headers, order[..i])
      {
        var k := order[i];
        text := text + (k + ": " + headers[k] + LINE_SEP);
        HeaderTextSnoc(headers, order[..i], k);
        assert order[..i + 1] == order[..i] + [k];
        i := i + 1;
      }
      assert order[..i] == order;
      text := text + LINE_SEP + body;
    }

    method ParseFromString(data: string) returns (ok: bool)
      modifies this
      ensures (ok, View()) == Parsed(old(View()), data)
    {
      var first := FindText(data, LINE_SEP);
      if first.None? {
        return false;
      }
      var pos := first.value;
      assert Occurs(data, LINE_SEP, pos);
      ReadStartLine(data[..pos]);
      var end := FindText(data, HEADER_SEP);
      if end.None? {
        return false;
      }
      assert Occurs(data, HEADER_SEP, end.value);
      ReadHeaders(HeaderBlock(data, pos + 2, end.value));
      body := data[end.value + 4..];
      return true;
    }

    method ReadStartLine(line: string)
      modifies this`method_, this`url, this`version
      ensures View() == WithStartLine(old(View()), line)
    {
      assert line[0..] == line;
      var methodText, i := ReadWord(line, 0);
      var urlText, j := ReadWord(line, i);
      var versionText, _ := ReadWord(line, j);
      method_, url, version := ParseMethod(methodText), urlText, ParseVersion(versionText);
    }

    method ReadHeader(raw: string)
      modifies this`headers
      ensures headers == AddLine(old(headers), raw)
    {
      var line := raw;
      if line != "" && line[|line| - 1] == '\r' {
        line := line[..|line| - 1];
      }
      var colon := FindText(line, ":");
      if colon.Some? {
        var value := EraseBlanks(line[colon.value + 1..]);
        headers := headers[line[..colon.value] := value];
      }
    }

    method ReadHeaders(block: string)
      modifies this`headers
      ensures headers == AddLines(map[], block)
    {
      headers := map[];
      var rest := block;
      while rest != ""
        invariant AddLines(headers, rest) == AddLines(map[], block)
        decreases |rest|
      {
        var n := FindText(rest, "\n");
        ReadHeader(if n.Some? then rest[..n.value] else rest);
        rest := if n.Some? then rest[n.value + 1..] else "";
      }
    }
  }
}
