/** What `parse_from_string` reads from any text: start lines, header lines and whole messages as
    a client may write them, not only as `serialize_to_string` does. */
module HttpLayouts {
  import opened Options
  import opened HttpMessages

  // ---------------------------------------------------------------- characters and tables

  /** Blank, tab, line feed, vertical tab, form feed and carriage return, by their codes. */
  predicate White(c: char) {
    var n := c as int;
    n == 32 || n == 9 || n == 10 || n == 11 || n == 12 || n == 13
  }

  lemma SpaceIsWhite(c: char)
    ensures IsSpace(c) <==> White(c)
  {
  }

  ghost predicate NoWhite(s: string) {
    forall i | 0 <= i < |s| :: !White(s[i])
  }

  ghost predicate AllWhite(s: string) {
    forall i | 0 <= i < |s| :: White(s[i])
  }

  predicate EndsInCr(s: string) {
    s != "" && s[|s| - 1] == '\r'
  }

  const METHODS := [GET, POST, PUT, DELETE, HEAD, OPTIONS, TRACE, CONNECT, PATCH]
  const METHOD_WORDS := ["GET", "POST", "PUT", "DELETE", "HEAD", "OPTIONS", "TRACE", "CONNECT", "PATCH"]

  /** Each method has its word, in both directions, and every other word is the unknown method. */
  lemma MethodWords(i: nat, word: string)
    ensures i < 9 ==> MethodText(METHODS[i]) == METHOD_WORDS[i] && ParseMethod(METHOD_WORDS[i]) == METHODS[i]
    ensures word !in METHOD_WORDS ==> ParseMethod(word) == UnknownMethod
    ensures MethodText(UnknownMethod) == "UNKNOWN"
  {
  }

  const VERSIONS := [Http10, Http11, Http20]
  const VERSION_WORDS := ["HTTP/1.0", "HTTP/1.1", "HTTP/2.0"]

  lemma VersionWords(i: nat, word: string)
    ensures i < 3 ==> VersionText(VERSIONS[i]) == VERSION_WORDS[i] && ParseVersion(VERSION_WORDS[i]) == VERSIONS[i]
    ensures word !in VERSION_WORDS ==> ParseVersion(word) == UnknownVersion
    ensures VersionText(UnknownVersion) == "HTTP/1.1"
  {
  }

  // ---------------------------------------------------------------- the start line

  lemma {:induction false} SkipsWhite(ws: string, rest: string)
    requires AllWhite(ws) && (rest != "" ==> !White(rest[0]))
    ensures SkipSpaces(ws + rest) == rest
  {
    if ws == "" {
      assert ws + rest == rest;
      assert rest != "" ==> !IsSpace(rest[0]);
    } else {
      SpaceIsWhite(ws[0]);
      assert (ws + rest)[1..] == ws[1..] + rest;
      SkipsWhite(ws[1..], rest);
    }
  }

  lemma WordEnds(word: string, rest: string)
    requires NoWhite(word) && (rest != "" ==> White(rest[0]))
    ensures WordLength(word + rest) == |word|
  {
    var s := word + rest;
    assert forall i | 0 <= i < |word| :: s[i] == word[i];
    assert rest != "" ==> s[|word|] == rest[0];
    assert forall i | 0 <= i < |word| :: !IsSpace(s[i]);
    assert rest != "" ==> IsSpace(s[|word|]);
  }

  /** A word with white space in front of it and more, or nothing, behind. */
  lemma WordReads(ws: string, word: string, rest: string)
    requires AllWhite(ws) && NoWhite(word) && word != "" && (rest != "" ==> White(rest[0]))
    ensures Word(ws + (word + rest)) == (word, rest)
  {
    assert (word + rest)[0] == word[0];
    SkipsWhite(ws, word + rest);
    WordEnds(word, rest);
    assert (word + rest)[..|word|] == word && (word + rest)[|word|..] == rest;
  }

  lemma NoWordReads(ws: string)
    requires AllWhite(ws)
    ensures Word(ws) == ("", "")
  {
    assert ws + "" == ws;
    SkipsWhite(ws, "");
  }

  /** Three words with any white space around them; what follows is ignored. */
  lemma StartLineReads(
    m: Message, w0: string, method_: string, w1: string, url: string, w2: string, version: string, rest: string)
    requires AllWhite(w0) && AllWhite(w1) && w1 != "" && AllWhite(w2) && w2 != "" && (rest != "" ==> White(rest[0]))
    requires NoWhite(method_) && method_ != "" && NoWhite(url) && url != "" && NoWhite(version) && version != ""
    ensures WithStartLine(m, w0 + (method_ + (w1 + (url + (w2 + (version + rest))))))
         == m.(method_ := ParseMethod(method_), url := url, version := ParseVersion(version))
  {
    var afterUrl := w2 + (version + rest);
    var afterMethod := w1 + (url + afterUrl);
    assert afterUrl[0] == w2[0] && afterMethod[0] == w1[0];
    WordReads(w0, method_, afterMethod);
    WordReads(w1, url, afterUrl);
    WordReads(w2, version, rest);
  }

  /** With fewer words, what is missing is empty, and so unknown. */
  lemma ShortStartLineReads(m: Message, w0: string, method_: string, w1: string, url: string, w2: string)
    requires AllWhite(w0) && AllWhite(w1) && AllWhite(w2)
    requires NoWhite(method_) && method_ != "" && NoWhite(url) && url != ""
    ensures WithStartLine(m, w0) == m.(method_ := UnknownMethod, url := "", version := UnknownVersion)
    ensures WithStartLine(m, w0 + (method_ + w1)) == m.(method_ := ParseMethod(method_), url := "", version := UnknownVersion)
    ensures w1 != "" ==>
              (WithStartLine(m, w0 + (method_ + (w1 + (url + w2))))
               == m.(method_ := ParseMethod(method_), url := url, version := UnknownVersion))
  {
    NoWordReads(w0);
    NoWordReads("");
    NoWordReads(w1);
    NoWordReads(w2);
    WordReads(w0, method_, w1);
    if w1 != "" {
      var afterMethod := w1 + (url + w2);
      assert afterMethod[0] == w1[0];
      WordReads(w0, method_, afterMethod);
      WordReads(w1, url, w2);
    }
  }

  // ---------------------------------------------------------------- searching

  lemma OccursChar(s: string, pattern: string, j: nat, k: nat)
    requires Occurs(s, pattern, j) && k < |pattern|
    ensures s[j + k] == pattern[k]
  {
    assert s[j..j + |pattern|][k] == s[j + k];
  }

  lemma FindChar(s: string, c: char, i: nat)
    requires i < |s| && s[i] == c && c !in s[..i]
    ensures Find(s, [c]) == Some(i)
  {
    assert s[i..i + 1] == [c];
    forall j: nat | j < i ensures !Occurs(s, [c], j) {
      assert s[j] == s[..i][j];
      if Occurs(s, [c], j) {
        OccursChar(s, [c], j, 0);
      }
    }
    FindIs(s, [c], i);
  }

  lemma FindCharMeans(s: string, c: char)
    ensures Find(s, [c]).None? ==> c !in s
    ensures Find(s, [c]).Some? ==>
              var n := Find(s, [c]).value;
              n < |s| && s[n] == c && c !in s[..n]
  {
    forall j: nat | j < |s| && s[j] == c ensures Occurs(s, [c], j) {
      assert s[j..j + 1] == [c];
    }
    if Find(s, [c]).Some? {
      OccursChar(s, [c], Find(s, [c]).value, 0);
    }
  }

  lemma FindNoChar(s: string, c: char)
    requires c !in s
    ensures Find(s, [c]) == None
  {
    forall j: nat ensures !Occurs(s, [c], j) {
      if Occurs(s, [c], j) {
        OccursChar(s, [c], j, 0);
      }
    }
  }

  lemma OccursAfter(line: string, tail: string, pattern: string, j: nat)
    requires |line| <= j
    ensures Occurs(line + tail, pattern, j) <==> Occurs(tail, pattern, j - |line|)
  {
    var d := j - |line|;
    if d + |pattern| <= |tail| {
      assert (line + tail)[j..j + |pattern|] == tail[d..d + |pattern|];
    }
  }

  // ---------------------------------------------------------------- header lines

  /** A field with any number of blanks after its colon, or a line without colon. */
  datatype Line = Field(key: string, blanks: string, value: string) | Other(text: string)

  function LineText(l: Line): string {
    match l
    case Field(key, blanks, value) => key + (":" + (blanks + value))
    case Other(text) => text
  }

  ghost predicate LineOk(l: Line) {
    && '\n' !in LineText(l)
    && match l
       case Field(key, blanks, value) =>
         ':' !in key && (forall i | 0 <= i < |blanks| :: blanks[i] == ' ') && (value != "" ==> value[0] != ' ')
       case Other(text) => ':' !in text
  }

  /** The later of two fields with the same key wins. */
  function PutLine(acc: map<string, string>, l: Line): map<string, string> {
    if l.Field? then acc[l.key := l.value] else acc
  }

  /** What is left of a line when one carriage return at its end is removed. */
  function Chop(l: Line): Line {
    if l.Field? then l.(value := WithoutCr(l.value)) else l
  }

  lemma {:induction false} BlanksGo(blanks: string, value: string)
    requires (forall i | 0 <= i < |blanks| :: blanks[i] == ' ') && (value != "" ==> value[0] != ' ')
    ensures WithoutBlanks(blanks + value) == value
  {
    if blanks == "" {
      assert blanks + value == value;
    } else {
      assert (blanks + value)[1..] == blanks[1..] + value;
      BlanksGo(blanks[1..], value);
    }
  }

  /** The line that is left once its carriage return is gone. */
  lemma StrippedReads(acc: map<string, string>, raw: string, l: Line)
    requires LineOk(l) && WithoutCr(raw) == LineText(l)
    ensures AddLine(acc, raw) == PutLine(acc, l)
  {
    var line := LineText(l);
    if l.Field? {
      assert line[..|l.key|] == l.key;
      FindChar(line, ':', |l.key|);
      assert line[|l.key| + 1..] == l.blanks + l.value;
      BlanksGo(l.blanks, l.value);
    } else {
      FindNoChar(line, ':');
    }
  }

  /** A line with a carriage return behind it. */
  lemma LineReads(acc: map<string, string>, l: Line)
    requires LineOk(l)
    ensures AddLine(acc, LineText(l) + "\r") == PutLine(acc, l)
  {
    var raw := LineText(l) + "\r";
    assert raw[..|raw| - 1] == LineText(l);
    StrippedReads(acc, raw, l);
  }

  lemma ChopIs(l: Line)
    requires LineOk(l)
    ensures LineOk(Chop(l))
    ensures l.Field? ==> WithoutCr(LineText(l)) == LineText(Chop(l))
  {
    if l.Field? && EndsInCr(l.value) {
      var v := l.value[..|l.value| - 1];
      assert LineText(l) == (l.key + (":" + (l.blanks + v))) + "\r";
      assert LineText(l)[..|LineText(l)| - 1] == LineText(Chop(l));
    }
  }

  /** A line without one: if its value ends in a carriage return, that one is lost. */
  lemma BareLineReads(acc: map<string, string>, l: Line)
    requires LineOk(l)
    ensures AddLine(acc, LineText(l)) == PutLine(acc, Chop(l))
  {
    if l.Field? {
      ChopIs(l);
      StrippedReads(acc, LineText(l), Chop(l));
    } else {
      assert ':' !in WithoutCr(l.text);
      FindNoChar(WithoutCr(l.text), ':');
    }
  }

  // ---------------------------------------------------------------- blocks of lines

  /** A line ended by a line feed, with a carriage return before it or not. */
  datatype Ended = Ended(line: Line, cr: bool)

  function EndText(cr: bool): string {
    if cr then "\r\n" else "\n"
  }

  function BlockText(lines: seq<Ended>, last: Line): string {
    if lines == [] then LineText(last)
    else LineText(lines[0].line) + (EndText(lines[0].cr) + BlockText(lines[1..], last))
  }

  ghost predicate BlockOk(lines: seq<Ended>, last: Line) {
    LineOk(last) && forall i | 0 <= i < |lines| :: LineOk(lines[i].line)
  }

  function PutBlock(acc: map<string, string>, lines: seq<Ended>, last: Line): map<string, string>
    decreases |lines|
  {
    if lines == [] then PutLine(acc, Chop(last))
    else PutBlock(PutLine(acc, if lines[0].cr then lines[0].line else Chop(lines[0].line)), lines[1..], last)
  }

  lemma FirstLineSplits(line: string, cr: bool, more: string)
    requires '\n' !in line
    ensures var block := line + (EndText(cr) + more);
            var n := |line| + if cr then 1 else 0;
            && block != "" && Find(block, "\n") == Some(n)
            && block[..n] == (if cr then line + "\r" else line) && block[n + 1..] == more
  {
    var block := line + (EndText(cr) + more);
    var n := |line| + if cr then 1 else 0;
    assert block[..n] == if cr then line + "\r" else line;
    FindChar(block, '\n', n);
  }

  lemma LastLineReads(acc: map<string, string>, last: Line)
    requires LineOk(last)
    ensures AddLines(acc, LineText(last)) == PutLine(acc, Chop(last))
  {
    if LineText(last) != "" {
      FindNoChar(LineText(last), '\n');
      BareLineReads(acc, last);
    }
  }

  /** Any block of lines is read line by line. */
  lemma {:induction false} BlockReads(acc: map<string, string>, lines: seq<Ended>, last: Line)
    requires BlockOk(lines, last)
    ensures AddLines(acc, BlockText(lines, last)) == PutBlock(acc, lines, last)
    decreases |lines|
  {
    if lines == [] {
      LastLineReads(acc, last);
    } else {
      var Ended(l, cr) := lines[0];
      var more := BlockText(lines[1..], last);
      FirstLineSplits(LineText(l), cr, more);
      if cr {
        LineReads(acc, l);
      } else {
        BareLineReads(acc, l);
      }
      BlockReads(PutLine(acc, if cr then l else Chop(l)), lines[1..], last);
    }
  }

  /** A line without line feed is a field or has no colon. */
  lemma EveryLineReads(text: string) returns (l: Line)
    requires '\n' !in text
    ensures LineOk(l) && LineText(l) == text
  {
    FindCharMeans(text, ':');
    match Find(text, ":")
    case None => l := Other(text);
    case Some(c) =>
      var blanks, value := SplitBlanks(text[c + 1..]);
      l := Field(text[..c], blanks, value);
      assert LineText(l) == text;
  }

  lemma {:induction false} SplitBlanks(s: string) returns (blanks: string, value: string)
    ensures s == blanks + value
    ensures (forall i | 0 <= i < |blanks| :: blanks[i] == ' ') && (value != "" ==> value[0] != ' ')
  {
    if s != "" && s[0] == ' ' {
      blanks, value := SplitBlanks(s[1..]);
      assert s == [' '] + s[1..];
      blanks := [' '] + blanks;
    } else {
      blanks, value := "", s;
    }
  }

  /** Every text is such a block, so what is read from any header section is known. */
  lemma {:induction false} EveryBlockReads(block: string) returns (lines: seq<Ended>, last: Line)
    ensures BlockOk(lines, last) && BlockText(lines, last) == block
    decreases |block|
  {
    FindCharMeans(block, '\n');
    match Find(block, "\n")
    case None =>
      lines := [];
      last := EveryLineReads(block);
    case Some(n) =>
      var l := EveryLineReads(block[..n]);
      var more;
      more, last := EveryBlockReads(block[n + 1..]);
      lines := [Ended(l, false)] + more;
      assert lines[1..] == more;
      assert block == block[..n] + ("\n" + block[n + 1..]);
  }

  // ---------------------------------------------------------------- whole messages

  /** Lines, each with carriage return and line feed behind it. */
  function LinesText(lines: seq<Line>): string {
    if lines == [] then "" else LineText(lines[0]) + (LINE_SEP + LinesText(lines[1..]))
  }

  ghost predicate LinesOk(lines: seq<Line>) {
    forall i | 0 <= i < |lines| :: LineOk(lines[i]) && LineText(lines[i]) != ""
  }

  function MessageText(line: string, lines: seq<Line>, body: string): string {
    line + (LINE_SEP + (LinesText(lines) + (LINE_SEP + body)))
  }

  lemma LineEnds(line: string, rest: string)
    requires '\n' !in line
    ensures Find(line + (LINE_SEP + rest), LINE_SEP) == Some(|line|)
  {
    var s := line + (LINE_SEP + rest);
    assert s[|line|..|line| + 2] == LINE_SEP;
    forall j: nat | j < |line| ensures !Occurs(s, LINE_SEP, j) {
      assert j + 1 < |line| ==> s[j + 1] == line[j + 1];
      assert s[|line|] == '\r';
      if Occurs(s, LINE_SEP, j) {
        OccursChar(s, LINE_SEP, j, 1);
      }
    }
    FindIs(s, LINE_SEP, |line|);
  }

  lemma SepChars(s: string, j: nat)
    requires Occurs(s, HEADER_SEP, j)
    ensures s[j] == '\r' && s[j + 1] == '\n' && s[j + 2] == '\r' && s[j + 3] == '\n'
  {
    OccursChar(s, HEADER_SEP, j, 0);
    OccursChar(s, HEADER_SEP, j, 1);
    OccursChar(s, HEADER_SEP, j, 2);
    OccursChar(s, HEADER_SEP, j, 3);
  }

  /** The empty line is not found at the start of a line that is not empty, nor inside it. */
  lemma SepIsLater(line: string, tail: string, j: nat)
    requires '\n' !in line && line != "" && tail != "" && tail[0] == '\r'
    requires Occurs(LINE_SEP + (line + tail), HEADER_SEP, j)
    ensures j >= 2 + |line| && Occurs(tail, HEADER_SEP, j - 2 - |line|)
  {
    var s := LINE_SEP + (line + tail);
    SepChars(s, j);
    assert forall i | 2 <= i < 2 + |line| :: s[i] == line[i - 2];
    assert s[2 + |line|] == '\r';
    var d := j - 2 - |line|;
    assert d >= 0;
    assert s[j..j + 4] == tail[d..d + 4];
  }

  ghost function Tail(lines: seq<Line>, rest: string): string {
    LINE_SEP + (LinesText(lines) + rest)
  }

  lemma {:induction false} TailUnfolds(lines: seq<Line>, rest: string)
    requires lines != []
    ensures Tail(lines, rest) == LINE_SEP + (LineText(lines[0]) + Tail(lines[1..], rest))
  {
    var a, b := LineText(lines[0]), LinesText(lines[1..]);
    assert (a + (LINE_SEP + b)) + rest == a + (LINE_SEP + (b + rest));
  }

  lemma {:induction false} SepAfterLines(lines: seq<Line>, rest: string, j: nat)
    requires LinesOk(lines) && Occurs(Tail(lines, rest), HEADER_SEP, j)
    ensures j >= |LinesText(lines)|
  {
    if lines != [] {
      TailUnfolds(lines, rest);
      SepIsLater(LineText(lines[0]), Tail(lines[1..], rest), j);
      SepAfterLines(lines[1..], rest, j - 2 - |LineText(lines[0])|);
    }
  }

  ghost function AllCr(lines: seq<Line>): seq<Ended> {
    seq(|lines|, i requires 0 <= i < |lines| => Ended(lines[i], true))
  }

  /** All lines but the end of the last one. */
  ghost function Section(lines: seq<Line>): string
    requires lines != []
  {
    BlockText(AllCr(lines[..|lines| - 1]), lines[|lines| - 1])
  }

  lemma {:induction false} SectionIsText(lines: seq<Line>)
    requires lines != []
    ensures LinesText(lines) == Section(lines) + LINE_SEP
    decreases |lines|
  {
    var a, n := LineText(lines[0]), |lines|;
    if n == 1 {
      assert LinesText(lines[1..]) == "" && a + (LINE_SEP + "") == a + LINE_SEP;
    } else {
      var more := lines[1..];
      SectionIsText(more);
      assert AllCr(lines[..n - 1])[1..] == AllCr(more[..n - 2]);
      assert a + (LINE_SEP + (Section(more) + LINE_SEP)) == (a + (LINE_SEP + Section(more))) + LINE_SEP;
    }
  }

  lemma {:induction false} TailSplits(lines: seq<Line>, body: string)
    ensures lines == [] ==> Tail(lines, LINE_SEP + body) == HEADER_SEP + body
    ensures lines != [] ==> Tail(lines, LINE_SEP + body) == LINE_SEP + (Section(lines) + (HEADER_SEP + body))
  {
    if lines == [] {
      assert LINE_SEP + ("" + (LINE_SEP + body)) == HEADER_SEP + body;
    } else {
      SectionIsText(lines);
      var b := Section(lines);
      assert LINE_SEP + ((b + LINE_SEP) + (LINE_SEP + body)) == LINE_SEP + (b + (HEADER_SEP + body));
    }
  }

  lemma {:induction false} SepEndsLines(lines: seq<Line>, body: string)
    ensures Occurs(Tail(lines, LINE_SEP + body), HEADER_SEP, |LinesText(lines)|)
  {
    TailSplits(lines, body);
    if lines != [] {
      SectionIsText(lines);
    }
  }

  lemma SepIsNotIn(line: string, lines: seq<Line>, rest: string, j: nat)
    requires '\n' !in line && Occurs(line + Tail(lines, rest), HEADER_SEP, j)
    ensures j >= |line|
  {
    var s := line + Tail(lines, rest);
    SepChars(s, j);
    assert forall i | 0 <= i < |line| :: s[i] == line[i];
    assert s[|line|] == '\r';
  }

  /** The header section ends at the first empty line, which is the one after the lines. */
  lemma {:induction false} HeadersEnd(line: string, lines: seq<Line>, body: string)
    requires '\n' !in line && LinesOk(lines)
    ensures Find(line + Tail(lines, LINE_SEP + body), HEADER_SEP) == Some(|line| + |LinesText(lines)|)
  {
    var tail := Tail(lines, LINE_SEP + body);
    var n := |line| + |LinesText(lines)|;
    SepEndsLines(lines, body);
    OccursAfter(line, tail, HEADER_SEP, n);
    forall j: nat | j < n ensures !Occurs(line + tail, HEADER_SEP, j) {
      if Occurs(line + tail, HEADER_SEP, j) {
        SepIsNotIn(line, lines, LINE_SEP + body, j);
        OccursAfter(line, tail, HEADER_SEP, j);
        SepAfterLines(lines, LINE_SEP + body, j - |line|);
      }
    }
    FindIs(line + tail, HEADER_SEP, n);
  }

  /** What is taken for the header section: without lines, all that follows the start line. */
  ghost function SectionTaken(lines: seq<Line>, body: string): string {
    if lines == [] then LINE_SEP + body else Section(lines)
  }

  lemma PartsWithout(line: string, body: string)
    ensures var data, end := line + (HEADER_SEP + body), |line|;
            && data[..|line|] == line && data[end + 4..] == body
            && HeaderBlock(data, |line| + 2, end) == LINE_SEP + body
  {
    var data := line + (HEADER_SEP + body);
    assert data[|line|..] == HEADER_SEP + body;
  }

  lemma PartsWith(line: string, section: string, body: string)
    ensures var data, end := line + (LINE_SEP + (section + (HEADER_SEP + body))), |line| + 2 + |section|;
            && data[..|line|] == line && data[end + 4..] == body
            && HeaderBlock(data, |line| + 2, end) == section
  {
    var data := line + (LINE_SEP + (section + (HEADER_SEP + body)));
    assert data[|line| + 2..] == section + (HEADER_SEP + body);
    assert (section + (HEADER_SEP + body))[|section| + 4..] == body;
  }

  lemma {:induction false} PartsOf(line: string, lines: seq<Line>, body: string)
    ensures var data, end := line + Tail(lines, LINE_SEP + body), |line| + |LinesText(lines)|;
            && |line| + 2 <= |data| && end + 4 <= |data| && data[..|line|] == line && data[end + 4..] == body
            && HeaderBlock(data, |line| + 2, end) == SectionTaken(lines, body)
  {
    TailSplits(lines, body);
    if lines == [] {
      PartsWithout(line, body);
    } else {
      SectionIsText(lines);
      PartsWith(line, Section(lines), body);
    }
  }

  lemma ParsedFrom(m0: Message, data: string, line: string, end: nat, block: string, body: string)
    requires Find(data, LINE_SEP) == Some(|line|) && Find(data, HEADER_SEP) == Some(end)
    requires |line| + 2 <= |data| && end + 4 <= |data| && data[..|line|] == line && data[end + 4..] == body
    requires HeaderBlock(data, |line| + 2, end) == block
    ensures Parsed(m0, data) == (true, WithStartLine(m0, line).(headers := AddLines(map[], block), body := body))
  {
    assert Occurs(data, LINE_SEP, |line|) && Occurs(data, HEADER_SEP, end);
  }

  /** Any start line, any header lines that are not empty, any body. */
  lemma {:induction false} MessageReads(m0: Message, line: string, lines: seq<Line>, body: string)
    requires '\n' !in line && LinesOk(lines)
    ensures Parsed(m0, MessageText(line, lines, body))
         == (true, WithStartLine(m0, line).(headers := AddLines(map[], SectionTaken(lines, body)), body := body))
  {
    LineEnds(line, LinesText(lines) + (LINE_SEP + body));
    HeadersEnd(line, lines, body);
    PartsOf(line, lines, body);
    var end := |line| + |LinesText(lines)|;
    ParsedFrom(m0, MessageText(line, lines, body), line, end, SectionTaken(lines, body), body);
  }

  /** And with lines, the headers are what the lines say, read from first to last. */
  lemma {:induction false} FieldsRead(lines: seq<Line>, body: string)
    requires LinesOk(lines) && lines != []
    ensures AddLines(map[], SectionTaken(lines, body)) == PutBlock(map[], AllCr(lines[..|lines| - 1]), lines[|lines| - 1])
  {
    BlockReads(map[], AllCr(lines[..|lines| - 1]), lines[|lines| - 1]);
  }

  // ---------------------------------------------------------------- refusals

  /** A text is accepted exactly if it has an empty line.  A refused text leaves headers and body
      as they were, and all of the message if it has no line end. */
  lemma RefusedIff(m0: Message, data: string)
    ensures Parsed(m0, data).0 <==> exists i: nat :: Occurs(data, HEADER_SEP, i)
    ensures !Parsed(m0, data).0 ==> Parsed(m0, data).1.headers == m0.headers && Parsed(m0, data).1.body == m0.body
    ensures (forall i: nat :: !Occurs(data, LINE_SEP, i)) ==> Parsed(m0, data) == (false, m0)
  {
    if i: nat :| Occurs(data, HEADER_SEP, i) {
      assert data[i..i + 4][..2] == data[i..i + 2];
      assert Occurs(data, LINE_SEP, i);
    }
  }

  /** A refused text with a line end still sets what its start line says. */
  lemma RefusedStartLine(m0: Message, line: string, rest: string)
    requires '\n' !in line && forall i: nat :: !Occurs(line + (LINE_SEP + rest), HEADER_SEP, i)
    ensures Parsed(m0, line + (LINE_SEP + rest)) == (false, WithStartLine(m0, line))
  {
    LineEnds(line, rest);
    assert (line + (LINE_SEP + rest))[..|line|] == line;
  }
}
