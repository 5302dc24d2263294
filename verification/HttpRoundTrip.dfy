/** Exactly which messages survive being serialised and parsed again. */
module HttpRoundTrip {
  import opened HttpMessages
  import opened HttpLayouts

  ghost predicate PlainUrl(url: string) {
    url != "" && NoWhite(url)
  }

  predicate PlainKey(key: string) {
    ':' !in key && '\n' !in key
  }

  predicate PlainValue(value: string) {
    '\n' !in value && (value != "" ==> value[0] != ' ')
  }

  ghost predicate PlainHeaders(headers: map<string, string>) {
    forall k | k in headers :: PlainKey(k) && PlainValue(headers[k])
  }

  /** The messages that survive when the hash map lists its keys in this order. */
  ghost predicate Survives(m: Message, order: seq<string>)
    requires IsOrder(order, m.headers)
  {
    && m.version != UnknownVersion
    && PlainUrl(m.url)
    && PlainHeaders(m.headers)
    && if order == [] then ':' !in m.body else !EndsInCr(m.headers[order[|order| - 1]])
  }

  // ---------------------------------------------------------------- what is written

  lemma MethodTable(m: HttpMethod)
    ensures ParseMethod(MethodText(m)) == m && PlainUrl(MethodText(m))
  {
  }

  lemma VersionTable(v: HttpVersion)
    ensures ParseVersion(VersionText(v)) == v <==> v != UnknownVersion
    ensures PlainUrl(VersionText(v))
  {
  }

  /** The lines written for headers: key, colon, one blank, value. */
  ghost function HeaderLines(headers: map<string, string>, order: seq<string>): seq<Line>
    requires forall k | k in order :: k in headers
  {
    seq(|order|, i requires 0 <= i < |order| => Field(order[i], " ", headers[order[i]]))
  }

  lemma ThreeParts(a: string, b: string, c: string)
    ensures a + b + c == a + (b + c)
  {
  }

  lemma ColonAndBlank(key: string, value: string)
    ensures key + ": " + value == key + (":" + (" " + value))
  {
    assert ": " == ":" + " ";
  }

  lemma {:induction false} OneLineMore(key: string, value: string, lines: seq<Line>, tail: string)
    requires lines != [] && lines[0] == Field(key, " ", value) && LinesText(lines[1..]) == tail
    ensures LinesText(lines) == key + ": " + value + LINE_SEP + tail
  {
    ColonAndBlank(key, value);
    ThreeParts(key + ": " + value, LINE_SEP, tail);
  }

  lemma {:induction false} FirstHeaderLine(headers: map<string, string>, order: seq<string>)
    requires order != [] && forall k | k in order :: k in headers
    ensures HeaderLines(headers, order)[0] == Field(order[0], " ", headers[order[0]])
    ensures HeaderLines(headers, order)[1..] == HeaderLines(headers, order[1..])
  {
  }

  lemma {:induction false} HeadersAreLines(headers: map<string, string>, order: seq<string>)
    requires forall k | k in order :: k in headers
    ensures HeaderText(headers, order) == LinesText(HeaderLines(headers, order))
    decreases |order|
  {
    if order != [] {
      HeadersAreLines(headers, order[1..]);
      FirstHeaderLine(headers, order);
      OneLineMore(order[0], headers[order[0]], HeaderLines(headers, order), HeaderText(headers, order[1..]));
    }
  }

  /** The whole text: start line, header lines in the order of the map, an empty line, the body. */
  lemma SerializedIs(m: Message, order: seq<string>)
    requires IsOrder(order, m.headers)
    ensures Serialized(m, order)
         == MessageText(MethodText(m.method_) + (" " + (m.url + (" " + VersionText(m.version)))),
                        HeaderLines(m.headers, order), m.body)
  {
    var l, h := StartLine(m), HeaderText(m.headers, order);
    HeadersAreLines(m.headers, order);
    FiveParts(MethodText(m.method_), " ", m.url, " ", VersionText(m.version));
    FiveParts(l, LINE_SEP, h, LINE_SEP, m.body);
  }

  lemma FiveParts(a: string, b: string, c: string, d: string, e: string)
    ensures a + b + c + d + e == a + (b + (c + (d + e)))
  {
  }

  lemma LinesArePlain(headers: map<string, string>, order: seq<string>)
    requires PlainHeaders(headers) && forall k | k in order :: k in headers
    ensures LinesOk(HeaderLines(headers, order))
  {
    var lines := HeaderLines(headers, order);
    forall i | 0 <= i < |lines| ensures LineOk(lines[i]) && LineText(lines[i]) != "" {
      var k := order[i];
      assert PlainKey(k) && PlainValue(headers[k]);
    }
  }

  // ---------------------------------------------------------------- the start line

  ghost function Written(m: Message): string {
    MethodText(m.method_) + (" " + (m.url + (" " + VersionText(m.version))))
  }

  lemma PlainStartLine(m0: Message, m: Message)
    requires PlainUrl(m.url)
    ensures WithStartLine(m0, Written(m))
         == m0.(method_ := m.method_, url := m.url, version := ParseVersion(VersionText(m.version)))
  {
    MethodTable(m.method_);
    VersionTable(m.version);
    var v := VersionText(m.version);
    StartLineReads(m0, "", MethodText(m.method_), " ", m.url, " ", v, "");
    assert v + "" == v && "" + Written(m) == Written(m);
  }

  lemma TwoBlanks(version: string)
    ensures " " + ("" + (" " + version)) == "  " + (version + "")
  {
    assert version + "" == version;
  }

  lemma NothingBefore(s: string)
    ensures "" + s == s
  {
  }

  lemma TwoWords(m0: Message, method_: string, version: string)
    requires NoWhite(method_) && method_ != "" && NoWhite(version) && version != ""
    ensures WithStartLine(m0, method_ + (" " + ("" + (" " + version)))).url == version
  {
    ShortStartLineReads(m0, "", method_, "  ", version, "");
    TwoBlanks(version);
    NothingBefore(method_ + ("  " + (version + "")));
  }

  lemma EmptyUrlStartLine(m0: Message, m: Message)
    requires m.url == ""
    ensures WithStartLine(m0, Written(m)).url != ""
  {
    MethodTable(m.method_);
    VersionTable(m.version);
    TwoWords(m0, MethodText(m.method_), VersionText(m.version));
  }

  lemma StartLineHasNoLf(m: Message)
    requires NoWhite(m.url)
    ensures '\n' !in Written(m)
  {
    MethodTable(m.method_);
    VersionTable(m.version);
    assert NoWhite(MethodText(m.method_)) && NoWhite(VersionText(m.version));
    assert White('\n');
  }

  // ---------------------------------------------------------------- the headers

  ghost function PutAll(acc: map<string, string>, headers: map<string, string>, order: seq<string>): map<string, string>
    requires forall k | k in order :: k in headers
    decreases |order|
  {
    if order == [] then acc else PutAll(acc[order[0] := headers[order[0]]], headers, order[1..])
  }

  lemma {:induction false} PutAllIs(acc: map<string, string>, headers: map<string, string>, order: seq<string>)
    requires forall k | k in order :: k in headers
    ensures forall k :: k in PutAll(acc, headers, order) <==> k in acc || k in order
    ensures forall k | k in PutAll(acc, headers, order) ::
              PutAll(acc, headers, order)[k] == if k in order then headers[k] else acc[k]
    decreases |order|
  {
    if order != [] {
      PutAllIs(acc[order[0] := headers[order[0]]], headers, order[1..]);
    }
  }

  ghost function Chopped(headers: map<string, string>, last: string): map<string, string>
    requires last in headers
  {
    headers[last := WithoutCr(headers[last])]
  }

  lemma {:induction false} FoldIs(acc: map<string, string>, headers: map<string, string>, front: seq<string>, last: string)
    requires (forall k | k in front :: k in headers) && last in headers
    ensures PutBlock(acc, AllCr(HeaderLines(headers, front)), Field(last, " ", headers[last]))
         == PutAll(acc, headers, front)[last := WithoutCr(headers[last])]
    decreases |front|
  {
    if front != [] {
      var lines := AllCr(HeaderLines(headers, front));
      assert lines[1..] == AllCr(HeaderLines(headers, front[1..]));
      FoldIs(acc[front[0] := headers[front[0]]], headers, front[1..], last);
    }
  }

  lemma FrontAndLast(headers: map<string, string>, order: seq<string>)
    requires IsOrder(order, headers) && order != []
    ensures var front, last := order[..|order| - 1], order[|order| - 1];
            && last in headers && (forall k | k in front :: k in headers)
            && PutAll(map[], headers, front)[last := WithoutCr(headers[last])] == Chopped(headers, last)
  {
    var front, last := order[..|order| - 1], order[|order| - 1];
    assert last in order;
    assert forall k | k in front :: k in order;
    assert forall k | k in order :: k in front || k == last;
    PutAllIs(map[], headers, front);
  }

  lemma HeadersRead(headers: map<string, string>, order: seq<string>, body: string)
    requires IsOrder(order, headers) && order != [] && PlainHeaders(headers)
    ensures AddLines(map[], SectionTaken(HeaderLines(headers, order), body)) == Chopped(headers, order[|order| - 1])
  {
    var lines, n := HeaderLines(headers, order), |order|;
    FrontAndLast(headers, order);
    LinesArePlain(headers, order);
    FieldsRead(lines, body);
    assert lines[..n - 1] == HeaderLines(headers, order[..n - 1]);
    FoldIs(map[], headers, order[..n - 1], order[n - 1]);
  }

  /** Every line with a colon becomes a header. */
  lemma {:induction false} ColonsMakeHeaders(acc: map<string, string>, block: string)
    ensures ':' !in block ==> AddLines(acc, block) == acc
    ensures ':' in block || acc != map[] ==> AddLines(acc, block) != map[]
    decreases |block|
  {
    if block != "" {
      match Find(block, "\n")
      case None => ColonMakesHeader(acc, block);
      case Some(n) =>
        assert block == block[..n] + [block[n]] + block[n + 1..];
        assert block[n..n + 1][0] == '\n';
        ColonMakesHeader(acc, block[..n]);
        ColonsMakeHeaders(AddLine(acc, block[..n]), block[n + 1..]);
    }
  }

  lemma ColonMakesHeader(acc: map<string, string>, raw: string)
    ensures ':' !in raw ==> AddLine(acc, raw) == acc
    ensures ':' in raw || acc != map[] ==> AddLine(acc, raw) != map[]
  {
    var line := WithoutCr(raw);
    assert ':' in line <==> ':' in raw by {
      if ':' in raw {
        var i :| 0 <= i < |raw| && raw[i] == ':';
        assert line[i] == ':';
      }
    }
    if ':' !in line {
      FindNoChar(line, ':');
    } else {
      var i :| 0 <= i < |line| && line[i] == ':';
      assert line[i..i + 1] == ":";
      assert Occurs(line, ":", i);
      var colon := Find(line, ":").value;
      assert line[..colon] in AddLine(acc, raw);
    }
  }

  // ---------------------------------------------------------------- what parsing can yield

  lemma PutPlain(acc: map<string, string>, l: Line)
    requires PlainHeaders(acc) && LineOk(l)
    ensures PlainHeaders(PutLine(acc, l))
  {
    if l.Field? {
      assert '\n' !in l.key && '\n' !in l.value by {
        assert forall c | c in l.key || c in l.value :: c in LineText(l);
      }
    }
  }

  lemma {:induction false} BlockIsPlain(acc: map<string, string>, lines: seq<Ended>, last: Line)
    requires PlainHeaders(acc) && BlockOk(lines, last)
    ensures PlainHeaders(PutBlock(acc, lines, last))
    decreases |lines|
  {
    if lines == [] {
      ChopIs(last);
      PutPlain(acc, Chop(last));
    } else {
      var l := lines[0].line;
      ChopIs(l);
      PutPlain(acc, if lines[0].cr then l else Chop(l));
      BlockIsPlain(PutLine(acc, if lines[0].cr then l else Chop(l)), lines[1..], last);
    }
  }

  lemma WordHasNoWhite(s: string)
    ensures NoWhite(Word(s).0)
  {
    var w := Word(s).0;
    forall i | 0 <= i < |w| ensures !White(w[i]) {
      SpaceIsWhite(w[i]);
    }
  }

  /** Whatever is parsed, the URL has no white space and the headers are plain. */
  lemma ParsedIsPlain(m0: Message, data: string)
    ensures Parsed(m0, data).0 ==> NoWhite(Parsed(m0, data).1.url) && PlainHeaders(Parsed(m0, data).1.headers)
  {
    match Find(data, LINE_SEP)
    case None =>
    case Some(pos) =>
      WordHasNoWhite(Word(data[..pos]).1);
      match Find(data, HEADER_SEP)
      case None =>
      case Some(end) =>
        assert Occurs(data, LINE_SEP, pos) && Occurs(data, HEADER_SEP, end);
        var lines, last := EveryBlockReads(HeaderBlock(data, pos + 2, end));
        BlockReads(map[], lines, last);
        BlockIsPlain(map[], lines, last);
  }

  // ---------------------------------------------------------------- round trip

  /** What comes back as headers when those that went in are plain. */
  ghost function HeadersBack(m: Message, order: seq<string>): map<string, string>
    requires IsOrder(order, m.headers)
  {
    if order == [] then AddLines(map[], LINE_SEP + m.body) else Chopped(m.headers, order[|order| - 1])
  }

  /** The exact result of parsing a serialised message, when the URL has no white space and
      the headers are plain. */
  lemma ParsedBack(m0: Message, m: Message, order: seq<string>)
    requires IsOrder(order, m.headers) && NoWhite(m.url) && PlainHeaders(m.headers)
    ensures Parsed(m0, Serialized(m, order))
         == (true, WithStartLine(m0, Written(m)).(headers := HeadersBack(m, order), body := m.body))
  {
    var lines := HeaderLines(m.headers, order);
    SerializedIs(m, order);
    StartLineHasNoLf(m);
    LinesArePlain(m.headers, order);
    MessageReads(m0, Written(m), lines, m.body);
    if order != [] {
      HeadersRead(m.headers, order, m.body);
    }
  }

  lemma ChoppedIsSame(headers: map<string, string>, last: string)
    requires last in headers
    ensures Chopped(headers, last) == headers <==> !EndsInCr(headers[last])
  {
    assert Chopped(headers, last)[last] == WithoutCr(headers[last]);
  }

  lemma HeadersComeBack(m: Message, order: seq<string>)
    requires IsOrder(order, m.headers)
    ensures HeadersBack(m, order) == m.headers <==>
            if order == [] then ':' !in m.body else !EndsInCr(m.headers[order[|order| - 1]])
  {
    if order == [] {
      assert m.headers == map[] by {
        assert forall k :: k !in m.headers;
      }
      ColonsMakeHeaders(map[], LINE_SEP + m.body);
    } else {
      ChoppedIsSame(m.headers, order[|order| - 1]);
    }
  }

  /** Parsing gives the message back, into any message object, exactly if it survives. */
  lemma RoundTripIff(m0: Message, m: Message, order: seq<string>)
    requires IsOrder(order, m.headers)
    ensures Parsed(m0, Serialized(m, order)) == (true, m) <==> Survives(m, order)
  {
    if !NoWhite(m.url) || !PlainHeaders(m.headers) {
      ParsedIsPlain(m0, Serialized(m, order));
    } else {
      ParsedBack(m0, m, order);
      HeadersComeBack(m, order);
      VersionTable(m.version);
      if m.url == "" {
        EmptyUrlStartLine(m0, m);
      } else {
        PlainStartLine(m0, m);
      }
    }
  }

  // ---------------------------------------------------------------- every order

  lemma {:induction false} OrderOf(keys: set<string>) returns (order: seq<string>)
    ensures forall i, j | 0 <= i < j < |order| :: order[i] != order[j]
    ensures forall k :: k in order <==> k in keys
  {
    if keys == {} {
      order := [];
    } else {
      var k :| k in keys;
      var rest := OrderOf(keys - {k});
      order := rest + [k];
    }
  }

  lemma OrderEndingIn(headers: map<string, string>, last: string) returns (order: seq<string>)
    requires last in headers
    ensures IsOrder(order, headers) && order != [] && order[|order| - 1] == last
  {
    var rest := OrderOf(headers.Keys - {last});
    order := rest + [last];
  }

  /** The messages that survive in every order. */
  ghost predicate SurvivesAlways(m: Message) {
    && m.version != UnknownVersion
    && PlainUrl(m.url)
    && PlainHeaders(m.headers)
    && (forall k | k in m.headers :: !EndsInCr(m.headers[k]))
    && (m.headers == map[] ==> ':' !in m.body)
  }

  lemma AlwaysMeansEachOrder(m: Message, order: seq<string>)
    requires IsOrder(order, m.headers) && SurvivesAlways(m)
    ensures Survives(m, order)
  {
    if order == [] {
      assert m.headers == map[] by {
        assert forall k :: k !in m.headers;
      }
    } else {
      assert order[|order| - 1] in m.headers;
    }
  }

  lemma EachOrderMeansAlways(m: Message)
    requires forall order | IsOrder(order, m.headers) :: Survives(m, order)
    ensures SurvivesAlways(m)
  {
    var some := OrderOf(m.headers.Keys);
    assert Survives(m, some);
    assert m.headers == map[] ==> some == [];
    forall k | k in m.headers ensures !EndsInCr(m.headers[k]) {
      var order := OrderEndingIn(m.headers, k);
      assert Survives(m, order);
    }
  }

  /** A message comes back whatever order the hash map uses, exactly under conditions that do
      not mention the order. */
  lemma EveryOrderIff(m0: Message, m: Message)
    ensures (forall order | IsOrder(order, m.headers) :: Parsed(m0, Serialized(m, order)) == (true, m))
       <==> SurvivesAlways(m)
  {
    if SurvivesAlways(m) {
      forall order | IsOrder(order, m.headers) ensures Parsed(m0, Serialized(m, order)) == (true, m) {
        AlwaysMeansEachOrder(m, order);
        RoundTripIff(m0, m, order);
      }
    }
    if forall order | IsOrder(order, m.headers) :: Parsed(m0, Serialized(m, order)) == (true, m) {
      forall order | IsOrder(order, m.headers) ensures Survives(m, order) {
        RoundTripIff(m0, m, order);
      }
      EachOrderMeansAlways(m);
    }
  }
}
