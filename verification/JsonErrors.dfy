/** Exactly which error the parser reports: a wreck describes how far a text can be read as a
    document and what is wrong at that place.  Nothing is said about the text after it. */
module JsonErrors {
  import opened JsonParsing
  import opened JsonLayouts
  import opened JsonLanguage

  // ---------------------------------------------------------------- where and what

  /** A text that starts where a value should. */
  datatype Wreck =
    | Missing
    | Stray(text: string)
    | NoBoolean(text: string)
    | NoNull(text: string)
    | NoNumber(num: Num, k: string)
    | CutEscape(raw: string)
    | InArray(items: ItemsWreck)
    | InObject(entries: EntriesWreck)

  /** A value that can be read, and what follows it; a string without its closing quote runs
      to the end of the text. */
  datatype Read = Read(doc: Doc, closed: bool, k: string)

  datatype ItemsWreck =
    | BadItem(before: string, wreck: Wreck)
    | ItemEnd(before: string, read: Read, after: string, end: string)
    | ItemThen(before: string, read: Read, after: string, tail: ItemsWreck)

  datatype KeyWreck =
    | NoKey(before: string, end: string)
    | CutKey(before: string, raw: string)
    | NoColon(before: string, raw: string, closed: bool, after: string, end: string)

  /** A key that can be read, up to its colon. */
  datatype Key = Key(before: string, raw: string, after: string)

  datatype EntriesWreck =
    | BadKey(key: KeyWreck)
    | BadValue(head: Key, before: string, wreck: Wreck)
    | EntryEnd(head: Key, before: string, read: Read, after: string, end: string)
    | EntryThen(head: Key, before: string, read: Read, after: string, tail: EntriesWreck)

  // ---------------------------------------------------------------- text

  function ReadText(r: Read): string {
    if r.closed then Put(r.doc, r.k) else if r.doc.DocString? then "\"" + r.doc.raw else ""
  }

  /** After the opening quote. */
  function RawText(raw: string, closed: bool, rest: string): string {
    if closed then raw + ("\"" + rest) else raw
  }

  function KeyText(key: Key, k: string): string {
    key.before + ("\"" + (key.raw + ("\"" + (key.after + (":" + k)))))
  }

  function KeyWreckText(w: KeyWreck): string {
    match w
    case NoKey(before, end) => before + end
    case CutKey(before, raw) => before + ("\"" + (raw + "\\"))
    case NoColon(before, raw, closed, after, end) => before + ("\"" + RawText(raw, closed, after + end))
  }

  function WreckText(w: Wreck): string {
    match w
    case Missing => ""
    case Stray(text) => text
    case NoBoolean(text) => text
    case NoNull(text) => text
    case NoNumber(num, k) => NumText(num) + k
    case CutEscape(raw) => "\"" + (raw + "\\")
    case InArray(items) => "[" + ItemsText(items)
    case InObject(entries) => "{" + EntriesText(entries)
  }

  function ItemsText(w: ItemsWreck): string {
    match w
    case BadItem(before, wreck) => before + WreckText(wreck)
    case ItemEnd(before, read, _, _) => before + ReadText(read)
    case ItemThen(before, read, _, _) => before + ReadText(read)
  }

  function EntriesText(w: EntriesWreck): string {
    match w
    case BadKey(key) => KeyWreckText(key)
    case BadValue(head, before, wreck) => KeyText(head, before + WreckText(wreck))
    case EntryEnd(head, before, read, _, _) => KeyText(head, before + ReadText(read))
    case EntryThen(head, before, read, _, _) => KeyText(head, before + ReadText(read))
  }

  // ---------------------------------------------------------------- what counts as a wreck

  predicate ReadOk(reader: Reader, r: Read) {
    && WellFormed(reader, r.doc)
    && (r.closed ==> r.doc.DocNumber? ==> Stops(r.doc.num, r.k))
    && (!r.closed ==> r.doc.DocString? && r.k == "")
  }

  /** The text ends or goes on with something that is neither white space nor one of `not`. */
  predicate Unexpected(end: string, not: set<char>) {
    end != "" ==> !White(end[0]) && end[0] !in not
  }

  predicate KeyOk(key: Key) {
    AllSpace(key.before) && Closed(key.raw) && AllSpace(key.after)
  }

  predicate KeyWreckOk(w: KeyWreck) {
    && AllSpace(w.before)
    && match w
       case NoKey(_, end) => Unexpected(end, {'"'})
       case CutKey(_, raw) => Closed(raw)
       case NoColon(_, raw, closed, after, end) =>
         Closed(raw) && AllSpace(after) && Unexpected(end, {':'}) && (!closed ==> after == "" && end == "")
  }

  predicate StartsValue(c: char) {
    c == '{' || c == '[' || c == '"' || c == 't' || c == 'f' || c == 'n' || c == '-' || Decimal(c)
  }

  predicate WreckOk(reader: Reader, w: Wreck) {
    match w
    case Missing => true
    case Stray(text) => text != "" && !White(text[0]) && !StartsValue(text[0])
    case NoBoolean(text) =>
      text != "" && (text[0] == 't' || text[0] == 'f') && !("true" <= text) && !("false" <= text)
    case NoNull(text) => text != "" && text[0] == 'n' && !("null" <= text)
    case NoNumber(num, k) => NumOk(num) && Stops(num, k) && reader(NumText(num)).None?
    case CutEscape(raw) => Closed(raw)
    case InArray(items) =>
      && ItemsOk(reader, items)
      && (items.BadItem? && items.wreck.Stray? && items.wreck.text != "" ==> items.wreck.text[0] != ']')
    case InObject(entries) =>
      && EntriesOk(reader, entries)
      && (entries.BadKey? && entries.key.NoKey? && entries.key.end != "" ==> entries.key.end[0] != '}')
  }

  predicate ItemsOk(reader: Reader, w: ItemsWreck) {
    && AllSpace(w.before)
    && match w
       case BadItem(_, wreck) => WreckOk(reader, wreck)
       case ItemEnd(_, read, after, end) =>
         ReadOk(reader, read) && AllSpace(after) && read.k == after + end && Unexpected(end, {',', ']'})
       case ItemThen(_, read, after, tail) =>
         && ReadOk(reader, read) && AllSpace(after) && read.k == after + ("," + ItemsText(tail))
         && ItemsOk(reader, tail)
  }

  predicate EntriesOk(reader: Reader, w: EntriesWreck) {
    match w
    case BadKey(key) => KeyWreckOk(key)
    case BadValue(head, before, wreck) => KeyOk(head) && AllSpace(before) && WreckOk(reader, wreck)
    case EntryEnd(head, before, read, after, end) =>
      && KeyOk(head) && AllSpace(before)
      && ReadOk(reader, read) && AllSpace(after) && read.k == after + end && Unexpected(end, {',', '}'})
    case EntryThen(head, before, read, after, tail) =>
      && KeyOk(head) && AllSpace(before)
      && ReadOk(reader, read) && AllSpace(after) && read.k == after + ("," + EntriesText(tail))
      && EntriesOk(reader, tail)
  }

  // ---------------------------------------------------------------- the error

  function KeyFault(w: KeyWreck): Error {
    match w
    case NoKey(_, _) => ExpectedKey
    case CutKey(_, _) => BadEscape
    case NoColon(_, _, _, _, _) => ExpectedColon
  }

  function Fault(w: Wreck): Error {
    match w
    case Missing => UnexpectedEnd
    case Stray(_) => InvalidValue
    case NoBoolean(_) => InvalidBoolean
    case NoNull(_) => InvalidNull
    case NoNumber(_, _) => InvalidNumber
    case CutEscape(_) => BadEscape
    case InArray(items) => ItemsFault(items)
    case InObject(entries) => EntriesFault(entries)
  }

  function ItemsFault(w: ItemsWreck): Error {
    match w
    case BadItem(_, wreck) => Fault(wreck)
    case ItemEnd(_, _, _, end) => if end == "" then EndInArray else ExpectedCommaOrBracket
    case ItemThen(_, _, _, tail) => ItemsFault(tail)
  }

  function EntriesFault(w: EntriesWreck): Error {
    match w
    case BadKey(key) => KeyFault(key)
    case BadValue(_, _, wreck) => Fault(wreck)
    case EntryEnd(_, _, _, _, end) => if end == "" then EndInObject else ExpectedCommaOrBrace
    case EntryThen(_, _, _, _, tail) => EntriesFault(tail)
  }

  // ---------------------------------------------------------------- wrecks are refused

  /** Behind any white space the text goes on unchanged. */
  lemma SkipTo(ws: string, s: string)
    requires AllSpace(ws) && (s != [] ==> !White(s[0]))
    ensures SkipSpaces(ws + s) == s
  {
    SkipLayout(ws, s);
    SkipNothing(s);
  }

  lemma {:induction false} CutFails(raw: string)
    requires Closed(raw)
    ensures ParseChars(raw + "\\") == Err(BadEscape)
  {
    if raw == [] {
      assert raw + "\\" == "\\";
    } else if raw[0] == '\\' {
      var front, tail := ['\\', raw[1]], raw[2..];
      CutFails(tail);
      assert raw == front + tail;
      Assoc(front, tail, "\\");
      EscapeIsRead(raw[1], tail + "\\");
    } else {
      var front, tail := [raw[0]], raw[1..];
      CutFails(tail);
      assert raw == front + tail;
      Assoc(front, tail, "\\");
      PlainIsRead(raw[0], tail + "\\");
    }
  }

  lemma RawReads(raw: string, closed: bool, rest: string)
    requires Closed(raw) && (!closed ==> rest == "")
    ensures ParseChars(RawText(raw, closed, rest)) == Ok(Decode(raw), rest)
  {
    if closed {
      CharsLayout(raw, rest);
    } else {
      CharsToEnd(raw);
    }
  }

  lemma {:induction false} QuotedFirst(reader: Reader, s: string)
    ensures ParseValue(reader, "\"" + s)
         == (if ParseChars(s).Ok? then Ok(String(ParseChars(s).value), ParseChars(s).rest) else Err(ParseChars(s).error))
  {
    SkipNothing("\"" + s);
    assert ("\"" + s)[1..] == s;
  }

  lemma ReadFirst(reader: Reader, r: Read)
    requires ReadOk(reader, r)
    ensures ReadText(r) != [] && !White(ReadText(r)[0]) && ReadText(r)[0] != ']'
  {
    if r.closed {
      TokenFirst(r.doc, r.k);
      NotClosing(r.doc, r.k);
    }
  }

  lemma ReadReads(reader: Reader, r: Read)
    requires ReadOk(reader, r)
    ensures ParseValue(reader, ReadText(r)) == Ok(Value(reader, r.doc, Decode), r.k)
  {
    if r.closed {
      ValueLayout(reader, r.doc, r.k);
    } else {
      CharsToEnd(r.doc.raw);
      QuotedFirst(reader, r.doc.raw);
    }
  }

  lemma WreckFirst(reader: Reader, w: Wreck)
    requires WreckOk(reader, w)
    ensures WreckText(w) != [] ==> !White(WreckText(w)[0])
    ensures WreckText(w) != [] && WreckText(w)[0] == ']' ==> w.Stray?
  {
    if w.NoNumber? {
      NumberLayout(w.num, w.k);
    }
  }

  lemma KeyFails(w: KeyWreck)
    requires KeyWreckOk(w)
    ensures ParseKey(KeyWreckText(w)) == Err(KeyFault(w))
  {
    match w
    case NoKey(before, end) => SkipTo(before, end);
    case CutKey(before, raw) =>
      var s := "\"" + (raw + "\\");
      SkipTo(before, s);
      assert s[1..] == raw + "\\";
      CutFails(raw);
    case NoColon(before, raw, closed, after, end) =>
      var s := "\"" + RawText(raw, closed, after + end);
      SkipTo(before, s);
      assert s[1..] == RawText(raw, closed, after + end);
      RawReads(raw, closed, after + end);
      SkipTo(after, end);
  }

  lemma {:induction false} TokenFails(reader: Reader, w: Wreck)
    requires WreckOk(reader, w) && !w.InArray? && !w.InObject?
    ensures ParseValue(reader, WreckText(w)) == Err(Fault(w))
  {
    var s := WreckText(w);
    WreckFirst(reader, w);
    SkipNothing(s);
    match w
    case NoNumber(num, k) =>
      NumberLayout(num, k);
      ScannedNumber(reader, s);
    case CutEscape(raw) =>
      CutFails(raw);
      QuotedFirst(reader, raw + "\\");
    case _ =>
  }

  lemma {:induction false} OpensArray(reader: Reader, s: string)
    requires SkipSpaces(s) != [] ==> SkipSpaces(s)[0] != ']'
    ensures ParseElements(reader, s).Err? ==> ParseValue(reader, "[" + s) == Err(ParseElements(reader, s).error)
  {
    SkipNothing("[" + s);
    assert ("[" + s)[1..] == s;
    ElementsSkip(reader, s);
  }

  lemma {:induction false} OpensObject(reader: Reader, s: string)
    requires SkipSpaces(s) != [] ==> SkipSpaces(s)[0] != '}'
    ensures ParseMembers(reader, s).Err? ==> ParseValue(reader, "{" + s) == Err(ParseMembers(reader, s).error)
  {
    SkipNothing("{" + s);
    assert ("{" + s)[1..] == s;
    MembersSkip(reader, s);
  }

  lemma ItemsFirst(reader: Reader, w: ItemsWreck)
    requires WreckOk(reader, InArray(w))
    ensures var s := SkipSpaces(ItemsText(w)); s != [] ==> s[0] != ']'
  {
    if w.BadItem? {
      WreckFirst(reader, w.wreck);
      SkipTo(w.before, WreckText(w.wreck));
    } else {
      ReadFirst(reader, w.read);
      SkipTo(w.before, ReadText(w.read));
    }
  }

  lemma KeyFirst(key: Key, k: string)
    requires KeyOk(key)
    ensures SkipSpaces(KeyText(key, k)) != [] && SkipSpaces(KeyText(key, k))[0] == '"'
    ensures ParseKey(KeyText(key, k)) == Ok(Decode(key.raw), k)
  {
    KeyLayout(key.before, key.raw, key.after, k);
    SkipTo(key.before, "\"" + (key.raw + ("\"" + (key.after + (":" + k)))));
  }

  lemma EntriesFirst(reader: Reader, w: EntriesWreck)
    requires WreckOk(reader, InObject(w))
    ensures var s := SkipSpaces(EntriesText(w)); s != [] ==> s[0] != '}'
  {
    match w
    case BadKey(NoKey(before, end)) => SkipTo(before, end);
    case BadKey(CutKey(before, raw)) => SkipTo(before, "\"" + (raw + "\\"));
    case BadKey(NoColon(before, raw, closed, after, end)) => SkipTo(before, "\"" + RawText(raw, closed, after + end));
    case BadValue(head, before, wreck) => KeyFirst(head, before + WreckText(wreck));
    case EntryEnd(head, before, read, _, _) => KeyFirst(head, before + ReadText(read));
    case EntryThen(head, before, read, _, _) => KeyFirst(head, before + ReadText(read));
  }

  lemma {:induction false} WreckFails(reader: Reader, w: Wreck)
    requires WreckOk(reader, w)
    ensures ParseValue(reader, WreckText(w)) == Err(Fault(w))
    decreases w
  {
    match w
    case InArray(items) =>
      ItemsFirst(reader, items);
      ItemsFail(reader, items);
      OpensArray(reader, ItemsText(items));
    case InObject(entries) =>
      EntriesFirst(reader, entries);
      EntriesFail(reader, entries);
      OpensObject(reader, EntriesText(entries));
    case _ => TokenFails(reader, w);
  }

  /** What the element loop does, given the first value and what follows it. */
  lemma {:induction false} ElementsBy(reader: Reader, before: string, s: string, end: string)
    requires AllSpace(before) && (s != [] ==> !White(s[0]))
    ensures ParseValue(reader, s).Err? ==> ParseElements(reader, before + s) == Err(ParseValue(reader, s).error)
    ensures ParseValue(reader, s).Ok? && end == SkipSpaces(ParseValue(reader, s).rest) ==>
              && (end == [] ==> ParseElements(reader, before + s) == Err(EndInArray))
              && (end != [] && end[0] != ']' && end[0] != ',' ==>
                    ParseElements(reader, before + s) == Err(ExpectedCommaOrBracket))
              && (end != [] && end[0] == ',' && ParseElements(reader, end[1..]).Err? ==>
                    ParseElements(reader, before + s) == ParseElements(reader, end[1..]))
  {
    SkipTo(before, s);
  }

  lemma {:induction false} ItemsFail(reader: Reader, w: ItemsWreck)
    requires ItemsOk(reader, w)
    ensures ParseElements(reader, ItemsText(w)) == Err(ItemsFault(w))
    decreases w
  {
    match w
    case BadItem(before, wreck) =>
      WreckFirst(reader, wreck);
      WreckFails(reader, wreck);
      ElementsBy(reader, before, WreckText(wreck), "");
    case ItemEnd(before, read, after, end) =>
      ReadFirst(reader, read);
      ReadReads(reader, read);
      SkipTo(after, end);
      ElementsBy(reader, before, ReadText(read), end);
    case ItemThen(before, read, after, tail) =>
      ReadFirst(reader, read);
      ReadReads(reader, read);
      var end := "," + ItemsText(tail);
      SkipTo(after, end);
      assert end[1..] == ItemsText(tail);
      ItemsFail(reader, tail);
      ElementsBy(reader, before, ReadText(read), end);
  }

  /** What the member loop does, given the key, the value and what follows it. */
  lemma {:induction false} MembersBy(reader: Reader, text: string, before: string, s: string, end: string)
    requires AllSpace(before) && (s != [] ==> !White(s[0]))
    requires ParseKey(text).Ok? && ParseKey(text).rest == before + s
    ensures ParseValue(reader, s).Err? ==> ParseMembers(reader, text) == Err(ParseValue(reader, s).error)
    ensures ParseValue(reader, s).Ok? && end == SkipSpaces(ParseValue(reader, s).rest) ==>
              && (end == [] ==> ParseMembers(reader, text) == Err(EndInObject))
              && (end != [] && end[0] != '}' && end[0] != ',' ==>
                    ParseMembers(reader, text) == Err(ExpectedCommaOrBrace))
              && (end != [] && end[0] == ',' && ParseMembers(reader, end[1..]).Err? ==>
                    ParseMembers(reader, text) == ParseMembers(reader, end[1..]))
  {
    SkipTo(before, s);
  }

  lemma {:induction false} EntriesFail(reader: Reader, w: EntriesWreck)
    requires EntriesOk(reader, w)
    ensures ParseMembers(reader, EntriesText(w)) == Err(EntriesFault(w))
    decreases w
  {
    match w
    case BadKey(key) => KeyFails(key);
    case BadValue(head, before, wreck) =>
      KeyFirst(head, before + WreckText(wreck));
      WreckFirst(reader, wreck);
      WreckFails(reader, wreck);
      MembersBy(reader, EntriesText(w), before, WreckText(wreck), "");
    case EntryEnd(head, before, read, after, end) =>
      KeyFirst(head, before + ReadText(read));
      ReadFirst(reader, read);
      ReadReads(reader, read);
      SkipTo(after, end);
      MembersBy(reader, EntriesText(w), before, ReadText(read), end);
    case EntryThen(head, before, read, after, tail) =>
      KeyFirst(head, before + ReadText(read));
      ReadFirst(reader, read);
      ReadReads(reader, read);
      var end := "," + EntriesText(tail);
      SkipTo(after, end);
      assert end[1..] == EntriesText(tail);
      EntriesFail(reader, tail);
      MembersBy(reader, EntriesText(w), before, ReadText(read), end);
  }

  // ---------------------------------------------------------------- what is refused is a wreck

  lemma {:induction false} CharsCut(s: string) returns (raw: string)
    requires ParseChars(s).Err?
    ensures Closed(raw) && s == raw + "\\" && ParseChars(s).error == BadEscape
  {
    if s[0] == '\\' && |s| == 1 {
      raw := [];
    } else if s[0] == '\\' {
      var more := CharsCut(s[2..]);
      raw := ['\\', s[1]] + more;
      EscapedRaw(s[1], more);
      Assoc(['\\', s[1]], more, "\\");
    } else {
      var more := CharsCut(s[1..]);
      raw := [s[0]] + more;
      PlainRaw(s[0], more);
      Assoc([s[0]], more, "\\");
    }
  }

  lemma ColonMissing(before: string, t: string) returns (w: KeyWreck)
    requires AllSpace(before) && ParseChars(t).Ok?
    requires var end := SkipSpaces(ParseChars(t).rest); end == [] || end[0] != ':'
    ensures KeyWreckOk(w) && before + ("\"" + t) == KeyWreckText(w) && KeyFault(w) == ExpectedColon
  {
    var rest := ParseChars(t).rest;
    var raw, closed := CharsSound(t);
    var after := SkipSound(rest);
    assert t == RawText(raw, closed, rest);
    w := NoColon(before, raw, closed, after, SkipSpaces(rest));
  }

  lemma KeyBroken(text: string) returns (w: KeyWreck)
    requires ParseKey(text).Err?
    ensures KeyWreckOk(w) && text == KeyWreckText(w) && ParseKey(text).error == KeyFault(w)
  {
    var before := SkipSound(text);
    var s := SkipSpaces(text);
    if s == [] || s[0] != '"' {
      w := NoKey(before, s);
    } else {
      assert s == "\"" + s[1..];
      var k := ParseChars(s[1..]);
      if k.Err? {
        var raw := CharsCut(s[1..]);
        w := CutKey(before, raw);
      } else {
        w := ColonMissing(before, s[1..]);
      }
    }
  }

  lemma ReadSound(reader: Reader, s: string) returns (r: Read)
    requires (s != [] ==> !IsSpace(s[0])) && ParseValue(reader, s).Ok?
    ensures ReadOk(reader, r) && s == ReadText(r) && r.k == ParseValue(reader, s).rest
  {
    SkipNothing(s);
    var doc, closed := ValueSound(reader, s);
    r := Read(doc, closed, ParseValue(reader, s).rest);
  }

  lemma {:induction false} TokenBroken(reader: Reader, s: string) returns (w: Wreck)
    requires (s != [] ==> !IsSpace(s[0]) && s[0] != '[' && s[0] != '{') && ParseValue(reader, s).Err?
    ensures WreckOk(reader, w) && s == WreckText(w) && ParseValue(reader, s).error == Fault(w)
  {
    SkipNothing(s);
    if s == [] {
      w := Missing;
    } else if s[0] == '"' {
      assert s == "\"" + s[1..];
      var raw := CharsCut(s[1..]);
      w := CutEscape(raw);
    } else if s[0] == 't' || s[0] == 'f' {
      w := NoBoolean(s);
    } else if s[0] == 'n' {
      w := NoNull(s);
    } else if StartsNumber(s[0]) {
      ScanOk(s);
      ScanStops(s);
      w := NoNumber(ScanNumber(s).0, ScanNumber(s).1);
    } else {
      w := Stray(s);
    }
  }

  lemma {:induction false} ArrayOpened(reader: Reader, t: string)
    requires ParseValue(reader, "[" + t).Err?
    ensures ParseElements(reader, t) == Err(ParseValue(reader, "[" + t).error)
    ensures SkipSpaces(t) != [] ==> SkipSpaces(t)[0] != ']'
  {
    SkipNothing("[" + t);
    assert ("[" + t)[1..] == t;
    ElementsSkip(reader, t);
  }

  lemma {:induction false} ObjectOpened(reader: Reader, t: string)
    requires ParseValue(reader, "{" + t).Err?
    ensures ParseMembers(reader, t) == Err(ParseValue(reader, "{" + t).error)
    ensures SkipSpaces(t) != [] ==> SkipSpaces(t)[0] != '}'
  {
    SkipNothing("{" + t);
    assert ("{" + t)[1..] == t;
    MembersSkip(reader, t);
  }

  lemma {:induction false} ValueBroken(reader: Reader, s: string) returns (w: Wreck)
    requires (s != [] ==> !IsSpace(s[0])) && ParseValue(reader, s).Err?
    ensures WreckOk(reader, w) && s == WreckText(w) && ParseValue(reader, s).error == Fault(w)
    decreases |s|, 0
  {
    if s != [] && s[0] == '[' {
      var t := s[1..];
      assert s == "[" + t;
      ArrayOpened(reader, t);
      var items := ElementsBroken(reader, t);
      if items.BadItem? {
        WreckFirst(reader, items.wreck);
        SkipTo(items.before, WreckText(items.wreck));
      }
      w := InArray(items);
    } else if s != [] && s[0] == '{' {
      var t := s[1..];
      assert s == "{" + t;
      ObjectOpened(reader, t);
      var entries := MembersBroken(reader, t);
      if entries.BadKey? && entries.key.NoKey? {
        SkipTo(entries.key.before, entries.key.end);
      }
      w := InObject(entries);
    } else {
      w := TokenBroken(reader, s);
    }
  }

  lemma {:induction false} ElementsParts(reader: Reader, text: string)
    requires ParseElements(reader, text).Err?
    ensures var v := ParseValue(reader, SkipSpaces(text));
            && (v.Err? ==> v.error == ParseElements(reader, text).error)
            && (v.Ok? ==>
                  var end := SkipSpaces(v.rest);
                  && |end| < |text|
                  && (end == [] ==> ParseElements(reader, text) == Err(EndInArray))
                  && (end != [] && end[0] != ',' ==>
                        end[0] != ']' && ParseElements(reader, text) == Err(ExpectedCommaOrBracket))
                  && (end != [] && end[0] == ',' ==> ParseElements(reader, end[1..]) == ParseElements(reader, text)))
  {
  }

  lemma {:induction false} NextOk(
    reader: Reader, before: string, read: Read, after: string, end: string, tail: ItemsWreck)
    requires AllSpace(before) && ReadOk(reader, read) && AllSpace(after) && read.k == after + end
    requires end != [] && end[0] == ',' && ItemsOk(reader, tail) && end[1..] == ItemsText(tail)
    ensures ItemsOk(reader, ItemThen(before, read, after, tail))
  {
    assert end == "," + end[1..];
  }

  lemma {:induction false} ElementsBroken(reader: Reader, text: string) returns (w: ItemsWreck)
    requires ParseElements(reader, text).Err?
    ensures ItemsOk(reader, w) && text == ItemsText(w) && ParseElements(reader, text).error == ItemsFault(w)
    decreases |text|, 1
  {
    ElementsParts(reader, text);
    var before := SkipSound(text);
    var s := SkipSpaces(text);
    var v := ParseValue(reader, s);
    if v.Err? {
      var wreck := ValueBroken(reader, s);
      w := BadItem(before, wreck);
    } else {
      var read := ReadSound(reader, s);
      var after := SkipSound(v.rest);
      var end := SkipSpaces(v.rest);
      if end != [] && end[0] == ',' {
        var tail := ElementsBroken(reader, end[1..]);
        NextOk(reader, before, read, after, end, tail);
        w := ItemThen(before, read, after, tail);
      } else {
        w := ItemEnd(before, read, after, end);
      }
    }
  }

  lemma {:induction false} BrokenParts(reader: Reader, text: string)
    requires ParseMembers(reader, text).Err?
    ensures var k := ParseKey(text);
            && (k.Err? ==> k.error == ParseMembers(reader, text).error)
            && (k.Ok? ==>
                  var v := ParseValue(reader, SkipSpaces(k.rest));
                  && (v.Err? ==> v.error == ParseMembers(reader, text).error)
                  && (v.Ok? ==>
                        var end := SkipSpaces(v.rest);
                        && |end| < |text|
                        && (end == [] ==> ParseMembers(reader, text) == Err(EndInObject))
                        && (end != [] && end[0] != ',' ==>
                              end[0] != '}' && ParseMembers(reader, text) == Err(ExpectedCommaOrBrace))
                        && (end != [] && end[0] == ',' ==> ParseMembers(reader, end[1..]) == ParseMembers(reader, text))))
  {
  }

  lemma HeadSound(text: string) returns (head: Key)
    requires ParseKey(text).Ok?
    ensures KeyOk(head) && text == KeyText(head, ParseKey(text).rest)
  {
    var before, raw, after := KeySound(text);
    head := Key(before, raw, after);
  }

  lemma {:induction false} ThenOk(
    reader: Reader, head: Key, before: string, read: Read, after: string, end: string, tail: EntriesWreck)
    requires KeyOk(head) && AllSpace(before) && ReadOk(reader, read) && AllSpace(after) && read.k == after + end
    requires end != [] && end[0] == ',' && EntriesOk(reader, tail) && end[1..] == EntriesText(tail)
    ensures EntriesOk(reader, EntryThen(head, before, read, after, tail))
  {
    assert end == "," + end[1..];
  }

  lemma {:induction false} MembersBroken(reader: Reader, text: string) returns (w: EntriesWreck)
    requires ParseMembers(reader, text).Err?
    ensures EntriesOk(reader, w) && text == EntriesText(w) && ParseMembers(reader, text).error == EntriesFault(w)
    decreases |text|, 1
  {
    BrokenParts(reader, text);
    var k := ParseKey(text);
    if k.Err? {
      var key := KeyBroken(text);
      w := BadKey(key);
    } else {
      var head := HeadSound(text);
      var before := SkipSound(k.rest);
      var s := SkipSpaces(k.rest);
      var v := ParseValue(reader, s);
      if v.Err? {
        var wreck := ValueBroken(reader, s);
        w := BadValue(head, before, wreck);
      } else {
        var read := ReadSound(reader, s);
        var after := SkipSound(v.rest);
        var end := SkipSpaces(v.rest);
        assert text == KeyText(head, before + ReadText(read));
        if end != [] && end[0] == ',' {
          var tail := MembersBroken(reader, end[1..]);
          ThenOk(reader, head, before, read, after, end, tail);
          w := EntryThen(head, before, read, after, tail);
        } else {
          w := EntryEnd(head, before, read, after, end);
        }
      }
    }
  }

  // ---------------------------------------------------------------- which error

  ghost predicate Wrecked(reader: Reader, text: string, e: Error, before: string, w: Wreck) {
    AllSpace(before) && WreckOk(reader, w) && text == before + WreckText(w) && Fault(w) == e
  }

  ghost predicate GoesOn(reader: Reader, text: string, before: string, r: Read, after: string, end: string) {
    && AllSpace(before) && ReadOk(reader, r) && AllSpace(after) && r.k == after + end
    && end != "" && !White(end[0]) && text == before + ReadText(r)
  }

  lemma {:induction false} WreckedFails(reader: Reader, text: string, e: Error, before: string, w: Wreck)
    requires Wrecked(reader, text, e, before, w)
    ensures Parse(reader, text) == Err(e)
  {
    WreckFirst(reader, w);
    SkipTo(before, WreckText(w));
    WreckFails(reader, w);
  }

  lemma {:induction false} GoingOnFails(
    reader: Reader, text: string, before: string, r: Read, after: string, end: string)
    requires GoesOn(reader, text, before, r, after, end)
    ensures Parse(reader, text) == Err(ExtraCharacters)
  {
    ReadFirst(reader, r);
    SkipTo(before, ReadText(r));
    ReadReads(reader, r);
    SkipTo(after, end);
  }

  /** `parse` throws `e` exactly on the wrecks with that fault and, for extra characters, on a
      value followed by something that is not white space. */
  lemma {:induction false} FailsIff(reader: Reader, text: string, e: Error)
    ensures Parse(reader, text) == Err(e) <==>
              || (exists before, w :: Wrecked(reader, text, e, before, w))
              || (e == ExtraCharacters && exists before, r, after, end :: GoesOn(reader, text, before, r, after, end))
  {
    if Parse(reader, text) == Err(e) {
      var before := SkipSound(text);
      var s := SkipSpaces(text);
      var v := ParseValue(reader, s);
      if v.Err? {
        var w := ValueBroken(reader, s);
        assert Wrecked(reader, text, e, before, w);
      } else {
        var r := ReadSound(reader, s);
        var after := SkipSound(v.rest);
        assert GoesOn(reader, text, before, r, after, SkipSpaces(v.rest));
      }
    }
    if before, w :| Wrecked(reader, text, e, before, w) {
      WreckedFails(reader, text, e, before, w);
    }
    if before, r, after, end :| GoesOn(reader, text, before, r, after, end) {
      GoingOnFails(reader, text, before, r, after, end);
    }
  }
}
