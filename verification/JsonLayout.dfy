/** Every way to lay out a JSON value as text: a document tree records the value's tokens, how
    its strings and numbers are spelled, and the white space around each token.  The parser
    accepts a document's text inside any larger text and returns the document's value. */
module JsonLayouts {
  import opened Options
  import opened JsonParsing

  /** `raw` is the text between the quotes. */
  datatype Doc =
    | DocNull
    | DocBool(b: bool)
    | DocNumber(num: Num)
    | DocString(raw: string)
    | DocEmptyArray(inner: string)
    | DocArray(items: Items)
    | DocEmptyObject(inner: string)
    | DocObject(entries: Entries)

  datatype Items = LastItem(item: Item) | MoreItems(item: Item, tail: Items)
  datatype Item = Item(before: string, doc: Doc, after: string)
  datatype Entries = LastEntry(entry: Entry) | MoreEntries(entry: Entry, tail: Entries)
  datatype Entry = Entry(before: string, key: string, beforeColon: string, afterColon: string, doc: Doc, after: string)

  // ---------------------------------------------------------------- text

  /** The document's text, followed by `k`. */
  function Put(doc: Doc, k: string): string
    decreases doc
  {
    match doc
    case DocNull => "null" + k
    case DocBool(b) => (if b then "true" else "false") + k
    case DocNumber(num) => NumText(num) + k
    case DocString(raw) => "\"" + (raw + ("\"" + k))
    case DocEmptyArray(inner) => "[" + (inner + ("]" + k))
    case DocArray(items) => "[" + PutItems(items, k)
    case DocEmptyObject(inner) => "{" + (inner + ("}" + k))
    case DocObject(entries) => "{" + PutEntries(entries, k)
  }

  function PutItems(items: Items, k: string): string
    decreases items
  {
    items.item.before + Put(items.item.doc, items.item.after + PutItemsEnd(items, k))
  }

  function PutItemsEnd(items: Items, k: string): string
    decreases items, 0
  {
    match items
    case LastItem(_) => "]" + k
    case MoreItems(_, tail) => "," + PutItems(tail, k)
  }

  function PutEntries(entries: Entries, k: string): string
    decreases entries
  {
    entries.entry.before + ("\"" + (entries.entry.key + ("\"" + (entries.entry.beforeColon + (":" +
    (entries.entry.afterColon + Put(entries.entry.doc, entries.entry.after + PutEntriesEnd(entries, k))))))))
  }

  function PutEntriesEnd(entries: Entries, k: string): string
    decreases entries, 0
  {
    match entries
    case LastEntry(_) => "}" + k
    case MoreEntries(_, tail) => "," + PutEntries(tail, k)
  }

  function Text(doc: Doc): string {
    Put(doc, "")
  }

  // ---------------------------------------------------------------- well-formedness

  /** Blank, tab, line feed, vertical tab, form feed and carriage return, by their codes. */
  predicate White(c: char) {
    var n := c as int;
    n == 32 || n == 9 || n == 10 || n == 11 || n == 12 || n == 13
  }

  predicate AllSpace(s: string) {
    forall i | 0 <= i < |s| :: White(s[i])
  }

  predicate Decimal(c: char) {
    48 <= c as int <= 57
  }

  predicate AllDigits(s: string) {
    forall i | 0 <= i < |s| :: Decimal(s[i])
  }

  /** The parser's white space and digits are these. */
  lemma CharacterClasses(c: char)
    ensures IsSpace(c) <==> White(c)
    ensures IsDigit(c) <==> Decimal(c)
  {
  }

  predicate NumOk(n: Num) {
    && (n.minus || n.whole != [])
    && AllDigits(n.whole)
    && (n.frac.Some? ==> AllDigits(n.frac.value))
    && (n.exp.Some? ==>
          && (n.exp.value.mark == 'e' || n.exp.value.mark == 'E')
          && (n.exp.value.sign == "" || n.exp.value.sign == "+" || n.exp.value.sign == "-")
          && AllDigits(n.exp.value.digits))
  }

  /** No unescaped quote, and no escape cut off at the end. */
  predicate Closed(raw: string) {
    if raw == [] then true
    else if raw[0] == '"' then false
    else if raw[0] == '\\' then |raw| > 1 && Closed(raw[2..])
    else Closed(raw[1..])
  }

  /** Everything but the spelling of object keys. */
  predicate Lexical(read: Reader, doc: Doc)
    decreases doc
  {
    match doc
    case DocNull | DocBool(_) => true
    case DocNumber(num) => NumOk(num) && read(NumText(num)).Some?
    case DocString(raw) => Closed(raw)
    case DocEmptyArray(inner) => AllSpace(inner)
    case DocArray(items) => LexicalItems(read, items)
    case DocEmptyObject(inner) => AllSpace(inner)
    case DocObject(entries) => LexicalEntries(read, entries)
  }

  predicate LexicalItems(read: Reader, items: Items)
    decreases items
  {
    && AllSpace(items.item.before) && AllSpace(items.item.after)
    && Lexical(read, items.item.doc)
    && (items.MoreItems? ==> LexicalItems(read, items.tail))
  }

  predicate LexicalEntries(read: Reader, entries: Entries)
    decreases entries
  {
    && AllSpace(entries.entry.before) && AllSpace(entries.entry.beforeColon)
    && AllSpace(entries.entry.afterColon) && AllSpace(entries.entry.after)
    && Lexical(read, entries.entry.doc)
    && (entries.MoreEntries? ==> LexicalEntries(read, entries.tail))
  }

  /** Every object key satisfies `p`. */
  predicate Keys(doc: Doc, p: string -> bool)
    decreases doc
  {
    match doc
    case DocArray(items) => KeysItems(items, p)
    case DocObject(entries) => KeysEntries(entries, p)
    case _ => true
  }

  predicate KeysItems(items: Items, p: string -> bool)
    decreases items
  {
    Keys(items.item.doc, p) && (items.MoreItems? ==> KeysItems(items.tail, p))
  }

  predicate KeysEntries(entries: Entries, p: string -> bool)
    decreases entries
  {
    && p(entries.entry.key)
    && Keys(entries.entry.doc, p)
    && (entries.MoreEntries? ==> KeysEntries(entries.tail, p))
  }

  predicate WellFormed(read: Reader, doc: Doc) {
    Lexical(read, doc) && Keys(doc, Closed)
  }

  // ---------------------------------------------------------------- value

  /** What an escape stands for: backspace, form feed, line feed, carriage return and tab by
      their codes, any other character for itself. */
  function Meant(e: char): char {
    if e == 'b' then 8 as char
    else if e == 'f' then 12 as char
    else if e == 'n' then 10 as char
    else if e == 'r' then 13 as char
    else if e == 't' then 9 as char
    else e
  }

  function Decode(raw: string): string {
    if raw == [] then []
    else if raw[0] == '\\' && |raw| > 1 then [Meant(raw[1])] + Decode(raw[2..])
    else [raw[0]] + Decode(raw[1..])
  }

  /** The document's value, with object keys spelled out by `key`. */
  function Value(read: Reader, doc: Doc, key: string -> string): Json
    decreases doc
  {
    match doc
    case DocNull => Null
    case DocBool(b) => Bool(b)
    case DocNumber(num) =>
      (match read(NumText(num)) case Some(n) => Number(n) case None => Null)
    case DocString(raw) => String(Decode(raw))
    case DocEmptyArray(_) => Array([])
    case DocArray(items) => Array(Values(read, items, key))
    case DocEmptyObject(_) => Object([])
    case DocObject(entries) => Object(Members(read, entries, key))
  }

  function Values(read: Reader, items: Items, key: string -> string): seq<Json>
    decreases items
  {
    [Value(read, items.item.doc, key)] + if items.MoreItems? then Values(read, items.tail, key) else []
  }

  function Members(read: Reader, entries: Entries, key: string -> string): seq<Member>
    decreases entries
  {
    [Member(key(entries.entry.key), Value(read, entries.entry.doc, key))] +
    if entries.MoreEntries? then Members(read, entries.tail, key) else []
  }

  // ---------------------------------------------------------------- lexical lemmas

  lemma {:induction false} SkipLayout(ws: string, s: string)
    requires AllSpace(ws)
    ensures SkipSpaces(ws + s) == SkipSpaces(s)
  {
    if ws == [] {
      assert ws + s == s;
    } else {
      assert (ws + s)[1..] == ws[1..] + s;
      SkipLayout(ws[1..], s);
    }
  }

  lemma SkipNothing(s: string)
    requires s != [] ==> !IsSpace(s[0])
    ensures SkipSpaces(s) == s
  {
  }

  /** Inside a string, a backslash and any character are read as what the escape stands for. */
  lemma EscapeIsRead(e: char, tail: string)
    ensures ParseChars(['\\', e] + tail) == Prepend(Meant(e), ParseChars(tail))
  {
    assert (['\\', e] + tail)[2..] == tail;
  }

  lemma PlainIsRead(c: char, tail: string)
    requires c != '"' && c != '\\'
    ensures ParseChars([c] + tail) == Prepend(c, ParseChars(tail))
  {
    assert ([c] + tail)[1..] == tail;
  }

  lemma Assoc(a: string, b: string, c: string)
    ensures a + (b + c) == (a + b) + c
  {
  }

  lemma EscapedRaw(e: char, tail: string)
    requires Closed(tail)
    ensures Closed(['\\', e] + tail) && Decode(['\\', e] + tail) == [Meant(e)] + Decode(tail)
  {
    assert (['\\', e] + tail)[2..] == tail;
  }

  lemma PlainRaw(c: char, tail: string)
    requires Closed(tail) && c != '"' && c != '\\'
    ensures Closed([c] + tail) && Decode([c] + tail) == [c] + Decode(tail)
  {
    assert ([c] + tail)[1..] == tail;
  }

  lemma {:induction false} CharsLayout(raw: string, k: string)
    requires Closed(raw)
    ensures ParseChars(raw + ("\"" + k)) == Ok(Decode(raw), k)
  {
    var end := "\"" + k;
    if raw == [] {
      assert raw + end == end;
    } else if raw[0] == '\\' {
      var front, tail := ['\\', raw[1]], raw[2..];
      CharsLayout(tail, k);
      assert raw == front + tail;
      EscapedRaw(raw[1], tail);
      EscapeIsRead(raw[1], tail + end);
      Assoc(front, tail, end);
    } else {
      var front, tail := [raw[0]], raw[1..];
      CharsLayout(tail, k);
      assert raw == front + tail;
      PlainRaw(raw[0], tail);
      PlainIsRead(raw[0], tail + end);
      Assoc(front, tail, end);
    }
  }

  /** What may follow any number without being read as part of it. */
  predicate NumberEnds(k: string) {
    k != [] ==> !IsDigit(k[0]) && k[0] != '.' && k[0] != 'e' && k[0] != 'E' && k[0] != '+' && k[0] != '-'
  }

  /** What may follow an exponent: a sign only if one or a digit came before. */
  predicate ExponentStops(exp: Option<Exponent>, k: string) {
    k != [] ==>
      && !Decimal(k[0])
      && (exp.None? ==> k[0] != 'e' && k[0] != 'E')
      && (exp.Some? && exp.value.sign == "" && exp.value.digits == "" ==> k[0] != '+' && k[0] != '-')
  }

  /** What may follow exactly this number. */
  predicate Stops(n: Num, k: string) {
    ExponentStops(n.exp, k) && (k != [] && n.exp.None? && n.frac.None? ==> k[0] != '.')
  }

  lemma {:induction false} SpanLayout(d: string, k: string)
    requires AllDigits(d) && (k != [] ==> !IsDigit(k[0]))
    ensures SpanDigits(d + k) == (d, k)
  {
    if d == [] {
      assert d + k == k;
    } else {
      assert (d + k)[1..] == d[1..] + k;
      SpanLayout(d[1..], k);
      assert [d[0]] + d[1..] == d;
    }
  }

  lemma SignLayout(sign: string, t: string)
    requires sign == "" || sign == "+" || sign == "-"
    requires sign == "" && t != [] ==> t[0] != '+' && t[0] != '-'
    ensures ScanSign(sign + t) == (sign, t)
  {
    if sign == "" {
      assert sign + t == t;
    }
  }

  /** An exponent mark, an optional sign, and digits up to `k`. */
  lemma MarkLayout(e: Exponent, k: string)
    requires e.mark == 'e' || e.mark == 'E'
    requires e.sign == "" || e.sign == "+" || e.sign == "-"
    requires AllDigits(e.digits) && ExponentStops(Some(e), k)
    ensures ScanExponent([e.mark] + (e.sign + (e.digits + k))) == (Some(e), k)
  {
    var t := e.digits + k;
    assert ([e.mark] + (e.sign + t))[1..] == e.sign + t;
    SignLayout(e.sign, t);
    SpanLayout(e.digits, k);
  }

  lemma ExponentLayout(exp: Option<Exponent>, k: string)
    requires NumOk(Num(true, "", None, exp)) && ExponentStops(exp, k)
    ensures ScanExponent(ExpText(exp) + k) == (exp, k)
    ensures ExpText(exp) + k != [] ==> !IsDigit((ExpText(exp) + k)[0])
    ensures exp.Some? ==> (ExpText(exp) + k)[0] != '.'
  {
    if exp.Some? {
      var e := exp.value;
      MarkLayout(e, k);
      assert ExpText(exp) + k == [e.mark] + (e.sign + (e.digits + k));
    } else {
      assert ExpText(exp) + k == k;
    }
  }

  lemma FractionLayout(frac: Option<string>, k: string)
    requires frac.Some? ==> AllDigits(frac.value)
    requires k != [] ==> !IsDigit(k[0]) && (frac.None? ==> k[0] != '.')
    ensures ScanFraction(FracText(frac) + k) == (frac, k)
    ensures FracText(frac) + k != [] ==> !IsDigit((FracText(frac) + k)[0])
  {
    if frac.Some? {
      assert (FracText(frac) + k)[1..] == frac.value + k;
      SpanLayout(frac.value, k);
    } else {
      assert FracText(frac) + k == k;
    }
  }

  lemma NumberLayout(n: Num, k: string)
    requires NumOk(n) && Stops(n, k)
    ensures ScanNumber(NumText(n) + k) == (n, k)
    ensures NumText(n) + k != [] && StartsNumber((NumText(n) + k)[0])
  {
    var minus := if n.minus then "-" else "";
    var s2 := ExpText(n.exp) + k;
    var s1 := FracText(n.frac) + s2;
    Regroup(minus, n.whole, FracText(n.frac), ExpText(n.exp), k);
    ExponentLayout(n.exp, k);
    assert n.exp.None? ==> s2 == k;
    FractionLayout(n.frac, s2);
    SpanLayout(n.whole, s1);
    var s := minus + (n.whole + s1);
    if n.minus {
      assert s[1..] == n.whole + s1;
    } else {
      assert s == n.whole + s1;
    }
  }

  /** A document's text starts with a token, not with space. */
  lemma TokenFirst(doc: Doc, k: string)
    requires doc.DocNumber? ==> NumOk(doc.num)
    ensures Put(doc, k) != [] && !IsSpace(Put(doc, k)[0])
  {
  }

  // ---------------------------------------------------------------- the parser reads layouts

  lemma {:induction false} LiteralLayout(read: Reader, doc: Doc, k: string)
    requires doc.DocNull? || doc.DocBool?
    ensures ParseValue(read, Put(doc, k)) == Ok(Value(read, doc, Decode), k)
  {
    SkipNothing(Put(doc, k));
  }

  lemma {:induction false} ScannedNumber(read: Reader, s: string)
    requires s != [] && StartsNumber(s[0])
    ensures ParseValue(read, s) == ParseNumber(read, s)
  {
    SkipNothing(s);
  }

  lemma {:induction false} StringLayout(read: Reader, raw: string, k: string)
    requires Closed(raw)
    ensures ParseValue(read, "\"" + (raw + ("\"" + k))) == Ok(String(Decode(raw)), k)
  {
    var s := "\"" + (raw + ("\"" + k));
    SkipNothing(s);
    assert s[1..] == raw + ("\"" + k);
    CharsLayout(raw, k);
  }

  lemma {:induction false} ValueLayout(read: Reader, doc: Doc, k: string)
    requires WellFormed(read, doc) && (doc.DocNumber? ==> Stops(doc.num, k))
    ensures ParseValue(read, Put(doc, k)) == Ok(Value(read, doc, Decode), k)
    decreases doc
  {
    var s := Put(doc, k);
    TokenFirst(doc, k);
    SkipNothing(s);
    match doc
    case DocEmptyArray(inner) =>
      assert s[1..] == inner + ("]" + k);
      SkipLayout(inner, "]" + k);
    case DocArray(items) =>
      assert s[1..] == PutItems(items, k);
      ArrayLayout(read, items, k);
    case DocEmptyObject(inner) =>
      assert s[1..] == inner + ("}" + k);
      SkipLayout(inner, "}" + k);
    case DocObject(entries) =>
      assert s[1..] == PutEntries(entries, k);
      ObjectLayout(read, entries, k);
    case DocNumber(num) =>
      NumberLayout(num, k);
      ScannedNumber(read, s);
    case DocString(raw) => StringLayout(read, raw, k);
    case _ => LiteralLayout(read, doc, k);
  }

  lemma {:induction false} ArrayLayout(read: Reader, items: Items, k: string)
    requires LexicalItems(read, items) && KeysItems(items, Closed)
    ensures ParseArray(read, PutItems(items, k)) == Ok(Array(Values(read, items, Decode)), k)
    decreases items, 1
  {
    var item := items.item;
    var t := Put(item.doc, item.after + PutItemsEnd(items, k));
    SkipLayout(item.before, t);
    TokenFirst(item.doc, item.after + PutItemsEnd(items, k));
    NotClosing(item.doc, item.after + PutItemsEnd(items, k));
    ElementsLayout(read, items, k);
    ElementsSkip(read, PutItems(items, k));
  }

  lemma {:induction false} ElementsLayout(read: Reader, items: Items, k: string)
    requires LexicalItems(read, items) && KeysItems(items, Closed)
    ensures ParseElements(read, PutItems(items, k)) == Ok(Values(read, items, Decode), k)
    decreases items, 0
  {
    var item := items.item;
    var end := PutItemsEnd(items, k);
    var t := Put(item.doc, item.after + end);
    SkipLayout(item.before, t);
    TokenFirst(item.doc, item.after + end);
    SkipNothing(t);
    AfterNumber(item.after, end);
    ValueLayout(read, item.doc, item.after + end);
    SkipLayout(item.after, end);
    SkipNothing(end);
    if items.MoreItems? {
      assert end[1..] == PutItems(items.tail, k);
      ElementsLayout(read, items.tail, k);
    } else {
      assert end[1..] == k;
      assert Values(read, items, Decode) == [Value(read, item.doc, Decode)];
    }
  }

  /** Space, or a comma or bracket right away, ends a number. */
  lemma AfterNumber(ws: string, end: string)
    requires AllSpace(ws) && end != [] && (end[0] == ',' || end[0] == ']' || end[0] == '}')
    ensures NumberEnds(ws + end)
  {
  }

  lemma NotClosing(doc: Doc, k: string)
    requires doc.DocNumber? ==> NumOk(doc.num)
    ensures Put(doc, k) != [] && Put(doc, k)[0] != ']' && Put(doc, k)[0] != '}'
  {
    if doc.DocNumber? {
      assert NumText(doc.num) != [] && StartsNumber(NumText(doc.num)[0]);
    }
  }

  /** Leading spaces do not matter to the element and member loops. */
  lemma ElementsSkip(read: Reader, s: string)
    ensures ParseElements(read, SkipSpaces(s)) == ParseElements(read, s)
  {
    SkipNothing(SkipSpaces(s));
  }

  lemma MembersSkip(read: Reader, s: string)
    ensures ParseMembers(read, SkipSpaces(s)) == ParseMembers(read, s)
  {
    SkipNothing(SkipSpaces(s));
    assert ParseKey(SkipSpaces(s)) == ParseKey(s);
  }

  lemma {:induction false} ObjectLayout(read: Reader, entries: Entries, k: string)
    requires LexicalEntries(read, entries) && KeysEntries(entries, Closed)
    ensures ParseObject(read, PutEntries(entries, k)) == Ok(Object(Members(read, entries, Decode)), k)
    decreases entries, 1
  {
    var e := entries.entry;
    var s := PutEntries(entries, k);
    assert s[..|e.before|] == e.before && s[|e.before|] == '"';
    assert s == e.before + s[|e.before|..];
    SkipLayout(e.before, s[|e.before|..]);
    MembersLayout(read, entries, k);
    MembersSkip(read, s);
  }

  lemma KeyLayout(before: string, key: string, beforeColon: string, k: string)
    requires AllSpace(before) && Closed(key) && AllSpace(beforeColon)
    ensures ParseKey(before + ("\"" + (key + ("\"" + (beforeColon + (":" + k)))))) == Ok(Decode(key), k)
  {
    var afterKey := beforeColon + (":" + k);
    var quoted := "\"" + (key + ("\"" + afterKey));
    SkipLayout(before, quoted);
    SkipNothing(quoted);
    assert quoted[1..] == key + ("\"" + afterKey);
    CharsLayout(key, afterKey);
    SkipLayout(beforeColon, ":" + k);
    SkipNothing(":" + k);
  }

  lemma {:induction false} MembersLayout(read: Reader, entries: Entries, k: string)
    requires LexicalEntries(read, entries) && KeysEntries(entries, Closed)
    ensures ParseMembers(read, PutEntries(entries, k)) == Ok(Members(read, entries, Decode), k)
    decreases entries, 0
  {
    var e := entries.entry;
    var end := PutEntriesEnd(entries, k);
    var t := Put(e.doc, e.after + end);
    KeyLayout(e.before, e.key, e.beforeColon, e.afterColon + t);
    SkipLayout(e.afterColon, t);
    TokenFirst(e.doc, e.after + end);
    SkipNothing(t);
    AfterNumber(e.after, end);
    ValueLayout(read, e.doc, e.after + end);
    SkipLayout(e.after, end);
    SkipNothing(end);
    if entries.MoreEntries? {
      assert end[1..] == PutEntries(entries.tail, k);
      MembersLayout(read, entries.tail, k);
    } else {
      assert end[1..] == k;
      assert Members(read, entries, Decode) == [Member(Decode(e.key), Value(read, e.doc, Decode))];
    }
  }

  /** The layout theorem: a well-formed document with any space around it parses to its
      value, members in order and duplicate keys kept. */
  lemma ParseLayout(read: Reader, before: string, doc: Doc, after: string)
    requires WellFormed(read, doc) && AllSpace(before) && AllSpace(after)
    ensures Parse(read, before + Put(doc, after)) == Ok(Value(read, doc, Decode), [])
  {
    SkipLayout(before, Put(doc, after));
    TokenFirst(doc, after);
    SkipNothing(Put(doc, after));
    ValueLayout(read, doc, after);
    assert after + "" == after;
    SkipLayout(after, "");
  }
}
