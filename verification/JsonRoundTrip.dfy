/** Both printers round trip: for every value whose numbers survive printing, parsing the
    printed text gives the value back exactly when no object key contains a quote or a
    backslash. */
module JsonRoundTrip {
  import opened Options
  import opened JsonParsing
  import opened JsonLayouts
  import opened JsonLanguage
  import opened JsonPrinting
  import opened JsonPrintedText

  /** The number's text is one number token and `stod` reads the same number from it. */
  predicate Survives(show: Shower, read: Reader, n: real) {
    PrintsToken(show, n) && read(show(n)) == Some(n)
  }

  ghost function Surviving(show: Shower, read: Reader): real -> bool {
    (n: real) => Survives(show, read, n)
  }

  predicate CleanKey(key: string) {
    forall i | 0 <= i < |key| :: key[i] != '"' && key[i] != '\\'
  }

  predicate CleanKeys(v: Json)
    decreases v
  {
    match v
    case Array(elems) => forall i | 0 <= i < |elems| :: CleanKeys(elems[i])
    case Object(members) =>
      forall i | 0 <= i < |members| :: CleanKey(members[i].key) && CleanKeys(members[i].value)
    case _ => true
  }

  /** Keys read literally, as the printers mean them. */
  function AsIs(key: string): string {
    key
  }

  // ---------------------------------------------------------------- the chosen layout denotes v

  lemma EscapeCharDecodes(c: char, tail: string)
    requires Closed(tail)
    ensures Closed(EscapeChar(c) + tail) && Decode(EscapeChar(c) + tail) == [c] + Decode(tail)
  {
    match EscapeLetter(c)
    case Some(e) => EscapedRaw(e, tail);
    case None => PlainRaw(c, tail);
  }

  lemma {:induction false} EscapeDecodes(s: string)
    ensures Closed(Escape(s)) && Decode(Escape(s)) == s
  {
    if s != [] {
      EscapeDecodes(s[1..]);
      EscapeCharDecodes(s[0], Escape(s[1..]));
      assert s == [s[0]] + s[1..];
    }
  }

  lemma {:induction false} ChosenValue(show: Shower, read: Reader, v: Json, st: Style)
    requires Numbers(v, Surviving(show, read))
    ensures Lexical(read, DocOf(show, v, st)) && Value(read, DocOf(show, v, st), AsIs) == v
    decreases v
  {
    match v
    case Number(n) =>
      ScanOk(show(n));
      assert NumText(ScanNumber(show(n)).0) == NumText(ScanNumber(show(n)).0) + [];
    case String(s) => EscapeDecodes(s);
    case Array(elems) =>
      if elems != [] {
        ChosenValues(show, read, elems, st);
      }
    case Object(members) =>
      if members != [] {
        ChosenMembers(show, read, members, st);
      }
    case _ =>
  }

  lemma {:induction false} ChosenValues(show: Shower, read: Reader, elems: seq<Json>, st: Style)
    requires elems != [] && forall i | 0 <= i < |elems| :: Numbers(elems[i], Surviving(show, read))
    ensures LexicalItems(read, ItemsOf(show, elems, st)) && Values(read, ItemsOf(show, elems, st), AsIs) == elems
    decreases elems
  {
    ChosenValue(show, read, elems[0], Deeper(st));
    assert elems == [elems[0]] + elems[1..];
    if |elems| > 1 {
      ChosenValues(show, read, elems[1..], st);
    }
  }

  lemma {:induction false} ChosenMembers(show: Shower, read: Reader, members: seq<Member>, st: Style)
    requires members != [] && forall i | 0 <= i < |members| :: Numbers(members[i].value, Surviving(show, read))
    ensures LexicalEntries(read, EntriesOf(show, members, st))
    ensures Members(read, EntriesOf(show, members, st), AsIs) == members
    decreases members
  {
    ChosenValue(show, read, members[0].value, Deeper(st));
    assert members == [members[0]] + members[1..];
    if |members| > 1 {
      ChosenMembers(show, read, members[1..], st);
    }
  }

  lemma {:induction false} ChosenKeys(show: Shower, v: Json, st: Style)
    ensures Keys(DocOf(show, v, st), CleanKey) <==> CleanKeys(v)
    decreases v
  {
    match v
    case Array(elems) =>
      if elems != [] {
        ChosenItemKeys(show, elems, st);
      }
    case Object(members) =>
      if members != [] {
        ChosenEntryKeys(show, members, st);
      }
    case _ =>
  }

  lemma {:induction false} ChosenItemKeys(show: Shower, elems: seq<Json>, st: Style)
    requires elems != []
    ensures KeysItems(ItemsOf(show, elems, st), CleanKey) <==> forall i | 0 <= i < |elems| :: CleanKeys(elems[i])
    decreases elems
  {
    ChosenKeys(show, elems[0], Deeper(st));
    if |elems| > 1 {
      ChosenItemKeys(show, elems[1..], st);
      assert forall i | 1 <= i < |elems| :: elems[i] == elems[1..][i - 1];
    }
  }

  lemma {:induction false} ChosenEntryKeys(show: Shower, members: seq<Member>, st: Style)
    requires members != []
    ensures KeysEntries(EntriesOf(show, members, st), CleanKey) <==>
              forall i | 0 <= i < |members| :: CleanKey(members[i].key) && CleanKeys(members[i].value)
    decreases members
  {
    ChosenKeys(show, members[0].value, Deeper(st));
    if |members| > 1 {
      ChosenEntryKeys(show, members[1..], st);
      assert forall i | 1 <= i < |members| :: members[i] == members[1..][i - 1];
    }
  }

  lemma {:induction false} SurvivorsAreTokens(show: Shower, read: Reader, v: Json)
    requires Numbers(v, Surviving(show, read))
    ensures Numbers(v, TokenPrinted(show))
    decreases v
  {
    match v
    case Array(elems) =>
      forall i | 0 <= i < |elems| ensures Numbers(elems[i], TokenPrinted(show)) {
        SurvivorsAreTokens(show, read, elems[i]);
      }
    case Object(members) =>
      forall i | 0 <= i < |members| ensures Numbers(members[i].value, TokenPrinted(show)) {
        SurvivorsAreTokens(show, read, members[i].value);
      }
    case _ =>
  }

  // ---------------------------------------------------------------- clean keys are enough

  lemma {:induction false} CleanKeyDecodes(key: string)
    requires CleanKey(key)
    ensures Closed(key) && Decode(key) == key
  {
    if key != [] {
      CleanKeyDecodes(key[1..]);
      PlainRaw(key[0], key[1..]);
      assert key == [key[0]] + key[1..];
    }
  }

  lemma {:induction false} CleanIsWellFormed(read: Reader, doc: Doc)
    requires Keys(doc, CleanKey)
    ensures Keys(doc, Closed) && Value(read, doc, Decode) == Value(read, doc, AsIs)
    decreases doc
  {
    match doc
    case DocArray(items) => CleanItems(read, items);
    case DocObject(entries) => CleanEntries(read, entries);
    case _ =>
  }

  lemma {:induction false} CleanItems(read: Reader, items: Items)
    requires KeysItems(items, CleanKey)
    ensures KeysItems(items, Closed) && Values(read, items, Decode) == Values(read, items, AsIs)
    decreases items
  {
    CleanIsWellFormed(read, items.item.doc);
    if items.MoreItems? {
      CleanItems(read, items.tail);
    }
  }

  lemma {:induction false} CleanEntries(read: Reader, entries: Entries)
    requires KeysEntries(entries, CleanKey)
    ensures KeysEntries(entries, Closed) && Members(read, entries, Decode) == Members(read, entries, AsIs)
    decreases entries
  {
    CleanKeyDecodes(entries.entry.key);
    CleanIsWellFormed(read, entries.entry.doc);
    if entries.MoreEntries? {
      CleanEntries(read, entries.tail);
    }
  }

  // ---------------------------------------------------------------- clean keys are needed

  function Backslashes(n: nat): (r: string)
    ensures |r| == n && forall i | 0 <= i < n :: r[i] == '\\'
  {
    seq(n, _ => '\\')
  }

  /** A key that reads back as itself, possibly behind some backslashes, has no special
      character; in particular there are no backslashes in front. */
  lemma {:induction false} OnlyCleanReadsAsItself(key: string, k: string, n: nat)
    requires ParseChars(key + ("\"" + k)).Ok?
    requires ParseChars(key + ("\"" + k)).value == Backslashes(n) + key
    ensures n == 0 && CleanKey(key)
  {
    var s := key + ("\"" + k);
    var got := ParseChars(s).value;
    if key == [] {
      assert s == "\"" + k;
    } else if key[0] == '"' {
      assert false;
    } else if key[0] == '\\' {
      assert got[0] == Meant(s[1]) == '\\';
      assert |key| > 1 && s[2..] == key[2..] + ("\"" + k);
      assert got[1..] == Backslashes(n + 1) + key[2..];
      OnlyCleanReadsAsItself(key[2..], k, n + 1);
    } else {
      assert s[1..] == key[1..] + ("\"" + k);
      assert got[0] == key[0];
      assert n == 0;
      assert got[1..] == Backslashes(0) + key[1..];
      OnlyCleanReadsAsItself(key[1..], k, 0);
    }
  }

  /** A document that reads back with its keys taken literally has clean keys. */
  lemma {:induction false} ValueNeedsCleanKeys(read: Reader, doc: Doc, k: string)
    requires Lexical(read, doc) && (doc.DocNumber? ==> NumberEnds(k))
    requires ParseValue(read, Put(doc, k)).Ok? && ParseValue(read, Put(doc, k)).value == Value(read, doc, AsIs)
    ensures Keys(doc, CleanKey)
    decreases doc
  {
    TokenFirst(doc, k);
    SkipNothing(Put(doc, k));
    match doc
    case DocArray(items) =>
      assert Put(doc, k)[1..] == PutItems(items, k);
      ArrayNeedsCleanKeys(read, items, k);
    case DocObject(entries) =>
      assert Put(doc, k)[1..] == PutEntries(entries, k);
      ObjectNeedsCleanKeys(read, entries, k);
    case _ =>
  }

  lemma {:induction false} ArrayNeedsCleanKeys(read: Reader, items: Items, k: string)
    requires LexicalItems(read, items)
    requires var r := ParseArray(read, PutItems(items, k)); r.Ok? && r.value == Array(Values(read, items, AsIs))
    ensures KeysItems(items, CleanKey)
    decreases items, 1
  {
    var item := items.item;
    var t := item.after + PutItemsEnd(items, k);
    SkipLayout(item.before, Put(item.doc, t));
    TokenFirst(item.doc, t);
    SkipNothing(Put(item.doc, t));
    NotClosing(item.doc, t);
    ElementsSkip(read, PutItems(items, k));
    ItemsNeedCleanKeys(read, items, k);
  }

  lemma {:induction false} ItemsNeedCleanKeys(read: Reader, items: Items, k: string)
    requires LexicalItems(read, items)
    requires var r := ParseElements(read, PutItems(items, k)); r.Ok? && r.value == Values(read, items, AsIs)
    ensures KeysItems(items, CleanKey)
    decreases items, 0
  {
    var item := items.item;
    var end := PutItemsEnd(items, k);
    SkipLayout(item.before, Put(item.doc, item.after + end));
    TokenFirst(item.doc, item.after + end);
    SkipNothing(Put(item.doc, item.after + end));
    AfterNumber(item.after, end);
    var whole := ParseElements(read, PutItems(items, k)).value;
    assert whole[0] == ParseValue(read, Put(item.doc, item.after + end)).value;
    ValueNeedsCleanKeys(read, item.doc, item.after + end);
    CleanIsWellFormed(read, item.doc);
    ValueLayout(read, item.doc, item.after + end);
    SkipLayout(item.after, end);
    SkipNothing(end);
    if items.MoreItems? {
      assert end[1..] == PutItems(items.tail, k);
      assert whole[1..] == ParseElements(read, PutItems(items.tail, k)).value;
      assert whole[1..] == Values(read, items.tail, AsIs);
      ItemsNeedCleanKeys(read, items.tail, k);
    }
  }

  lemma {:induction false} ObjectNeedsCleanKeys(read: Reader, entries: Entries, k: string)
    requires LexicalEntries(read, entries)
    requires var r := ParseObject(read, PutEntries(entries, k)); r.Ok? && r.value == Object(Members(read, entries, AsIs))
    ensures KeysEntries(entries, CleanKey)
    decreases entries, 1
  {
    var e := entries.entry;
    var s := PutEntries(entries, k);
    assert s[..|e.before|] == e.before && s[|e.before|] == '"';
    assert s == e.before + s[|e.before|..];
    SkipLayout(e.before, s[|e.before|..]);
    MembersSkip(read, s);
    EntriesNeedCleanKeys(read, entries, k);
  }

  lemma KeyReadsAsItself(before: string, key: string, k: string)
    requires AllSpace(before)
    requires var r := ParseKey(before + ("\"" + (key + ("\"" + k)))); r.Ok? && r.value == key
    ensures CleanKey(key)
  {
    var s := "\"" + (key + ("\"" + k));
    SkipLayout(before, s);
    SkipNothing(s);
    assert s[1..] == key + ("\"" + k);
    assert Backslashes(0) + key == key;
    OnlyCleanReadsAsItself(key, k, 0);
  }

  lemma {:induction false} EntriesNeedCleanKeys(read: Reader, entries: Entries, k: string)
    requires LexicalEntries(read, entries)
    requires var r := ParseMembers(read, PutEntries(entries, k)); r.Ok? && r.value == Members(read, entries, AsIs)
    ensures KeysEntries(entries, CleanKey)
    decreases entries, 0
  {
    var e := entries.entry;
    var end := PutEntriesEnd(entries, k);
    var t := Put(e.doc, e.after + end);
    var whole := ParseMembers(read, PutEntries(entries, k)).value;
    assert whole[0].key == ParseKey(PutEntries(entries, k)).value == e.key;
    KeyReadsAsItself(e.before, e.key, e.beforeColon + (":" + (e.afterColon + t)));
    CleanKeyDecodes(e.key);
    KeyLayout(e.before, e.key, e.beforeColon, e.afterColon + t);
    SkipLayout(e.afterColon, t);
    TokenFirst(e.doc, e.after + end);
    SkipNothing(t);
    AfterNumber(e.after, end);
    assert whole[0].value == ParseValue(read, t).value;
    ValueNeedsCleanKeys(read, e.doc, e.after + end);
    CleanIsWellFormed(read, e.doc);
    ValueLayout(read, e.doc, e.after + end);
    SkipLayout(e.after, end);
    SkipNothing(end);
    if entries.MoreEntries? {
      assert end[1..] == PutEntries(entries.tail, k);
      assert whole[1..] == ParseMembers(read, PutEntries(entries.tail, k)).value;
      assert whole[1..] == Members(read, entries.tail, AsIs);
      EntriesNeedCleanKeys(read, entries.tail, k);
    }
  }

  // ---------------------------------------------------------------- the theorems

  lemma LayoutRoundTrips(show: Shower, read: Reader, v: Json, st: Style)
    requires Numbers(v, Surviving(show, read))
    ensures Parse(read, Text(DocOf(show, v, st))) == Ok(v, []) <==> CleanKeys(v)
  {
    var doc := DocOf(show, v, st);
    ChosenValue(show, read, v, st);
    ChosenKeys(show, v, st);
    TokenFirst(doc, "");
    SkipNothing(Text(doc));
    if CleanKeys(v) {
      CleanIsWellFormed(read, doc);
      assert "" + Put(doc, "") == Text(doc);
      ParseLayout(read, "", doc, "");
    }
    if Parse(read, Text(doc)) == Ok(v, []) {
      ValueNeedsCleanKeys(read, doc, "");
    }
  }

  /** `toString` */
  lemma ToStringRoundTrips(show: Shower, read: Reader, v: Json)
    requires Numbers(v, Surviving(show, read))
    ensures Parse(read, ToString(show, v)) == Ok(v, []) <==> CleanKeys(v)
  {
    SurvivorsAreTokens(show, read, v);
    TightText(show, v, "");
    assert ToString(show, v) + "" == ToString(show, v);
    LayoutRoundTrips(show, read, v, Tight);
  }

  /** `dump`, at every indent and depth */
  lemma DumpRoundTrips(show: Shower, read: Reader, v: Json, indent: int, depth: nat)
    requires Numbers(v, Surviving(show, read))
    ensures Parse(read, Dump(show, v, indent, depth)) == Ok(v, []) <==> CleanKeys(v)
  {
    if indent < 0 {
      ToStringRoundTrips(show, read, v);
    } else {
      SurvivorsAreTokens(show, read, v);
      IndentedText(show, v, indent, depth, "");
      assert Dump(show, v, indent, depth) + "" == Dump(show, v, indent, depth);
      LayoutRoundTrips(show, read, v, Indented(indent, depth));
    }
  }

  /** Two values print alike only if they are equal. */
  lemma ToStringIsInjective(show: Shower, read: Reader, v: Json, w: Json)
    requires Numbers(v, Surviving(show, read)) && Numbers(w, Surviving(show, read))
    requires CleanKeys(v) && CleanKeys(w) && ToString(show, v) == ToString(show, w)
    ensures v == w
  {
    ToStringRoundTrips(show, read, v);
    ToStringRoundTrips(show, read, w);
  }

  // ---------------------------------------------------------------- integers survive

  function DigitChar(d: nat): char
    requires d < 10
  {
    ('0' as int + d) as char
  }

  function DigitValue(c: char): int {
    c as int - '0' as int
  }

  function NatText(n: nat): string {
    if n < 10 then [DigitChar(n)] else NatText(n / 10) + [DigitChar(n % 10)]
  }

  function IntText(n: int): string {
    if n < 0 then "-" + NatText(-n) else NatText(n)
  }

  function NatValue(s: string): int {
    if s == [] then 0 else NatValue(s[..|s| - 1]) * 10 + DigitValue(s[|s| - 1])
  }

  function Pow10(k: nat): nat {
    if k == 0 then 1 else 10 * Pow10(k - 1)
  }

  lemma {:induction false} NatTextDigits(n: nat)
    ensures NatText(n) != [] && AllDigits(NatText(n))
  {
    if n >= 10 {
      NatTextDigits(n / 10);
    }
  }

  lemma {:induction false} NatTextValue(n: nat)
    ensures NatValue(NatText(n)) == n
  {
    var s := NatText(n);
    if n < 10 {
      assert s[..|s| - 1] == [];
    } else {
      NatTextValue(n / 10);
      assert s[..|s| - 1] == NatText(n / 10);
    }
  }

  lemma {:induction false} NatTextLength(n: nat, k: nat)
    requires k >= 1 && n < Pow10(k)
    ensures |NatText(n)| <= k
  {
    if n >= 10 {
      NatTextLength(n / 10, k - 1);
    }
  }

  predicate ShortNumeral(s: string) {
    1 <= |s| <= 6 && AllDigits(s)
  }

  predicate ReadsExactly(read: Reader, s: string) {
    read(s) == Some(NatValue(s) as real) && read("-" + s) == Some(-(NatValue(s) as real))
  }

  /** The library prints whole numbers up to six digits in decimal, and reads decimal
      numerals of up to six digits exactly. */
  ghost predicate ExactIntegers(show: Shower, read: Reader) {
    && (forall n: int :: -999999 <= n <= 999999 ==> show(n as real) == IntText(n))
    && (forall s: string :: ShortNumeral(s) ==> ReadsExactly(read, s))
  }

  lemma SixDigits(n: nat)
    requires n <= 999999
    ensures ShortNumeral(NatText(n)) && NatValue(NatText(n)) == n
  {
    assert Pow10(3) == 1000;
    assert Pow10(6) == 1000000;
    NatTextDigits(n);
    NatTextValue(n);
    NatTextLength(n, 6);
  }

  lemma NumeralIsToken(minus: bool, digits: string)
    requires ShortNumeral(digits)
    ensures var s := (if minus then "-" else "") + digits;
            s != [] && StartsNumber(s[0]) && ScanNumber(s).1 == []
  {
    var num := Num(minus, digits, None, None);
    NumberLayout(num, "");
    var s := (if minus then "-" else "") + digits;
    assert NumText(num) + "" == s;
  }

  lemma DecimalSurvives(show: Shower, read: Reader, n: int, m: nat)
    requires m == if n < 0 then -n else n
    requires show(n as real) == IntText(n)
    requires ShortNumeral(NatText(m)) && NatValue(NatText(m)) == m && ReadsExactly(read, NatText(m))
    ensures Survives(show, read, n as real)
  {
    NumeralIsToken(n < 0, NatText(m));
    assert "" + NatText(m) == NatText(m);
  }

  lemma IntegersSurvive(show: Shower, read: Reader, n: int)
    requires ExactIntegers(show, read) && -999999 <= n <= 999999
    ensures Survives(show, read, n as real)
  {
    var m := if n < 0 then -n else n;
    SixDigits(m);
    DecimalSurvives(show, read, n, m);
  }

  predicate SmallInteger(n: real) {
    n == n.Floor as real && -999999 <= n.Floor <= 999999
  }

  lemma {:induction false} SmallIntegersSurvive(show: Shower, read: Reader, v: Json)
    requires ExactIntegers(show, read) && Numbers(v, SmallInteger)
    ensures Numbers(v, Surviving(show, read))
    decreases v
  {
    match v
    case Number(n) => IntegersSurvive(show, read, n.Floor);
    case Array(elems) =>
      forall i | 0 <= i < |elems| ensures Numbers(elems[i], Surviving(show, read)) {
        SmallIntegersSurvive(show, read, elems[i]);
      }
    case Object(members) =>
      forall i | 0 <= i < |members| ensures Numbers(members[i].value, Surviving(show, read)) {
        SmallIntegersSurvive(show, read, members[i].value);
      }
    case _ =>
  }

  /** Values of whole numbers of up to six digits come back through either printer exactly
      when their keys are clean. */
  lemma SupportedRoundTrips(show: Shower, read: Reader, v: Json, indent: int, depth: nat)
    requires ExactIntegers(show, read) && Numbers(v, SmallInteger)
    ensures Parse(read, ToString(show, v)) == Ok(v, []) <==> CleanKeys(v)
    ensures Parse(read, Dump(show, v, indent, depth)) == Ok(v, []) <==> CleanKeys(v)
  {
    SmallIntegersSurvive(show, read, v);
    ToStringRoundTrips(show, read, v);
    DumpRoundTrips(show, read, v, indent, depth);
  }
}
