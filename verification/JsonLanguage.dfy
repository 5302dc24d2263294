/** Exactly which texts the parser accepts, and with which value: the layouts of well-formed
    documents, and a lone string that runs to the end of the text. */
module JsonLanguage {
  import opened Options
  import opened JsonParsing
  import opened JsonLayouts

  lemma {:induction false} SkipSound(s: string) returns (ws: string)
    ensures AllSpace(ws) && s == ws + SkipSpaces(s)
  {
    if s != [] && IsSpace(s[0]) {
      var tail := SkipSound(s[1..]);
      ws := [s[0]] + tail;
      Assoc([s[0]], tail, SkipSpaces(s[1..]));
      assert s == [s[0]] + s[1..];
    } else {
      ws := [];
    }
  }

  /** `raw`, and a closing quote if `terminated`, is the text `s` up to `rest`. */
  predicate Spells(s: string, raw: string, terminated: bool, rest: string) {
    if terminated then s == raw + ("\"" + rest) else s == raw && rest == []
  }

  lemma SpellsMore(front: string, s: string, raw: string, terminated: bool, rest: string)
    requires Spells(s, raw, terminated, rest)
    ensures Spells(front + s, front + raw, terminated, rest)
  {
    if terminated {
      Assoc(front, raw, "\"" + rest);
    }
  }

  lemma {:induction false} CharsSound(s: string) returns (raw: string, terminated: bool)
    requires ParseChars(s).Ok?
    ensures Closed(raw) && ParseChars(s).value == Decode(raw)
    ensures Spells(s, raw, terminated, ParseChars(s).rest)
  {
    if s == [] {
      raw, terminated := [], false;
    } else if s[0] == '"' {
      raw, terminated := [], true;
    } else if s[0] == '\\' {
      var front, more := ['\\', s[1]], s[2..];
      assert s == front + more;
      EscapeIsRead(s[1], more);
      raw, terminated := CharsSound(more);
      SpellsMore(front, more, raw, terminated, ParseChars(more).rest);
      EscapedRaw(s[1], raw);
      raw := front + raw;
    } else {
      var front, more := [s[0]], s[1..];
      assert s == front + more;
      PlainIsRead(s[0], more);
      raw, terminated := CharsSound(more);
      SpellsMore(front, more, raw, terminated, ParseChars(more).rest);
      PlainRaw(s[0], raw);
      raw := front + raw;
    }
  }

  lemma SpanIsDigits(s: string)
    ensures AllDigits(SpanDigits(s).0)
  {
    var d := SpanDigits(s).0;
    forall i | 0 <= i < |d| ensures Decimal(d[i]) {
      assert d[i] in d;
      CharacterClasses(d[i]);
    }
  }

  lemma FractionOk(s: string)
    ensures ScanFraction(s).0.Some? ==> AllDigits(ScanFraction(s).0.value)
  {
    if s != [] {
      SpanIsDigits(s[1..]);
    }
  }

  lemma ExponentOk(s: string)
    ensures NumOk(Num(true, "", None, ScanExponent(s).0))
  {
    if s != [] {
      SpanIsDigits(ScanSign(s[1..]).1);
    }
  }

  lemma ScanOk(s: string)
    requires s != [] && StartsNumber(s[0])
    ensures NumOk(ScanNumber(s).0)
  {
    var s1 := if s[0] == '-' then s[1..] else s;
    SpanIsDigits(s1);
    FractionOk(SpanDigits(s1).1);
    ExponentOk(ScanFraction(SpanDigits(s1).1).1);
    if s[0] != '-' {
      assert SpanDigits(s).0 != [];
    }
  }

  /** `doc`, or an unterminated string, is the text `s` up to `rest`. */
  ghost predicate Explains(read: Reader, s: string, v: Json, rest: string, doc: Doc, terminated: bool) {
    && WellFormed(read, doc) && Value(read, doc, Decode) == v
    && (terminated ==> s == Put(doc, rest) && (doc.DocNumber? ==> Stops(doc.num, rest)))
    && (!terminated ==> doc.DocString? && rest == [] && s == "\"" + doc.raw)
  }

  lemma StringSound(read: Reader, s: string) returns (doc: Doc, terminated: bool)
    requires s != [] && s[0] == '"' && ParseChars(s[1..]).Ok?
    ensures var r := ParseChars(s[1..]);
            Explains(read, s, String(r.value), r.rest, doc, terminated)
  {
    var raw;
    raw, terminated := CharsSound(s[1..]);
    doc := DocString(raw);
    assert s == "\"" + s[1..];
  }

  lemma LiteralSound(read: Reader, s: string) returns (doc: Doc)
    requires s != [] && (s[0] == 't' || s[0] == 'f' || s[0] == 'n')
    requires (if s[0] == 'n' then ParseNull(s) else ParseBoolean(s)).Ok?
    ensures var r := if s[0] == 'n' then ParseNull(s) else ParseBoolean(s);
            Explains(read, s, r.value, r.rest, doc, true)
  {
    doc := if s[0] == 'n' then DocNull else DocBool("true" <= s);
    if s[0] == 'n' {
      assert s == "null" + s[4..];
    } else if "true" <= s {
      assert s == "true" + s[4..];
    } else {
      assert s == "false" + s[5..];
    }
  }

  lemma ScanStops(s: string)
    requires s != [] && StartsNumber(s[0])
    ensures Stops(ScanNumber(s).0, ScanNumber(s).1)
  {
    var s1 := SpanDigits(if s[0] == '-' then s[1..] else s).1;
    ExponentScanStops(ScanFraction(s1).1);
  }

  lemma ExponentScanStops(s: string)
    requires s != [] ==> !IsDigit(s[0])
    ensures ExponentStops(ScanExponent(s).0, ScanExponent(s).1)
    ensures ScanExponent(s).0.None? ==> ScanExponent(s).1 == s
  {
  }

  lemma NumberSound(read: Reader, s: string) returns (doc: Doc)
    requires s != [] && StartsNumber(s[0]) && ParseNumber(read, s).Ok?
    ensures var r := ParseNumber(read, s);
            Explains(read, s, r.value, r.rest, doc, true)
  {
    ScanOk(s);
    ScanStops(s);
    doc := DocNumber(ScanNumber(s).0);
  }

  lemma {:induction false} TokenSound(read: Reader, s: string) returns (doc: Doc, terminated: bool)
    requires s != [] && !IsSpace(s[0]) && ParseValue(read, s).Ok?
    ensures var r := ParseValue(read, s);
            Explains(read, s, r.value, r.rest, doc, terminated)
    decreases |s|, 0
  {
    SkipNothing(s);
    terminated := true;
    if s[0] == '{' {
      doc := ObjectSound(read, s[1..]);
      assert s == "{" + s[1..];
    } else if s[0] == '[' {
      doc := ArraySound(read, s[1..]);
      assert s == "[" + s[1..];
    } else if s[0] == '"' {
      doc, terminated := StringSound(read, s);
    } else if s[0] == 't' || s[0] == 'f' || s[0] == 'n' {
      doc := LiteralSound(read, s);
    } else {
      doc := NumberSound(read, s);
    }
  }

  /** Callers skip spaces first, and then the text starts with the value's token. */
  lemma {:induction false} ValueSound(read: Reader, text: string) returns (doc: Doc, terminated: bool)
    requires ParseValue(read, SkipSpaces(text)).Ok?
    ensures var r := ParseValue(read, SkipSpaces(text));
            Explains(read, SkipSpaces(text), r.value, r.rest, doc, terminated)
    decreases |text|, 1
  {
    var s := SkipSpaces(text);
    SkipNothing(s);
    doc, terminated := TokenSound(read, s);
  }

  lemma EmptySound(read: Reader, text: string, close: char) returns (doc: Doc)
    requires close == ']' || close == '}'
    requires SkipSpaces(text) != [] && SkipSpaces(text)[0] == close
    ensures var rest := SkipSpaces(text)[1..];
            if close == ']' then Explains(read, "[" + text, Array([]), rest, doc, true)
            else Explains(read, "{" + text, Object([]), rest, doc, true)
  {
    var ws := SkipSound(text);
    var s := SkipSpaces(text);
    assert s == [close] + s[1..];
    doc := if close == ']' then DocEmptyArray(ws) else DocEmptyObject(ws);
  }

  lemma ItemsExplain(read: Reader, items: Items, rest: string)
    requires LexicalItems(read, items) && KeysItems(items, Closed)
    ensures Explains(read, "[" + PutItems(items, rest), Array(Values(read, items, Decode)), rest, DocArray(items), true)
  {
  }

  lemma EntriesExplain(read: Reader, entries: Entries, rest: string)
    requires LexicalEntries(read, entries) && KeysEntries(entries, Closed)
    ensures Explains(read, "{" + PutEntries(entries, rest), Object(Members(read, entries, Decode)), rest,
                     DocObject(entries), true)
  {
  }

  lemma {:induction false} ArraySound(read: Reader, text: string) returns (doc: Doc)
    requires ParseArray(read, text).Ok?
    ensures var r := ParseArray(read, text);
            Explains(read, "[" + text, r.value, r.rest, doc, true)
    decreases |text|, 3
  {
    var s := SkipSpaces(text);
    if s != [] && s[0] == ']' {
      doc := EmptySound(read, text, ']');
    } else {
      ElementsSkip(read, text);
      var items := ElementsSound(read, text);
      ItemsExplain(read, items, ParseArray(read, text).rest);
      doc := DocArray(items);
    }
  }

  lemma {:induction false} ElementsSound(read: Reader, text: string) returns (items: Items)
    requires ParseElements(read, text).Ok?
    ensures var r := ParseElements(read, text);
            && LexicalItems(read, items) && KeysItems(items, Closed) && Values(read, items, Decode) == r.value
            && text == PutItems(items, r.rest)
    decreases |text|, 2
  {
    var before := SkipSound(text);
    var v := ParseValue(read, SkipSpaces(text));
    var doc, terminated := ValueSound(read, text);
    var end := SkipSpaces(v.rest);
    var after := SkipSound(v.rest);
    var item := Item(before, doc, after);
    if end[0] == ']' {
      items := LastItem(item);
      assert end == "]" + end[1..];
      assert Values(read, items, Decode) == [v.value];
    } else {
      var tail := ElementsSound(read, end[1..]);
      items := MoreItems(item, tail);
      assert end == "," + end[1..];
    }
    assert end == PutItemsEnd(items, ParseElements(read, text).rest);
  }

  lemma KeySound(text: string) returns (before: string, key: string, beforeColon: string)
    requires ParseKey(text).Ok?
    ensures AllSpace(before) && Closed(key) && AllSpace(beforeColon)
    ensures ParseKey(text).value == Decode(key)
    ensures text == before + ("\"" + (key + ("\"" + (beforeColon + (":" + ParseKey(text).rest)))))
  {
    var s := SkipSpaces(text);
    before := SkipSound(text);
    var terminated;
    key, terminated := CharsSound(s[1..]);
    var k := ParseChars(s[1..]);
    var s1 := SkipSpaces(k.rest);
    beforeColon := SkipSound(k.rest);
    assert s == "\"" + s[1..];
    assert s1 == ":" + s1[1..];
  }

  lemma {:induction false} ObjectSound(read: Reader, text: string) returns (doc: Doc)
    requires ParseObject(read, text).Ok?
    ensures var r := ParseObject(read, text);
            Explains(read, "{" + text, r.value, r.rest, doc, true)
    decreases |text|, 3
  {
    var s := SkipSpaces(text);
    if s != [] && s[0] == '}' {
      doc := EmptySound(read, text, '}');
    } else {
      MembersSkip(read, text);
      var entries := MembersSound(read, text);
      EntriesExplain(read, entries, ParseObject(read, text).rest);
      doc := DocObject(entries);
    }
  }

  /** One member, up to the comma or brace after it. */
  lemma EntrySound(read: Reader, text: string, doc: Doc, terminated: bool, end: string) returns (entry: Entry)
    requires ParseKey(text).Ok? && ParseValue(read, SkipSpaces(ParseKey(text).rest)).Ok?
    requires var r := ParseValue(read, SkipSpaces(ParseKey(text).rest));
             && Explains(read, SkipSpaces(ParseKey(text).rest), r.value, r.rest, doc, terminated)
             && end == SkipSpaces(r.rest) && end != []
    ensures entry.doc == doc && terminated
    ensures AllSpace(entry.before) && AllSpace(entry.beforeColon) && AllSpace(entry.afterColon) && AllSpace(entry.after)
    ensures Closed(entry.key) && Decode(entry.key) == ParseKey(text).value
    ensures text == entry.before + ("\"" + (entry.key + ("\"" + (entry.beforeColon + (":" +
                    (entry.afterColon + Put(entry.doc, entry.after + end)))))))
  {
    var k := ParseKey(text);
    var before, key, beforeColon := KeySound(text);
    var afterColon := SkipSound(k.rest);
    var after := SkipSound(ParseValue(read, SkipSpaces(k.rest)).rest);
    entry := Entry(before, key, beforeColon, afterColon, doc, after);
  }

  ghost predicate EntryExplains(read: Reader, text: string, e: Entry, end: string) {
    && AllSpace(e.before) && AllSpace(e.beforeColon) && AllSpace(e.afterColon) && AllSpace(e.after)
    && WellFormed(read, e.doc) && Closed(e.key)
    && text == e.before + ("\"" + (e.key + ("\"" + (e.beforeColon + (":" + (e.afterColon + Put(e.doc, e.after + end)))))))
  }

  ghost predicate EntriesAre(read: Reader, text: string, entries: Entries, members: seq<Member>, k: string) {
    && LexicalEntries(read, entries) && KeysEntries(entries, Closed)
    && Members(read, entries, Decode) == members && text == PutEntries(entries, k)
  }

  lemma LastEntryIs(read: Reader, text: string, e: Entry, end: string)
    requires EntryExplains(read, text, e, end) && end != [] && end[0] == '}'
    ensures EntriesAre(read, text, LastEntry(e), [Member(Decode(e.key), Value(read, e.doc, Decode))], end[1..])
  {
    assert end == "}" + end[1..];
    assert Members(read, LastEntry(e), Decode) == [Member(Decode(e.key), Value(read, e.doc, Decode))];
  }

  lemma MoreEntriesAre(read: Reader, text: string, e: Entry, end: string, tail: Entries, members: seq<Member>, k: string)
    requires EntryExplains(read, text, e, end) && end != [] && end[0] == ','
    requires EntriesAre(read, end[1..], tail, members, k)
    ensures EntriesAre(read, text, MoreEntries(e, tail), [Member(Decode(e.key), Value(read, e.doc, Decode))] + members, k)
  {
    assert end == "," + end[1..];
  }

  /** A member list is a member and then the closing brace or a comma and more. */
  lemma MembersParts(read: Reader, text: string)
    requires ParseMembers(read, text).Ok?
    ensures ParseKey(text).Ok? && ParseValue(read, SkipSpaces(ParseKey(text).rest)).Ok?
    ensures var v := ParseValue(read, SkipSpaces(ParseKey(text).rest));
            var end := SkipSpaces(v.rest);
            var first := [Member(ParseKey(text).value, v.value)];
            && end != [] && |end| < |text|
            && (end[0] == '}' ==> ParseMembers(read, text) == Ok(first, end[1..]))
            && (end[0] != '}' ==>
                  && end[0] == ',' && ParseMembers(read, end[1..]).Ok?
                  && ParseMembers(read, text)
                     == Ok(first + ParseMembers(read, end[1..]).value, ParseMembers(read, end[1..]).rest))
  {
  }

  lemma {:induction false} MembersSound(read: Reader, text: string) returns (entries: Entries)
    requires ParseMembers(read, text).Ok?
    ensures EntriesAre(read, text, entries, ParseMembers(read, text).value, ParseMembers(read, text).rest)
    decreases |text|, 2
  {
    MembersParts(read, text);
    var k := ParseKey(text);
    var doc, terminated := ValueSound(read, k.rest);
    var end := SkipSpaces(ParseValue(read, SkipSpaces(k.rest)).rest);
    var entry := EntrySound(read, text, doc, terminated, end);
    if end[0] == '}' {
      LastEntryIs(read, text, entry, end);
      entries := LastEntry(entry);
    } else {
      var tail := MembersSound(read, end[1..]);
      var r := ParseMembers(read, end[1..]);
      MoreEntriesAre(read, text, entry, end, tail, r.value, r.rest);
      entries := MoreEntries(entry, tail);
    }
  }

  // ---------------------------------------------------------------- the accepted language

  ghost predicate LaysOut(read: Reader, text: string, v: Json, before: string, doc: Doc, after: string) {
    && AllSpace(before) && AllSpace(after)
    && WellFormed(read, doc) && Value(read, doc, Decode) == v
    && text == before + Put(doc, after)
  }

  ghost predicate RunsToEnd(text: string, v: Json, before: string, raw: string) {
    AllSpace(before) && Closed(raw) && v == String(Decode(raw)) && text == before + ("\"" + raw)
  }

  lemma {:induction false} CharsToEnd(raw: string)
    requires Closed(raw)
    ensures ParseChars(raw) == Ok(Decode(raw), [])
  {
    if raw == [] {
    } else if raw[0] == '\\' {
      CharsToEnd(raw[2..]);
    } else {
      CharsToEnd(raw[1..]);
    }
  }

  /** `parse` returns `v` exactly on the layouts of `v` and, for a string, on its text
      without the closing quote. */
  lemma ParseIff(read: Reader, text: string, v: Json)
    ensures Parse(read, text) == Ok(v, []) <==>
              || (exists before, doc, after :: LaysOut(read, text, v, before, doc, after))
              || (exists before, raw :: RunsToEnd(text, v, before, raw))
  {
    if Parse(read, text) == Ok(v, []) {
      var lead := SkipSound(text);
      var doc, terminated := ValueSound(read, text);
      if terminated {
        var after := ParseValue(read, SkipSpaces(text)).rest;
        var trail := SkipSound(after);
        assert after == trail + [] == trail;
        assert LaysOut(read, text, v, lead, doc, after);
      } else {
        assert RunsToEnd(text, v, lead, doc.raw);
      }
    }
    if before, doc, after :| LaysOut(read, text, v, before, doc, after) {
      ParseLayout(read, before, doc, after);
    }
    if before, raw :| RunsToEnd(text, v, before, raw) {
      var s := "\"" + raw;
      SkipLayout(before, s);
      SkipNothing(s);
      assert s[1..] == raw;
      CharsToEnd(raw);
    }
  }
}
