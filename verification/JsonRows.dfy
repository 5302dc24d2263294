/** The printed text, piece by piece: which separators, which indents, which escapes. */
module JsonRows {
  import opened JsonParsing
  import opened JsonPrinting

  function Join(parts: seq<string>, sep: string): string {
    if parts == [] then ""
    else if |parts| == 1 then parts[0]
    else parts[0] + sep + Join(parts[1..], sep)
  }

  predicate Blanks(s: string, n: nat) {
    |s| == n && forall i | 0 <= i < |s| :: s[i] as int == 32
  }

  // ---------------------------------------------------------------- strings

  /** How a character is spelled inside quotes, by its code. */
  function Spelled(c: char): string {
    var n := c as int;
    if n == 34 then ['\\', '"']
    else if n == 92 then ['\\', '\\']
    else if n == 10 then ['\\', 'n']
    else if n == 13 then ['\\', 'r']
    else if n == 9 then ['\\', 't']
    else [c]
  }

  lemma CharIsSpelled(c: char)
    ensures EscapeChar(c) == Spelled(c)
  {
  }

  /** Every character is spelled on its own, wherever it stands. */
  lemma {:induction false} StringIsSpelled(a: string, c: char, b: string)
    ensures Escape(a + [c] + b) == Escape(a) + Spelled(c) + Escape(b)
  {
    var s := a + [c] + b;
    if a == [] {
      assert s[0] == c && s[1..] == b;
      CharIsSpelled(c);
    } else {
      StringIsSpelled(a[1..], c, b);
      assert s[0] == a[0] && s[1..] == a[1..] + [c] + b;
      Regroup(EscapeChar(a[0]), Escape(a[1..]), Spelled(c), Escape(b));
    }
  }

  lemma Regroup(a: string, b: string, c: string, d: string)
    ensures a + (b + c + d) == (a + b) + c + d
  {
  }

  // ---------------------------------------------------------------- compact

  lemma {:induction false} ElementsAreJoined(show: Shower, elems: seq<Json>, texts: seq<string>)
    requires |texts| == |elems| && forall i | 0 <= i < |elems| :: texts[i] == ToString(show, elems[i])
    ensures ElementsToString(show, elems) == Join(texts, ",")
    decreases |elems|
  {
    if |elems| > 1 {
      ElementsAreJoined(show, elems[1..], texts[1..]);
      Assoc3(texts[0], ",", Join(texts[1..], ","));
    }
  }

  lemma Assoc3(a: string, b: string, c: string)
    ensures a + (b + c) == a + b + c
  {
  }

  /** `toString` of an array: the elements' texts with commas between them. */
  lemma CompactArray(show: Shower, elems: seq<Json>, texts: seq<string>)
    requires |texts| == |elems| && forall i | 0 <= i < |elems| :: texts[i] == ToString(show, elems[i])
    ensures ToString(show, Array(elems)) == "[" + Join(texts, ",") + "]"
  {
    ElementsAreJoined(show, elems, texts);
  }

  lemma {:induction false} MembersAreJoined(show: Shower, members: seq<Member>, texts: seq<string>)
    requires |texts| == |members|
    requires forall i | 0 <= i < |members| :: texts[i] == "\"" + members[i].key + "\":" + ToString(show, members[i].value)
    ensures MembersToString(show, members) == Join(texts, ",")
    decreases |members|
  {
    if |members| > 1 {
      MembersAreJoined(show, members[1..], texts[1..]);
      Assoc3(texts[0], ",", Join(texts[1..], ","));
    }
  }

  /** `toString` of an object: quoted key, colon, value, with commas between the members. */
  lemma CompactObject(show: Shower, members: seq<Member>, texts: seq<string>)
    requires |texts| == |members|
    requires forall i | 0 <= i < |members| :: texts[i] == "\"" + members[i].key + "\":" + ToString(show, members[i].value)
    ensures ToString(show, Object(members)) == "{" + Join(texts, ",") + "}"
  {
    MembersAreJoined(show, members, texts);
  }

  // ---------------------------------------------------------------- rows

  lemma PadIsBlank(n: nat)
    ensures Blanks(Pad(n), n)
  {
  }

  lemma RowsEnd(row: string, rest: string)
    ensures row + "," + "\n" + rest == row + ",\n" + rest
    ensures row + "" + "\n" + "" == row + "\n"
  {
  }

  lemma Assoc4(a: string, b: string, c: string)
    ensures a + b + (c + "\n") == a + b + c + "\n"
  {
  }

  lemma {:induction false} ElementRowsAreJoined(show: Shower, elems: seq<Json>, indent: nat, depth: nat, rows: seq<string>)
    requires |rows| == |elems| > 0
    requires forall i | 0 <= i < |elems| ::
               rows[i] == Pad((depth + 1) * indent) + Dump(show, elems[i], indent, depth + 1)
    ensures DumpElements(show, elems, indent, depth) == Join(rows, ",\n") + "\n"
    decreases |elems|
  {
    if |elems| == 1 {
      assert DumpElements(show, elems[1..], indent, depth) == "";
      RowsEnd(rows[0], "");
    } else {
      ElementRowsAreJoined(show, elems[1..], indent, depth, rows[1..]);
      RowsEnd(rows[0], DumpElements(show, elems[1..], indent, depth));
      Assoc4(rows[0], ",\n", Join(rows[1..], ",\n"));
    }
  }

  /** `dump` of an array: a row for each element, with one indent more than the brackets, commas
      at the row ends, and the closing bracket under the opening one. */
  lemma IndentedArray(show: Shower, elems: seq<Json>, indent: nat, depth: nat, pads: seq<string>, rows: seq<string>)
    requires |rows| == |elems| > 0 && |pads| == 2
    requires Blanks(pads[0], (depth + 1) * indent) && Blanks(pads[1], depth * indent)
    requires forall i | 0 <= i < |elems| :: rows[i] == pads[0] + Dump(show, elems[i], indent, depth + 1)
    ensures Dump(show, Array(elems), indent, depth) == "[\n" + (Join(rows, ",\n") + "\n") + pads[1] + "]"
  {
    BlanksAreOne(pads[0], (depth + 1) * indent);
    BlanksAreOne(pads[1], depth * indent);
    ElementRowsAreJoined(show, elems, indent, depth, rows);
  }

  lemma BlanksAreOne(s: string, n: nat)
    requires Blanks(s, n)
    ensures s == Pad(n)
  {
    PadIsBlank(n);
    forall i | 0 <= i < n ensures s[i] == Pad(n)[i] {
      assert s[i] as int == 32;
    }
  }

  lemma {:induction false} MemberRowsAreJoined(show: Shower, members: seq<Member>, indent: nat, depth: nat, rows: seq<string>)
    requires |rows| == |members| > 0
    requires forall i | 0 <= i < |members| ::
               rows[i] == Pad((depth + 1) * indent) + "\"" + members[i].key + "\": " +
                          Dump(show, members[i].value, indent, depth + 1)
    ensures DumpMembers(show, members, indent, depth) == Join(rows, ",\n") + "\n"
    decreases |members|
  {
    if |members| == 1 {
      assert DumpMembers(show, members[1..], indent, depth) == "";
      RowsEnd(rows[0], "");
    } else {
      MemberRowsAreJoined(show, members[1..], indent, depth, rows[1..]);
      RowsEnd(rows[0], DumpMembers(show, members[1..], indent, depth));
      Assoc4(rows[0], ",\n", Join(rows[1..], ",\n"));
    }
  }

  /** `dump` of an object: the same, with quoted key, colon and one blank in front of the value. */
  lemma IndentedObject(show: Shower, members: seq<Member>, indent: nat, depth: nat, pads: seq<string>, rows: seq<string>)
    requires |rows| == |members| > 0 && |pads| == 2
    requires Blanks(pads[0], (depth + 1) * indent) && Blanks(pads[1], depth * indent)
    requires forall i | 0 <= i < |members| ::
               rows[i] == pads[0] + "\"" + members[i].key + "\": " + Dump(show, members[i].value, indent, depth + 1)
    ensures Dump(show, Object(members), indent, depth) == "{\n" + (Join(rows, ",\n") + "\n") + pads[1] + "}"
  {
    BlanksAreOne(pads[0], (depth + 1) * indent);
    BlanksAreOne(pads[1], depth * indent);
    MemberRowsAreJoined(show, members, indent, depth, rows);
  }

  /** What is empty still gets its brackets on two lines; a negative indent means `toString`. */
  lemma IndentedEmpty(show: Shower, v: Json, indent: int, depth: nat, pad: string)
    requires indent >= 0 ==> Blanks(pad, depth * indent)
    ensures indent >= 0 ==> Dump(show, Array([]), indent, depth) == "[\n" + pad + "]"
    ensures indent >= 0 ==> Dump(show, Object([]), indent, depth) == "{\n" + pad + "}"
    ensures indent < 0 || !(v.Array? || v.Object?) ==> Dump(show, v, indent, depth) == ToString(show, v)
  {
    if indent >= 0 {
      BlanksAreOne(pad, depth * indent);
      assert "[\n" + "" + pad == "[\n" + pad && "{\n" + "" + pad == "{\n" + pad;
    }
  }

  /** Scalars, under both printers. */
  lemma ScalarsPrint(show: Shower, n: real, s: string)
    ensures ToString(show, Null) == "null"
    ensures ToString(show, Bool(true)) == "true" && ToString(show, Bool(false)) == "false"
    ensures ToString(show, Number(n)) == show(n)
    ensures ToString(show, String(s)) == ['"'] + Escape(s) + ['"']
  {
  }
}
