/** The text each printer produces is the text of the layout it chooses. */
module JsonPrintedText {
  import opened JsonParsing
  import opened JsonLayouts
  import opened JsonPrinting

  lemma MemberText(lead: string, key: string, gap: string, value: string, end: string)
    ensures lead + ("\"" + (key + ("\"" + ("" + (":" + (gap + (value + end)))))))
         == lead + "\"" + key + ("\":" + gap) + value + end
  {
    assert "\"" + ("" + (":" + (gap + (value + end)))) == ("\":" + gap) + (value + end);
    var tail := ("\":" + gap) + (value + end);
    assert lead + ("\"" + (key + tail)) == lead + "\"" + key + tail;
    Assoc(lead + "\"" + key, "\":" + gap, value + end);
    Assoc(lead + "\"" + key + ("\":" + gap), value, end);
  }

  lemma Wrapped(open: string, body: string, close: string, k: string)
    ensures open + (body + (close + k)) == open + body + close + k
  {
    Assoc(open, body, close + k);
    Assoc(open + body, close, k);
  }

  ghost function TokenPrinted(show: Shower): real -> bool {
    (n: real) => PrintsToken(show, n)
  }

  lemma TightScalar(show: Shower, v: Json, k: string)
    requires Numbers(v, TokenPrinted(show)) && !v.Array? && !v.Object?
    ensures Put(DocOf(show, v, Tight), k) == ToString(show, v) + k
  {
    match v
    case Number(n) => assert NumText(ScanNumber(show(n)).0) == NumText(ScanNumber(show(n)).0) + [];
    case String(s) => Wrapped("\"", Escape(s), "\"", k);
    case _ =>
  }

  lemma {:induction false} TightText(show: Shower, v: Json, k: string)
    requires Numbers(v, TokenPrinted(show))
    ensures Put(DocOf(show, v, Tight), k) == ToString(show, v) + k
    decreases v
  {
    match v
    case Array(elems) => TightArray(show, elems, k);
    case Object(members) => TightObject(show, members, k);
    case _ => TightScalar(show, v, k);
  }

  lemma {:induction false} TightArray(show: Shower, elems: seq<Json>, k: string)
    requires forall i | 0 <= i < |elems| :: Numbers(elems[i], TokenPrinted(show))
    ensures Put(DocOf(show, Array(elems), Tight), k) == ToString(show, Array(elems)) + k
    decreases elems, 1
  {
    Wrapped("[", ElementsToString(show, elems), "]", k);
    if elems != [] {
      TightItems(show, elems, k);
    }
  }

  lemma {:induction false} TightObject(show: Shower, members: seq<Member>, k: string)
    requires forall i | 0 <= i < |members| :: Numbers(members[i].value, TokenPrinted(show))
    ensures Put(DocOf(show, Object(members), Tight), k) == ToString(show, Object(members)) + k
    decreases members, 1
  {
    Wrapped("{", MembersToString(show, members), "}", k);
    if members != [] {
      TightEntries(show, members, k);
    }
  }

  lemma {:induction false} TightItems(show: Shower, elems: seq<Json>, k: string)
    requires elems != [] && forall i | 0 <= i < |elems| :: Numbers(elems[i], TokenPrinted(show))
    ensures PutItems(ItemsOf(show, elems, Tight), k) == ElementsToString(show, elems) + ("]" + k)
    decreases elems, 0
  {
    var items := ItemsOf(show, elems, Tight);
    var end := PutItemsEnd(items, k);
    TightText(show, elems[0], end);
    assert "" + end == end;
    if |elems| > 1 {
      TightItems(show, elems[1..], k);
      Assoc(",", ElementsToString(show, elems[1..]), "]" + k);
      Assoc(ToString(show, elems[0]), "," + ElementsToString(show, elems[1..]), "]" + k);
    } else {
      assert ElementsToString(show, elems) == ToString(show, elems[0]);
    }
  }

  lemma {:induction false} TightEntries(show: Shower, members: seq<Member>, k: string)
    requires members != [] && forall i | 0 <= i < |members| :: Numbers(members[i].value, TokenPrinted(show))
    ensures PutEntries(EntriesOf(show, members, Tight), k) == MembersToString(show, members) + ("}" + k)
    decreases members, 0
  {
    var m := members[0];
    var entries := EntriesOf(show, members, Tight);
    var end := PutEntriesEnd(entries, k);
    TightText(show, m.value, end);
    assert "" + end == end;
    MemberText("", m.key, "", ToString(show, m.value), end);
    var head := "\"" + m.key + "\":" + ToString(show, m.value);
    assert "" + "\"" + m.key == "\"" + m.key && "\":" + "" == "\":";
    if |members| > 1 {
      TightEntries(show, members[1..], k);
      Assoc(",", MembersToString(show, members[1..]), "}" + k);
      Assoc(head, "," + MembersToString(show, members[1..]), "}" + k);
    } else {
      assert MembersToString(show, members) == head;
    }
  }

  /** One printed row: a line break, padding, the item, a separator, and the rows below. */
  lemma RowText(pad: string, item: string, sep: string, below: string, k: string)
    ensures ("\n" + pad) + (item + (sep + ("\n" + (below + k)))) == "\n" + ((pad + item + sep + "\n" + below) + k)
  {
    Assoc("\n", pad, item + (sep + ("\n" + (below + k))));
    Regroup(pad, item, sep, "\n", below + k);
    Assoc(pad + item + sep + "\n", below, k);
  }

  lemma {:induction false} IndentedText(show: Shower, v: Json, indent: nat, depth: nat, k: string)
    requires Numbers(v, TokenPrinted(show))
    ensures Put(DocOf(show, v, Indented(indent, depth)), k) == Dump(show, v, indent, depth) + k
    decreases v
  {
    var pad := Pad(depth * indent);
    match v
    case Array(elems) =>
      IndentedArray(show, elems, indent, depth, k);
    case Object(members) =>
      IndentedObject(show, members, indent, depth, k);
    case _ => TightText(show, v, k);
  }

  /** The frame around the rows. */
  lemma FrameText(open: string, rows: string, pad: string, close: string, k: string)
    ensures open + ("\n" + (rows + (pad + (close + k)))) == (open + "\n") + rows + pad + close + k
  {
    Assoc(open, "\n", rows + (pad + (close + k)));
    Regroup(open + "\n", rows, pad, close, k);
  }

  lemma {:induction false} IndentedArray(show: Shower, elems: seq<Json>, indent: nat, depth: nat, k: string)
    requires forall i | 0 <= i < |elems| :: Numbers(elems[i], TokenPrinted(show))
    ensures Put(DocOf(show, Array(elems), Indented(indent, depth)), k) == Dump(show, Array(elems), indent, depth) + k
    decreases elems, 2
  {
    var pad := Pad(depth * indent);
    FrameText("[", DumpElements(show, elems, indent, depth), pad, "]", k);
    assert "[" + "\n" == "[\n";
    if elems == [] {
      Assoc("\n", pad, "]" + k);
      assert "" + (pad + ("]" + k)) == pad + ("]" + k);
    } else {
      IndentedItems(show, elems, indent, depth, k);
    }
  }

  /** What follows an element: its separator, the line break and the rows below. */
  lemma {:induction false} ItemsBelow(show: Shower, elems: seq<Json>, indent: nat, depth: nat, k: string)
    requires elems != [] && forall i | 0 <= i < |elems| :: Numbers(elems[i], TokenPrinted(show))
    ensures var items := ItemsOf(show, elems, Indented(indent, depth));
            items.item.after + PutItemsEnd(items, k)
            == (if |elems| == 1 then "" else ",") +
               ("\n" + (DumpElements(show, elems[1..], indent, depth) + (Pad(depth * indent) + ("]" + k))))
    decreases elems, 0
  {
    if |elems| > 1 {
      IndentedItems(show, elems[1..], indent, depth, k);
    } else {
      Assoc("\n", Pad(depth * indent), "]" + k);
      assert DumpElements(show, elems[1..], indent, depth) == "";
    }
  }

  lemma {:induction false} IndentedItems(show: Shower, elems: seq<Json>, indent: nat, depth: nat, k: string)
    requires elems != [] && forall i | 0 <= i < |elems| :: Numbers(elems[i], TokenPrinted(show))
    ensures PutItems(ItemsOf(show, elems, Indented(indent, depth)), k)
         == "\n" + (DumpElements(show, elems, indent, depth) + (Pad(depth * indent) + ("]" + k)))
    decreases elems, 1
  {
    var items := ItemsOf(show, elems, Indented(indent, depth));
    IndentedText(show, elems[0], indent, depth + 1, items.item.after + PutItemsEnd(items, k));
    ItemsBelow(show, elems, indent, depth, k);
    RowText(Pad((depth + 1) * indent), Dump(show, elems[0], indent, depth + 1), if |elems| == 1 then "" else ",",
            DumpElements(show, elems[1..], indent, depth), Pad(depth * indent) + ("]" + k));
  }

  lemma {:induction false} IndentedObject(show: Shower, members: seq<Member>, indent: nat, depth: nat, k: string)
    requires forall i | 0 <= i < |members| :: Numbers(members[i].value, TokenPrinted(show))
    ensures Put(DocOf(show, Object(members), Indented(indent, depth)), k)
         == Dump(show, Object(members), indent, depth) + k
    decreases members, 2
  {
    var pad := Pad(depth * indent);
    FrameText("{", DumpMembers(show, members, indent, depth), pad, "}", k);
    assert "{" + "\n" == "{\n";
    if members == [] {
      Assoc("\n", pad, "}" + k);
      assert "" + (pad + ("}" + k)) == pad + ("}" + k);
    } else {
      IndentedEntries(show, members, indent, depth, k);
    }
  }

  lemma {:induction false} EntriesBelow(show: Shower, members: seq<Member>, indent: nat, depth: nat, k: string)
    requires members != [] && forall i | 0 <= i < |members| :: Numbers(members[i].value, TokenPrinted(show))
    ensures var entries := EntriesOf(show, members, Indented(indent, depth));
            entries.entry.after + PutEntriesEnd(entries, k)
            == (if |members| == 1 then "" else ",") +
               ("\n" + (DumpMembers(show, members[1..], indent, depth) + (Pad(depth * indent) + ("}" + k))))
    decreases members, 0
  {
    if |members| > 1 {
      IndentedEntries(show, members[1..], indent, depth, k);
    } else {
      Assoc("\n", Pad(depth * indent), "}" + k);
      assert DumpMembers(show, members[1..], indent, depth) == "";
    }
  }

  lemma {:induction false} IndentedEntries(show: Shower, members: seq<Member>, indent: nat, depth: nat, k: string)
    requires members != [] && forall i | 0 <= i < |members| :: Numbers(members[i].value, TokenPrinted(show))
    ensures PutEntries(EntriesOf(show, members, Indented(indent, depth)), k)
         == "\n" + (DumpMembers(show, members, indent, depth) + (Pad(depth * indent) + ("}" + k)))
    decreases members, 1
  {
    var m := members[0];
    var entries := EntriesOf(show, members, Indented(indent, depth));
    IndentedText(show, m.value, indent, depth + 1, entries.entry.after + PutEntriesEnd(entries, k));
    EntriesBelow(show, members, indent, depth, k);
    EntryRowText(Pad((depth + 1) * indent), m.key, Dump(show, m.value, indent, depth + 1),
                 if |members| == 1 then "" else ",", DumpMembers(show, members[1..], indent, depth),
                 Pad(depth * indent) + ("}" + k));
  }

  lemma IndentedEntryText(inside: string, key: string, value: string, k: string)
    ensures ("\n" + inside) + ("\"" + (key + ("\"" + ("" + (":" + (" " + (value + k)))))))
         == "\n" + ((inside + "\"" + key + "\": " + value) + k)
  {
    MemberText("\n" + inside, key, " ", value, k);
    assert "\":" + " " == "\": ";
    assert ("\n" + inside) + "\"" + key + "\": " + value == "\n" + (inside + "\"" + key + "\": " + value);
    Assoc("\n", inside + "\"" + key + "\": " + value, k);
  }

  lemma EntryRowText(inside: string, key: string, value: string, sep: string, below: string, k: string)
    ensures ("\n" + inside) +
            ("\"" + (key + ("\"" + ("" + (":" + (" " + (value + (sep + ("\n" + (below + k)))))))))) ==
            "\n" + ((inside + "\"" + key + "\": " + value + sep + "\n" + below) + k)
  {
    IndentedEntryText(inside, key, value, sep + ("\n" + (below + k)));
    Regroup(inside + "\"" + key + "\": " + value, sep, "\n", below, k);
  }
}
