/** `toString` and `dump`.  `operator<<(double)` is the parameter `show`. */
module JsonPrinting {
  import opened Options
  import opened JsonParsing
  import opened JsonLayouts

  type Shower = real -> string

  /** The letter after the backslash, for the five characters that are escaped. */
  function EscapeLetter(c: char): Option<char> {
    match c
    case '"' => Some('"')
    case '\\' => Some('\\')
    case '\n' => Some('n')
    case '\r' => Some('r')
    case '\t' => Some('t')
    case _ => None
  }

  function EscapeChar(c: char): string {
    match EscapeLetter(c)
    case Some(e) => ['\\', e]
    case None => [c]
  }

  function Escape(s: string): string {
    if s == [] then [] else EscapeChar(s[0]) + Escape(s[1..])
  }

  function ToString(show: Shower, v: Json): string
    decreases v
  {
    match v
    case Null => "null"
    case Bool(b) => if b then "true" else "false"
    case Number(n) => show(n)
    case String(s) => "\"" + Escape(s) + "\""
    case Array(elems) => "[" + ElementsToString(show, elems) + "]"
    case Object(members) => "{" + MembersToString(show, members) + "}"
  }

  function ElementsToString(show: Shower, elems: seq<Json>): string
    decreases elems
  {
    if elems == [] then ""
    else ToString(show, elems[0]) + if |elems| == 1 then "" else "," + ElementsToString(show, elems[1..])
  }

  /** Keys are printed as they are, without escapes. */
  function MembersToString(show: Shower, members: seq<Member>): string
    decreases members
  {
    if members == [] then ""
    else
      "\"" + members[0].key + "\":" + ToString(show, members[0].value) +
      if |members| == 1 then "" else "," + MembersToString(show, members[1..])
  }

  function Pad(n: nat): (r: string)
    ensures AllSpace(r)
  {
    seq(n, _ => ' ')
  }

  function Dump(show: Shower, v: Json, indent: int, depth: nat): string
    decreases v
  {
    if indent < 0 then ToString(show, v)
    else
      match v
      case Array(elems) =>
        "[\n" + DumpElements(show, elems, indent, depth) + Pad(depth * indent) + "]"
      case Object(members) =>
        "{\n" + DumpMembers(show, members, indent, depth) + Pad(depth * indent) + "}"
      case _ => ToString(show, v)
  }

  function DumpElements(show: Shower, elems: seq<Json>, indent: nat, depth: nat): string
    decreases elems
  {
    if elems == [] then ""
    else
      Pad((depth + 1) * indent) + Dump(show, elems[0], indent, depth + 1) +
      (if |elems| == 1 then "" else ",") + "\n" + DumpElements(show, elems[1..], indent, depth)
  }

  function DumpMembers(show: Shower, members: seq<Member>, indent: nat, depth: nat): string
    decreases members
  {
    if members == [] then ""
    else
      Pad((depth + 1) * indent) + "\"" + members[0].key + "\": " + Dump(show, members[0].value, indent, depth + 1) +
      (if |members| == 1 then "" else ",") + "\n" + DumpMembers(show, members[1..], indent, depth)
  }

  // ---------------------------------------------------------------- the layouts they choose

  /** `Tight` is `toString`, `Indented` is `dump` with a non-negative indent. */
  datatype Style = Tight | Indented(indent: nat, depth: nat)

  function Deeper(st: Style): Style {
    if st.Tight? then Tight else Indented(st.indent, st.depth + 1)
  }

  function Lead(st: Style): (r: string)
    ensures AllSpace(r)
  {
    if st.Tight? then "" else "\n" + Pad((st.depth + 1) * st.indent)
  }

  function Trail(st: Style): (r: string)
    ensures AllSpace(r)
  {
    if st.Tight? then "" else "\n" + Pad(st.depth * st.indent)
  }

  function Gap(st: Style): (r: string)
    ensures AllSpace(r)
  {
    if st.Tight? then "" else " "
  }

  function DocOf(show: Shower, v: Json, st: Style): Doc
    decreases v
  {
    match v
    case Null => DocNull
    case Bool(b) => DocBool(b)
    case Number(n) => DocNumber(ScanNumber(show(n)).0)
    case String(s) => DocString(Escape(s))
    case Array(elems) => if elems == [] then DocEmptyArray(Trail(st)) else DocArray(ItemsOf(show, elems, st))
    case Object(members) =>
      if members == [] then DocEmptyObject(Trail(st)) else DocObject(EntriesOf(show, members, st))
  }

  function ItemsOf(show: Shower, elems: seq<Json>, st: Style): Items
    requires elems != []
    decreases elems
  {
    var doc := DocOf(show, elems[0], Deeper(st));
    if |elems| == 1 then LastItem(Item(Lead(st), doc, Trail(st)))
    else MoreItems(Item(Lead(st), doc, ""), ItemsOf(show, elems[1..], st))
  }

  function EntriesOf(show: Shower, members: seq<Member>, st: Style): Entries
    requires members != []
    decreases members
  {
    var doc := DocOf(show, members[0].value, Deeper(st));
    if |members| == 1 then LastEntry(Entry(Lead(st), members[0].key, "", Gap(st), doc, Trail(st)))
    else MoreEntries(Entry(Lead(st), members[0].key, "", Gap(st), doc, ""), EntriesOf(show, members[1..], st))
  }

  /** The number text that `show` prints is one number token. */
  predicate PrintsToken(show: Shower, n: real) {
    var t := show(n);
    t != [] && StartsNumber(t[0]) && ScanNumber(t).1 == []
  }

  /** Every number in `v` satisfies `p`. */
  predicate Numbers(v: Json, p: real -> bool)
    decreases v
  {
    match v
    case Number(n) => p(n)
    case Array(elems) => forall i | 0 <= i < |elems| :: Numbers(elems[i], p)
    case Object(members) => forall i | 0 <= i < |members| :: Numbers(members[i].value, p)
    case _ => true
  }
}
