/** `value[a][b]... = x`: indexing creates what is missing on the way, assignment replaces
    what is there.  A path stands for the chain of `JsonValue` proxies. */
module JsonPaths {
  import opened Options
  import opened JsonParsing

  datatype Step = Key(k: string) | Index(i: nat)

  // ---------------------------------------------------------------- one step

  /** Position of the first member with this key, or the number of members. */
  function FirstWith(members: seq<Member>, key: string): (i: nat)
    ensures i <= |members|
    ensures i < |members| ==> members[i].key == key
    ensures forall j | 0 <= j < i :: members[j].key != key
  {
    if members == [] || members[0].key == key then 0 else 1 + FirstWith(members[1..], key)
  }

  /** `getRefForKeyCreate`: append a null member unless the key is there. */
  function WithKey(members: seq<Member>, key: string): seq<Member> {
    if FirstWith(members, key) < |members| then members else members + [Member(key, Null)]
  }

  /** `getElementRefCreate`: grow with nulls until the index is there. */
  function WithIndex(elems: seq<Json>, i: nat): seq<Json>
    decreases i - |elems|
  {
    if i < |elems| then elems else WithIndex(elems + [Null], i)
  }

  function MembersOf(v: Json): seq<Member> {
    if v.Object? then v.members else []
  }

  function ElementsOf(v: Json): seq<Json> {
    if v.Array? then v.elems else []
  }

  lemma FirstIs(members: seq<Member>, key: string, i: nat)
    requires i < |members| && members[i].key == key
    requires forall j | 0 <= j < i :: members[j].key != key
    ensures FirstWith(members, key) == i
  {
  }

  lemma WithKeyFinds(members: seq<Member>, key: string)
    ensures FirstWith(WithKey(members, key), key) == FirstWith(members, key) < |WithKey(members, key)|
  {
    if FirstWith(members, key) == |members| {
      FirstIs(WithKey(members, key), key, |members|);
    }
  }

  lemma {:induction false} WithIndexShape(elems: seq<Json>, i: nat)
    ensures var r := WithIndex(elems, i);
            && |r| == (if i < |elems| then |elems| else i + 1)
            && (forall j | 0 <= j < |elems| :: r[j] == elems[j])
            && (forall j | |elems| <= j < |r| :: r[j] == Null)
    decreases i - |elems|
  {
    if i >= |elems| {
      WithIndexShape(elems + [Null], i);
    }
  }

  // ---------------------------------------------------------------- paths

  /** The node below `v` that assignment through `step` descends to. */
  function Child(v: Json, step: Step): Json {
    match step
    case Key(k) =>
      WithKeyFinds(MembersOf(v), k);
      WithKey(MembersOf(v), k)[FirstWith(MembersOf(v), k)].value
    case Index(i) =>
      WithIndexShape(ElementsOf(v), i);
      WithIndex(ElementsOf(v), i)[i]
  }

  /** `v` with the node that `step` leads to replaced; a node of the wrong kind is replaced
      by an empty object or array first. */
  function SetChild(v: Json, step: Step, child: Json): Json {
    match step
    case Key(k) =>
      WithKeyFinds(MembersOf(v), k);
      Object(WithKey(MembersOf(v), k)[FirstWith(MembersOf(v), k) := Member(k, child)])
    case Index(i) =>
      WithIndexShape(ElementsOf(v), i);
      Array(WithIndex(ElementsOf(v), i)[i := child])
  }

  function Assign(root: Json, path: seq<Step>, v: Json): Json
    decreases path
  {
    if path == [] then v else SetChild(root, path[0], Assign(Child(root, path[0]), path[1..], v))
  }

  /** The constant `operator[]`: it creates nothing, and a missing key or index is an error. */
  function Get(v: Json, step: Step): Option<Json> {
    match step
    case Key(k) =>
      if v.Object? && FirstWith(v.members, k) < |v.members|
      then Some(v.members[FirstWith(v.members, k)].value) else None
    case Index(i) => if v.Array? && i < |v.elems| then Some(v.elems[i]) else None
  }

  function Lookup(root: Json, path: seq<Step>): Option<Json>
    decreases path
  {
    if path == [] then Some(root)
    else
      match Get(root, path[0])
      case None => None
      case Some(child) => Lookup(child, path[1..])
  }

  // ---------------------------------------------------------------- laws of one step

  lemma GetSet(v: Json, step: Step, child: Json)
    ensures Get(SetChild(v, step, child), step) == Some(child)
  {
    if step.Key? {
      WithKeyFinds(MembersOf(v), step.k);
      FirstIs(SetChild(v, step, child).members, step.k, FirstWith(MembersOf(v), step.k));
    } else {
      WithIndexShape(ElementsOf(v), step.i);
    }
  }

  /** What is already there is where assignment descends to; what is missing starts as null. */
  lemma ChildIsGet(v: Json, step: Step)
    ensures Child(v, step) == match Get(v, step) case Some(x) => x case None => Null
  {
    if step.Index? {
      WithIndexShape(ElementsOf(v), step.i);
    }
  }

  lemma SetSet(v: Json, step: Step, a: Json, b: Json)
    ensures SetChild(SetChild(v, step, a), step, b) == SetChild(v, step, b)
  {
    if step.Key? {
      WithKeyFinds(MembersOf(v), step.k);
      FirstIs(SetChild(v, step, a).members, step.k, FirstWith(MembersOf(v), step.k));
    } else {
      WithIndexShape(ElementsOf(v), step.i);
    }
  }

  predicate SameKind(a: Step, b: Step) {
    a.Key? <==> b.Key?
  }

  /** Assigning at index `a.i` creates a null at index `b.i`. */
  predicate Skipped(v: Json, a: Step, b: Step) {
    a.Index? && b.Index? && |ElementsOf(v)| <= b.i < a.i
  }

  lemma SameFirst(members: seq<Member>, other: seq<Member>, key: string)
    requires |members| <= |other|
    requires forall j | 0 <= j < |members| :: (members[j].key == key <==> other[j].key == key)
    requires forall j | |members| <= j < |other| :: other[j].key != key
    ensures FirstWith(members, key) < |members| ==> FirstWith(other, key) == FirstWith(members, key)
    ensures FirstWith(members, key) == |members| ==> FirstWith(other, key) == |other|
  {
  }

  /** A sibling keeps its value, or is a null created to fill a gap. */
  lemma GetOther(v: Json, a: Step, child: Json, b: Step)
    requires a != b && SameKind(a, b)
    ensures Get(SetChild(v, a, child), b) == if Skipped(v, a, b) then Some(Null) else Get(v, b)
  {
    var v' := SetChild(v, a, child);
    if a.Key? {
      WithKeyFinds(MembersOf(v), a.k);
      SameFirst(MembersOf(v), v'.members, b.k);
    } else {
      WithIndexShape(ElementsOf(v), a.i);
    }
  }

  // ---------------------------------------------------------------- laws of paths

  /** Assigning through a path and looking it up gives the assigned value. */
  lemma {:induction false} LookupAssigned(root: Json, path: seq<Step>, v: Json)
    ensures Lookup(Assign(root, path, v), path) == Some(v)
    decreases path
  {
    if path != [] {
      GetSet(root, path[0], Assign(Child(root, path[0]), path[1..], v));
      LookupAssigned(Child(root, path[0]), path[1..], v);
    }
  }

  /** A second assignment overwrites the first and leaves no other trace of it. */
  lemma {:induction false} AssignTwice(root: Json, path: seq<Step>, v: Json, w: Json)
    ensures Assign(Assign(root, path, v), path, w) == Assign(root, path, w)
    decreases path
  {
    if path != [] {
      var step, tail := path[0], path[1..];
      var below := Assign(Child(root, step), tail, v);
      GetSet(root, step, below);
      ChildIsGet(SetChild(root, step, below), step);
      AssignTwice(Child(root, step), tail, v, w);
      SetSet(root, step, below, Assign(Child(root, step), tail, w));
    }
  }

  /** The paths part at two different keys or two different indices. */
  predicate Diverge(p: seq<Step>, q: seq<Step>) {
    p != [] && q != [] &&
    if p[0] == q[0] then Diverge(p[1..], q[1..]) else SameKind(p[0], q[0])
  }

  /** Assignment through `p` creates a null exactly at `q`. */
  predicate FillsGap(root: Json, p: seq<Step>, q: seq<Step>)
    requires Diverge(p, q)
    decreases p
  {
    if p[0] == q[0] then FillsGap(Child(root, p[0]), p[1..], q[1..])
    else |q| == 1 && Skipped(root, p[0], q[0])
  }

  lemma NullHasNothing(q: seq<Step>)
    requires q != []
    ensures Lookup(Null, q) == None
  {
  }

  /** A diverging path sees no change, except the nulls that fill an array gap. */
  lemma {:induction false} AssignElsewhere(root: Json, p: seq<Step>, v: Json, q: seq<Step>)
    requires Diverge(p, q)
    ensures Lookup(Assign(root, p, v), q) == if FillsGap(root, p, q) then Some(Null) else Lookup(root, q)
    decreases p
  {
    var below := Assign(Child(root, p[0]), p[1..], v);
    if p[0] == q[0] {
      GetSet(root, p[0], below);
      ChildIsGet(root, p[0]);
      AssignElsewhere(Child(root, p[0]), p[1..], v, q[1..]);
      NullHasNothing(q[1..]);
    } else {
      GetOther(root, p[0], below, q[0]);
      if |q| > 1 {
        NullHasNothing(q[1..]);
      }
    }
  }

  /** A gap is never where something was defined, so a defined diverging path is unchanged. */
  lemma {:induction false} GapsWereUndefined(root: Json, p: seq<Step>, q: seq<Step>)
    requires Diverge(p, q) && FillsGap(root, p, q)
    ensures Lookup(root, q) == None
    decreases p
  {
    if p[0] == q[0] {
      ChildIsGet(root, p[0]);
      GapsWereUndefined(Child(root, p[0]), p[1..], q[1..]);
    }
  }

  // ---------------------------------------------------------------- exactly what is left

  ghost predicate HasKey(members: seq<Member>, key: string) {
    exists i | 0 <= i < |members| :: members[i].key == key
  }

  /** `i` is where the first member with the key is. */
  ghost predicate FirstAt(members: seq<Member>, key: string, i: nat) {
    i < |members| && members[i].key == key && forall j | 0 <= j < i :: members[j].key != key
  }

  lemma FirstAtUnique(members: seq<Member>, key: string, i: nat, j: nat)
    requires FirstAt(members, key, i) && FirstAt(members, key, j)
    ensures i == j
  {
    assert members[i].key == key && members[j].key == key;
  }

  /** One null member is appended if the key is missing, and nothing else changes. */
  lemma WithKeyShape(members: seq<Member>, key: string)
    ensures HasKey(members, key) ==> WithKey(members, key) == members
    ensures !HasKey(members, key) ==> WithKey(members, key) == members + [Member(key, Null)]
  {
  }

  ghost predicate FirstReplaced(held: seq<Member>, k: string, child: Json, members: seq<Member>, i: nat) {
    FirstAt(held, k, i) && members == held[i := Member(k, child)]
  }

  /** The object left by an assignment below key `k`: the same members, of which the first with
      that key has the new value, or one more at the end. */
  ghost predicate KeyAssigned(held: seq<Member>, k: string, child: Json, after: Json) {
    && after.Object?
    && (HasKey(held, k) ==> exists i: nat :: FirstReplaced(held, k, child, after.members, i))
    && (!HasKey(held, k) ==> after.members == held + [Member(k, child)])
  }

  /** The array left by an assignment below index `i`. */
  ghost predicate IndexAssigned(held: seq<Json>, i: nat, child: Json, after: Json) {
    && after.Array?
    && |after.elems| == (if i < |held| then |held| else i + 1)
    && forall j | 0 <= j < |after.elems| ::
         after.elems[j] == if j == i then child else if j < |held| then held[j] else Null
  }

  /** A value of another kind is replaced by an empty object or array first. */
  ghost predicate StepAssigned(before: Json, step: Step, child: Json, after: Json) {
    if step.Key? then KeyAssigned(if before.Object? then before.members else [], step.k, child, after)
    else IndexAssigned(if before.Array? then before.elems else [], step.i, child, after)
  }

  function OrNull(v: Option<Json>): Json {
    if v.Some? then v.value else Null
  }

  /** What the constant `operator[]` finds: the value of the first member with the key, or the
      element at the index; and it finds nothing else. */
  lemma {:induction false} GetIff(v: Json, step: Step, child: Json)
    ensures Get(v, step) == Some(child) <==>
              || (step.Key? && v.Object? && exists i: nat :: FirstAt(v.members, step.k, i) && v.members[i].value == child)
              || (step.Index? && v.Array? && step.i < |v.elems| && v.elems[step.i] == child)
  {
    if step.Key? && v.Object? {
      var i := FirstWith(v.members, step.k);
      assert i < |v.members| ==> FirstAt(v.members, step.k, i);
      forall j: nat | FirstAt(v.members, step.k, j) && i < |v.members| ensures j == i {
        FirstAtUnique(v.members, step.k, i, j);
      }
    }
  }

  /** The document left by `before[path...] = x`. */
  ghost predicate Assigned(before: Json, path: seq<Step>, x: Json, after: Json)
    decreases path
  {
    if path == [] then after == x
    else
      exists child :: Assigned(OrNull(Get(before, path[0])), path[1..], x, child) && StepAssigned(before, path[0], child, after)
  }

  lemma {:induction false} SetKeyIs(v: Json, k: string, child: Json, after: Json)
    ensures KeyAssigned(MembersOf(v), k, child, after) <==> after == SetChild(v, Key(k), child)
  {
    var ms := MembersOf(v);
    WithKeyFinds(ms, k);
    WithKeyShape(ms, k);
    if HasKey(ms, k) {
      var i := FirstWith(ms, k);
      assert FirstAt(ms, k, i);
      assert SetChild(v, Key(k), child) == Object(ms[i := Member(k, child)]);
      if after == SetChild(v, Key(k), child) {
        assert FirstReplaced(ms, k, child, after.members, i);
      }
      if KeyAssigned(ms, k, child, after) {
        var j: nat :| FirstReplaced(ms, k, child, after.members, j);
        FirstAtUnique(ms, k, i, j);
      }
    } else {
      assert (ms + [Member(k, Null)])[|ms| := Member(k, child)] == ms + [Member(k, child)];
      assert SetChild(v, Key(k), child) == Object(ms + [Member(k, child)]);
    }
  }

  lemma {:induction false} SetIndexIs(v: Json, i: nat, child: Json, after: Json)
    ensures IndexAssigned(ElementsOf(v), i, child, after) <==> after == SetChild(v, Index(i), child)
  {
    var held := ElementsOf(v);
    WithIndexShape(held, i);
    if IndexAssigned(held, i, child, after) {
      assert after.elems == SetChild(v, Index(i), child).elems;
    }
  }

  lemma {:induction false} SetIs(v: Json, step: Step, child: Json, after: Json)
    ensures StepAssigned(v, step, child, after) <==> after == SetChild(v, step, child)
  {
    if step.Key? {
      SetKeyIs(v, step.k, child, after);
    } else {
      SetIndexIs(v, step.i, child, after);
    }
  }

  lemma {:induction false} AssignedStep(root: Json, path: seq<Step>, x: Json, child: Json, after: Json)
    requires path != [] && Assigned(OrNull(Get(root, path[0])), path[1..], x, child) && StepAssigned(root, path[0], child, after)
    ensures Assigned(root, path, x, after)
  {
  }

  lemma {:induction false} AssignIsAssigned(root: Json, path: seq<Step>, x: Json)
    ensures Assigned(root, path, x, Assign(root, path, x))
    decreases path
  {
    if path != [] {
      var step, tail := path[0], path[1..];
      ChildIsGet(root, step);
      var below := Assign(Child(root, step), tail, x);
      AssignIsAssigned(Child(root, step), tail, x);
      SetIs(root, step, below, SetChild(root, step, below));
      AssignedStep(root, path, x, below, SetChild(root, step, below));
    }
  }

  lemma {:induction false} AssignedIsAssign(root: Json, path: seq<Step>, x: Json, after: Json)
    requires Assigned(root, path, x, after)
    ensures after == Assign(root, path, x)
    decreases path
  {
    if path != [] {
      var step, tail := path[0], path[1..];
      var child :| Assigned(OrNull(Get(root, step)), tail, x, child) && StepAssigned(root, step, child, after);
      ChildIsGet(root, step);
      AssignedIsAssign(Child(root, step), tail, x, child);
      SetIs(root, step, child, after);
    }
  }

  /** Assignment leaves exactly the document described, down the whole path: the same members and
      elements in the same places, later duplicates included, but for the ones on the path. */
  lemma {:induction false} AssignIff(root: Json, path: seq<Step>, x: Json, after: Json)
    ensures Assigned(root, path, x, after) <==> after == Assign(root, path, x)
  {
    AssignIsAssigned(root, path, x);
    if Assigned(root, path, x, after) {
      AssignedIsAssign(root, path, x, after);
    }
  }

  // ---------------------------------------------------------------- in place

  class JsonObject {
    var members: seq<Member>

    method GetRefForKeyCreate(key: string) returns (i: nat)
      modifies this
      ensures members == WithKey(old(members), key)
      ensures HasKey(old(members), key) ==> members == old(members)
      ensures !HasKey(old(members), key) ==> members == old(members) + [Member(key, Null)] && i == |old(members)|
      ensures FirstAt(members, key, i)
    {
      WithKeyFinds(members, key);
      i := 0;
      while i < |members|
        invariant i <= |members| && members == old(members)
        invariant forall j | 0 <= j < i :: members[j].key != key
      {
        if members[i].key == key {
          FirstIs(members, key, i);
          return;
        }
        i := i + 1;
      }
      members := members + [Member(key, Null)];
    }
  }

  class JsonArray {
    var elements: seq<Json>

    method GetElementRefCreate(idx: nat)
      modifies this
      ensures elements == WithIndex(old(elements), idx)
      ensures |elements| == if idx < |old(elements)| then |old(elements)| else idx + 1
      ensures forall j | 0 <= j < |elements| :: elements[j] == if j < |old(elements)| then old(elements)[j] else Null
    {
      WithIndexShape(elements, idx);
      while idx >= |elements|
        invariant WithIndex(elements, idx) == WithIndex(old(elements), idx)
        decreases idx - |elements|
      {
        elements := elements + [Null];
      }
    }
  }
}
