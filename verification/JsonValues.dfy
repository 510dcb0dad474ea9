// The two JSON normalisers over object graphs that may share or contain themselves: the same
// walk with different caps (src/seven_lens/domain/json_values.py:102-172,
// src/seven_lens/analysis/model_envelope.py:1362-1418).

module JsonValues {
  import opened Orders

  const MAX_DEPTH := 32
  const MAX_NODES := 4_096
  const MAX_MEMBERS := 256
  const MAX_ITEMS := 512
  const MAX_KEY_BYTES := 128
  const MAX_STRING_BYTES := 16_384
  const MAX_SERIALIZED_BYTES := 65_536

  const MAX_SECTION_DEPTH := 16
  const MAX_SECTION_NODES := 4_096
  const MAX_MAP_MEMBERS := 128
  const MAX_SECTION_ITEMS := 1_024

  type CodePoint = c: nat | c < 0x110000

  type PyText = seq<CodePoint>

  /** Python values: containers by identity, everything else by content. */
  datatype PyValue =
    | Null | Flag(bool) | Whole(int) | Number(bits: nat, finite: bool) | Str(text: PyText)
    | Container(id: nat) | Alien

  datatype Member = Member(key: PyValue, value: PyValue)

  datatype PyContainer = Dict(members: seq<Member>) | List(items: seq<PyValue>) | Tuple(items: seq<PyValue>)

  type Heap = map<nat, PyContainer>

  datatype Json = Leaf(PyValue) | Obj(entries: seq<Entry>) | Arr(elements: seq<Json>)

  datatype Entry = Entry(key: PyText, value: Json)

  // ---------------------------------------------------------------- text caps

  predicate Surrogate(c: CodePoint) { 0xD800 <= c < 0xE000 }

  function Utf8Width(c: CodePoint): nat {
    if c < 0x80 then 1 else if c < 0x800 then 2 else if c < 0x10000 then 3 else 4
  }

  function Utf8Size(t: PyText): nat {
    if t == [] then 0 else Utf8Size(t[..|t| - 1]) + Utf8Width(t[|t| - 1])
  }

  /** Encodable text without NUL within `cap` bytes. */
  predicate TextFits(t: PyText, cap: nat) {
    && (forall i :: 0 <= i < |t| ==> t[i] != 0 && !Surrogate(t[i]))
    && Utf8Size(t) <= cap
  }

  predicate LeafFits(v: PyValue) {
    match v
    case Str(t) => TextFits(t, MAX_STRING_BYTES)
    case Number(_, finite) => finite
    case Container(_) => false
    case Alien => false
    case _ => true
  }

  predicate KeyTextFits(t: PyText) {
    TextFits(t, MAX_KEY_BYTES)
  }

  // ---------------------------------------------------------------- caps

  /** What a normaliser accepts: its caps, whether tuples count as lists, its leaves and its keys. */
  datatype Caps = Caps(depth: nat, nodes: nat, members: nat, items: nat, tuples: bool,
                       leaf: PyValue -> bool, key: PyText -> bool)
  {
    predicate Keys(k: PyValue) { k.Str? && key(k.text) }

    predicate Leaves(v: PyValue) { !v.Container? && leaf(v) }

    predicate Sized(c: PyContainer) {
      if c.Dict? then |c.members| <= members else |c.items| <= items && (c.Tuple? ==> tuples)
    }
  }

  /** Persisted payloads. */
  function PayloadCaps(): Caps {
    Caps(MAX_DEPTH, MAX_NODES, MAX_MEMBERS, MAX_ITEMS, false, LeafFits, KeyTextFits)
  }

  /** Envelope sections: tuples allowed, floats refused, what texts may say left to `text` and `key`. */
  function SectionCaps(text: PyText -> bool, key: PyText -> bool): Caps {
    Caps(MAX_SECTION_DEPTH, MAX_SECTION_NODES, MAX_MAP_MEMBERS, MAX_SECTION_ITEMS, true,
         (v: PyValue) => if v.Str? then text(v.text) else v.Null? || v.Flag? || v.Whole?,
         key)
  }

  // ---------------------------------------------------------------- the tree a value unfolds to

  /**
   * The value as a tree, when it meets every cap within `levels` further levels: the meaning
   * of normalisation.  A value that contains itself has no such tree.
   */
  function Unfold(caps: Caps, heap: Heap, v: PyValue, levels: int): Option<Json>
    decreases levels + 1, 1, 0
  {
    if levels < 0 then None
    else if !v.Container? then (if caps.Leaves(v) then Some(Leaf(v)) else None)
    else if v.id !in heap || !caps.Sized(heap[v.id]) then None
    else if heap[v.id].Dict? then
      var entries := UnfoldMembers(caps, heap, heap[v.id].members, levels - 1);
      if entries.None? then None else Some(Obj(entries.value))
    else
      var elements := UnfoldItems(caps, heap, heap[v.id].items, levels - 1);
      if elements.None? then None else Some(Arr(elements.value))
  }

  function UnfoldMembers(caps: Caps, heap: Heap, members: seq<Member>, levels: int): Option<seq<Entry>>
    decreases levels + 1, 2, |members|
  {
    if members == [] then Some([])
    else
      var rest := UnfoldMembers(caps, heap, members[..|members| - 1], levels);
      var Member(key, value) := members[|members| - 1];
      if rest.None? || !caps.Keys(key) then None
      else
        var last := Unfold(caps, heap, value, levels);
        if last.None? then None else Some(rest.value + [Entry(key.text, last.value)])
  }

  function UnfoldItems(caps: Caps, heap: Heap, items: seq<PyValue>, levels: int): Option<seq<Json>>
    decreases levels + 1, 2, |items|
  {
    if items == [] then Some([])
    else
      var rest := UnfoldItems(caps, heap, items[..|items| - 1], levels);
      if rest.None? then None
      else
        var last := Unfold(caps, heap, items[|items| - 1], levels);
        if last.None? then None else Some(rest.value + [last.value])
  }

  /** The number of nodes of a tree. */
  function Size(j: Json): nat {
    match j
    case Leaf(_) => 1
    case Obj(entries) => 1 + SizeEntries(entries)
    case Arr(elements) => 1 + SizeElements(elements)
  }

  function SizeEntries(entries: seq<Entry>): nat {
    if entries == [] then 0 else SizeEntries(entries[..|entries| - 1]) + Size(entries[|entries| - 1].value)
  }

  function SizeElements(elements: seq<Json>): nat {
    if elements == [] then 0 else SizeElements(elements[..|elements| - 1]) + Size(elements[|elements| - 1])
  }

  // ---------------------------------------------------------------- prefixes

  /** The last member's entry ends the entries of all. */
  lemma NoMembers(caps: Caps, heap: Heap, members: seq<Member>, levels: int)
    ensures UnfoldMembers(caps, heap, members[..0], levels) == Some([]) && SizeEntries([]) == 0
  {
  }

  lemma NoItems(caps: Caps, heap: Heap, items: seq<PyValue>, levels: int)
    ensures UnfoldItems(caps, heap, items[..0], levels) == Some([]) && SizeElements([]) == 0
  {
  }

  lemma MembersLast(caps: Caps, heap: Heap, members: seq<Member>, levels: int)
    requires members != [] && UnfoldMembers(caps, heap, members, levels).Some?
    ensures var rest := UnfoldMembers(caps, heap, members[..|members| - 1], levels);
            var all := UnfoldMembers(caps, heap, members, levels).value;
            var one := Unfold(caps, heap, members[|members| - 1].value, levels);
            rest.Some? && one.Some? && all != [] && rest.value == all[..|all| - 1]
            && SizeEntries(all) == SizeEntries(rest.value) + Size(one.value)
  {
    hide Unfold, Size, UnfoldItems;
    var rest := UnfoldMembers(caps, heap, members[..|members| - 1], levels).value;
    var all := UnfoldMembers(caps, heap, members, levels).value;
    assert |all| == |rest| + 1;
    assert all[..|rest|] == rest;
  }

  lemma {:induction false} MembersPrefix(caps: Caps, heap: Heap, members: seq<Member>, k: nat, levels: int)
    requires k <= |members| && UnfoldMembers(caps, heap, members, levels).Some?
    ensures UnfoldMembers(caps, heap, members[..k], levels).Some?
    ensures var all := UnfoldMembers(caps, heap, members, levels).value;
            |all| == |members| && UnfoldMembers(caps, heap, members[..k], levels).value == all[..k]
            && SizeEntries(all[..k]) <= SizeEntries(all)
    decreases |members|
  {
    hide Unfold, UnfoldItems, UnfoldMembers, SizeEntries, Size;
    var all := UnfoldMembers(caps, heap, members, levels).value;
    if members == [] {
      NoMembers(caps, heap, members, levels);
      assert members[..k] == members && members[..0] == members;
      assert all[..k] == all;
    } else {
      MembersLast(caps, heap, members, levels);
      MembersPrefix(caps, heap, members[..|members| - 1], if k == |members| then 0 else k, levels);
      if k == |members| {
        assert members[..k] == members && all[..k] == all;
      } else {
        assert members[..|members| - 1][..k] == members[..k] && all[..|all| - 1][..k] == all[..k];
      }
    }
  }

  lemma ItemsLast(caps: Caps, heap: Heap, items: seq<PyValue>, levels: int)
    requires items != [] && UnfoldItems(caps, heap, items, levels).Some?
    ensures var rest := UnfoldItems(caps, heap, items[..|items| - 1], levels);
            var all := UnfoldItems(caps, heap, items, levels).value;
            var one := Unfold(caps, heap, items[|items| - 1], levels);
            rest.Some? && one.Some? && all != [] && rest.value == all[..|all| - 1]
            && SizeElements(all) == SizeElements(rest.value) + Size(one.value)
  {
    hide Unfold, Size, UnfoldMembers;
    var rest := UnfoldItems(caps, heap, items[..|items| - 1], levels).value;
    var all := UnfoldItems(caps, heap, items, levels).value;
    assert |all| == |rest| + 1;
    assert all[..|rest|] == rest;
  }

  lemma {:induction false} ItemsPrefix(caps: Caps, heap: Heap, items: seq<PyValue>, k: nat, levels: int)
    requires k <= |items| && UnfoldItems(caps, heap, items, levels).Some?
    ensures UnfoldItems(caps, heap, items[..k], levels).Some?
    ensures var all := UnfoldItems(caps, heap, items, levels).value;
            |all| == |items| && UnfoldItems(caps, heap, items[..k], levels).value == all[..k]
            && SizeElements(all[..k]) <= SizeElements(all)
    decreases |items|
  {
    hide Unfold, UnfoldItems, UnfoldMembers, SizeElements, Size;
    var all := UnfoldItems(caps, heap, items, levels).value;
    if items == [] {
      NoItems(caps, heap, items, levels);
      assert items[..k] == items && items[..0] == items;
      assert all[..k] == all;
    } else {
      ItemsLast(caps, heap, items, levels);
      ItemsPrefix(caps, heap, items[..|items| - 1], if k == |items| then 0 else k, levels);
      if k == |items| {
        assert items[..k] == items && all[..k] == all;
      } else {
        assert items[..|items| - 1][..k] == items[..k] && all[..|all| - 1][..k] == all[..k];
      }
    }
  }

  // ---------------------------------------------------------------- cycles

  predicate ChildOf(heap: Heap, v: PyValue, c: PyValue) {
    v.Container? && v.id in heap &&
    if heap[v.id].Dict? then exists i :: 0 <= i < |heap[v.id].members| && heap[v.id].members[i].value == c
    else c in heap[v.id].items
  }

  /** `b` lies `k` steps below `a`. */
  ghost predicate Below(heap: Heap, a: PyValue, b: PyValue, k: nat)
    decreases k
  {
    if k == 0 then a == b else exists c :: ChildOf(heap, a, c) && Below(heap, c, b, k - 1)
  }

  lemma {:induction false} BelowExtends(heap: Heap, a: PyValue, b: PyValue, c: PyValue, k: nat)
    requires Below(heap, a, b, k) && ChildOf(heap, b, c)
    ensures Below(heap, a, c, k + 1)
    decreases k
  {
    if k == 0 {
      assert Below(heap, c, c, 0);
    } else {
      var d :| ChildOf(heap, a, d) && Below(heap, d, b, k - 1);
      BelowExtends(heap, d, b, c, k - 1);
    }
  }

  lemma {:induction false} MoreLevels(caps: Caps, heap: Heap, v: PyValue, levels: int, more: int)
    requires levels <= more && Unfold(caps, heap, v, levels).Some?
    ensures Unfold(caps, heap, v, more) == Unfold(caps, heap, v, levels)
    decreases levels + 1, 1, 0
  {
    if v.Container? && heap[v.id].Dict? {
      MoreLevelsMembers(caps, heap, heap[v.id].members, levels - 1, more - 1);
    } else if v.Container? {
      MoreLevelsItems(caps, heap, heap[v.id].items, levels - 1, more - 1);
    }
  }

  lemma {:induction false} MoreLevelsMembers(caps: Caps, heap: Heap, members: seq<Member>, levels: int, more: int)
    requires levels <= more && UnfoldMembers(caps, heap, members, levels).Some?
    ensures UnfoldMembers(caps, heap, members, more) == UnfoldMembers(caps, heap, members, levels)
    decreases levels + 1, 2, |members|
  {
    if members != [] {
      MoreLevelsMembers(caps, heap, members[..|members| - 1], levels, more);
      MoreLevels(caps, heap, members[|members| - 1].value, levels, more);
    }
  }

  lemma {:induction false} MoreLevelsItems(caps: Caps, heap: Heap, items: seq<PyValue>, levels: int, more: int)
    requires levels <= more && UnfoldItems(caps, heap, items, levels).Some?
    ensures UnfoldItems(caps, heap, items, more) == UnfoldItems(caps, heap, items, levels)
    decreases levels + 1, 2, |items|
  {
    if items != [] {
      MoreLevelsItems(caps, heap, items[..|items| - 1], levels, more);
      MoreLevels(caps, heap, items[|items| - 1], levels, more);
    }
  }

  lemma MemberIsSmaller(caps: Caps, heap: Heap, members: seq<Member>, i: nat, levels: int)
    requires i < |members| && UnfoldMembers(caps, heap, members, levels).Some?
    ensures Unfold(caps, heap, members[i].value, levels).Some?
    ensures Size(Unfold(caps, heap, members[i].value, levels).value)
            <= SizeEntries(UnfoldMembers(caps, heap, members, levels).value)
  {
    hide Unfold, UnfoldMembers, SizeEntries, Size;
    MembersPrefix(caps, heap, members, i + 1, levels);
    MembersLast(caps, heap, members[..i + 1], levels);
  }

  lemma ItemIsSmaller(caps: Caps, heap: Heap, items: seq<PyValue>, i: nat, levels: int)
    requires i < |items| && UnfoldItems(caps, heap, items, levels).Some?
    ensures Unfold(caps, heap, items[i], levels).Some?
    ensures Size(Unfold(caps, heap, items[i], levels).value) <= SizeElements(UnfoldItems(caps, heap, items, levels).value)
  {
    hide Unfold, UnfoldItems, SizeElements, Size;
    ItemsPrefix(caps, heap, items, i + 1, levels);
    ItemsLast(caps, heap, items[..i + 1], levels);
  }

  /** A child's tree is a proper part of its container's. */
  lemma ChildIsSmaller(caps: Caps, heap: Heap, v: PyValue, c: PyValue, levels: int)
    requires Unfold(caps, heap, v, levels).Some? && ChildOf(heap, v, c)
    ensures Unfold(caps, heap, c, levels - 1).Some?
    ensures Size(Unfold(caps, heap, c, levels - 1).value) < Size(Unfold(caps, heap, v, levels).value)
  {
    hide UnfoldMembers, UnfoldItems, SizeEntries, SizeElements;
    if heap[v.id].Dict? {
      var members := heap[v.id].members;
      var i :| 0 <= i < |members| && members[i].value == c;
      MemberIsSmaller(caps, heap, members, i, levels - 1);
    } else {
      var items := heap[v.id].items;
      var i :| 0 <= i < |items| && items[i] == c;
      ItemIsSmaller(caps, heap, items, i, levels - 1);
    }
  }

  lemma {:induction false} BelowIsSmaller(caps: Caps, heap: Heap, a: PyValue, b: PyValue, k: nat, levels: int)
    requires Unfold(caps, heap, a, levels).Some? && Below(heap, a, b, k)
    ensures Unfold(caps, heap, b, levels - k).Some?
    ensures k > 0 ==> Size(Unfold(caps, heap, b, levels - k).value) < Size(Unfold(caps, heap, a, levels).value)
    decreases k
  {
    if k > 0 {
      var c :| ChildOf(heap, a, c) && Below(heap, c, b, k - 1);
      ChildIsSmaller(caps, heap, a, c, levels);
      BelowIsSmaller(caps, heap, c, b, k - 1, levels - 1);
    }
  }

  /** A value that lies below itself unfolds to no tree, however many levels are allowed. */
  lemma CycleHasNoTree(caps: Caps, heap: Heap, v: PyValue, k: nat, levels: int)
    requires k > 0 && Below(heap, v, v, k)
    ensures Unfold(caps, heap, v, levels).None?
  {
    if Unfold(caps, heap, v, levels).Some? {
      BelowIsSmaller(caps, heap, v, v, k, levels);
      MoreLevels(caps, heap, v, levels - k, levels);
    }
  }

  // ---------------------------------------------------------------- the normaliser

  ghost predicate Closed(heap: Heap) {
    forall v, c :: ChildOf(heap, v, c) && c.Container? ==> c.id in heap
  }

  /** Every container being normalised lies above `v`. */
  ghost predicate PathTo(heap: Heap, active: set<nat>, v: PyValue) {
    forall a :: a in active ==> exists k: nat :: k > 0 && Below(heap, Container(a), v, k)
  }

  lemma PathExtends(heap: Heap, active: set<nat>, v: PyValue, c: PyValue)
    requires PathTo(heap, active, v) && v.Container? && ChildOf(heap, v, c)
    ensures PathTo(heap, active + {v.id}, c)
  {
    forall a | a in active + {v.id}
      ensures exists k: nat :: k > 0 && Below(heap, Container(a), c, k)
    {
      if a in active {
        var k: nat :| k > 0 && Below(heap, Container(a), v, k);
        BelowExtends(heap, Container(a), v, c, k);
      } else {
        assert Below(heap, v, v, 0);
        BelowExtends(heap, v, v, c, 0);
      }
    }
  }

  lemma MemberAdds(caps: Caps, heap: Heap, members: seq<Member>, i: nat, levels: int, entries: seq<Entry>)
    requires i < |members| && UnfoldMembers(caps, heap, members[..i], levels) == Some(entries)
    ensures UnfoldMembers(caps, heap, members[..i + 1], levels)
            == AddMember(caps, entries, members[i], Unfold(caps, heap, members[i].value, levels))
  {
    hide Unfold, Size, TextFits, UnfoldItems, SizeElements, SizeEntries;
    assert members[..i + 1][..i] == members[..i];
  }

  function AddMember(caps: Caps, entries: seq<Entry>, m: Member, tree: Option<Json>): Option<seq<Entry>> {
    if caps.Keys(m.key) && tree.Some? then Some(entries + [Entry(m.key.text, tree.value)]) else None
  }

  lemma EntryAdds(entries: seq<Entry>, e: Entry)
    ensures SizeEntries(entries + [e]) == SizeEntries(entries) + Size(e.value)
  {
    assert (entries + [e])[..|entries|] == entries;
  }

  /** One more member: what it adds, and what it rules out for the whole. */
  lemma MemberNext(caps: Caps, heap: Heap, members: seq<Member>, i: nat, levels: int, entries: seq<Entry>)
    requires i < |members| && UnfoldMembers(caps, heap, members[..i], levels) == Some(entries)
    ensures var Member(key, value) := members[i];
            var one, all := Unfold(caps, heap, value, levels), UnfoldMembers(caps, heap, members, levels);
            && (all.Some? ==> caps.Keys(key) && one.Some? && SizeEntries(entries) + Size(one.value) <= SizeEntries(all.value))
            && (caps.Keys(key) && one.Some? ==>
                  && UnfoldMembers(caps, heap, members[..i + 1], levels) == Some(entries + [Entry(key.text, one.value)])
                  && SizeEntries(entries + [Entry(key.text, one.value)]) == SizeEntries(entries) + Size(one.value))
  {
    var one := Unfold(caps, heap, members[i].value, levels);
    MemberAdds(caps, heap, members, i, levels, entries);
    if UnfoldMembers(caps, heap, members, levels).Some? { MembersPrefix(caps, heap, members, i + 1, levels); }
    if caps.Keys(members[i].key) && one.Some? { EntryAdds(entries, Entry(members[i].key.text, one.value)); }
    hide Unfold, Size, TextFits, UnfoldMembers, SizeEntries;
  }

  lemma ItemNext(caps: Caps, heap: Heap, items: seq<PyValue>, i: nat, levels: int, elements: seq<Json>)
    requires i < |items| && UnfoldItems(caps, heap, items[..i], levels) == Some(elements)
    ensures var one, all := Unfold(caps, heap, items[i], levels), UnfoldItems(caps, heap, items, levels);
            && (all.Some? ==> one.Some? && SizeElements(elements) + Size(one.value) <= SizeElements(all.value))
            && (one.Some? ==>
                  && UnfoldItems(caps, heap, items[..i + 1], levels) == Some(elements + [one.value])
                  && SizeElements(elements + [one.value]) == SizeElements(elements) + Size(one.value))
  {
    var one := Unfold(caps, heap, items[i], levels);
    ItemAdds(caps, heap, items, i, levels, elements);
    if UnfoldItems(caps, heap, items, levels).Some? { ItemsPrefix(caps, heap, items, i + 1, levels); }
    if one.Some? { ElementAdds(elements, one.value); }
    hide Unfold, Size, UnfoldItems, SizeElements;
  }

  lemma ItemAdds(caps: Caps, heap: Heap, items: seq<PyValue>, i: nat, levels: int, elements: seq<Json>)
    requires i < |items| && UnfoldItems(caps, heap, items[..i], levels) == Some(elements)
    ensures var one := Unfold(caps, heap, items[i], levels);
            UnfoldItems(caps, heap, items[..i + 1], levels) == if one.Some? then Some(elements + [one.value]) else None
  {
    hide Unfold, Size, UnfoldMembers, SizeElements, SizeEntries;
    assert items[..i + 1][..i] == items[..i];
  }

  lemma ElementAdds(elements: seq<Json>, j: Json)
    ensures SizeElements(elements + [j]) == SizeElements(elements) + Size(j)
  {
    assert (elements + [j])[..|elements|] == elements;
  }

  lemma MemberReached(heap: Heap, active: set<nat>, v: PyValue, i: nat)
    requires Closed(heap) && v.Container? && v.id in heap && heap[v.id].Dict? && i < |heap[v.id].members|
    requires v.id in active && PathTo(heap, active - {v.id}, v)
    ensures var c := heap[v.id].members[i].value; PathTo(heap, active, c) && (c.Container? ==> c.id in heap)
  {
    var c := heap[v.id].members[i].value;
    assert ChildOf(heap, v, c);
    PathExtends(heap, active - {v.id}, v, c);
    assert active - {v.id} + {v.id} == active;
  }

  lemma ItemReached(heap: Heap, active: set<nat>, v: PyValue, i: nat)
    requires Closed(heap) && v.Container? && v.id in heap && !heap[v.id].Dict? && i < |heap[v.id].items|
    requires v.id in active && PathTo(heap, active - {v.id}, v)
    ensures var c := heap[v.id].items[i]; PathTo(heap, active, c) && (c.Container? ==> c.id in heap)
  {
    var c := heap[v.id].items[i];
    assert ChildOf(heap, v, c);
    PathExtends(heap, active - {v.id}, v, c);
    assert active - {v.id} + {v.id} == active;
  }

  /** Within the caps and the remaining node budget. */
  predicate Accepted(caps: Caps, tree: Option<Json>, nodes: nat) {
    tree.Some? && nodes + Size(tree.value) <= caps.nodes
  }

  class Normalizer {
    const caps: Caps
    var active: set<nat>
    var nodes: nat

    constructor (caps: Caps)
      ensures this.caps == caps && active == {} && nodes == 0
    {
      this.caps, active, nodes := caps, {}, 0;
    }

    /**
     * Succeeds exactly when the value's tree meets every cap; then returns that tree and adds
     * its size to the budget.  The active set is restored either way.
     */
    method Normalize(heap: Heap, v: PyValue, depth: nat) returns (r: Option<Json>)
      requires Closed(heap) && (v.Container? ==> v.id in heap) && PathTo(heap, active, v)
      requires depth <= caps.depth + 1
      modifies this`active, this`nodes
      ensures active == old(active)
      ensures r.Some? <==> Accepted(caps, Unfold(caps, heap, v, caps.depth - depth), old(nodes))
      ensures r.Some? ==> r == Unfold(caps, heap, v, caps.depth - depth) && nodes == old(nodes) + Size(r.value)
      decreases caps.depth + 1 - depth, 1
    {
      if depth > caps.depth { return None; }
      nodes := nodes + 1;
      ghost var tree := Unfold(caps, heap, v, caps.depth - depth);
      assert tree.Some? ==> Size(tree.value) >= 1;
      if nodes > caps.nodes { return None; }
      if !v.Container? {
        return if caps.Leaves(v) then Some(Leaf(v)) else None;
      }
      if !caps.Sized(heap[v.id]) { return None; }
      if v.id in active {
        ghost var k: nat :| k > 0 && Below(heap, Container(v.id), v, k);
        CycleHasNoTree(caps, heap, v, k, caps.depth - depth);
        return None;
      }
      ghost var outer := active;
      active := active + {v.id};
      if heap[v.id].Dict? {
        var entries := NormalizeMembers(heap, v, depth);
        r := if entries.Some? then Some(Obj(entries.value)) else None;
      } else {
        var elements := NormalizeItems(heap, v, depth);
        r := if elements.Some? then Some(Arr(elements.value)) else None;
      }
      active := active - {v.id};
      assert active == outer;
    }

    method NormalizeMembers(heap: Heap, v: PyValue, depth: nat) returns (r: Option<seq<Entry>>)
      requires Closed(heap) && v.Container? && v.id in heap && heap[v.id].Dict?
      requires v.id in active && PathTo(heap, active - {v.id}, v) && depth <= caps.depth && nodes <= caps.nodes
      modifies this`active, this`nodes
      ensures active == old(active)
      ensures var all := UnfoldMembers(caps, heap, heap[v.id].members, caps.depth - depth - 1);
              && (r.Some? <==> all.Some? && old(nodes) + SizeEntries(all.value) <= caps.nodes)
              && (r.Some? ==> r == all && nodes == old(nodes) + SizeEntries(r.value))
      decreases caps.depth + 1 - depth, 0
    {
      hide Unfold, Closed, Size, SizeEntries, UnfoldMembers, UnfoldItems, PathTo;
      var members, levels := heap[v.id].members, caps.depth - depth - 1;
      ghost var start := nodes;
      ghost var all := UnfoldMembers(caps, heap, members, levels);
      var entries: seq<Entry> := [];
      NoMembers(caps, heap, members, levels);
      for i := 0 to |members|
        invariant active == old(active)
        invariant UnfoldMembers(caps, heap, members[..i], levels) == Some(entries)
        invariant nodes == start + SizeEntries(entries) <= caps.nodes
      {
        var Member(key, value) := members[i];
        MemberNext(caps, heap, members, i, levels, entries);
        if !caps.Keys(key) { return None; }
        MemberReached(heap, active, v, i);
        var one := Normalize(heap, value, depth + 1);
        if one.None? { return None; }
        entries := entries + [Entry(key.text, one.value)];
      }
      assert members[..|members|] == members;
      r := Some(entries);
    }

    method NormalizeItems(heap: Heap, v: PyValue, depth: nat) returns (r: Option<seq<Json>>)
      requires Closed(heap) && v.Container? && v.id in heap && !heap[v.id].Dict?
      requires v.id in active && PathTo(heap, active - {v.id}, v) && depth <= caps.depth && nodes <= caps.nodes
      modifies this`active, this`nodes
      ensures active == old(active)
      ensures var all := UnfoldItems(caps, heap, heap[v.id].items, caps.depth - depth - 1);
              && (r.Some? <==> all.Some? && old(nodes) + SizeElements(all.value) <= caps.nodes)
              && (r.Some? ==> r == all && nodes == old(nodes) + SizeElements(r.value))
      decreases caps.depth + 1 - depth, 0
    {
      hide Unfold, Closed, Size, SizeElements, UnfoldItems, UnfoldMembers, PathTo;
      var items, levels := heap[v.id].items, caps.depth - depth - 1;
      ghost var start := nodes;
      ghost var all := UnfoldItems(caps, heap, items, levels);
      var elements: seq<Json> := [];
      NoItems(caps, heap, items, levels);
      for i := 0 to |items|
        invariant active == old(active)
        invariant UnfoldItems(caps, heap, items[..i], levels) == Some(elements)
        invariant nodes == start + SizeElements(elements) <= caps.nodes
      {
        ItemNext(caps, heap, items, i, levels, elements);
        ItemReached(heap, active, v, i);
        var one := Normalize(heap, items[i], depth + 1);
        if one.None? { return None; }
        elements := elements + [one.value];
      }
      assert items[..|items|] == items;
      r := Some(elements);
    }
  }

  // ---------------------------------------------------------------- counting nodes

  /** The nodes met below a value, down to `levels`: what the envelope counts once it is built. */
  function CountNodes(heap: Heap, v: PyValue, levels: int): nat
    decreases levels + 1, 1, 0
  {
    if levels < 0 then 0
    else if !v.Container? || v.id !in heap then 1
    else if heap[v.id].Dict? then 1 + CountMembers(heap, heap[v.id].members, levels - 1)
    else 1 + CountItems(heap, heap[v.id].items, levels - 1)
  }

  function CountMembers(heap: Heap, members: seq<Member>, levels: int): nat
    decreases levels + 1, 2, |members|
  {
    if members == [] then 0
    else CountMembers(heap, members[..|members| - 1], levels) + CountNodes(heap, members[|members| - 1].value, levels)
  }

  function CountItems(heap: Heap, items: seq<PyValue>, levels: int): nat
    decreases levels + 1, 2, |items|
  {
    if items == [] then 0
    else CountItems(heap, items[..|items| - 1], levels) + CountNodes(heap, items[|items| - 1], levels)
  }

  /** Counting the graph, shared parts once per path, is counting the tree it normalises to. */
  lemma {:induction false} CountIsTreeSize(caps: Caps, heap: Heap, v: PyValue, levels: int)
    requires Unfold(caps, heap, v, levels).Some?
    ensures CountNodes(heap, v, levels) == Size(Unfold(caps, heap, v, levels).value)
    decreases levels + 1, 1, 0
  {
    if v.Container? && heap[v.id].Dict? {
      CountIsMembersSize(caps, heap, heap[v.id].members, levels - 1);
    } else if v.Container? {
      CountIsItemsSize(caps, heap, heap[v.id].items, levels - 1);
    }
  }

  lemma {:induction false} CountIsMembersSize(caps: Caps, heap: Heap, members: seq<Member>, levels: int)
    requires UnfoldMembers(caps, heap, members, levels).Some?
    ensures CountMembers(heap, members, levels) == SizeEntries(UnfoldMembers(caps, heap, members, levels).value)
    decreases levels + 1, 2, |members|
  {
    if members != [] {
      CountIsMembersSize(caps, heap, members[..|members| - 1], levels);
      CountIsTreeSize(caps, heap, members[|members| - 1].value, levels);
      MembersLast(caps, heap, members, levels);
    }
  }

  lemma {:induction false} CountIsItemsSize(caps: Caps, heap: Heap, items: seq<PyValue>, levels: int)
    requires UnfoldItems(caps, heap, items, levels).Some?
    ensures CountItems(heap, items, levels) == SizeElements(UnfoldItems(caps, heap, items, levels).value)
    decreases levels + 1, 2, |items|
  {
    if items != [] {
      CountIsItemsSize(caps, heap, items[..|items| - 1], levels);
      CountIsTreeSize(caps, heap, items[|items| - 1], levels);
      ItemsLast(caps, heap, items, levels);
    }
  }

  // ---------------------------------------------------------------- the two normalisers

  /** A persisted payload: an object whose tree meets every cap and prints within the byte cap, or nothing. */
  method NormalizePayload(heap: Heap, v: PyValue, printed: Json -> nat) returns (r: Option<Json>)
    requires Closed(heap) && (v.Container? ==> v.id in heap)
    ensures var tree := Unfold(PayloadCaps(), heap, v, MAX_DEPTH);
            && (r.Some? <==> Accepted(PayloadCaps(), tree, 0) && tree.value.Obj? && printed(tree.value) <= MAX_SERIALIZED_BYTES)
            && (r.Some? ==> r == tree)
  {
    var normalizer := new Normalizer(PayloadCaps());
    var tree := normalizer.Normalize(heap, v, 0);
    r := if tree.Some? && tree.value.Obj? && printed(tree.value) <= MAX_SERIALIZED_BYTES then tree else None;
  }

  /** An envelope section: the budget it spends is the number of nodes counted later. */
  method NormalizeSection(heap: Heap, v: PyValue, text: PyText -> bool, key: PyText -> bool)
    returns (r: Option<Json>, spent: nat)
    requires Closed(heap) && (v.Container? ==> v.id in heap)
    ensures r.Some? <==> Accepted(SectionCaps(text, key), Unfold(SectionCaps(text, key), heap, v, MAX_SECTION_DEPTH), 0)
    ensures r.Some? ==> r == Unfold(SectionCaps(text, key), heap, v, MAX_SECTION_DEPTH)
    ensures r.Some? ==> spent == Size(r.value) == CountNodes(heap, v, MAX_SECTION_DEPTH) <= MAX_SECTION_NODES
  {
    var normalizer := new Normalizer(SectionCaps(text, key));
    r := normalizer.Normalize(heap, v, 0);
    spent := normalizer.nodes;
    if r.Some? { CountIsTreeSize(SectionCaps(text, key), heap, v, MAX_SECTION_DEPTH); }
  }
}
