/** How `iov_boundaries` walks a tree, step by step (a leaf, an index, its
    entries), and what it finds on the mini repository at tag `v1` in the
    `GetIOVs` unit test, where a group redirects to sibling payloads
    through `../`. The repository is described by what the walk reads of
    it: the index texts and the leaves it reaches. */
module BoundaryCases {
  import opened Text
  import opened Outcome
  import opened Iov
  import opened IovHelpers
  import opened DBImpl
  import opened Normalize
  import opened CondDB
  import opened MiniRepo

  // ---------------------------------------------------------------------
  // Ids below a directory

  /** `dir` at `tag` names a top-level object: the tag has neither
      separator and `dir` is one path component. */
  predicate Tagged(tag: string, dir: string)
  {
    ':' !in tag && '/' !in tag && Name(dir)
  }

  predicate Plain(comps: seq<string>)
  {
    forall k :: 0 <= k < |comps| ==> PlainName(comps[k])
  }

  /** The id of `dir/c1/.../cn` at `tag`. */
  function Under(tag: string, dir: string, comps: seq<string>): string
  {
    Id(tag, dir) + Suffix(comps)
  }

  /** Ids below a tagged directory carry the tag separator and a
      non-empty path. */
  lemma TaggedUnder(tag: string, dir: string, comps: seq<string>)
    requires Tagged(tag, dir)
    ensures ':' in Under(tag, dir, comps) && StripTag(Under(tag, dir, comps)) != []
  {
    var id := Id(tag, dir);
    assert id[|tag|] == ':';
    assert Under(tag, dir, comps)[|tag|] == ':';
    StripTagIgnoresTag(tag, dir);
    StripTagAppend(id, Suffix(comps));
  }

  /** Joining a plain name to such an id gives an id `normalize` keeps. */
  lemma ChildId(tag: string, dir: string, comps: seq<string>, name: string)
    requires Tagged(tag, dir) && Plain(comps) && PlainName(name)
    ensures Normalized(Under(tag, dir, comps) + "/" + name) == Under(tag, dir, comps + [name])
    ensures Plain(comps + [name])
  {
    var w := Id(tag, dir);
    assert '/' !in w;
    SuffixSnoc(comps, name);
    assert forall k :: 0 <= k < |comps + [name]| ==> PlainName((comps + [name])[k]);
    PlainPathNormal(w, comps + [name]);
    assert w + Suffix(comps) + "/" + name == w + (Suffix(comps) + "/" + name);
  }

  lemma OneComponent(c: string)
    ensures Suffix([c]) == "/" + c
  {
    assert [c][1..] == [];
    assert Suffix([c]) == "/" + c + Suffix([]);
  }

  /** `dir/g` joined with `../leaf` normalises to `dir/leaf`. */
  lemma SiblingId(tag: string, dir: string, g: string, leaf: string)
    requires Tagged(tag, dir) && Name(g) && Name(leaf)
    ensures Normalized(Under(tag, dir, [g]) + "/" + ("../" + leaf)) == Under(tag, dir, [leaf])
  {
    assert '/' !in Id(tag, dir);
    OneComponent(g);
    OneComponent(leaf);
    SiblingPath(Id(tag, dir), g, leaf);
  }

  lemma SiblingPath(w: string, g: string, leaf: string)
    requires '/' !in w && Name(g) && Name(leaf)
    ensures Normalized(w + ("/" + g) + "/" + ("../" + leaf)) == w + ("/" + leaf)
  {
    var x, s, d := "/" + g, "/", "../";
    assert s + d == "/../";
    Rebracket(w, x, s, d, leaf);
    ParentSegmentRemoved(w, g, leaf);
  }

  // Three small facts of sequence algebra. They are helpers, not results:
  // stated inline in the walks below, they make those proofs too costly.

  lemma Rebracket(w: string, x: string, s: string, d: string, y: string)
    ensures w + x + s + (d + y) == w + (x + (s + d) + y)
  {
  }

  lemma UnderNone(tag: string, dir: string)
    ensures Under(tag, dir, []) == Id(tag, dir)
  {
  }

  lemma OneAfterNone(c: string)
    ensures [] + [c] == [c]
  {
  }

  lemma UnderOne(tag: string, dir: string, c: string)
    ensures Under(tag, dir, [c]) == Id(tag, dir + "/" + c)
  {
    OneComponent(c);
  }

  // ---------------------------------------------------------------------
  // Steps of the accumulation

  /** An object that is not a directory has no `IOVs` file: it is one leaf
      that keeps the limits it is reached with. */
  lemma PayloadLeaf(doc: Json, id: string, limits: IOV, fuel: Fuel)
    requires ':' in id && StripTag(id) != []
    requires !Value(doc, id).Object?
    ensures Accumulate(doc, id, limits, fuel).value == Ok([(limits, id)])
  {
    IovsFileName();
    NothingBelow(doc, id, "IOVs");
    JoinedName(id, "IOVs", "/IOVs");
    TaggedAppend(id, "/IOVs");
    LeafValue(doc, id, limits, fuel);
  }

  /** An object with an `IOVs` file is the union of its entries. */
  lemma IndexEntries(doc: Json, id: string, text: string, limits: IOV, fuel: Fuel)
    requires ':' in id
    requires Value(doc, id + "/IOVs") == Str(text)
    ensures Accumulate(doc, id, limits, More(fuel)).value == AccumulateEntries(doc, id, limits, IovsKeys(text), fuel).value
  {
    TaggedAppend(id, "/IOVs");
    IndexValue(doc, id, text, limits, fuel);
  }

  /** Two entries whose visits succeed contribute their leaves in order. */
  lemma TwoEntries(doc: Json, id: string, limits: IOV, e0: (IOV, string), e1: (IOV, string), fuel: Fuel,
                   a: seq<(IOV, string)>, b: seq<(IOV, string)>)
    requires Visit(doc, id, limits, e0, fuel).value == Ok(a)
    requires Visit(doc, id, limits, e1, fuel).value == Ok(b)
    ensures AccumulateEntries(doc, id, limits, [e0, e1], fuel).value == Ok(a + b)
  {
    var es := [e0, e1];
    FirstEntry(doc, id, limits, es, fuel, a);
    EntriesValueStep(doc, id, limits, es, 1, fuel, a, b);
    assert es[..2] == es;
  }

  /** The loop's first step over a non-empty list of entries. */
  lemma FirstEntry(doc: Json, id: string, limits: IOV, es: seq<(IOV, string)>, fuel: Fuel, a: seq<(IOV, string)>)
    requires es != [] && Visit(doc, id, limits, es[0], fuel).value == Ok(a)
    ensures AccumulateEntries(doc, id, limits, es[..1], fuel).value == Ok(a)
  {
    assert es[..0] == [];
    assert [] + a == a;
    EntriesValueStep(doc, id, limits, es, 0, fuel, [], a);
  }

  /** Three entries whose visits succeed contribute their leaves in order. */
  lemma ThreeEntries(doc: Json, id: string, limits: IOV, e0: (IOV, string), e1: (IOV, string), e2: (IOV, string),
                     fuel: Fuel, a: seq<(IOV, string)>, b: seq<(IOV, string)>, c: seq<(IOV, string)>)
    requires Visit(doc, id, limits, e0, fuel).value == Ok(a)
    requires Visit(doc, id, limits, e1, fuel).value == Ok(b)
    requires Visit(doc, id, limits, e2, fuel).value == Ok(c)
    ensures AccumulateEntries(doc, id, limits, [e0, e1, e2], fuel).value == Ok(a + b + c)
  {
    var es := [e0, e1, e2];
    assert es[..2] == [e0, e1] && es[..3] == es;
    TwoEntries(doc, id, limits, e0, e1, fuel, a, b);
    EntriesValueStep(doc, id, limits, es, 2, fuel, a + b, c);
  }

  /** An entry outside the limits is skipped. */
  lemma SkippedEntry(doc: Json, id: string, limits: IOV, e: (IOV, string), fuel: Fuel)
    requires !limits.Overlaps(e.0)
    ensures Visit(doc, id, limits, e, fuel).value == Ok([])
  {
  }

  /** An entry naming a plain child is resolved in that child, within the
      common part of the limits and the entry's IOV. */
  lemma ChildEntry(doc: Json, tag: string, dir: string, comps: seq<string>, limits: IOV,
                   e: (IOV, string), fuel: Fuel)
    requires Tagged(tag, dir) && Plain(comps) && PlainName(e.1) && limits.Overlaps(e.0)
    ensures Visit(doc, Under(tag, dir, comps), limits, e, fuel)
            == Accumulate(doc, Under(tag, dir, comps + [e.1]), limits.Intersect(e.0), fuel)
  {
    ChildId(tag, dir, comps, e.1);
  }

  /** An entry `../s` in the index of `dir/g` is resolved in `dir/s`. */
  lemma SiblingEntry(doc: Json, tag: string, dir: string, g: string, s: string, limits: IOV,
                     e: (IOV, string), fuel: Fuel)
    requires Tagged(tag, dir) && Name(g) && Name(s) && e.1 == "../" + s && limits.Overlaps(e.0)
    ensures Visit(doc, Under(tag, dir, [g]), limits, e, fuel)
            == Accumulate(doc, Under(tag, dir, [s]), limits.Intersect(e.0), fuel)
  {
    SiblingId(tag, dir, g, s);
  }

  /** `dir/c1/.../cn` at `tag` has the index `text`. */
  predicate IndexUnder(doc: Json, tag: string, dir: string, comps: seq<string>, text: string)
  {
    Tagged(tag, dir) && Value(doc, Under(tag, dir, comps) + "/IOVs") == Str(text)
  }

  /** Entry `e` of the index of `dir/c1/.../cn` names a plain child, inside
      the limits, that is not an object. */
  predicate LeafBelow(doc: Json, tag: string, dir: string, comps: seq<string>, limits: IOV, e: (IOV, string))
  {
    && Tagged(tag, dir) && Plain(comps) && PlainName(e.1) && limits.Overlaps(e.0)
    && !Value(doc, Under(tag, dir, comps + [e.1])).Object?
  }

  /** Entry `e` of the index of `dir/g` names `../s`, inside the limits,
      and `dir/s` is not an object. */
  predicate SiblingBelow(doc: Json, tag: string, dir: string, g: string, s: string, limits: IOV, e: (IOV, string))
  {
    && Tagged(tag, dir) && Name(g) && Name(s) && e.1 == "../" + s && limits.Overlaps(e.0)
    && !Value(doc, Under(tag, dir, [s])).Object?
  }

  /** The leaf an entry naming a plain child contributes. */
  function ChildLeaf(tag: string, dir: string, comps: seq<string>, limits: IOV, e: (IOV, string)): (IOV, string)
  {
    (limits.Intersect(e.0), Under(tag, dir, comps + [e.1]))
  }

  /** An entry naming a plain child that is a leaf contributes that leaf. */
  lemma ChildLeafEntry(doc: Json, tag: string, dir: string, comps: seq<string>, limits: IOV,
                       e: (IOV, string), fuel: Fuel)
    requires LeafBelow(doc, tag, dir, comps, limits, e)
    ensures Visit(doc, Under(tag, dir, comps), limits, e, fuel).value == Ok([ChildLeaf(tag, dir, comps, limits, e)])
  {
    ChildEntry(doc, tag, dir, comps, limits, e, fuel);
    TaggedUnder(tag, dir, comps + [e.1]);
    PayloadLeaf(doc, Under(tag, dir, comps + [e.1]), limits.Intersect(e.0), fuel);
  }

  /** An entry `../leaf` in the index of `dir/g` contributes `dir/leaf`
      when that is a leaf. */
  lemma SiblingLeafEntry(doc: Json, tag: string, dir: string, g: string, leaf: string, limits: IOV,
                         e: (IOV, string), fuel: Fuel)
    requires SiblingBelow(doc, tag, dir, g, leaf, limits, e)
    ensures Visit(doc, Under(tag, dir, [g]), limits, e, fuel).value
            == Ok([(limits.Intersect(e.0), Under(tag, dir, [leaf]))])
  {
    SiblingEntry(doc, tag, dir, g, leaf, limits, e, fuel);
    TaggedUnder(tag, dir, [leaf]);
    PayloadLeaf(doc, Under(tag, dir, [leaf]), limits.Intersect(e.0), fuel);
  }

  // ---------------------------------------------------------------------
  // Shapes of index

  /** A directory with an index yields what its entries yield. */
  lemma IndexYields(doc: Json, tag: string, dir: string, comps: seq<string>, text: string, limits: IOV,
                    fuel: Fuel, leaves: seq<(IOV, string)>)
    requires IndexUnder(doc, tag, dir, comps, text)
    requires AccumulateEntries(doc, Under(tag, dir, comps), limits, IovsKeys(text), fuel).value == Ok(leaves)
    ensures Accumulate(doc, Under(tag, dir, comps), limits, More(fuel)).value == Ok(leaves)
  {
    TaggedUnder(tag, dir, comps);
    IndexEntries(doc, Under(tag, dir, comps), text, limits, fuel);
  }

  /** A last entry outside the limits adds nothing. */
  lemma SkippedLast(doc: Json, id: string, limits: IOV, e0: (IOV, string), e1: (IOV, string), e2: (IOV, string),
                    fuel: Fuel, a: seq<(IOV, string)>)
    requires AccumulateEntries(doc, id, limits, [e0, e1], fuel).value == Ok(a)
    requires !limits.Overlaps(e2.0)
    ensures AccumulateEntries(doc, id, limits, [e0, e1, e2], fuel).value == Ok(a)
  {
    var es := [e0, e1, e2];
    assert es[..2] == [e0, e1] && es[..3] == es;
    SkippedEntry(doc, id, limits, e2, fuel);
    EntriesValueStep(doc, id, limits, es, 2, fuel, a, []);
    NothingAdded(a);
  }

  lemma NothingAdded(a: seq<(IOV, string)>)
    ensures a + [] == a
  {
  }

  /** Two plain leaves, both inside the limits. */
  lemma TwoLeafEntries(doc: Json, tag: string, dir: string, comps: seq<string>, limits: IOV,
                       e0: (IOV, string), e1: (IOV, string), fuel: Fuel)
    requires LeafBelow(doc, tag, dir, comps, limits, e0) && LeafBelow(doc, tag, dir, comps, limits, e1)
    ensures AccumulateEntries(doc, Under(tag, dir, comps), limits, [e0, e1], fuel).value
            == Ok([ChildLeaf(tag, dir, comps, limits, e0)] + [ChildLeaf(tag, dir, comps, limits, e1)])
  {
    ChildLeafEntry(doc, tag, dir, comps, limits, e0, fuel);
    ChildLeafEntry(doc, tag, dir, comps, limits, e1, fuel);
    TwoEntries(doc, Under(tag, dir, comps), limits, e0, e1, fuel,
               [ChildLeaf(tag, dir, comps, limits, e0)], [ChildLeaf(tag, dir, comps, limits, e1)]);
  }

  /** `../s0` and `../s1`, both leaves inside the limits. */
  lemma TwoSiblingEntries(doc: Json, tag: string, dir: string, g: string, s0: string, s1: string, limits: IOV,
                          e0: (IOV, string), e1: (IOV, string), fuel: Fuel)
    requires SiblingBelow(doc, tag, dir, g, s0, limits, e0) && SiblingBelow(doc, tag, dir, g, s1, limits, e1)
    ensures AccumulateEntries(doc, Under(tag, dir, [g]), limits, [e0, e1], fuel).value
            == Ok([(limits.Intersect(e0.0), Under(tag, dir, [s0]))] + [(limits.Intersect(e1.0), Under(tag, dir, [s1]))])
  {
    SiblingLeafEntry(doc, tag, dir, g, s0, limits, e0, fuel);
    SiblingLeafEntry(doc, tag, dir, g, s1, limits, e1, fuel);
    TwoEntries(doc, Under(tag, dir, [g]), limits, e0, e1, fuel,
               [(limits.Intersect(e0.0), Under(tag, dir, [s0]))], [(limits.Intersect(e1.0), Under(tag, dir, [s1]))]);
  }

  /** A plain leaf, an entry that contributes `mid`, and a plain leaf. */
  lemma LeafMidLeafEntries(doc: Json, tag: string, dir: string, comps: seq<string>, limits: IOV,
                           e0: (IOV, string), e1: (IOV, string), e2: (IOV, string), fuel: Fuel, mid: seq<(IOV, string)>)
    requires LeafBelow(doc, tag, dir, comps, limits, e0) && LeafBelow(doc, tag, dir, comps, limits, e2)
    requires Visit(doc, Under(tag, dir, comps), limits, e1, fuel).value == Ok(mid)
    ensures AccumulateEntries(doc, Under(tag, dir, comps), limits, [e0, e1, e2], fuel).value
            == Ok([ChildLeaf(tag, dir, comps, limits, e0)] + mid + [ChildLeaf(tag, dir, comps, limits, e2)])
  {
    ChildLeafEntry(doc, tag, dir, comps, limits, e0, fuel);
    ChildLeafEntry(doc, tag, dir, comps, limits, e2, fuel);
    ThreeEntries(doc, Under(tag, dir, comps), limits, e0, e1, e2, fuel,
                 [ChildLeaf(tag, dir, comps, limits, e0)], mid, [ChildLeaf(tag, dir, comps, limits, e2)]);
  }

  /** A plain leaf, an entry that contributes `mid`, and an entry outside
      the limits. */
  lemma LeafMidSkippedEntries(doc: Json, tag: string, dir: string, comps: seq<string>, limits: IOV,
                              e0: (IOV, string), e1: (IOV, string), e2: (IOV, string), fuel: Fuel, mid: seq<(IOV, string)>)
    requires LeafBelow(doc, tag, dir, comps, limits, e0) && !limits.Overlaps(e2.0)
    requires Visit(doc, Under(tag, dir, comps), limits, e1, fuel).value == Ok(mid)
    ensures AccumulateEntries(doc, Under(tag, dir, comps), limits, [e0, e1, e2], fuel).value
            == Ok([ChildLeaf(tag, dir, comps, limits, e0)] + mid)
  {
    ChildLeafEntry(doc, tag, dir, comps, limits, e0, fuel);
    TwoEntries(doc, Under(tag, dir, comps), limits, e0, e1, fuel, [ChildLeaf(tag, dir, comps, limits, e0)], mid);
    SkippedLast(doc, Under(tag, dir, comps), limits, e0, e1, e2, fuel, [ChildLeaf(tag, dir, comps, limits, e0)] + mid);
  }

  /** `iov_boundaries` on an object with an index: the start of each
      leaf the accumulation finds. */
  lemma BoundariesOfLeaves(doc: Json, tag: string, dir: string, fuel: Fuel, text: string, leaves: seq<(IOV, string)>)
    requires IndexUnder(doc, tag, dir, [], text)
    requires Accumulate(doc, Under(tag, dir, []), IOV.Full(), fuel).value == Ok(leaves)
    ensures Boundaries(doc, tag, dir, IOV.Full(), fuel).value == Ok(Sinces(leaves))
  {
    IdOfName(tag, dir);
    UnderNone(tag, dir);
    TaggedUnder(tag, dir, []);
    IovsFileName();
    FileBelowExists(doc, Id(tag, dir), "IOVs", "/IOVs");
  }

  // ---------------------------------------------------------------------
  // Index texts and their entries

  lemma PairsOfTwo(r0: Record, r1: Record)
    ensures Pairs([r0, r1]) == [(IOV(r0.time, r1.time), r0.key), (IOV(r1.time, MaxTime), r1.key)]
  {
    var out := Pairs([r0, r1]);
    assert out[0] == (IOV(r0.time, r1.time), r0.key);
    assert out[1] == (IOV(r1.time, MaxTime), r1.key);
    assert out == [out[0], out[1]];
  }

  lemma PairsOfThree(r0: Record, r1: Record, r2: Record)
    ensures Pairs([r0, r1, r2])
            == [(IOV(r0.time, r1.time), r0.key), (IOV(r1.time, r2.time), r1.key), (IOV(r2.time, MaxTime), r2.key)]
  {
    var out := Pairs([r0, r1, r2]);
    assert out[0] == (IOV(r0.time, r1.time), r0.key);
    assert out[1] == (IOV(r1.time, r2.time), r1.key);
    assert out[2] == (IOV(r2.time, MaxTime), r2.key);
    assert out == [out[0], out[1], out[2]];
  }

  /** The entries of a two-line index: the first runs to the second line's
      time, the second to `max`. */
  lemma KeysOfTwo(text: string, r0: Record, r1: Record)
    requires IsToken(r0.key) && IsToken(r1.key)
    requires text == IovsText([r0, r1])
    ensures IovsKeys(text) == [(IOV(r0.time, r1.time), r0.key), (IOV(r1.time, MaxTime), r1.key)]
  {
    assert WellFormed([r0, r1]);
    KeysOfText([r0, r1]);
    PairsOfTwo(r0, r1);
  }

  /** The entries of a three-line index. */
  lemma KeysOfThree(text: string, r0: Record, r1: Record, r2: Record)
    requires IsToken(r0.key) && IsToken(r1.key) && IsToken(r2.key)
    requires text == IovsText([r0, r1, r2])
    ensures IovsKeys(text)
            == [(IOV(r0.time, r1.time), r0.key), (IOV(r1.time, r2.time), r1.key), (IOV(r2.time, MaxTime), r2.key)]
  {
    assert WellFormed([r0, r1, r2]);
    KeysOfText([r0, r1, r2]);
    PairsOfThree(r0, r1, r2);
  }

  lemma CondKeysV1()
    ensures IovsKeys(CondIndexV1) == [(IOV(0, 100), "v0"), (IOV(100, 200), "group"), (IOV(200, MaxTime), "v3")]
  {
    CondTextV1();
    assert IsToken("v0") && IsToken("group") && IsToken("v3");
    KeysOfThree(CondIndexV1, Record(0, "v0"), Record(100, "group"), Record(200, "v3"));
  }

  lemma GroupKeysV1()
    ensures IovsKeys(GroupIndexV1) == [(IOV(50, 150), "../v1"), (IOV(150, MaxTime), "../v2")]
  {
    GroupTextV1();
    assert IsToken("../v1") && IsToken("../v2");
    KeysOfTwo(GroupIndexV1, Record(50, "../v1"), Record(150, "../v2"));
  }

  /** The starts of four leaves, in order. */
  lemma SincesOfFour(x0: (IOV, string), x1: (IOV, string), x2: (IOV, string), x3: (IOV, string))
    ensures Sinces([x0] + ([x1] + [x2]) + [x3]) == [x0.0.since, x1.0.since, x2.0.since, x3.0.since]
  {
    var leaves := [x0] + ([x1] + [x2]) + [x3];
    assert leaves == [x0, x1, x2, x3];
    var out := Sinces(leaves);
    assert out == [out[0], out[1], out[2], out[3]];
  }

  // ---------------------------------------------------------------------
  // The mini repository at `v1`

  lemma NamesV1()
    ensures "../v1" == "../" + "v1" && "../v2" == "../" + "v2"
    ensures Name("v1") && Name("v2") && Name("group")
    ensures PlainName("v0") && PlainName("group") && PlainName("v3")
  {
  }

  /** The group, reached on `[100, 200)`, splits at 150 between `v1` and
      `v2`, where its index moves from `../v1` to `../v2`. */
  lemma GroupV1(doc: Json, tag: string, dir: string, groupText: string, fuel: Fuel)
    requires IndexUnder(doc, tag, dir, ["group"], groupText)
    requires IovsKeys(groupText) == [(IOV(50, 150), "../v1"), (IOV(150, MaxTime), "../v2")]
    requires !Value(doc, Under(tag, dir, ["v1"])).Object? && !Value(doc, Under(tag, dir, ["v2"])).Object?
    ensures Accumulate(doc, Under(tag, dir, ["group"]), IOV(100, 200), More(fuel)).value
            == Ok([(IOV(100, 150), Under(tag, dir, ["v1"]))] + [(IOV(150, 200), Under(tag, dir, ["v2"]))])
  {
    NamesV1();
    var limits := IOV(100, 200);
    var e0, e1 := (IOV(50, 150), "../v1"), (IOV(150, MaxTime), "../v2");
    assert SiblingBelow(doc, tag, dir, "group", "v1", limits, e0);
    assert SiblingBelow(doc, tag, dir, "group", "v2", limits, e1);
    TwoSiblingEntries(doc, tag, dir, "group", "v1", "v2", limits, e0, e1, fuel);
    IndexYields(doc, tag, dir, ["group"], groupText, limits, fuel,
                [(IOV(100, 150), Under(tag, dir, ["v1"]))] + [(IOV(150, 200), Under(tag, dir, ["v2"]))]);
  }

  /** The top-level entry `group`, on `[100, 200)`, contributes what the
      group yields. */
  lemma GroupVisitV1(doc: Json, tag: string, dir: string, groupText: string, fuel: Fuel)
    requires IndexUnder(doc, tag, dir, ["group"], groupText)
    requires IovsKeys(groupText) == [(IOV(50, 150), "../v1"), (IOV(150, MaxTime), "../v2")]
    requires !Value(doc, Under(tag, dir, ["v1"])).Object? && !Value(doc, Under(tag, dir, ["v2"])).Object?
    ensures Visit(doc, Under(tag, dir, []), IOV.Full(), (IOV(100, 200), "group"), More(fuel)).value
            == Ok([(IOV(100, 150), Under(tag, dir, ["v1"]))] + [(IOV(150, 200), Under(tag, dir, ["v2"]))])
  {
    NamesV1();
    GroupV1(doc, tag, dir, groupText, fuel);
    OneAfterNone("group");
    assert Plain([]);
    assert IOV.Full().Intersect(IOV(100, 200)) == IOV(100, 200);
    ChildEntry(doc, tag, dir, [], IOV.Full(), (IOV(100, 200), "group"), More(fuel));
  }

  /** The leaves of the mini repository at `v1`: `v0` on `[0, 100)`, the
      group's `v1` and `v2`, and `v3` from 200 on. */
  lemma LeavesV1(doc: Json, tag: string, dir: string, text: string, groupText: string, fuel: Fuel)
    requires IndexUnder(doc, tag, dir, [], text)
    requires IovsKeys(text) == [(IOV(0, 100), "v0"), (IOV(100, 200), "group"), (IOV(200, MaxTime), "v3")]
    requires IndexUnder(doc, tag, dir, ["group"], groupText)
    requires IovsKeys(groupText) == [(IOV(50, 150), "../v1"), (IOV(150, MaxTime), "../v2")]
    requires !Value(doc, Under(tag, dir, ["v0"])).Object? && !Value(doc, Under(tag, dir, ["v1"])).Object?
    requires !Value(doc, Under(tag, dir, ["v2"])).Object? && !Value(doc, Under(tag, dir, ["v3"])).Object?
    ensures Accumulate(doc, Under(tag, dir, []), IOV.Full(), More(More(fuel))).value
            == Ok([(IOV(0, 100), Under(tag, dir, ["v0"]))]
                  + ([(IOV(100, 150), Under(tag, dir, ["v1"]))] + [(IOV(150, 200), Under(tag, dir, ["v2"]))])
                  + [(IOV(200, MaxTime), Under(tag, dir, ["v3"]))])
  {
    NamesV1();
    var full := IOV.Full();
    var e0, e1, e2 := (IOV(0, 100), "v0"), (IOV(100, 200), "group"), (IOV(200, MaxTime), "v3");
    GroupVisitV1(doc, tag, dir, groupText, fuel);
    OneAfterNone("v0");
    OneAfterNone("v3");
    assert Plain([]);
    assert LeafBelow(doc, tag, dir, [], full, e0) && LeafBelow(doc, tag, dir, [], full, e2);
    var mid := [(IOV(100, 150), Under(tag, dir, ["v1"]))] + [(IOV(150, 200), Under(tag, dir, ["v2"]))];
    LeafMidLeafEntries(doc, tag, dir, [], full, e0, e1, e2, More(fuel), mid);
    IndexYields(doc, tag, dir, [], text, full, More(fuel),
                [ChildLeaf(tag, dir, [], full, e0)] + mid + [ChildLeaf(tag, dir, [], full, e2)]);
  }

  /** What `TreeV1` says of the mini repository, in terms of ids below
      `dir`. */
  lemma TreeV1Leaves(doc: Json, tag: string, dir: string, fuel: Fuel)
    requires Tagged(tag, dir) && TreeV1(doc, tag, dir)
    ensures IndexUnder(doc, tag, dir, [], CondIndexV1)
    ensures Accumulate(doc, Under(tag, dir, []), IOV.Full(), More(More(fuel))).value
            == Ok([(IOV(0, 100), Under(tag, dir, ["v0"]))]
                  + ([(IOV(100, 150), Under(tag, dir, ["v1"]))] + [(IOV(150, 200), Under(tag, dir, ["v2"]))])
                  + [(IOV(200, MaxTime), Under(tag, dir, ["v3"]))])
  {
    UnderNone(tag, dir);
    UnderOne(tag, dir, "group");
    UnderOne(tag, dir, "v0");
    UnderOne(tag, dir, "v1");
    UnderOne(tag, dir, "v2");
    UnderOne(tag, dir, "v3");
    CondKeysV1();
    GroupKeysV1();
    LeavesV1(doc, tag, dir, CondIndexV1, GroupIndexV1, fuel);
  }

  /** `iov_boundaries("v1", "Cond")` on the mini repository is
      `{0, 100, 150, 200}`. */
  lemma BoundariesV1(doc: Json, tag: string, dir: string, fuel: Fuel)
    requires Tagged(tag, dir) && TreeV1(doc, tag, dir)
    ensures Boundaries(doc, tag, dir, IOV.Full(), More(More(fuel))).value == Ok([0, 100, 150, 200])
  {
    TreeV1Leaves(doc, tag, dir, fuel);
    var x0, x1, x2, x3 := (IOV(0, 100), Under(tag, dir, ["v0"])), (IOV(100, 150), Under(tag, dir, ["v1"])),
                          (IOV(150, 200), Under(tag, dir, ["v2"])), (IOV(200, MaxTime), Under(tag, dir, ["v3"]));
    BoundariesOfLeaves(doc, tag, dir, More(More(fuel)), CondIndexV1, [x0] + ([x1] + [x2]) + [x3]);
    SincesOfFour(x0, x1, x2, x3);
  }
}
