/** What `iov_boundaries` finds on the two JSON documents of the `GetIOVs`
    unit test. In the first, `Cond` has an index whose entry `level1` is
    itself a directory with an index, whose entry `level2` is a third one.
    In the second, the index of `Cond/levelA` sends the middle of its range
    to the sibling directory `../levelB`. The leaves `a`, `b`, `i`, `k`,
    `x` and `y` are not in the documents, so each is a leaf of its own. */
module JsonCases {
  import opened Text
  import opened Outcome
  import opened Iov
  import opened IovHelpers
  import opened DBImpl
  import opened Normalize
  import opened CondDB
  import opened MiniRepo
  import opened BoundaryCases

  // ---------------------------------------------------------------------
  // The index files of the two documents

  /** `Cond/IOVs` of the nested document. */
  const NestedTop: string := "0 a\n" + "100 level1\n" + "200 b\n"
  /** `Cond/level1/IOVs` of the nested document. */
  const NestedLevel1: string := "50 i\n" + "150 level2\n" + "300 k\n"
  /** `Cond/level1/level2/IOVs` of the nested document, and
      `Cond/levelB/IOVs` of the sibling document. */
  const XYIndex: string := "150 x\n" + "170 y\n"
  /** `Cond/IOVs` of the sibling document. */
  const SiblingTop: string := "0 a\n" + "100 levelA\n" + "200 b\n"
  /** `Cond/levelA/IOVs` of the sibling document. */
  const SiblingA: string := "50 i\n" + "150 ../levelB\n" + "300 k\n"

  lemma TwoLines(r0: Record, r1: Record)
    ensures IovsText([r0, r1]) == FormatRecord(r0) + "\n" + (FormatRecord(r1) + "\n")
  {
    IovsTextCons(r1, []);
    IovsTextCons(r0, [r1]);
    assert [r0, r1] == [r0] + [r1] && [r1] == [r1] + [];
  }

  lemma ThreeLines(r0: Record, r1: Record, r2: Record)
    ensures IovsText([r0, r1, r2]) == FormatRecord(r0) + "\n" + (FormatRecord(r1) + "\n" + (FormatRecord(r2) + "\n"))
  {
    TwoLines(r1, r2);
    IovsTextCons(r0, [r1, r2]);
    assert [r0, r1, r2] == [r0] + [r1, r2];
  }

  /** A line of an index, given the decimal form of its time. */
  lemma Line(t: TimePoint, digits: string, key: string)
    requires NatToString(t) == digits
    ensures FormatRecord(Record(t, key)) == digits + " " + key
  {
  }

  lemma Digits50() ensures NatToString(50) == "50" { }
  lemma Digits100() ensures NatToString(100) == "100" { }
  lemma Digits150() ensures NatToString(150) == "150" { }
  lemma Digits170() ensures NatToString(170) == "170" { }
  lemma Digits200() ensures NatToString(200) == "200" { }
  lemma Digits300() ensures NatToString(300) == "300" { }

  lemma NestedTopText()
    ensures IovsText([Record(0, "a"), Record(100, "level1"), Record(200, "b")]) == NestedTop
  {
    Digits100();
    Digits200();
    Line(0, "0", "a");
    Line(100, "100", "level1");
    Line(200, "200", "b");
    ThreeLines(Record(0, "a"), Record(100, "level1"), Record(200, "b"));
  }

  lemma NestedLevel1Tail()
    ensures IovsText([Record(150, "level2"), Record(300, "k")]) == "150 level2\n" + "300 k\n"
  {
    Digits150();
    Digits300();
    Line(150, "150", "level2");
    Line(300, "300", "k");
    TwoLines(Record(150, "level2"), Record(300, "k"));
  }

  lemma NestedLevel1Text()
    ensures IovsText([Record(50, "i"), Record(150, "level2"), Record(300, "k")]) == NestedLevel1
  {
    Digits50();
    Line(50, "50", "i");
    NestedLevel1Tail();
    IovsTextCons(Record(50, "i"), [Record(150, "level2"), Record(300, "k")]);
    assert [Record(50, "i"), Record(150, "level2"), Record(300, "k")]
           == [Record(50, "i")] + [Record(150, "level2"), Record(300, "k")];
  }

  lemma XYText()
    ensures IovsText([Record(150, "x"), Record(170, "y")]) == XYIndex
  {
    Digits150();
    Digits170();
    Line(150, "150", "x");
    Line(170, "170", "y");
    TwoLines(Record(150, "x"), Record(170, "y"));
  }

  lemma SiblingTopText()
    ensures IovsText([Record(0, "a"), Record(100, "levelA"), Record(200, "b")]) == SiblingTop
  {
    Digits100();
    Digits200();
    Line(0, "0", "a");
    Line(100, "100", "levelA");
    Line(200, "200", "b");
    ThreeLines(Record(0, "a"), Record(100, "levelA"), Record(200, "b"));
  }

  lemma SiblingATail()
    ensures IovsText([Record(150, "../levelB"), Record(300, "k")]) == "150 ../levelB\n" + "300 k\n"
  {
    Digits150();
    Digits300();
    Line(150, "150", "../levelB");
    Line(300, "300", "k");
    TwoLines(Record(150, "../levelB"), Record(300, "k"));
  }

  lemma SiblingAText()
    ensures IovsText([Record(50, "i"), Record(150, "../levelB"), Record(300, "k")]) == SiblingA
  {
    Digits50();
    Line(50, "50", "i");
    SiblingATail();
    IovsTextCons(Record(50, "i"), [Record(150, "../levelB"), Record(300, "k")]);
    assert [Record(50, "i"), Record(150, "../levelB"), Record(300, "k")]
           == [Record(50, "i")] + [Record(150, "../levelB"), Record(300, "k")];
  }

  lemma NestedTopKeys()
    ensures IovsKeys(NestedTop) == [(IOV(0, 100), "a"), (IOV(100, 200), "level1"), (IOV(200, MaxTime), "b")]
  {
    NestedTopText();
    assert IsToken("a") && IsToken("level1") && IsToken("b");
    KeysOfThree(NestedTop, Record(0, "a"), Record(100, "level1"), Record(200, "b"));
  }

  lemma NestedLevel1Keys()
    ensures IovsKeys(NestedLevel1) == [(IOV(50, 150), "i"), (IOV(150, 300), "level2"), (IOV(300, MaxTime), "k")]
  {
    NestedLevel1Text();
    assert IsToken("i") && IsToken("level2") && IsToken("k");
    KeysOfThree(NestedLevel1, Record(50, "i"), Record(150, "level2"), Record(300, "k"));
  }

  lemma XYKeys()
    ensures IovsKeys(XYIndex) == [(IOV(150, 170), "x"), (IOV(170, MaxTime), "y")]
  {
    XYText();
    assert IsToken("x") && IsToken("y");
    KeysOfTwo(XYIndex, Record(150, "x"), Record(170, "y"));
  }

  lemma SiblingTopKeys()
    ensures IovsKeys(SiblingTop) == [(IOV(0, 100), "a"), (IOV(100, 200), "levelA"), (IOV(200, MaxTime), "b")]
  {
    SiblingTopText();
    assert IsToken("a") && IsToken("levelA") && IsToken("b");
    KeysOfThree(SiblingTop, Record(0, "a"), Record(100, "levelA"), Record(200, "b"));
  }

  lemma SiblingAKeys()
    ensures IovsKeys(SiblingA) == [(IOV(50, 150), "i"), (IOV(150, 300), "../levelB"), (IOV(300, MaxTime), "k")]
  {
    SiblingAText();
    assert IsToken("i") && IsToken("../levelB") && IsToken("k");
    KeysOfThree(SiblingA, Record(50, "i"), Record(150, "../levelB"), Record(300, "k"));
  }

  // ---------------------------------------------------------------------
  // Shared steps

  /** The starts of five leaves, in order. */
  lemma SincesOfFive(x0: (IOV, string), x1: (IOV, string), x2: (IOV, string), x3: (IOV, string), x4: (IOV, string))
    ensures Sinces([x0] + ([x1] + ([x2] + [x3])) + [x4])
            == [x0.0.since, x1.0.since, x2.0.since, x3.0.since, x4.0.since]
  {
    var leaves := [x0] + ([x1] + ([x2] + [x3])) + [x4];
    assert leaves == [x0, x1, x2, x3, x4];
    var out := Sinces(leaves);
    assert out == [out[0], out[1], out[2], out[3], out[4]];
  }

  /** `dir/c1/.../cn` has the index `150 x`, `170 y`, and neither `x` nor
      `y` below it is an object. */
  predicate XYDir(doc: Json, tag: string, dir: string, comps: seq<string>, text: string)
  {
    && IndexUnder(doc, tag, dir, comps, text) && Plain(comps)
    && IovsKeys(text) == [(IOV(150, 170), "x"), (IOV(170, MaxTime), "y")]
    && !Value(doc, Under(tag, dir, comps + ["x"])).Object? && !Value(doc, Under(tag, dir, comps + ["y"])).Object?
  }

  /** What such a directory yields on `[150, 200)`. */
  function XYLeavesOf(tag: string, dir: string, comps: seq<string>): seq<(IOV, string)>
  {
    [(IOV(150, 170), Under(tag, dir, comps + ["x"]))] + [(IOV(170, 200), Under(tag, dir, comps + ["y"]))]
  }

  /** `dir/c1/.../cn` has the index `50 i`, `150 name`, `300 k`, and `i`
      below it is not an object. */
  predicate IMidKDir(doc: Json, tag: string, dir: string, comps: seq<string>, text: string, name: string)
  {
    && IndexUnder(doc, tag, dir, comps, text) && Plain(comps)
    && IovsKeys(text) == [(IOV(50, 150), "i"), (IOV(150, 300), name), (IOV(300, MaxTime), "k")]
    && !Value(doc, Under(tag, dir, comps + ["i"])).Object?
  }

  /** `dir` has the index `0 a`, `100 name`, `200 b`, and neither `a` nor
      `b` is an object. */
  predicate AMidBDir(doc: Json, tag: string, dir: string, text: string, name: string)
  {
    && IndexUnder(doc, tag, dir, [], text)
    && IovsKeys(text) == [(IOV(0, 100), "a"), (IOV(100, 200), name), (IOV(200, MaxTime), "b")]
    && !Value(doc, Under(tag, dir, [] + ["a"])).Object? && !Value(doc, Under(tag, dir, [] + ["b"])).Object?
  }

  lemma LeafNames()
    ensures PlainName("a") && PlainName("b") && PlainName("i") && PlainName("x") && PlainName("y") && Plain([])
  {
  }

  /** Reached on `[150, 200)`, such a directory yields `x` on `[150, 170)`
      and `y` on `[170, 200)`. */
  lemma XYLeaves(doc: Json, tag: string, dir: string, comps: seq<string>, text: string, fuel: Fuel)
    requires XYDir(doc, tag, dir, comps, text)
    ensures Accumulate(doc, Under(tag, dir, comps), IOV(150, 200), More(fuel)).value == Ok(XYLeavesOf(tag, dir, comps))
  {
    var limits := IOV(150, 200);
    var e0, e1 := (IOV(150, 170), "x"), (IOV(170, MaxTime), "y");
    LeafNames();
    assert LeafBelow(doc, tag, dir, comps, limits, e0) && LeafBelow(doc, tag, dir, comps, limits, e1);
    TwoLeafEntries(doc, tag, dir, comps, limits, e0, e1, fuel);
    IndexYields(doc, tag, dir, comps, text, limits, fuel, XYLeavesOf(tag, dir, comps));
  }

  /** Reached on `[100, 200)`, such a directory yields `i` on `[100, 150)`,
      then what its middle entry contributes; `k` lies outside. */
  lemma IMidK(doc: Json, tag: string, dir: string, comps: seq<string>, text: string, name: string,
              fuel: Fuel, mid: seq<(IOV, string)>)
    requires IMidKDir(doc, tag, dir, comps, text, name)
    requires Visit(doc, Under(tag, dir, comps), IOV(100, 200), (IOV(150, 300), name), fuel).value == Ok(mid)
    ensures Accumulate(doc, Under(tag, dir, comps), IOV(100, 200), More(fuel)).value
            == Ok([(IOV(100, 150), Under(tag, dir, comps + ["i"]))] + mid)
  {
    var limits := IOV(100, 200);
    var e0, e1, e2 := (IOV(50, 150), "i"), (IOV(150, 300), name), (IOV(300, MaxTime), "k");
    LeafNames();
    assert LeafBelow(doc, tag, dir, comps, limits, e0) && !limits.Overlaps(e2.0);
    LeafMidSkippedEntries(doc, tag, dir, comps, limits, e0, e1, e2, fuel, mid);
    IndexYields(doc, tag, dir, comps, text, limits, fuel, [(IOV(100, 150), Under(tag, dir, comps + ["i"]))] + mid);
  }

  /** On all of time, such a top-level index yields `a` up to 100, what
      its middle entry contributes, and `b` from 200 on. */
  lemma AMidB(doc: Json, tag: string, dir: string, text: string, name: string, fuel: Fuel, mid: seq<(IOV, string)>)
    requires AMidBDir(doc, tag, dir, text, name)
    requires Visit(doc, Under(tag, dir, []), IOV.Full(), (IOV(100, 200), name), fuel).value == Ok(mid)
    ensures Accumulate(doc, Under(tag, dir, []), IOV.Full(), More(fuel)).value
            == Ok([(IOV(0, 100), Under(tag, dir, [] + ["a"]))] + mid + [(IOV(200, MaxTime), Under(tag, dir, [] + ["b"]))])
  {
    var full := IOV.Full();
    var e0, e1, e2 := (IOV(0, 100), "a"), (IOV(100, 200), name), (IOV(200, MaxTime), "b");
    LeafNames();
    assert LeafBelow(doc, tag, dir, [], full, e0) && LeafBelow(doc, tag, dir, [], full, e2);
    LeafMidLeafEntries(doc, tag, dir, [], full, e0, e1, e2, fuel, mid);
    IndexYields(doc, tag, dir, [], text, full, fuel,
                [ChildLeaf(tag, dir, [], full, e0)] + mid + [ChildLeaf(tag, dir, [], full, e2)]);
  }

  /** The entry of a top-level index naming the plain directory `name` on
      `[100, 200)` contributes what that directory yields there. */
  lemma TopChildVisit(doc: Json, tag: string, dir: string, name: string, fuel: Fuel, mid: seq<(IOV, string)>)
    requires Tagged(tag, dir) && PlainName(name)
    requires Accumulate(doc, Under(tag, dir, [name]), IOV(100, 200), fuel).value == Ok(mid)
    ensures Visit(doc, Under(tag, dir, []), IOV.Full(), (IOV(100, 200), name), fuel).value == Ok(mid)
  {
    OneAfterNone(name);
    assert Plain([]);
    assert IOV.Full().Intersect(IOV(100, 200)) == IOV(100, 200);
    ChildEntry(doc, tag, dir, [], IOV.Full(), (IOV(100, 200), name), fuel);
  }

  /** `iov_boundaries` on a top-level index whose leaves start at the
      given five points. */
  lemma FiveBoundaries(doc: Json, tag: string, dir: string, text: string, fuel: Fuel,
                       x0: (IOV, string), x1: (IOV, string), x2: (IOV, string), x3: (IOV, string), x4: (IOV, string))
    requires IndexUnder(doc, tag, dir, [], text)
    requires Accumulate(doc, Under(tag, dir, []), IOV.Full(), fuel).value == Ok([x0] + ([x1] + ([x2] + [x3])) + [x4])
    ensures Boundaries(doc, tag, dir, IOV.Full(), fuel).value
            == Ok([x0.0.since, x1.0.since, x2.0.since, x3.0.since, x4.0.since])
  {
    BoundariesOfLeaves(doc, tag, dir, fuel, text, [x0] + ([x1] + ([x2] + [x3])) + [x4]);
    SincesOfFive(x0, x1, x2, x3, x4);
  }

  // ---------------------------------------------------------------------
  // The nested document

  /** What the resolution reads of the nested document below `dir`. */
  predicate NestedTree(doc: Json, tag: string, dir: string)
  {
    && IndexUnder(doc, tag, dir, [], NestedTop)
    && IndexUnder(doc, tag, dir, ["level1"], NestedLevel1)
    && IndexUnder(doc, tag, dir, ["level1"] + ["level2"], XYIndex)
    && !Value(doc, Under(tag, dir, [] + ["a"])).Object? && !Value(doc, Under(tag, dir, [] + ["b"])).Object?
    && !Value(doc, Under(tag, dir, ["level1"] + ["i"])).Object?
    && !Value(doc, Under(tag, dir, ["level1"] + ["level2"] + ["x"])).Object?
    && !Value(doc, Under(tag, dir, ["level1"] + ["level2"] + ["y"])).Object?
  }

  lemma NestedNames()
    ensures PlainName("level1") && PlainName("level2")
    ensures Plain(["level1"]) && Plain(["level1"] + ["level2"])
  {
    assert ["level1"] + ["level2"] == ["level1", "level2"];
  }

  /** The three indexes of the nested document, each of its shape. */
  lemma NestedShape(doc: Json, tag: string, dir: string)
    requires NestedTree(doc, tag, dir)
    ensures AMidBDir(doc, tag, dir, NestedTop, "level1")
    ensures IMidKDir(doc, tag, dir, ["level1"], NestedLevel1, "level2")
    ensures XYDir(doc, tag, dir, ["level1"] + ["level2"], XYIndex)
  {
    NestedNames();
    NestedTopKeys();
    NestedLevel1Keys();
    XYKeys();
  }

  /** `level2`, reached on `[150, 200)` from the index of `level1`. */
  lemma NestedLevel2Visit(doc: Json, tag: string, dir: string, text: string, fuel: Fuel)
    requires XYDir(doc, tag, dir, ["level1"] + ["level2"], text)
    ensures Visit(doc, Under(tag, dir, ["level1"]), IOV(100, 200), (IOV(150, 300), "level2"), More(fuel)).value
            == Ok(XYLeavesOf(tag, dir, ["level1"] + ["level2"]))
  {
    NestedNames();
    XYLeaves(doc, tag, dir, ["level1"] + ["level2"], text, fuel);
    assert IOV(100, 200).Intersect(IOV(150, 300)) == IOV(150, 200);
    ChildEntry(doc, tag, dir, ["level1"], IOV(100, 200), (IOV(150, 300), "level2"), More(fuel));
  }

  /** `level1`, reached on `[100, 200)` from the top-level index. */
  lemma NestedLevel1Leaves(doc: Json, tag: string, dir: string, text1: string, text2: string, fuel: Fuel)
    requires IMidKDir(doc, tag, dir, ["level1"], text1, "level2")
    requires XYDir(doc, tag, dir, ["level1"] + ["level2"], text2)
    ensures Accumulate(doc, Under(tag, dir, ["level1"]), IOV(100, 200), More(More(fuel))).value
            == Ok([(IOV(100, 150), Under(tag, dir, ["level1"] + ["i"]))] + XYLeavesOf(tag, dir, ["level1"] + ["level2"]))
  {
    NestedLevel2Visit(doc, tag, dir, text2, fuel);
    IMidK(doc, tag, dir, ["level1"], text1, "level2", More(fuel), XYLeavesOf(tag, dir, ["level1"] + ["level2"]));
  }

  /** All of the nested document's leaves, in order. */
  lemma NestedLeaves(doc: Json, tag: string, dir: string, text0: string, text1: string, text2: string, fuel: Fuel)
    requires AMidBDir(doc, tag, dir, text0, "level1")
    requires IMidKDir(doc, tag, dir, ["level1"], text1, "level2")
    requires XYDir(doc, tag, dir, ["level1"] + ["level2"], text2)
    ensures Accumulate(doc, Under(tag, dir, []), IOV.Full(), More(More(More(fuel)))).value
            == Ok([(IOV(0, 100), Under(tag, dir, [] + ["a"]))]
                  + ([(IOV(100, 150), Under(tag, dir, ["level1"] + ["i"]))] + XYLeavesOf(tag, dir, ["level1"] + ["level2"]))
                  + [(IOV(200, MaxTime), Under(tag, dir, [] + ["b"]))])
  {
    var mid := [(IOV(100, 150), Under(tag, dir, ["level1"] + ["i"]))] + XYLeavesOf(tag, dir, ["level1"] + ["level2"]);
    NestedLevel1Leaves(doc, tag, dir, text1, text2, fuel);
    NestedNames();
    TopChildVisit(doc, tag, dir, "level1", More(More(fuel)), mid);
    AMidB(doc, tag, dir, text0, "level1", More(More(fuel)), mid);
  }

  /** `iov_boundaries("", "Cond")` on the nested document is
      `{0, 100, 150, 170, 200}`. */
  lemma NestedBoundaries(doc: Json, tag: string, dir: string, fuel: Fuel)
    requires NestedTree(doc, tag, dir)
    ensures Boundaries(doc, tag, dir, IOV.Full(), More(More(More(fuel)))).value == Ok([0, 100, 150, 170, 200])
  {
    NestedShape(doc, tag, dir);
    NestedLeaves(doc, tag, dir, NestedTop, NestedLevel1, XYIndex, fuel);
    var xy := ["level1"] + ["level2"];
    FiveBoundaries(doc, tag, dir, NestedTop, More(More(More(fuel))),
                   (IOV(0, 100), Under(tag, dir, [] + ["a"])), (IOV(100, 150), Under(tag, dir, ["level1"] + ["i"])),
                   (IOV(150, 170), Under(tag, dir, xy + ["x"])), (IOV(170, 200), Under(tag, dir, xy + ["y"])),
                   (IOV(200, MaxTime), Under(tag, dir, [] + ["b"])));
  }

  // ---------------------------------------------------------------------
  // The document with a sibling redirect

  /** What the resolution reads of the sibling document below `dir`. */
  predicate SiblingTree(doc: Json, tag: string, dir: string)
  {
    && IndexUnder(doc, tag, dir, [], SiblingTop)
    && IndexUnder(doc, tag, dir, ["levelA"], SiblingA)
    && IndexUnder(doc, tag, dir, ["levelB"], XYIndex)
    && !Value(doc, Under(tag, dir, [] + ["a"])).Object? && !Value(doc, Under(tag, dir, [] + ["b"])).Object?
    && !Value(doc, Under(tag, dir, ["levelA"] + ["i"])).Object?
    && !Value(doc, Under(tag, dir, ["levelB"] + ["x"])).Object?
    && !Value(doc, Under(tag, dir, ["levelB"] + ["y"])).Object?
  }

  lemma SiblingNames()
    ensures PlainName("levelA") && PlainName("levelB") && Plain(["levelA"]) && Plain(["levelB"])
    ensures Name("levelA") && Name("levelB") && "../levelB" == "../" + "levelB"
  {
  }

  /** The three indexes of the sibling document, each of its shape. */
  lemma SiblingShape(doc: Json, tag: string, dir: string)
    requires SiblingTree(doc, tag, dir)
    ensures AMidBDir(doc, tag, dir, SiblingTop, "levelA")
    ensures IMidKDir(doc, tag, dir, ["levelA"], SiblingA, "../levelB")
    ensures XYDir(doc, tag, dir, ["levelB"], XYIndex)
  {
    SiblingNames();
    SiblingTopKeys();
    SiblingAKeys();
    XYKeys();
  }

  /** `../levelB`, reached on `[150, 200)` from the index of `levelA`. */
  lemma SiblingBVisit(doc: Json, tag: string, dir: string, text: string, fuel: Fuel)
    requires XYDir(doc, tag, dir, ["levelB"], text)
    ensures Visit(doc, Under(tag, dir, ["levelA"]), IOV(100, 200), (IOV(150, 300), "../levelB"), More(fuel)).value
            == Ok(XYLeavesOf(tag, dir, ["levelB"]))
  {
    XYLeaves(doc, tag, dir, ["levelB"], text, fuel);
    assert IOV(100, 200).Intersect(IOV(150, 300)) == IOV(150, 200);
    SiblingNames();
    SiblingEntry(doc, tag, dir, "levelA", "levelB", IOV(100, 200), (IOV(150, 300), "../levelB"), More(fuel));
  }

  /** `levelA`, reached on `[100, 200)` from the top-level index. */
  lemma SiblingALeaves(doc: Json, tag: string, dir: string, textA: string, textB: string, fuel: Fuel)
    requires IMidKDir(doc, tag, dir, ["levelA"], textA, "../levelB")
    requires XYDir(doc, tag, dir, ["levelB"], textB)
    ensures Accumulate(doc, Under(tag, dir, ["levelA"]), IOV(100, 200), More(More(fuel))).value
            == Ok([(IOV(100, 150), Under(tag, dir, ["levelA"] + ["i"]))] + XYLeavesOf(tag, dir, ["levelB"]))
  {
    SiblingBVisit(doc, tag, dir, textB, fuel);
    IMidK(doc, tag, dir, ["levelA"], textA, "../levelB", More(fuel), XYLeavesOf(tag, dir, ["levelB"]));
  }

  /** All of the sibling document's leaves, in order. */
  lemma SiblingLeaves(doc: Json, tag: string, dir: string, text0: string, textA: string, textB: string, fuel: Fuel)
    requires AMidBDir(doc, tag, dir, text0, "levelA")
    requires IMidKDir(doc, tag, dir, ["levelA"], textA, "../levelB")
    requires XYDir(doc, tag, dir, ["levelB"], textB)
    ensures Accumulate(doc, Under(tag, dir, []), IOV.Full(), More(More(More(fuel)))).value
            == Ok([(IOV(0, 100), Under(tag, dir, [] + ["a"]))]
                  + ([(IOV(100, 150), Under(tag, dir, ["levelA"] + ["i"]))] + XYLeavesOf(tag, dir, ["levelB"]))
                  + [(IOV(200, MaxTime), Under(tag, dir, [] + ["b"]))])
  {
    var mid := [(IOV(100, 150), Under(tag, dir, ["levelA"] + ["i"]))] + XYLeavesOf(tag, dir, ["levelB"]);
    SiblingALeaves(doc, tag, dir, textA, textB, fuel);
    SiblingNames();
    TopChildVisit(doc, tag, dir, "levelA", More(More(fuel)), mid);
    AMidB(doc, tag, dir, text0, "levelA", More(More(fuel)), mid);
  }

  /** `iov_boundaries("", "Cond")` on the sibling document is
      `{0, 100, 150, 170, 200}`. */
  lemma SiblingBoundaries(doc: Json, tag: string, dir: string, fuel: Fuel)
    requires SiblingTree(doc, tag, dir)
    ensures Boundaries(doc, tag, dir, IOV.Full(), More(More(More(fuel)))).value == Ok([0, 100, 150, 170, 200])
  {
    SiblingShape(doc, tag, dir);
    SiblingLeaves(doc, tag, dir, SiblingTop, SiblingA, XYIndex, fuel);
    FiveBoundaries(doc, tag, dir, SiblingTop, More(More(More(fuel))),
                   (IOV(0, 100), Under(tag, dir, [] + ["a"])), (IOV(100, 150), Under(tag, dir, ["levelA"] + ["i"])),
                   (IOV(150, 170), Under(tag, dir, ["levelB"] + ["x"])), (IOV(170, 200), Under(tag, dir, ["levelB"] + ["y"])),
                   (IOV(200, MaxTime), Under(tag, dir, [] + ["b"])));
  }
}
