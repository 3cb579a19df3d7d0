/** The repository `create_mini_repo` in tests/prepare_test_data.py builds,
    and what `CondDB::get` returns from it at tags `v0` and `v1` (the
    `IOVAccess` unit test). A Git tree is a directory of named entries, and
    `CondDB::get` resolves it to the same data and IOVs as a JSON document
    holding the same entries; only the backend's log messages and errors
    differ. So the tree is a `Json` document `doc`, the facts the fixture
    establishes about it are stated as requirements on `doc`, the tag and
    the directory `Cond`, and the lemmas state only the value returned. */
module MiniRepo {
  import opened Text
  import opened Outcome
  import opened Iov
  import opened IovHelpers
  import opened DBImpl
  import opened Normalize
  import opened CondDB

  // ---------------------------------------------------------------------
  // Paths and object ids

  /** A path component: not empty and free of '/'. */
  predicate Name(s: string)
  {
    s != [] && '/' !in s
  }

  /** The object id of `path` in `tag`, as the backend is asked for it. */
  function Id(tag: string, path: string): string
  {
    tag + ":" + path
  }

  /** The object `id` is a directory holding an `IOVs` file whose text is
      `text`. */
  predicate IndexAt(doc: Json, id: string, text: string)
  {
    Value(doc, id).Object? && "IOVs" in FileNames(Value(doc, id).members) && Value(doc, id + "/IOVs") == Str(text)
  }

  lemma IdOfName(tag: string, a: string)
    requires Name(a)
    ensures FormatObjId(tag, a) == Id(tag, a)
  {
    SlashFreeUnchanged(a);
  }

  lemma IdOfNested(tag: string, a: string, b: string)
    requires Name(a) && Name(b)
    ensures FormatObjId(tag, a + "/" + b) == Id(tag, a + "/" + b)
  {
    ReplaceTwoComponents(a, b);
    assert a + "/" + b == a + ("/" + b);
  }

  lemma Regroup(a: string, g: string, leaf: string)
    ensures a + "/" + g + "/" + ("../" + leaf) == a + ("/" + g + "/../" + leaf)
  {
    var s, d := "/", "../";
    assert "/../" == s + d;
    assert a + s + g + s + (d + leaf) == a + (s + g + (s + d) + leaf);
  }

  lemma IdOfParent(tag: string, a: string, g: string, leaf: string)
    requires Name(a) && Name(g) && Name(leaf)
    ensures FormatObjId(tag, a + "/" + g + "/" + ("../" + leaf)) == Id(tag, a + "/" + leaf)
  {
    Regroup(a, g, leaf);
    ParentSegmentRemoved(a, g, leaf);
    assert a + ("/" + leaf) == a + "/" + leaf;
  }

  // ---------------------------------------------------------------------
  // Steps of a resolution

  lemma EnterIndex(doc: Json, reduce: bool, key: Key, bounds: IOV, fuel: Fuel, text: string)
    requires IndexAt(doc, FormatObjId(key.tag, key.path), text)
    ensures Resolve(doc, reduce, key, bounds, fuel).value
            == ThroughIndex(doc, reduce, key, bounds, FormatObjId(key.tag, key.path), fuel).value
  {
    var id := FormatObjId(key.tag, key.path);
    var ms := Value(doc, id).members;
    assert JsonGet(doc, id) == Ok(Dir(DirContent(StripTag(id), DirNames(ms), FileNames(ms))));
    ResolveAtIndex(doc, reduce, key, bounds, fuel);
  }

  lemma IndexFileAt(doc: Json, id: string, text: string)
    requires IndexAt(doc, id, text)
    ensures JsonGet(doc, id + "/IOVs") == Ok(Blob(text))
  {
  }

  lemma FollowIndex(doc: Json, reduce: bool, key: Key, bounds: IOV, fuel: Fuel, id: string, text: string, next: string, iov: IOV)
    requires JsonGet(doc, id + "/IOVs") == Ok(Blob(text))
    requires KeyIov(text, key.time, bounds, reduce) == (next, iov) && iov.Valid()
    ensures ThroughIndex(doc, reduce, key, bounds, id, More(fuel)).value
            == Resolve(doc, reduce, key.(path := key.path + "/" + next), iov, fuel).value
  {
    FollowedWith(doc, reduce, key, bounds, id, fuel, text, next, iov);
  }

  lemma LeafAt(doc: Json, reduce: bool, key: Key, bounds: IOV, fuel: Fuel, data: string)
    requires Value(doc, FormatObjId(key.tag, key.path)) == Str(data)
    ensures Resolve(doc, reduce, key, bounds, fuel).value == Ok((Payload(data), bounds))
  {
  }

  lemma IndexedLeaf(doc: Json, tag: string, a: string, k: string, t: TimePoint, bounds: IOV,
                    text: string, iov: IOV, data: string, fuel: Fuel)
    requires Name(a) && Name(k)
    requires IndexAt(doc, Id(tag, a), text)
    requires KeyIov(text, t, bounds, true) == (k, iov) && iov.Valid()
    requires Value(doc, Id(tag, a + "/" + k)) == Str(data)
    ensures Resolve(doc, true, Key(tag, a, t), bounds, More(fuel)).value == Ok((Payload(data), iov))
  {
    var key := Key(tag, a, t);
    IdOfName(tag, a);
    EnterIndex(doc, true, key, bounds, More(fuel), text);
    IndexFileAt(doc, Id(tag, a), text);
    FollowIndex(doc, true, key, bounds, fuel, Id(tag, a), text, k, iov);
    IdOfNested(tag, a, k);
    LeafAt(doc, true, key.(path := a + "/" + k), iov, fuel, data);
  }

  lemma GroupRedirect(doc: Json, tag: string, a: string, g: string, leaf: string, t: TimePoint, bounds: IOV,
                      text: string, iov: IOV, groupText: string, groupIov: IOV, data: string, fuel: Fuel)
    requires Name(a) && Name(g) && Name(leaf)
    requires IndexAt(doc, Id(tag, a), text)
    requires KeyIov(text, t, bounds, true) == (g, iov) && iov.Valid()
    requires IndexAt(doc, Id(tag, a + "/" + g), groupText)
    requires KeyIov(groupText, t, iov, true) == ("../" + leaf, groupIov) && groupIov.Valid()
    requires Value(doc, Id(tag, a + "/" + leaf)) == Str(data)
    ensures Resolve(doc, true, Key(tag, a, t), bounds, More(More(fuel))).value == Ok((Payload(data), groupIov))
  {
    var key := Key(tag, a, t);
    var group := key.(path := a + "/" + g);
    IdOfName(tag, a);
    EnterIndex(doc, true, key, bounds, More(More(fuel)), text);
    IndexFileAt(doc, Id(tag, a), text);
    FollowIndex(doc, true, key, bounds, More(fuel), Id(tag, a), text, g, iov);
    IdOfNested(tag, a, g);
    EnterIndex(doc, true, group, iov, More(fuel), groupText);
    IndexFileAt(doc, Id(tag, a + "/" + g), groupText);
    FollowIndex(doc, true, group, iov, fuel, Id(tag, a + "/" + g), groupText, "../" + leaf, groupIov);
    IdOfParent(tag, a, g, leaf);
    LeafAt(doc, true, group.(path := a + "/" + g + "/" + ("../" + leaf)), groupIov, fuel, data);
  }

  // ---------------------------------------------------------------------
  // The index files the fixture writes

  /** `Cond/IOVs` at `v0`. */
  const CondIndexV0: string := "0 v0\n" + "100 group\n"
  /** `Cond/group/IOVs` at `v0`. */
  const GroupIndexV0: string := "50 ../v1\n"
  /** `Cond/IOVs` at `v1`. */
  const CondIndexV1: string := "0 v0\n" + "100 group\n" + "200 v3\n"
  /** `Cond/group/IOVs` at `v1`. */
  const GroupIndexV1: string := "50 ../v1\n" + "150 ../v2\n"

  function CondRecords(): seq<Record>
  {
    [Record(0, "v0"), Record(100, "group"), Record(200, "v3")]
  }

  function GroupRecords(): seq<Record>
  {
    [Record(50, "../v1"), Record(150, "../v2")]
  }

  lemma Line0()
    ensures FormatRecord(Record(0, "v0")) == "0 v0"
  {
  }

  lemma Line100()
    ensures FormatRecord(Record(100, "group")) == "100 group"
  {
    assert NatToString(100) == "100";
  }

  lemma Line200()
    ensures FormatRecord(Record(200, "v3")) == "200 v3"
  {
    assert NatToString(200) == "200";
  }

  lemma Line50()
    ensures FormatRecord(Record(50, "../v1")) == "50 ../v1"
  {
    assert NatToString(50) == "50";
  }

  lemma Line150()
    ensures FormatRecord(Record(150, "../v2")) == "150 ../v2"
  {
    assert NatToString(150) == "150";
  }

  lemma CondTextV0()
    ensures IovsText(CondRecords()[..2]) == CondIndexV0
  {
    var recs := CondRecords()[..2];
    Line0();
    Line100();
    IovsTextCons(recs[1], []);
    IovsTextCons(recs[0], recs[1..]);
    assert recs == [recs[0]] + recs[1..] && recs[1..] == [recs[1]] + [];
  }

  lemma CondTextV1Tail()
    ensures IovsText(CondRecords()[1..]) == "100 group\n" + "200 v3\n"
  {
    var recs := CondRecords()[1..];
    Line100();
    Line200();
    IovsTextCons(recs[1], []);
    IovsTextCons(recs[0], recs[1..]);
    assert recs == [recs[0]] + recs[1..] && recs[1..] == [recs[1]] + [];
  }

  lemma CondTextV1()
    ensures IovsText(CondRecords()) == CondIndexV1
  {
    var recs := CondRecords();
    CondTextV1Tail();
    Line0();
    IovsTextCons(recs[0], recs[1..]);
    assert recs == [recs[0]] + recs[1..];
  }

  lemma GroupTextV0()
    ensures IovsText(GroupRecords()[..1]) == GroupIndexV0
  {
    var recs := GroupRecords()[..1];
    Line50();
    IovsTextCons(recs[0], []);
    assert recs == [recs[0]] + [];
  }

  lemma GroupTextV1()
    ensures IovsText(GroupRecords()) == GroupIndexV1
  {
    var recs := GroupRecords();
    Line50();
    Line150();
    IovsTextCons(recs[1], []);
    IovsTextCons(recs[0], recs[1..]);
    assert recs == [recs[0]] + recs[1..] && recs[1..] == [recs[1]] + [];
  }

  lemma CondRecordsV0()
    ensures Records(CondIndexV0) == CondRecords()[..2]
  {
    CondTextV0();
    assert IsToken("v0") && IsToken("group");
    RecordsOfText(CondRecords()[..2]);
  }

  lemma CondRecordsV1()
    ensures Records(CondIndexV1) == CondRecords()
  {
    CondTextV1();
    assert IsToken("v0") && IsToken("group") && IsToken("v3");
    RecordsOfText(CondRecords());
  }

  lemma GroupRecordsV0()
    ensures Records(GroupIndexV0) == GroupRecords()[..1]
  {
    GroupTextV0();
    assert IsToken("../v1");
    RecordsOfText(GroupRecords()[..1]);
  }

  lemma GroupRecordsV1()
    ensures Records(GroupIndexV1) == GroupRecords()
  {
    GroupTextV1();
    assert IsToken("../v1") && IsToken("../v2");
    RecordsOfText(GroupRecords());
  }

  lemma KeyIovOfRecords(data: string, recs: seq<Record>, t: TimePoint, bounds: IOV, sel: Selection)
    requires Records(data) == recs && Scan(recs, t, true, "", 0) == sel
    requires bounds.ContainsPoint(t)
    ensures KeyIov(data, t, bounds, true) == (sel.key, IOV(sel.since, sel.until).Cut(bounds))
  {
  }

  lemma CondScans()
    ensures Scan(CondRecords()[..2], 0, true, "", 0) == Selection("v0", 0, 100)
    ensures Scan(CondRecords()[..2], 110, true, "", 0) == Selection("group", 100, MaxTime)
    ensures Scan(CondRecords(), 0, true, "", 0) == Selection("v0", 0, 100)
    ensures Scan(CondRecords(), 110, true, "", 0) == Selection("group", 100, 200)
    ensures Scan(CondRecords(), 150, true, "", 0) == Selection("group", 100, 200)
    ensures Scan(CondRecords(), 210, true, "", 0) == Selection("v3", 200, MaxTime)
  {
  }

  lemma GroupScans()
    ensures Scan(GroupRecords()[..1], 110, true, "", 0) == Selection("../v1", 50, MaxTime)
    ensures Scan(GroupRecords(), 110, true, "", 0) == Selection("../v1", 50, 150)
    ensures Scan(GroupRecords(), 150, true, "", 0) == Selection("../v2", 150, MaxTime)
  {
  }

  /** At a time outside the bounds, an index gives the empty key with an
      invalid IOV, whatever the index holds. */
  lemma IndexOutOfBounds(doc: Json, reduce: bool, tag: string, a: string, t: TimePoint, bounds: IOV,
                         text: string, fuel: Fuel)
    requires Name(a) && IndexAt(doc, Id(tag, a), text) && !bounds.ContainsPoint(t)
    ensures Resolve(doc, reduce, Key(tag, a, t), bounds, fuel).value == Ok((Payload(""), IOV(0, 0)))
  {
    var key := Key(tag, a, t);
    IdOfName(tag, a);
    EnterIndex(doc, reduce, key, bounds, fuel, text);
    IndexFileAt(doc, Id(tag, a), text);
    assert KeyIov(text, t, bounds, reduce) == ("", IOV(0, 0));
  }

  // ---------------------------------------------------------------------
  // What the indices select at the times the test asks for

  lemma CondV0Selections()
    ensures KeyIov(CondIndexV0, 0, IOV.Full(), true) == ("v0", IOV(0, 100))
    ensures KeyIov(CondIndexV0, 110, IOV.Full(), true) == ("group", IOV(100, MaxTime))
  {
    CondRecordsV0();
    CondScans();
    KeyIovOfRecords(CondIndexV0, CondRecords()[..2], 0, IOV.Full(), Selection("v0", 0, 100));
    KeyIovOfRecords(CondIndexV0, CondRecords()[..2], 110, IOV.Full(), Selection("group", 100, MaxTime));
  }

  lemma GroupV0Selections()
    ensures KeyIov(GroupIndexV0, 110, IOV(100, MaxTime), true) == ("../v1", IOV(100, MaxTime))
  {
    GroupRecordsV0();
    GroupScans();
    assert IOV(50, MaxTime).Cut(IOV(100, MaxTime)) == IOV(100, MaxTime);
    KeyIovOfRecords(GroupIndexV0, GroupRecords()[..1], 110, IOV(100, MaxTime), Selection("../v1", 50, MaxTime));
  }

  lemma CondV1Selections()
    ensures KeyIov(CondIndexV1, 0, IOV.Full(), true) == ("v0", IOV(0, 100))
    ensures KeyIov(CondIndexV1, 110, IOV.Full(), true) == ("group", IOV(100, 200))
    ensures KeyIov(CondIndexV1, 150, IOV.Full(), true) == ("group", IOV(100, 200))
    ensures KeyIov(CondIndexV1, 210, IOV.Full(), true) == ("v3", IOV(200, MaxTime))
  {
    CondRecordsV1();
    CondScans();
    KeyIovOfRecords(CondIndexV1, CondRecords(), 0, IOV.Full(), Selection("v0", 0, 100));
    KeyIovOfRecords(CondIndexV1, CondRecords(), 110, IOV.Full(), Selection("group", 100, 200));
    KeyIovOfRecords(CondIndexV1, CondRecords(), 150, IOV.Full(), Selection("group", 100, 200));
    KeyIovOfRecords(CondIndexV1, CondRecords(), 210, IOV.Full(), Selection("v3", 200, MaxTime));
  }

  lemma GroupV1Selections()
    ensures KeyIov(GroupIndexV1, 110, IOV(100, 200), true) == ("../v1", IOV(100, 150))
    ensures KeyIov(GroupIndexV1, 150, IOV(100, 200), true) == ("../v2", IOV(150, 200))
  {
    GroupRecordsV1();
    GroupScans();
    assert IOV(50, 150).Cut(IOV(100, 200)) == IOV(100, 150);
    assert IOV(150, MaxTime).Cut(IOV(100, 200)) == IOV(150, 200);
    KeyIovOfRecords(GroupIndexV1, GroupRecords(), 110, IOV(100, 200), Selection("../v1", 50, 150));
    KeyIovOfRecords(GroupIndexV1, GroupRecords(), 150, IOV(100, 200), Selection("../v2", 150, MaxTime));
  }

  /** The names the indices select are path components, and `../v1` and
      `../v2` go up one level to `v1` and `v2`. */
  lemma SelectedNames()
    ensures Name("v0") && Name("group") && Name("v3")
    ensures "../v1"[3..] == "v1" && "../v1" == "../" + "../v1"[3..] && Name("v1")
    ensures "../v2"[3..] == "v2" && "../v2" == "../" + "../v2"[3..] && Name("v2")
  {
    var r1, r2 := "../v1", "../v2";
    assert r1[3..] == "v1" && r1 == "../" + r1[3..];
    assert r2[3..] == "v2" && r2 == "../" + r2[3..];
  }

  // ---------------------------------------------------------------------
  // The repository at tags `v0` and `v1`

  /** `dir` at `tag` holds what the first commit of the fixture wrote:
      the index `0 v0`, `100 group`, the group index `50 ../v1` and the
      payloads `data 0` and `data 1`. */
  predicate TreeV0(doc: Json, tag: string, dir: string)
  {
    && IndexAt(doc, Id(tag, dir), CondIndexV0)
    && IndexAt(doc, Id(tag, dir + "/" + "group"), GroupIndexV0)
    && Value(doc, Id(tag, dir + "/" + "v0")) == Str("data 0")
    && Value(doc, Id(tag, dir + "/" + "v1")) == Str("data 1")
  }

  /** `dir` at `tag` holds what the second commit left: the index extended
      by `200 v3`, the group index by `150 ../v2`, and the payloads `data 0`
      to `data 3`. */
  predicate TreeV1(doc: Json, tag: string, dir: string)
  {
    && IndexAt(doc, Id(tag, dir), CondIndexV1)
    && IndexAt(doc, Id(tag, dir + "/" + "group"), GroupIndexV1)
    && Value(doc, Id(tag, dir + "/" + "v0")) == Str("data 0")
    && Value(doc, Id(tag, dir + "/" + "v1")) == Str("data 1")
    && Value(doc, Id(tag, dir + "/" + "v2")) == Str("data 2")
    && Value(doc, Id(tag, dir + "/" + "v3")) == Str("data 3")
  }

  /** `get({"v0", "Cond", 0})` is `data 0` on `[0, 100)`. */
  lemma V0At0(doc: Json, tag: string, dir: string, fuel: Fuel)
    requires Name(dir) && TreeV0(doc, tag, dir)
    ensures Resolve(doc, true, Key(tag, dir, 0), IOV.Full(), More(fuel)).value == Ok((Payload("data 0"), IOV(0, 100)))
  {
    CondV0Selections();
    SelectedNames();
    var sel := KeyIov(CondIndexV0, 0, IOV.Full(), true);
    IndexedLeaf(doc, tag, dir, sel.0, 0, IOV.Full(), CondIndexV0, sel.1, "data 0", fuel);
  }

  /** `get({"v0", "Cond", 110})` is `data 1` on `[100, max)`: the index
      selects `group` from 100 on, whose own index sends the key up to
      `Cond/v1`, valid from 50 on and so cut to `[100, max)`. */
  lemma V0At110(doc: Json, tag: string, dir: string, fuel: Fuel)
    requires Name(dir) && TreeV0(doc, tag, dir)
    ensures Resolve(doc, true, Key(tag, dir, 110), IOV.Full(), More(More(fuel))).value
            == Ok((Payload("data 1"), IOV(100, MaxTime)))
  {
    CondV0Selections();
    GroupV0Selections();
    SelectedNames();
    var sel := KeyIov(CondIndexV0, 110, IOV.Full(), true);
    var sub := KeyIov(GroupIndexV0, 110, sel.1, true);
    GroupRedirect(doc, tag, dir, sel.0, sub.0[3..], 110, IOV.Full(), CondIndexV0, sel.1, GroupIndexV0, sub.1, "data 1", fuel);
  }

  /** `get({"v1", "Cond", 0})` is `data 0` on `[0, 100)`. */
  lemma V1At0(doc: Json, tag: string, dir: string, fuel: Fuel)
    requires Name(dir) && TreeV1(doc, tag, dir)
    ensures Resolve(doc, true, Key(tag, dir, 0), IOV.Full(), More(fuel)).value == Ok((Payload("data 0"), IOV(0, 100)))
  {
    CondV1Selections();
    SelectedNames();
    var sel := KeyIov(CondIndexV1, 0, IOV.Full(), true);
    IndexedLeaf(doc, tag, dir, sel.0, 0, IOV.Full(), CondIndexV1, sel.1, "data 0", fuel);
  }

  /** `get({"v1", "Cond", 110})` is `data 1` on `[100, 150)`: `group` now
      ends at 200 and `../v1` at 150. */
  lemma V1At110(doc: Json, tag: string, dir: string, fuel: Fuel)
    requires Name(dir) && TreeV1(doc, tag, dir)
    ensures Resolve(doc, true, Key(tag, dir, 110), IOV.Full(), More(More(fuel))).value
            == Ok((Payload("data 1"), IOV(100, 150)))
  {
    CondV1Selections();
    GroupV1Selections();
    SelectedNames();
    var sel := KeyIov(CondIndexV1, 110, IOV.Full(), true);
    var sub := KeyIov(GroupIndexV1, 110, sel.1, true);
    GroupRedirect(doc, tag, dir, sel.0, sub.0[3..], 110, IOV.Full(), CondIndexV1, sel.1, GroupIndexV1, sub.1, "data 1", fuel);
  }

  /** `get({"v1", "Cond", 150})` is `data 2` on `[150, 200)`. */
  lemma V1At150(doc: Json, tag: string, dir: string, fuel: Fuel)
    requires Name(dir) && TreeV1(doc, tag, dir)
    ensures Resolve(doc, true, Key(tag, dir, 150), IOV.Full(), More(More(fuel))).value
            == Ok((Payload("data 2"), IOV(150, 200)))
  {
    CondV1Selections();
    GroupV1Selections();
    SelectedNames();
    var sel := KeyIov(CondIndexV1, 150, IOV.Full(), true);
    var sub := KeyIov(GroupIndexV1, 150, sel.1, true);
    GroupRedirect(doc, tag, dir, sel.0, sub.0[3..], 150, IOV.Full(), CondIndexV1, sel.1, GroupIndexV1, sub.1, "data 2", fuel);
  }

  /** `get({"v1", "Cond", 210})` is `data 3` on `[200, max)`. */
  lemma V1At210(doc: Json, tag: string, dir: string, fuel: Fuel)
    requires Name(dir) && TreeV1(doc, tag, dir)
    ensures Resolve(doc, true, Key(tag, dir, 210), IOV.Full(), More(fuel)).value
            == Ok((Payload("data 3"), IOV(200, MaxTime)))
  {
    CondV1Selections();
    SelectedNames();
    var sel := KeyIov(CondIndexV1, 210, IOV.Full(), true);
    IndexedLeaf(doc, tag, dir, sel.0, 210, IOV.Full(), CondIndexV1, sel.1, "data 3", fuel);
  }

  /** `get({"v1", "Cond", 210}, {0, 200})` is the empty string with an
      invalid IOV. */
  lemma V1OutsideBounds(doc: Json, tag: string, dir: string, fuel: Fuel)
    requires Name(dir) && TreeV1(doc, tag, dir)
    ensures var r := Resolve(doc, true, Key(tag, dir, 210), IOV(0, 200), fuel).value;
            r.Ok? && r.value.0 == Payload("") && !r.value.1.Valid()
  {
    IndexOutOfBounds(doc, true, tag, dir, 210, IOV(0, 200), CondIndexV1, fuel);
  }

  // ---------------------------------------------------------------------
  // The fixture's commits

  /** A commit of the fixture: the tag put on it and its pinned committer
      date, in seconds since the epoch. */
  datatype Commit = Commit(tag: string, date: int)

  /** The commits `create_mini_repo` makes, oldest first. */
  const MiniRepoCommits: seq<Commit> := [Commit("v0", 1483225100), Commit("v1", 1483225200)]

  /** `HEAD` after the script: the commit made last. */
  function Head(commits: seq<Commit>): (c: Commit)
    requires commits != []
    ensures c in commits
  {
    commits[|commits| - 1]
  }

  /** Every commit is dated after the ones before it. */
  predicate DatesIncrease(commits: seq<Commit>)
  {
    forall i, j :: 0 <= i < j < |commits| ==> commits[i].date < commits[j].date
  }

  /** When dates increase, `HEAD` carries the latest date of all. */
  lemma HeadIsLatest(commits: seq<Commit>)
    requires commits != [] && DatesIncrease(commits)
    ensures forall c :: c in commits ==> c.date <= Head(commits).date
  {
    forall c | c in commits ensures c.date <= Head(commits).date {
      var i :| 0 <= i < |commits| && commits[i] == c;
      if i < |commits| - 1 {
        assert commits[i].date < commits[|commits| - 1].date;
      }
    }
  }

  /** The fixture's dates increase, and the commit time of `HEAD` is
      1483225200, the date of the commit tagged `v1`. */
  lemma MiniRepoHead()
    ensures DatesIncrease(MiniRepoCommits)
    ensures Head(MiniRepoCommits) == Commit("v1", 1483225200)
    ensures forall c :: c in MiniRepoCommits ==> c.date <= 1483225200
  {
    HeadIsLatest(MiniRepoCommits);
  }
}
