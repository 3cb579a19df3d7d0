/** The IOVs index file and the two readers of it (`get_key_iov` and
    `parse_IOVs_keys`). An index is text, one `<timestamp> <key>` record per
    line; the n-th record says that from `timestamp` on the key is `key`. */
module IovHelpers {
  import opened Text
  import opened Iov

  /** One line of an IOVs file after `is >> current >> tmp_key`. */
  datatype Record = Record(time: TimePoint, key: string)

  /** `>>` into a 64-bit unsigned stores the largest value when the number
      does not fit. */
  function Clamp(n: nat): (t: TimePoint)
    ensures n <= MaxTime ==> t == n
    ensures n > MaxTime ==> t == MaxTime
  {
    if n > MaxTime then MaxTime else n
  }

  function ParseLine(line: string): Record
  {
    var num := ExtractNumber(line);
    Record(Clamp(num.0), ExtractToken(num.1).0)
  }

  /** The records of an index, one per line `getline` yields, in file order. */
  function Records(data: string): seq<Record>
    decreases |data|
  {
    if data == [] then [] else [ParseLine(GetLine(data).0)] + Records(GetLine(data).1)
  }

  // ---------------------------------------------------------------------
  // The on-disk format

  /** A record as the index writer prints it. */
  function FormatRecord(r: Record): string
  {
    NatToString(r.time) + " " + r.key
  }

  /** A whole index: every record on its own '\n'-terminated line. */
  function IovsText(recs: seq<Record>): string
  {
    if recs == [] then [] else FormatRecord(recs[0]) + "\n" + IovsText(recs[1..])
  }

  predicate WellFormed(recs: seq<Record>)
  {
    forall i :: 0 <= i < |recs| ==> IsToken(recs[i].key)
  }

  lemma ParseFormatted(r: Record)
    requires IsToken(r.key)
    ensures ParseLine(FormatRecord(r)) == r
  {
    ExtractNumberOfString(r.time, " " + r.key);
    assert FormatRecord(r) == NatToString(r.time) + (" " + r.key);
    ExtractTokenOfSpaced(r.key);
  }

  /** A line ended by '\n' is read as one record, and reading goes on
      after it. */
  lemma RecordsCons(line: string, rest: string)
    requires '\n' !in line
    ensures Records(line + "\n" + rest) == [ParseLine(line)] + Records(rest)
  {
    var text := line + "\n" + rest;
    LineEndAt(line, rest);
    assert text[..|line|] == line && text[|line| + 1..] == rest;
    assert GetLine(text) == (line, rest);
  }

  lemma FormattedIsOneLine(r: Record)
    requires IsToken(r.key)
    ensures '\n' !in FormatRecord(r)
  {
    assert IsSpace('\n');
  }

  /** Reading back the first line the writer printed gives its record. */
  lemma RecordsOfTextStep(r: Record, tail: seq<Record>)
    requires IsToken(r.key)
    ensures Records(IovsText([r] + tail)) == [r] + Records(IovsText(tail))
  {
    assert ([r] + tail)[1..] == tail;
    FormattedIsOneLine(r);
    RecordsCons(FormatRecord(r), IovsText(tail));
    ParseFormatted(r);
  }

  /** Reading back what the writer printed gives the same records. */
  lemma {:induction false} RecordsOfText(recs: seq<Record>)
    requires WellFormed(recs)
    ensures Records(IovsText(recs)) == recs
    decreases |recs|
  {
    if recs != [] {
      assert recs == [recs[0]] + recs[1..];
      RecordsOfTextStep(recs[0], recs[1..]);
      assert WellFormed(recs[1..]);
      RecordsOfText(recs[1..]);
    }
  }

  // ---------------------------------------------------------------------
  // get_key_iov

  /** What the scan over the lines has selected: the key, its `since`, and
      its `until`. */
  datatype Selection = Selection(key: string, since: TimePoint, until: TimePoint)

  /** The lines loop of `get_key_iov`, from a state where `key` was selected
      at `since`. A line is considered unless reduction is on and its key is
      the selected one; a considered line later than `t` ends the scan and
      gives `until`, any other considered line is selected. */
  function Scan(recs: seq<Record>, t: TimePoint, reduce: bool, key: string, since: TimePoint): (r: Selection)
    ensures since <= t ==> r.since <= t
    ensures r.until == MaxTime || t < r.until
    decreases |recs|
  {
    if recs == [] then Selection(key, since, MaxTime)
    else if !reduce || recs[0].key != key then
      if recs[0].time > t then Selection(key, since, recs[0].time)
      else Scan(recs[1..], t, reduce, recs[0].key, recs[0].time)
    else Scan(recs[1..], t, reduce, key, since)
  }

  /** `get_key_iov(data, t, boundaries, reduce_iovs)`: the key valid at `t`
      and its IOV cut to `boundaries`; a time outside the boundaries gives
      the empty key and the invalid IOV `[0, 0)`. */
  function KeyIov(data: string, t: TimePoint, boundaries: IOV, reduce: bool): (r: (string, IOV))
    ensures !boundaries.ContainsPoint(t) ==> r == ("", IOV(0, 0)) && !r.1.Valid()
    ensures boundaries.ContainsPoint(t) ==> r.1.ContainsPoint(t) && Within(r.1, boundaries)
  {
    if t < boundaries.since || t >= boundaries.until then ("", IOV(0, 0))
    else
      var s := Scan(Records(data), t, reduce, "", 0);
      (s.key, IOV(s.since, s.until).Cut(boundaries))
  }

  /** The loop of `get_key_iov` over the lines of `data`. */
  method GetKeyIov(data: string, t: TimePoint, boundaries: IOV, reduceIovs: bool) returns (key: string, iov: IOV)
    ensures (key, iov) == KeyIov(data, t, boundaries, reduceIovs)
  {
    key := "";
    var since: TimePoint := MinTime;
    var until: TimePoint := MaxTime;
    if t < boundaries.since || t >= boundaries.until {
      since, until := 0, 0;
      iov := IOV(since, until);
      return;
    }
    ghost var goal := Scan(Records(data), t, reduceIovs, "", 0);
    var current: TimePoint := 0;
    var rest := data;
    var tmpKey := "";
    while rest != []
      invariant Scan(Records(rest), t, reduceIovs, key, since) == goal
      invariant until == MaxTime
      decreases |rest|
    {
      ghost var before := rest;
      var line;
      line, rest := GetLine(rest).0, GetLine(rest).1;
      var r := ParseLine(line);
      current, tmpKey := r.time, r.key;
      assert Records(before) == [r] + Records(rest);
      if !reduceIovs || tmpKey != key {
        if current > t {
          until := current;
          assert goal == Selection(key, since, until);
          break;
        }
        key := tmpKey;
        since := current;
      }
    }
    iov := IOV(since, until).Cut(boundaries);
  }

  /** `r` is the last record at or before `t` and the next one is after `t`. */
  predicate SelectedAt(recs: seq<Record>, t: TimePoint, j: int)
  {
    0 <= j < |recs| && recs[j].time <= t && (j + 1 == |recs| || t < recs[j + 1].time)
  }

  predicate StrictlyAscending(recs: seq<Record>)
  {
    forall i, j :: 0 <= i < j < |recs| ==> recs[i].time < recs[j].time
  }

  predicate DistinctNeighbours(recs: seq<Record>)
  {
    forall i :: 0 < i < |recs| ==> recs[i - 1].key != recs[i].key
  }

  function NextTime(recs: seq<Record>, j: int): TimePoint
    requires -1 <= j < |recs|
  {
    if j + 1 < |recs| then recs[j + 1].time else MaxTime
  }

  /** On an index with ascending timestamps (and, when reducing, distinct
      neighbouring keys) the scan selects the last record at or before `t`,
      valid until the next record's time or `max`; before the first record it
      keeps the starting selection, valid until the first record's time. */
  lemma {:induction false} ScanAscending(recs: seq<Record>, t: TimePoint, reduce: bool, key: string, since: TimePoint)
    requires StrictlyAscending(recs)
    requires reduce ==> DistinctNeighbours(recs) && (recs != [] ==> recs[0].key != key)
    ensures recs == [] || t < recs[0].time ==> Scan(recs, t, reduce, key, since) == Selection(key, since, NextTime(recs, -1))
    ensures forall j :: SelectedAt(recs, t, j) ==>
              Scan(recs, t, reduce, key, since) == Selection(recs[j].key, recs[j].time, NextTime(recs, j))
    decreases |recs|
  {
    if recs != [] && recs[0].time <= t {
      var tail := recs[1..];
      ScanAscending(tail, t, reduce, recs[0].key, recs[0].time);
      forall j | SelectedAt(recs, t, j)
        ensures Scan(recs, t, reduce, key, since) == Selection(recs[j].key, recs[j].time, NextTime(recs, j))
      {
        if j > 0 {
          assert SelectedAt(tail, t, j - 1);
        }
      }
    }
  }

  /** With reduction on, a line whose key is the selected one is skipped:
      reducing is the plain scan of the index with such lines removed. */
  function Reduced(recs: seq<Record>, current: string): seq<Record>
  {
    if recs == [] then []
    else if recs[0].key == current then Reduced(recs[1..], current)
    else [recs[0]] + Reduced(recs[1..], recs[0].key)
  }

  lemma {:induction false} ReductionSkipsRepeats(recs: seq<Record>, t: TimePoint, key: string, since: TimePoint)
    ensures Scan(recs, t, true, key, since) == Scan(Reduced(recs, key), t, false, key, since)
    decreases |recs|
  {
    if recs != [] {
      if recs[0].key == key {
        ReductionSkipsRepeats(recs[1..], t, key, since);
      } else {
        ReductionSkipsRepeats(recs[1..], t, recs[0].key, recs[0].time);
        assert Reduced(recs, key)[1..] == Reduced(recs[1..], recs[0].key);
      }
    }
  }

  /** A query before the first line's time gives the empty key on
      `[0, first)`, cut to the boundaries; it is not an error. */
  lemma BeforeFirstLine(data: string, t: TimePoint, boundaries: IOV, reduce: bool)
    requires Records(data) != [] && t < Records(data)[0].time
    requires reduce ==> Records(data)[0].key != ""
    requires boundaries.ContainsPoint(t)
    ensures KeyIov(data, t, boundaries, reduce) == ("", IOV(0, Records(data)[0].time).Cut(boundaries))
  {
  }

  // ---------------------------------------------------------------------
  // parse_IOVs_keys

  /** `parse_IOVs_keys`: one (IOV, key) per line, in file order, keys
      verbatim; each IOV starts at its line's time and ends where the next
      one starts, the last one at `max`. */
  function IovsKeys(data: string): (out: seq<(IOV, string)>)
    ensures Consecutive(Records(data), out)
  {
    Pairs(Records(data))
  }

  /** Entry `i` holds line `i`'s key, valid from its time to the next
      line's time, or to `max` for the last line. */
  predicate Consecutive(recs: seq<Record>, out: seq<(IOV, string)>)
  {
    && |out| == |recs|
    && forall i :: 0 <= i < |out| ==> out[i] == (IOV(recs[i].time, NextTime(recs, i)), recs[i].key)
  }

  /** The entries of a printed index follow its records. */
  lemma KeysOfText(recs: seq<Record>)
    requires WellFormed(recs)
    ensures IovsKeys(IovsText(recs)) == Pairs(recs)
  {
    RecordsOfText(recs);
  }

  /** The entries tile time from the first line on: each one ends where the
      next one starts, and the last one ends at `max`. */
  lemma IovsKeysTile(data: string)
    ensures var out := IovsKeys(data);
            && (forall i :: 0 <= i < |out| - 1 ==> out[i].0.until == out[i + 1].0.since)
            && (out != [] ==> out[|out| - 1].0.until == MaxTime)
  {
  }

  function Pairs(recs: seq<Record>): (out: seq<(IOV, string)>)
    ensures Consecutive(recs, out)
    decreases |recs|
  {
    if recs == [] then []
    else [(IOV(recs[0].time, NextTime(recs, 0)), recs[0].key)] + Pairs(recs[1..])
  }

  /** Two lists consecutive over the same records are equal. */
  lemma ConsecutiveUnique(recs: seq<Record>, a: seq<(IOV, string)>, b: seq<(IOV, string)>)
    requires Consecutive(recs, a) && Consecutive(recs, b)
    ensures a == b
  {
    assert forall i | 0 <= i < |a| :: a[i] == b[i];
  }

  /** Appending a line: the previous last entry now ends at the line's time,
      and a new entry runs from it to `max`. */
  function Extend(out: seq<(IOV, string)>, r: Record): seq<(IOV, string)>
  {
    (if out == [] then [] else out[..|out| - 1] + [(IOV(out[|out| - 1].0.since, r.time), out[|out| - 1].1)])
    + [(IOV(r.time, MaxTime), r.key)]
  }

  lemma ConsecutiveExtend(seen: seq<Record>, out: seq<(IOV, string)>, r: Record)
    requires Consecutive(seen, out)
    ensures Consecutive(seen + [r], Extend(out, r))
  {
    var recs := seen + [r];
    var out' := Extend(out, r);
    var n := |out|;
    assert |out'| == n + 1;
    assert out'[n] == (IOV(r.time, MaxTime), r.key);
    if n > 0 {
      var patched := out[..n - 1] + [(IOV(out[n - 1].0.since, r.time), out[n - 1].1)];
      assert out' == patched + [(IOV(r.time, MaxTime), r.key)];
      forall i | 0 <= i < n - 1 ensures out'[i] == out[i] {
        assert out'[i] == patched[i];
      }
      assert out'[n - 1] == (IOV(out[n - 1].0.since, r.time), out[n - 1].1);
    }
    forall i | 0 <= i < |out'| ensures out'[i] == (IOV(recs[i].time, NextTime(recs, i)), recs[i].key) {
      if i < n - 1 {
        assert NextTime(recs, i) == NextTime(seen, i);
      }
    }
  }

  /** Reading one more line moves its record from the unread part to the
      part already read. */
  lemma ReadOneLine(data: string, seen: seq<Record>, rest: string)
    requires rest != [] && Records(data) == seen + Records(rest)
    ensures Records(data) == (seen + [ParseLine(GetLine(rest).0)]) + Records(GetLine(rest).1)
  {
    var r := ParseLine(GetLine(rest).0);
    var unread := Records(GetLine(rest).1);
    assert Records(rest) == [r] + unread;
    AppendAssociates(seen, [r], unread);
  }

  /** The lines loop of `parse_IOVs_keys`, back-patching the previous
      entry's `until` with each new line's time. */
  method ParseIovsKeys(data: string) returns (out: seq<(IOV, string)>)
    ensures out == IovsKeys(data)
  {
    out := [];
    var rest := data;
    ghost var seen: seq<Record> := [];
    while rest != []
      invariant Records(data) == seen + Records(rest)
      invariant Consecutive(seen, out)
      decreases |rest|
    {
      ghost var before := rest;
      var line;
      line, rest := GetLine(rest).0, GetLine(rest).1;
      var r := ParseLine(line);
      ReadOneLine(data, seen, before);
      ghost var previous := out;
      if out != [] {
        var last := out[|out| - 1];
        out := out[..|out| - 1] + [(IOV(last.0.since, r.time), last.1)];
      }
      out := out + [(IOV(r.time, MaxTime), r.key)];
      assert out == Extend(previous, r);
      ConsecutiveExtend(seen, previous, r);
      seen := seen + [r];
    }
    assert Records(rest) == [];
    assert seen + [] == seen;
    ConsecutiveUnique(seen, out, IovsKeys(data));
  }

  // ---------------------------------------------------------------------
  // The unit-test index "0 a\n100 b\n200 c\n300 d\n"

  const TestIndex: string := "0 a\n" + "100 b\n" + "200 c\n" + "300 d\n"

  function TestRecords(): seq<Record>
  {
    [Record(0, "a"), Record(100, "b"), Record(200, "c"), Record(300, "d")]
  }

  /** The writer's text for the test records is the test index. */
  lemma TestIndexText()
    ensures IovsText(TestRecords()) == TestIndex
  {
    TestIndexText1();
    TestNumbers();
    IovsTextCons(Record(0, "a"), TestRecords()[1..]);
    assert TestRecords() == [Record(0, "a")] + TestRecords()[1..];
  }

  lemma TestIndexText1()
    ensures IovsText(TestRecords()[1..]) == "100 b\n" + "200 c\n" + "300 d\n"
  {
    TestIndexText2();
    TestNumbers();
    IovsTextCons(Record(100, "b"), TestRecords()[2..]);
    assert TestRecords()[1..] == [Record(100, "b")] + TestRecords()[2..];
  }

  lemma TestIndexText2()
    ensures IovsText(TestRecords()[2..]) == "200 c\n" + "300 d\n"
  {
    TestNumbers();
    IovsTextCons(Record(300, "d"), []);
    IovsTextCons(Record(200, "c"), TestRecords()[3..]);
    assert TestRecords()[3..] == [Record(300, "d")];
    assert TestRecords()[2..] == [Record(200, "c")] + TestRecords()[3..];
  }

  lemma TestNumbers()
    ensures FormatRecord(Record(0, "a")) == "0 a"
    ensures FormatRecord(Record(100, "b")) == "100 b"
    ensures FormatRecord(Record(200, "c")) == "200 c"
    ensures FormatRecord(Record(300, "d")) == "300 d"
  {
    assert NatToString(100) == "100" && NatToString(200) == "200" && NatToString(300) == "300";
  }

  lemma IovsTextCons(r: Record, tail: seq<Record>)
    ensures IovsText([r] + tail) == FormatRecord(r) + "\n" + IovsText(tail)
  {
    assert ([r] + tail)[1..] == tail;
  }

  lemma TestIndexRecords()
    ensures Records(TestIndex) == TestRecords()
  {
    var recs := TestRecords();
    TestIndexText();
    forall i | 0 <= i < |recs| ensures IsToken(recs[i].key) {
      assert |recs[i].key| == 1;
    }
    RecordsOfText(recs);
  }

  /** The expected answers of the `get_key_iov` unit test, for any text
      that reads as the test records. */
  lemma KeyIovOfTestRecords(data: string)
    requires Records(data) == TestRecords()
    ensures KeyIov(data, 0, IOV.Full(), true) == ("a", IOV(0, 100))
    ensures KeyIov(data, 100, IOV.Full(), true) == ("b", IOV(100, 200))
    ensures KeyIov(data, 230, IOV.Full(), true) == ("c", IOV(200, 300))
    ensures KeyIov(data, 500, IOV.Full(), true) == ("d", IOV(300, MaxTime))
    ensures KeyIov(data, 240, IOV(210, 1000), true) == ("c", IOV(210, 300))
    ensures KeyIov(data, 500, IOV(210, 1000), true) == ("d", IOV(300, 1000))
    ensures KeyIov(data, 2000, IOV(210, 1000), true) == ("", IOV(0, 0))
  {
    ScanTestRecords();
  }

  /** The selections the scan makes on the test records. */
  lemma ScanTestRecords()
    ensures Scan(TestRecords(), 0, true, "", 0) == Selection("a", 0, 100)
    ensures Scan(TestRecords(), 100, true, "", 0) == Selection("b", 100, 200)
    ensures Scan(TestRecords(), 230, true, "", 0) == Selection("c", 200, 300)
    ensures Scan(TestRecords(), 240, true, "", 0) == Selection("c", 200, 300)
    ensures Scan(TestRecords(), 500, true, "", 0) == Selection("d", 300, MaxTime)
  {
    var recs := TestRecords();
    forall t: TimePoint | t in {0, 100, 230, 240, 500}
      ensures Scan(recs, t, true, "", 0) == Selection(recs[SelectedIndex(t)].key, recs[SelectedIndex(t)].time, NextTime(recs, SelectedIndex(t)))
    {
      ScanAscending(recs, t, true, "", 0);
      assert SelectedAt(recs, t, SelectedIndex(t));
    }
  }

  function SelectedIndex(t: TimePoint): int
  {
    if t < 100 then 0 else if t < 200 then 1 else if t < 300 then 2 else 3
  }

  /** The `get_key_iov` unit test on the index text itself: with no
      boundaries, and with boundaries `[210, 1000)`. */
  lemma KeyIovTestVectors()
    ensures KeyIov(TestIndex, 0, IOV.Full(), true) == ("a", IOV(0, 100))
    ensures KeyIov(TestIndex, 100, IOV.Full(), true) == ("b", IOV(100, 200))
    ensures KeyIov(TestIndex, 230, IOV.Full(), true) == ("c", IOV(200, 300))
    ensures KeyIov(TestIndex, 500, IOV.Full(), true) == ("d", IOV(300, MaxTime))
    ensures KeyIov(TestIndex, 240, IOV(210, 1000), true) == ("c", IOV(210, 300))
    ensures KeyIov(TestIndex, 500, IOV(210, 1000), true) == ("d", IOV(300, 1000))
    ensures KeyIov(TestIndex, 2000, IOV(210, 1000), true) == ("", IOV(0, 0))
  {
    TestIndexRecords();
    KeyIovOfTestRecords(TestIndex);
  }
}
