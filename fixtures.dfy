/** The test fixtures of tests/prepare_test_data.py: the IOVs writer
    (`to_ts`, `write_IOVs`) and the constant IOV tables it writes. */
module TestData {
  import opened Text
  import opened Iov
  import opened IovHelpers

  /** A `datetime` at midnight. */
  datatype Date = Date(year: int, month: int, day: int)

  /** `EPOCH`. */
  const Epoch: Date := Date(1970, 1, 1)

  const NanosPerDay: int := 86400 * 1_000_000_000

  /** Days from `EPOCH` to `d` in the proleptic Gregorian calendar (negative
      before it); March is taken as the first month, so that the leap day
      ends the year. */
  function DaysSinceEpoch(d: Date): int
  {
    var y := if d.month <= 2 then d.year - 1 else d.year;
    var era := y / 400;
    var yoe := y - era * 400;
    var mp := if d.month > 2 then d.month - 3 else d.month + 9;
    var doy := (153 * mp + 2) / 5 + d.day - 1;
    var doe := yoe * 365 + yoe / 4 - yoe / 100 + doy;
    era * 146097 + doe - 719468
  }

  /** `to_ts(dt)`: nanoseconds since `EPOCH`. */
  function ToTs(d: Date): (ts: int)
    ensures ts % NanosPerDay == 0
  {
    DaysSinceEpoch(d) * NanosPerDay
  }

  /** `to_ts(EPOCH)` is 0, so epoch entries start at time 0. */
  lemma EpochIsZero()
    ensures ToTs(Epoch) == 0
  {
    assert DaysSinceEpoch(Epoch) == 0;
  }

  /** The next day of the same month is one day later. */
  lemma NextDay(y: int, m: int, day: int)
    ensures ToTs(Date(y, m, day + 1)) == ToTs(Date(y, m, day)) + NanosPerDay
  {
  }

  // ---------------------------------------------------------------------
  // write_IOVs

  /** The line `write_IOVs` writes for one pair, without its '\n'. */
  function IovLine(dt: Date, key: string): string
  {
    IntToString(ToTs(dt)) + " " + key
  }

  /** The text `write_IOVs` writes: `"<to_ts(dt)> <key>\n"` for every pair,
      in the given order. */
  function WriteIovs(iovs: seq<(Date, string)>): (text: string)
  {
    if iovs == [] then [] else IovLine(iovs[0].0, iovs[0].1) + "\n" + WriteIovs(iovs[1..])
  }

  /** The lines of the text, one per pair. */
  function IovLines(iovs: seq<(Date, string)>): (ls: seq<string>)
    ensures |ls| == |iovs|
  {
    seq(|iovs|, i requires 0 <= i < |iovs| => IovLine(iovs[i].0, iovs[i].1))
  }

  lemma {:induction false} WriteIovsJoins(iovs: seq<(Date, string)>)
    ensures WriteIovs(iovs) == JoinLines(IovLines(iovs))
    decreases |iovs|
  {
    if iovs != [] {
      WriteIovsJoins(iovs[1..]);
      assert IovLines(iovs)[1..] == IovLines(iovs[1..]);
    }
  }

  lemma NoNewlineInNumber(n: int)
    ensures '\n' !in IntToString(n)
  {
    var s := IntToString(n);
    if n >= 0 {
      assert forall k :: 0 <= k < |s| ==> IsDigit(s[k]);
    } else {
      var digits := NatToString(-n);
      assert s == "-" + digits;
      assert forall k :: 0 <= k < |digits| ==> IsDigit(digits[k]);
      assert forall k :: 1 <= k < |s| ==> s[k] == digits[k - 1];
    }
  }

  /** `write_IOVs` writes exactly one line per pair, in the given order,
      whatever the pairs (no sorting, no validation). */
  lemma WriteIovsLines(iovs: seq<(Date, string)>)
    requires forall i :: 0 <= i < |iovs| ==> '\n' !in iovs[i].1
    ensures Lines(WriteIovs(iovs)) == IovLines(iovs)
  {
    WriteIovsJoins(iovs);
    forall k | 0 <= k < |iovs| ensures '\n' !in IovLines(iovs)[k] {
      NoNewlineInNumber(ToTs(iovs[k].0));
    }
    LinesOfJoined(IovLines(iovs));
  }

  // ---------------------------------------------------------------------
  // Reading the written file back

  /** Every date falls on the 64-bit time axis and every key is one token:
      what `parse_IOVs_keys` reads as written. */
  predicate Readable(iovs: seq<(Date, string)>)
  {
    forall i :: 0 <= i < |iovs| ==> 0 <= ToTs(iovs[i].0) <= MaxTime && IsToken(iovs[i].1)
  }

  function AsRecords(iovs: seq<(Date, string)>): (recs: seq<Record>)
    requires Readable(iovs)
    ensures |recs| == |iovs|
  {
    seq(|iovs|, i requires 0 <= i < |iovs| => Record(ToTs(iovs[i].0), iovs[i].1))
  }

  lemma {:induction false} WriteIovsIsIndexText(iovs: seq<(Date, string)>)
    requires Readable(iovs)
    ensures WriteIovs(iovs) == IovsText(AsRecords(iovs))
    decreases |iovs|
  {
    if iovs != [] {
      assert Readable(iovs[1..]);
      WriteIovsIsIndexText(iovs[1..]);
      assert AsRecords(iovs)[1..] == AsRecords(iovs[1..]);
    }
  }

  lemma WrittenKeys(iovs: seq<(Date, string)>)
    requires Readable(iovs)
    ensures IovsKeys(WriteIovs(iovs)) == Pairs(AsRecords(iovs))
  {
    WriteIovsIsIndexText(iovs);
    KeysOfText(AsRecords(iovs));
  }

  lemma PairsOfWritten(iovs: seq<(Date, string)>)
    requires Readable(iovs)
    ensures var out := Pairs(AsRecords(iovs));
            && |out| == |iovs|
            && (forall i :: 0 <= i < |iovs| ==> out[i].1 == iovs[i].1 && out[i].0.since == ToTs(iovs[i].0))
            && (forall i :: 0 <= i < |iovs| - 1 ==> out[i].0.until == ToTs(iovs[i + 1].0))
            && (iovs != [] ==> out[|iovs| - 1].0.until == MaxTime)
  {
    var recs := AsRecords(iovs);
    assert Consecutive(recs, Pairs(recs));
  }

  /** Parsing what `write_IOVs` wrote gives one entry per pair, in order,
      with the written keys and starting at the written timestamps; each
      entry ends where the next starts, the last one at `max`. */
  lemma WrittenIovsReadBack(iovs: seq<(Date, string)>)
    requires Readable(iovs)
    ensures var out := IovsKeys(WriteIovs(iovs));
            && |out| == |iovs|
            && (forall i :: 0 <= i < |iovs| ==> out[i].1 == iovs[i].1 && out[i].0.since == ToTs(iovs[i].0))
            && (forall i :: 0 <= i < |iovs| - 1 ==> out[i].0.until == ToTs(iovs[i + 1].0))
            && (iovs != [] ==> out[|iovs| - 1].0.until == MaxTime)
  {
    WrittenKeys(iovs);
    PairsOfWritten(iovs);
  }

  // ---------------------------------------------------------------------
  // The tables of `lhcb_conddb_case`

  /** `changing.xml/IOVs`. */
  const ChangingRoot: seq<(Date, string)> := [(Epoch, "initial"), (Date(2016, 1, 1), "2016"), (Date(2017, 1, 1), "2017")]
  /** `changing.xml/initial/IOVs`. */
  const ChangingInitial: seq<(Date, string)> := [(Epoch, "v0")]
  /** `changing.xml/2016/IOVs`. */
  const Changing2016: seq<(Date, string)> := [(Epoch, "../initial/v0"), (Date(2016, 7, 1), "v1")]
  /** `changing.xml/2017/IOVs`. */
  const Changing2017: seq<(Date, string)> := [(Epoch, "../2016/v1")]

  predicate StrictlyIncreasing(iovs: seq<(Date, string)>)
  {
    forall i, j :: 0 <= i < j < |iovs| ==> ToTs(iovs[i].0) < ToTs(iovs[j].0)
  }

  /** The later dates of the tables, as timestamps. */
  const Ts2016: int := 1451606400 * 1_000_000_000
  const TsJuly2016: int := 1467331200 * 1_000_000_000
  const Ts2017: int := 1483228800 * 1_000_000_000

  lemma Jan2016()
    ensures ToTs(Date(2016, 1, 1)) == Ts2016
  {
    assert 2015 / 400 == 5 && 15 / 4 == 3 && 15 / 100 == 0 && (153 * 10 + 2) / 5 == 306;
    assert DaysSinceEpoch(Date(2016, 1, 1)) == 16801;
  }

  lemma July2016()
    ensures ToTs(Date(2016, 7, 1)) == TsJuly2016
  {
    assert 2016 / 400 == 5 && 16 / 4 == 4 && 16 / 100 == 0 && (153 * 4 + 2) / 5 == 122;
    assert DaysSinceEpoch(Date(2016, 7, 1)) == 16983;
  }

  lemma Jan2017()
    ensures ToTs(Date(2017, 1, 1)) == Ts2017
  {
    assert 2016 / 400 == 5 && 16 / 4 == 4 && 16 / 100 == 0 && (153 * 10 + 2) / 5 == 306;
    assert DaysSinceEpoch(Date(2017, 1, 1)) == 17167;
  }

  /** Every table lists its dates in strictly increasing order. */
  lemma TablesAscending()
    ensures StrictlyIncreasing(ChangingRoot) && StrictlyIncreasing(ChangingInitial)
    ensures StrictlyIncreasing(Changing2016) && StrictlyIncreasing(Changing2017)
  {
    EpochIsZero();
    Jan2016();
    July2016();
    Jan2017();
  }

  /** Every table can be read back as written: its times fit the time axis
      and its keys are single tokens. */
  lemma TablesReadable()
    ensures Readable(ChangingRoot) && Readable(ChangingInitial)
    ensures Readable(Changing2016) && Readable(Changing2017)
  {
    EpochIsZero();
    Jan2016();
    July2016();
    Jan2017();
    assert IsToken("initial") && IsToken("2016") && IsToken("2017") && IsToken("v0");
    assert IsToken("../initial/v0") && IsToken("v1") && IsToken("../2016/v1");
  }

  /** `changing.xml/IOVs` as `parse_IOVs_keys` reads it: `initial` until
      2016, `2016` for that year, and `2017` from then on. */
  lemma ChangingRootEntries()
    ensures IovsKeys(WriteIovs(ChangingRoot))
            == [(IOV(0, Ts2016), "initial"), (IOV(Ts2016, Ts2017), "2016"), (IOV(Ts2017, MaxTime), "2017")]
  {
    TablesReadable();
    EpochIsZero();
    Jan2016();
    Jan2017();
    WrittenIovsReadBack(ChangingRoot);
  }
}
