/** `CondDB` from GitCondDB.cpp and GitCondDB.h: object ids, recursive
    resolution through IOVs indices, directory listings, the collection of
    IOV boundaries, `connect`, and the `CondDB` object with its settings. */
module CondDB {
  import opened Text
  import opened Outcome
  import opened Iov
  import opened IovHelpers
  import opened Logging
  import opened GitHelpers
  import opened DBImpl
  import opened Normalize

  /** `CondDB::Key`: which condition, in which version, at which time. */
  datatype Key = Key(tag: string, path: string, time: TimePoint)

  /** A result together with the messages logged while computing it. */
  datatype Logged<T> = Logged(value: T, msgs: seq<(Kind, string)>)

  /** What `std::get<0>` throws (libstdc++'s wording) when an IOVs entry
      turns out to be a directory. */
  const WrongAlternative: string := "std::get: wrong index for variant"

  /** How many more indices a resolution may pass through: a bound the
      source does not have (see `Resolve`). */
  datatype Fuel = Empty | More(rest: Fuel)

  /** The error of a resolution that runs out of fuel. */
  const TooDeep: string := "IOV indirection too deep"

  // ---------------------------------------------------------------------
  // Object ids

  /** `format_obj_id`: the tag, ':' and the normalised path. */
  function FormatObjId(tag: string, path: string): (id: string)
    ensures ':' !in tag ==> StripTag(id) == Normalized(path)
  {
    if ':' !in tag then StripTagIgnoresTag(tag, Normalized(path)); tag + ":" + Normalized(path)
    else tag + ":" + Normalized(path)
  }

  /** The backend sees the normalised path of an object id: the tag is
      dropped whatever it is, as long as it holds no ':'. */
  lemma ObjIdPath(tag: string, path: string)
    requires ':' !in tag
    ensures StripTag(FormatObjId(tag, path)) == Normalized(path)
    ensures FormatObjId(tag, FormatObjId(tag, path)[|tag| + 1..]) == FormatObjId(tag, path)
  {
    StripTagIgnoresTag(tag, Normalized(path));
    assert FormatObjId(tag, path)[|tag| + 1..] == Normalized(path);
    NormalizeIdempotent(path);
  }

  /** The key `../v1` found in the index of `Cond/group` addresses
      `Cond/v1`, in any tag. */
  lemma RelativeKeyResolves(tag: string)
    ensures FormatObjId(tag, "Cond/group" + "/" + "../v1") == tag + ":" + "Cond/v1"
  {
    GroupParentExample();
  }

  // ---------------------------------------------------------------------
  // Sorting (`std::sort` on the listing's names)

  /** Insert `x` into `s` before the first element not below it. */
  function Insert(x: string, s: seq<string>): (r: seq<string>)
    ensures multiset(r) == multiset(s) + multiset{x}
    decreases |s|
  {
    if s == [] || LessEq(x, s[0]) then [x] + s
    else
      assert s == [s[0]] + s[1..];
      [s[0]] + Insert(x, s[1..])
  }

  lemma {:induction false} InsertSorted(x: string, s: seq<string>)
    requires Sorted(s)
    ensures Sorted(Insert(x, s))
    decreases |s|
  {
    if s == [] || LessEq(x, s[0]) {
      SortedCons(x, s);
    } else {
      InsertSorted(x, s[1..]);
      LessEqTotal(x, s[0]);
      SortedCons(s[0], Insert(x, s[1..]));
    }
  }

  /** A name no greater than the first of a sorted sequence can go in front. */
  lemma SortedCons(x: string, s: seq<string>)
    requires Sorted(s) && (s == [] || LessEq(x, s[0]))
    ensures Sorted([x] + s)
  {
    var r := [x] + s;
    forall i, j | 0 <= i < j < |r| ensures LessEq(r[i], r[j]) {
      if i == 0 && j > 1 {
        LessEqTransitive(x, s[0], s[j - 1]);
      }
    }
  }

  /** The names in ascending order, as `std::sort` leaves them. */
  function SortStrings(s: seq<string>): (r: seq<string>)
    ensures multiset(r) == multiset(s)
    ensures Sorted(r)
  {
    if s == [] then []
    else
      var rest := SortStrings(s[1..]);
      InsertSorted(s[0], rest);
      assert s == [s[0]] + s[1..];
      Insert(s[0], rest)
  }

  /** Two sorted arrangements of the same names are the same sequence, so
      any correct sort gives what `SortStrings` gives. */
  lemma {:induction false} SortedPermutationUnique(a: seq<string>, b: seq<string>)
    requires Sorted(a) && Sorted(b) && multiset(a) == multiset(b)
    ensures a == b
    decreases |a|
  {
    assert |a| == |multiset(a)| == |b|;
    if a != [] {
      SmallestFirst(a, b);
      SameRest(a, b);
      SortedPermutationUnique(a[1..], b[1..]);
      SameHeadAndTail(a, b);
    }
  }

  /** Both sorted arrangements start with the least name. */
  lemma SmallestFirst(a: seq<string>, b: seq<string>)
    requires Sorted(a) && Sorted(b) && multiset(a) == multiset(b) && a != [] && b != []
    ensures a[0] == b[0]
  {
    if a[0] != b[0] {
      assert a[0] in multiset(b);
      var i :| 0 <= i < |b| && b[i] == a[0];
      assert b[0] in multiset(a);
      var j :| 0 <= j < |a| && a[j] == b[0];
      assert LessEq(b[0], b[i]) && LessEq(a[0], a[j]);
      LessEqAntisymmetric(a[0], b[0]);
    }
  }

  /** Without the same first name, the same names remain. */
  lemma SameRest(a: seq<string>, b: seq<string>)
    requires multiset(a) == multiset(b) && a != [] && b != [] && a[0] == b[0]
    ensures multiset(a[1..]) == multiset(b[1..])
  {
    assert multiset(a) == multiset{a[0]} + multiset(a[1..]) by {
      assert a == [a[0]] + a[1..];
    }
    assert multiset(b) == multiset{b[0]} + multiset(b[1..]) by {
      assert b == [b[0]] + b[1..];
    }
    assert multiset(a[1..]) == multiset(a) - multiset{a[0]} == multiset(b[1..]);
  }

  lemma SameHeadAndTail<T>(a: seq<T>, b: seq<T>)
    requires a != [] && b != [] && a[0] == b[0] && a[1..] == b[1..]
    ensures a == b
  {
    assert a == [a[0]] + a[1..];
    assert b == [b[0]] + b[1..];
  }

  // ---------------------------------------------------------------------
  // Listing a directory that is not an index

  /** The id of the index file a subdirectory `name` of `id` would hold. */
  function IndexOf(id: string, name: string): string
  {
    id + "/" + name + "/IOVs"
  }

  /** The loop over `content.dirs` in `CondDB::get`, in order: subdirectories
      holding an IOVs file (second) are told apart from the others (first). */
  function Reclassify(doc: Json, id: string, dirs: seq<string>): (r: (seq<string>, seq<string>))
    decreases |dirs|
  {
    if dirs == [] then ([], [])
    else
      var init := Reclassify(doc, id, dirs[..|dirs| - 1]);
      var d := dirs[|dirs| - 1];
      if JsonExists(doc, IndexOf(id, d)) then (init.0, init.1 + [d])
      else (init.0 + [d], init.1)
  }

  lemma ReclassifyStep(doc: Json, id: string, dirs: seq<string>, i: nat)
    requires i < |dirs|
    ensures var init := Reclassify(doc, id, dirs[..i]);
            Reclassify(doc, id, dirs[..i + 1])
              == if JsonExists(doc, IndexOf(id, dirs[i])) then (init.0, init.1 + [dirs[i]])
                 else (init.0 + [dirs[i]], init.1)
  {
    assert dirs[..i + 1][..i] == dirs[..i];
  }

  /** The loop splits `dirs` without losing or adding a name. */
  lemma {:induction false} ReclassifyKeepsNames(doc: Json, id: string, dirs: seq<string>)
    ensures var r := Reclassify(doc, id, dirs);
            multiset(r.0) + multiset(r.1) == multiset(dirs)
    decreases |dirs|
  {
    if dirs != [] {
      var init := dirs[..|dirs| - 1];
      var d := dirs[|dirs| - 1];
      ReclassifyKeepsNames(doc, id, init);
      assert dirs == init + [d];
    }
  }

  /** The first part holds only subdirectories without an index, the second
      only subdirectories with one. */
  lemma {:induction false} ReclassifySeparates(doc: Json, id: string, dirs: seq<string>)
    ensures var r := Reclassify(doc, id, dirs);
            && (forall d :: d in r.0 ==> d in dirs && !JsonExists(doc, IndexOf(id, d)))
            && (forall d :: d in r.1 ==> d in dirs && JsonExists(doc, IndexOf(id, d)))
    decreases |dirs|
  {
    if dirs != [] {
      var init := dirs[..|dirs| - 1];
      ReclassifySeparates(doc, id, init);
      assert dirs == init + [dirs[|dirs| - 1]];
    }
  }

  /** The listing `CondDB::get` hands to the directory converter:
      subdirectories that are conditions (they hold an IOVs file) are listed
      with the files, and both lists are sorted. */
  function Listing(doc: Json, id: string, content: DirContent): (l: DirContent)
    ensures l.root == content.root && Sorted(l.dirs) && Sorted(l.files)
  {
    var split := Reclassify(doc, id, content.dirs);
    DirContent(content.root, SortStrings(split.0), SortStrings(content.files + split.1))
  }

  /** The listing keeps the root, sorts both lists, and moves exactly the
      subdirectories holding an IOVs file over to the files: every name is
      listed once, a subdirectory lands among the directories if and only if
      it has no index. */
  lemma ListingSpec(doc: Json, id: string, content: DirContent)
    ensures var l := Listing(doc, id, content);
            && l.root == content.root
            && Sorted(l.dirs) && Sorted(l.files)
            && multiset(l.dirs) + multiset(l.files) == multiset(content.dirs) + multiset(content.files)
            && (forall d :: d in l.dirs <==> d in content.dirs && !JsonExists(doc, IndexOf(id, d)))
            && (forall f :: f in l.files <==> f in content.files || (f in content.dirs && JsonExists(doc, IndexOf(id, f))))
  {
    ReclassifyKeepsNames(doc, id, content.dirs);
    ReclassifySeparates(doc, id, content.dirs);
    ListedDirs(doc, id, content);
    ListedFiles(doc, id, content);
  }

  /** The directories listed: the subdirectories without an index. */
  lemma ListedDirs(doc: Json, id: string, content: DirContent)
    requires var r := Reclassify(doc, id, content.dirs);
             && multiset(r.0) + multiset(r.1) == multiset(content.dirs)
             && (forall d :: d in r.1 ==> d in content.dirs && JsonExists(doc, IndexOf(id, d)))
             && (forall d :: d in r.0 ==> d in content.dirs && !JsonExists(doc, IndexOf(id, d)))
    ensures var l := Listing(doc, id, content);
            && multiset(l.dirs) == multiset(Reclassify(doc, id, content.dirs).0)
            && (forall d :: d in l.dirs <==> d in content.dirs && !JsonExists(doc, IndexOf(id, d)))
  {
    var split := Reclassify(doc, id, content.dirs);
    var l := Listing(doc, id, content);
    forall d ensures d in l.dirs <==> d in content.dirs && !JsonExists(doc, IndexOf(id, d)) {
      assert d in l.dirs <==> d in multiset(split.0);
      if d in content.dirs && !JsonExists(doc, IndexOf(id, d)) {
        assert d in multiset(content.dirs);
        assert d !in split.1;
      }
    }
  }

  /** The files listed: the files and the subdirectories with an index. */
  lemma ListedFiles(doc: Json, id: string, content: DirContent)
    requires var r := Reclassify(doc, id, content.dirs);
             && multiset(r.0) + multiset(r.1) == multiset(content.dirs)
             && (forall d :: d in r.0 ==> d in content.dirs && !JsonExists(doc, IndexOf(id, d)))
             && (forall d :: d in r.1 ==> d in content.dirs && JsonExists(doc, IndexOf(id, d)))
    ensures var l := Listing(doc, id, content);
            && multiset(l.files) == multiset(content.files) + multiset(Reclassify(doc, id, content.dirs).1)
            && (forall f :: f in l.files <==> f in content.files || (f in content.dirs && JsonExists(doc, IndexOf(id, f))))
  {
    var split := Reclassify(doc, id, content.dirs);
    var l := Listing(doc, id, content);
    forall f ensures f in l.files <==> f in content.files || (f in content.dirs && JsonExists(doc, IndexOf(id, f))) {
      assert f in l.files <==> f in multiset(content.files) + multiset(split.1);
      if f in content.dirs && JsonExists(doc, IndexOf(id, f)) {
        assert f in multiset(content.dirs);
        assert f !in split.0;
      }
    }
  }

  // ---------------------------------------------------------------------
  // Resolution (`CondDB::get`)

  /** What a resolution ends on: data, or a listing not yet handed to the
      directory converter. */
  datatype Found = Payload(data: string) | Listed(listing: DirContent)

  /** The data `CondDB::get` returns for what was found: a listing goes
      through the directory converter `conv`. */
  function Converted(conv: DirContent -> string, r: Result<(Found, IOV)>): Result<(string, IOV)>
  {
    match r
    case Err(m) => Err(m)
    case Ok((Payload(data), iov)) => Ok((data, iov))
    case Ok((Listed(listing), iov)) => Ok((conv(listing), iov))
  }

  /** `CondDB::get(key, bounds)` on a JSON tree `doc`, with the reduction
      flag `reduce`, and what it logs.
      A leaf gives its data with `bounds`; an index is resolved by
      `ThroughIndex`; any other directory gives its listing with the full
      IOV. An index entry may lead back to the same index (`../b` inside
      `a/b`), where the source never returns: `fuel` bounds the number of
      indices passed through. */
  function Resolve(doc: Json, reduce: bool, key: Key, bounds: IOV, fuel: Fuel)
    : (r: Logged<Result<(Found, IOV)>>)
    ensures r.msgs != [] && r.msgs[0] == (DebugMsg, AccessMessage(FormatObjId(key.tag, key.path)))
    ensures r.value.Ok? && r.value.value.0.Listed? ==> r.value.value.1 == IOV.Full()
    decreases fuel, 1
  {
    var id := FormatObjId(key.tag, key.path);
    var e := JsonGet(doc, id);
    var trace := JsonGetTrace(doc, id);
    if e.Err? then Logged(Err(e.msg), trace)
    else if e.value.Blob? then Logged(Ok((Payload(e.value.data), bounds)), trace)
    else if "IOVs" in e.value.content.files then
      var sub := ThroughIndex(doc, reduce, key, bounds, id, fuel);
      Logged(sub.value, trace + sub.msgs)
    else Logged(Ok((Listed(Listing(doc, id, e.value.content)), IOV.Full())), trace)
  }

  /** The index branch of `CondDB::get` at object `id`: read its IOVs file,
      take the key valid at the time within `bounds`, and go on at
      `path/key` with the key's IOV as bounds, unless that IOV is invalid. */
  function ThroughIndex(doc: Json, reduce: bool, key: Key, bounds: IOV, id: string, fuel: Fuel)
    : (r: Logged<Result<(Found, IOV)>>)
    ensures r.msgs != [] && r.msgs[0] == (DebugMsg, AccessMessage(id + "/IOVs"))
    ensures r.value.Ok? && r.value.value.0.Listed? ==> r.value.value.1 == IOV.Full()
    decreases fuel, 0
  {
    var index := id + "/IOVs";
    var i := JsonGet(doc, index);
    var trace := JsonGetTrace(doc, index);
    if i.Err? then Logged(Err(i.msg), trace)
    else if i.value.Dir? then Logged(Err(WrongAlternative), trace)
    else
      var info := KeyIov(i.value.data, key.time, bounds, reduce);
      if !info.1.Valid() then Logged(Ok((Payload(info.0), info.1)), trace)
      else if fuel.Empty? then Logged(Err(TooDeep), trace)
      else
        var sub := Resolve(doc, reduce, key.(path := key.path + "/" + info.0), info.1, fuel.rest);
        Logged(sub.value, trace + sub.msgs)
  }

  /** The object a key addresses is a condition index. */
  predicate IsIndex(doc: Json, key: Key)
  {
    var e := JsonGet(doc, FormatObjId(key.tag, key.path));
    e.Ok? && e.value.Dir? && "IOVs" in e.value.content.files
  }

  /** Fuel only cuts resolution short: a result other than running out of
      fuel stays the same, messages included, when more fuel is given. */
  lemma {:induction false} ResolveMore(doc: Json, reduce: bool, key: Key, bounds: IOV, fuel: Fuel)
    ensures var r := Resolve(doc, reduce, key, bounds, fuel);
            r.value != Err(TooDeep) ==> Resolve(doc, reduce, key, bounds, More(fuel)) == r
    decreases fuel, 1
  {
    if IsIndex(doc, key) {
      ThroughMore(doc, reduce, key, bounds, FormatObjId(key.tag, key.path), fuel);
    }
  }

  /** The same for the index branch. */
  lemma {:induction false} ThroughMore(doc: Json, reduce: bool, key: Key, bounds: IOV, id: string, fuel: Fuel)
    ensures var r := ThroughIndex(doc, reduce, key, bounds, id, fuel);
            r.value != Err(TooDeep) ==> ThroughIndex(doc, reduce, key, bounds, id, More(fuel)) == r
    decreases fuel, 0
  {
    if Follows(doc, reduce, key, bounds, id) {
      if fuel.More? {
        var text := JsonGet(doc, id + "/IOVs").value.data;
        var info := KeyIov(text, key.time, bounds, reduce);
        ResolveMore(doc, reduce, key.(path := key.path + "/" + info.0), info.1, fuel.rest);
        FollowedWith(doc, reduce, key, bounds, id, fuel.rest, text, info.0, info.1);
        FollowedWith(doc, reduce, key, bounds, id, fuel, text, info.0, info.1);
      } else {
        OutOfFuel(doc, reduce, key, bounds, id);
      }
    } else {
      StopsWithAnyFuel(doc, reduce, key, bounds, id, fuel, More(fuel));
    }
  }

  /** The index branch goes on to an entry: the index is a file and the
      entry selected has a valid IOV. */
  predicate Follows(doc: Json, reduce: bool, key: Key, bounds: IOV, id: string)
  {
    var i := JsonGet(doc, id + "/IOVs");
    i.Ok? && i.value.Blob? && KeyIov(i.value.data, key.time, bounds, reduce).1.Valid()
  }

  /** Where the index branch does not go on, fuel plays no part. */
  lemma StopsWithAnyFuel(doc: Json, reduce: bool, key: Key, bounds: IOV, id: string, f: Fuel, g: Fuel)
    requires !Follows(doc, reduce, key, bounds, id)
    ensures ThroughIndex(doc, reduce, key, bounds, id, f) == ThroughIndex(doc, reduce, key, bounds, id, g)
  {
  }

  /** Where it goes on without fuel, it runs out of fuel. */
  lemma OutOfFuel(doc: Json, reduce: bool, key: Key, bounds: IOV, id: string)
    requires Follows(doc, reduce, key, bounds, id)
    ensures ThroughIndex(doc, reduce, key, bounds, id, Empty).value == Err(TooDeep)
  {
  }

  /** One step of the index branch with fuel left: the entry selected is
      resolved with the remaining fuel, after the index's own messages. */
  lemma FollowedWith(doc: Json, reduce: bool, key: Key, bounds: IOV, id: string, fuel: Fuel,
                     text: string, next: string, iov: IOV)
    requires JsonGet(doc, id + "/IOVs") == Ok(Blob(text))
    requires KeyIov(text, key.time, bounds, reduce) == (next, iov) && iov.Valid()
    ensures var sub := Resolve(doc, reduce, key.(path := key.path + "/" + next), iov, fuel);
            ThroughIndex(doc, reduce, key, bounds, id, More(fuel))
            == Logged(sub.value, JsonGetTrace(doc, id + "/IOVs") + sub.msgs)
  {
  }

  /** A value found directly is returned with the caller's bounds. */
  lemma LeafKeepsBounds(doc: Json, reduce: bool, key: Key, bounds: IOV, fuel: Fuel)
    requires JsonGet(doc, FormatObjId(key.tag, key.path)).Ok?
    requires JsonGet(doc, FormatObjId(key.tag, key.path)).value.Blob?
    ensures Resolve(doc, reduce, key, bounds, fuel).value
            == Ok((Payload(JsonGet(doc, FormatObjId(key.tag, key.path)).value.data), bounds))
  {
  }

  /** What a resolution at time `t` within `bounds` may end on: a listing,
      valid at all times, or an IOV containing `t` inside `bounds`. */
  predicate EndsInBounds(r: Result<(Found, IOV)>, t: TimePoint, bounds: IOV)
  {
    r.Ok? ==> (r.value.0.Listed? && r.value.1 == IOV.Full()) || (r.value.1.ContainsPoint(t) && Within(r.value.1, bounds))
  }

  /** Resolving at a time the bounds contain ends on an IOV that contains
      that time and lies within the bounds, or on a directory listing valid
      at all times. */
  lemma {:induction false} ResolvedIovInBounds(doc: Json, reduce: bool, key: Key, bounds: IOV, fuel: Fuel)
    requires bounds.ContainsPoint(key.time)
    ensures EndsInBounds(Resolve(doc, reduce, key, bounds, fuel).value, key.time, bounds)
    decreases fuel, 2
  {
    if IsIndex(doc, key) {
      var id := FormatObjId(key.tag, key.path);
      IndexIovInBounds(doc, reduce, key, bounds, id, fuel);
      ResolveAtIndex(doc, reduce, key, bounds, fuel);
    } else {
      NotIndexInBounds(doc, reduce, key, bounds, fuel);
    }
  }

  /** At an index the resolution is the index branch. */
  lemma ResolveAtIndex(doc: Json, reduce: bool, key: Key, bounds: IOV, fuel: Fuel)
    requires IsIndex(doc, key)
    ensures Resolve(doc, reduce, key, bounds, fuel).value
            == ThroughIndex(doc, reduce, key, bounds, FormatObjId(key.tag, key.path), fuel).value
  {
    var e := JsonGet(doc, FormatObjId(key.tag, key.path));
    assert e.Ok? && !e.value.Blob? && "IOVs" in e.value.content.files;
  }

  /** Elsewhere it ends on the caller's bounds or on a listing. */
  lemma NotIndexInBounds(doc: Json, reduce: bool, key: Key, bounds: IOV, fuel: Fuel)
    requires !IsIndex(doc, key) && bounds.ContainsPoint(key.time)
    ensures EndsInBounds(Resolve(doc, reduce, key, bounds, fuel).value, key.time, bounds)
  {
    var r := Resolve(doc, reduce, key, bounds, fuel).value;
    assert r.Ok? ==> (r.value.0.Listed? && r.value.1 == IOV.Full()) || r.value.1 == bounds;
  }

  lemma {:induction false} IndexIovInBounds(doc: Json, reduce: bool, key: Key, bounds: IOV, id: string, fuel: Fuel)
    requires bounds.ContainsPoint(key.time)
    ensures EndsInBounds(ThroughIndex(doc, reduce, key, bounds, id, fuel).value, key.time, bounds)
    decreases fuel, 1
  {
    var i := JsonGet(doc, id + "/IOVs");
    if i.Ok? && i.value.Blob? && fuel.More? {
      FollowedEntryInBounds(doc, reduce, key, bounds, id, fuel, i.value.data);
    } else {
      StopsAtIndex(doc, reduce, key, bounds, id, fuel);
    }
  }

  lemma {:induction false} FollowedEntryInBounds(doc: Json, reduce: bool, key: Key, bounds: IOV, id: string, fuel: Fuel, data: string)
    requires JsonGet(doc, id + "/IOVs") == Ok(Blob(data))
    requires bounds.ContainsPoint(key.time) && fuel.More?
    ensures EndsInBounds(ThroughIndex(doc, reduce, key, bounds, id, fuel).value, key.time, bounds)
    decreases fuel, 0
  {
    var info := KeyIov(data, key.time, bounds, reduce);
    var next := key.(path := key.path + "/" + info.0);
    ResolvedIovInBounds(doc, reduce, next, info.1, fuel.rest);
    FollowsEntry(doc, reduce, key, bounds, id, fuel, data);
    EndsInNarrower(Resolve(doc, reduce, next, info.1, fuel.rest).value, key.time, info.1, bounds);
  }

  /** What ends within bounds ends within any wider bounds. */
  lemma EndsInNarrower(r: Result<(Found, IOV)>, t: TimePoint, inner: IOV, outer: IOV)
    requires EndsInBounds(r, t, inner) && Within(inner, outer)
    ensures EndsInBounds(r, t, outer)
  {
  }

  /** At a time within the bounds, an index whose IOVs file cannot be read
      as text, or one reached with no fuel left, gives an error. */
  lemma StopsAtIndex(doc: Json, reduce: bool, key: Key, bounds: IOV, id: string, fuel: Fuel)
    requires bounds.ContainsPoint(key.time)
    requires var i := JsonGet(doc, id + "/IOVs"); !(i.Ok? && i.value.Blob? && fuel.More?)
    ensures ThroughIndex(doc, reduce, key, bounds, id, fuel).value.Err?
  {
    var i := JsonGet(doc, id + "/IOVs");
    if i.Ok? && i.value.Blob? {
      assert KeyIov(i.value.data, key.time, bounds, reduce).1.Valid();
    }
  }

  /** Past a valid entry of the index, the resolution goes on below it. */
  lemma FollowsEntry(doc: Json, reduce: bool, key: Key, bounds: IOV, id: string, fuel: Fuel, data: string)
    requires JsonGet(doc, id + "/IOVs") == Ok(Blob(data))
    requires bounds.ContainsPoint(key.time) && fuel.More?
    ensures var info := KeyIov(data, key.time, bounds, reduce);
            ThroughIndex(doc, reduce, key, bounds, id, fuel).value
            == Resolve(doc, reduce, key.(path := key.path + "/" + info.0), info.1, fuel.rest).value
  {
  }

  /** At a time outside the bounds an index gives the empty key with the
      invalid IOV `[0, 0)`, without going further. */
  lemma OutsideBoundsIsInvalid(doc: Json, reduce: bool, key: Key, bounds: IOV, fuel: Fuel)
    requires !bounds.ContainsPoint(key.time) && IsIndex(doc, key)
    requires JsonGet(doc, FormatObjId(key.tag, key.path) + "/IOVs").Ok?
    requires JsonGet(doc, FormatObjId(key.tag, key.path) + "/IOVs").value.Blob?
    ensures Resolve(doc, reduce, key, bounds, fuel).value == Ok((Payload(""), IOV(0, 0)))
  {
  }

  /** A directory that is not an index resolves to its listing, valid at
      all times. */
  lemma DirectoryGivesListing(doc: Json, reduce: bool, key: Key, bounds: IOV, fuel: Fuel)
    requires JsonGet(doc, FormatObjId(key.tag, key.path)).Ok?
    requires JsonGet(doc, FormatObjId(key.tag, key.path)).value.Dir? && !IsIndex(doc, key)
    ensures var id := FormatObjId(key.tag, key.path);
            Resolve(doc, reduce, key, bounds, fuel).value
            == Ok((Listed(Listing(doc, id, JsonGet(doc, id).value.content)), IOV.Full()))
  {
    var e := JsonGet(doc, FormatObjId(key.tag, key.path));
    assert !e.value.Blob? && "IOVs" !in e.value.content.files;
  }

  /** What a resolution logs: the lookup of the object, then, at an index,
      what the index branch logs. */
  lemma ResolveTrace(doc: Json, reduce: bool, key: Key, bounds: IOV, fuel: Fuel)
    ensures var id := FormatObjId(key.tag, key.path);
            Resolve(doc, reduce, key, bounds, fuel).msgs
            == JsonGetTrace(doc, id)
               + (if IsIndex(doc, key) then ThroughIndex(doc, reduce, key, bounds, id, fuel).msgs else [])
  {
    var id := FormatObjId(key.tag, key.path);
    var e := JsonGet(doc, id);
    if !IsIndex(doc, key) {
      var trace := JsonGetTrace(doc, id);
      assert Resolve(doc, reduce, key, bounds, fuel).msgs == trace;
      assert trace + [] == trace;
    } else {
      assert e.Ok? && !e.value.Blob? && "IOVs" in e.value.content.files;
    }
  }

  // ---------------------------------------------------------------------
  // IOV boundaries (`iov_boundaries_accumulate`, `iov_boundaries`)

  /** `iov_boundaries_accumulate(id, limits, acc)`: what it appends to
      `acc`, and what it logs. An object without an index is one leaf with
      `limits`; an index contributes, in order, the leaves of every entry
      overlapping `limits`, reached at the normalised `id/key` and limited
      to the intersection. `fuel` bounds the depth of indices. */
  function Accumulate(doc: Json, id: string, limits: IOV, fuel: Fuel): (r: Logged<Result<seq<(IOV, string)>>>)
    ensures r.msgs != [] <==> JsonExists(doc, id + "/IOVs")
    decreases fuel, 1, 0
  {
    var index := id + "/IOVs";
    if !JsonExists(doc, index) then Logged(Ok([(limits, id)]), [])
    else
      var trace := JsonGetTrace(doc, index);
      match JsonGet(doc, index)
      case Err(m) => Logged(Err(m), trace)
      case Ok(Dir(_)) => Logged(Err(WrongAlternative), trace)
      case Ok(Blob(text)) =>
        if fuel.Empty? then Logged(Err(TooDeep), trace)
        else
          var sub := AccumulateEntries(doc, id, limits, IovsKeys(text), fuel.rest);
          Logged(sub.value, trace + sub.msgs)
  }

  /** The `for_each` over the parsed entries of the index of `id`. */
  function AccumulateEntries(doc: Json, id: string, limits: IOV, entries: seq<(IOV, string)>, fuel: Fuel)
    : (r: Logged<Result<seq<(IOV, string)>>>)
    decreases fuel, 2, |entries|
  {
    if entries == [] then Logged(Ok([]), [])
    else
      var prev := AccumulateEntries(doc, id, limits, entries[..|entries| - 1], fuel);
      var e := entries[|entries| - 1];
      if prev.value.Err? || !limits.Overlaps(e.0) then prev
      else
        var sub := Accumulate(doc, Normalized(id + "/" + e.1), limits.Intersect(e.0), fuel);
        Logged(if sub.value.Err? then Err(sub.value.msg) else Ok(prev.value.value + sub.value.value), prev.msgs + sub.msgs)
  }

  /** Fuel only cuts the walk short: a result other than running out of
      fuel stays the same, messages included, when more fuel is given. */
  lemma {:induction false} AccumulateMore(doc: Json, id: string, limits: IOV, fuel: Fuel)
    ensures var r := Accumulate(doc, id, limits, fuel);
            r.value != Err(TooDeep) ==> Accumulate(doc, id, limits, More(fuel)) == r
    decreases fuel, 1, 0
  {
    var index := id + "/IOVs";
    if JsonExists(doc, index) {
      var g := JsonGet(doc, index);
      if g.Ok? && g.value.Blob? && fuel.More? {
        EntriesMore(doc, id, limits, IovsKeys(g.value.data), fuel.rest);
      }
    }
  }

  /** The same for the walk over an index's entries. */
  lemma {:induction false} EntriesMore(doc: Json, id: string, limits: IOV, entries: seq<(IOV, string)>, fuel: Fuel)
    ensures var r := AccumulateEntries(doc, id, limits, entries, fuel);
            r.value != Err(TooDeep) ==> AccumulateEntries(doc, id, limits, entries, More(fuel)) == r
    decreases fuel, 2, |entries|
  {
    if entries != [] {
      var init := entries[..|entries| - 1];
      var e := entries[|entries| - 1];
      EntriesMore(doc, id, limits, init, fuel);
      if AccumulateEntries(doc, id, limits, init, fuel).value.Ok? && limits.Overlaps(e.0) {
        AccumulateMore(doc, Normalized(id + "/" + e.1), limits.Intersect(e.0), fuel);
      }
    }
  }

  /** All leaves inside valid limits have valid IOVs within those limits. */
  predicate LeavesWithin(leaves: seq<(IOV, string)>, limits: IOV)
  {
    forall k :: 0 <= k < |leaves| ==> leaves[k].0.Valid() && Within(leaves[k].0, limits)
  }

  lemma {:induction false} AccumulateWithin(doc: Json, id: string, limits: IOV, fuel: Fuel)
    requires limits.Valid()
    ensures var r := Accumulate(doc, id, limits, fuel).value;
            r.Ok? ==> LeavesWithin(r.value, limits)
    decreases fuel, 1, 0
  {
    var index := id + "/IOVs";
    if JsonExists(doc, index) {
      var g := JsonGet(doc, index);
      if g.Ok? && g.value.Blob? && fuel.More? {
        AccumulateEntriesWithin(doc, id, limits, IovsKeys(g.value.data), fuel.rest);
      }
    }
  }

  lemma {:induction false} AccumulateEntriesWithin(doc: Json, id: string, limits: IOV, entries: seq<(IOV, string)>, fuel: Fuel)
    requires limits.Valid()
    ensures var r := AccumulateEntries(doc, id, limits, entries, fuel).value;
            r.Ok? ==> LeavesWithin(r.value, limits)
    decreases fuel, 2, |entries|
  {
    if entries != [] {
      var i := |entries| - 1;
      var prev := AccumulateEntries(doc, id, limits, entries[..i], fuel);
      AccumulateEntriesWithin(doc, id, limits, entries[..i], fuel);
      EntriesStep(doc, id, limits, entries, i, fuel);
      assert entries[..i + 1] == entries;
      if prev.value.Ok? {
        var v := Visit(doc, id, limits, entries[i], fuel).value;
        VisitWithin(doc, id, limits, entries[i], fuel);
        if v.Ok? {
          LeavesWithinBoth(prev.value.value, v.value, limits, limits);
        }
      }
    }
  }

  /** The leaves one entry contributes lie within the limits. */
  lemma {:induction false} VisitWithin(doc: Json, id: string, limits: IOV, e: (IOV, string), fuel: Fuel)
    requires limits.Valid()
    ensures var r := Visit(doc, id, limits, e, fuel).value;
            r.Ok? ==> LeavesWithin(r.value, limits)
    decreases fuel, 1, 1
  {
    if limits.Overlaps(e.0) {
      var narrowed := limits.Intersect(e.0);
      IntersectCommutes(limits, e.0);
      AccumulateWithin(doc, Normalized(id + "/" + e.1), narrowed, fuel);
      var sub := Accumulate(doc, Normalized(id + "/" + e.1), narrowed, fuel).value;
      if sub.Ok? {
        LeavesWithinBoth([], sub.value, narrowed, limits);
        assert [] + sub.value == sub.value;
      }
    }
  }

  /** Leaves within `limits`, followed by leaves within a part of them,
      all lie within `limits`. */
  lemma LeavesWithinBoth(a: seq<(IOV, string)>, b: seq<(IOV, string)>, inner: IOV, limits: IOV)
    requires LeavesWithin(a, limits) && LeavesWithin(b, inner) && Within(inner, limits)
    ensures LeavesWithin(a + b, limits)
  {
    forall k | 0 <= k < |a + b| ensures (a + b)[k].0.Valid() && Within((a + b)[k].0, limits) {
      if k >= |a| {
        assert (a + b)[k] == b[k - |a|];
      }
    }
  }

  /** The `since` of each leaf, in order (the `std::transform`). */
  function Sinces(leaves: seq<(IOV, string)>): (out: seq<TimePoint>)
    ensures |out| == |leaves|
    ensures forall k :: 0 <= k < |leaves| ==> out[k] == leaves[k].0.since
  {
    seq(|leaves|, k requires 0 <= k < |leaves| => leaves[k].0.since)
  }

  /** `iov_boundaries(tag, path, boundaries)` and what it logs: nothing for
      invalid boundaries or a missing object, otherwise the start of every
      leaf IOV. */
  function Boundaries(doc: Json, tag: string, path: string, boundaries: IOV, fuel: Fuel): (r: Logged<Result<seq<TimePoint>>>)
  {
    var id := FormatObjId(tag, path);
    if !boundaries.Valid() || !JsonExists(doc, id) then Logged(Ok([]), [])
    else
      var acc := Accumulate(doc, id, boundaries, fuel);
      Logged(if acc.value.Err? then Err(acc.value.msg) else Ok(Sinces(acc.value.value)), acc.msgs)
  }

  /** More fuel changes no result of `iov_boundaries` other than running
      out of fuel. */
  lemma BoundariesMore(doc: Json, tag: string, path: string, boundaries: IOV, fuel: Fuel)
    ensures var r := Boundaries(doc, tag, path, boundaries, fuel);
            r.value != Err(TooDeep) ==> Boundaries(doc, tag, path, boundaries, More(fuel)) == r
  {
    AccumulateMore(doc, FormatObjId(tag, path), boundaries, fuel);
  }

  /** Every boundary found lies within the boundaries asked for, and
      invalid boundaries or a missing object give none. */
  lemma BoundariesWithin(doc: Json, tag: string, path: string, boundaries: IOV, fuel: Fuel)
    ensures !boundaries.Valid() || !JsonExists(doc, FormatObjId(tag, path)) ==>
              Boundaries(doc, tag, path, boundaries, fuel).value == Ok([])
    ensures var r := Boundaries(doc, tag, path, boundaries, fuel).value;
            r.Ok? ==> forall k :: 0 <= k < |r.value| ==> boundaries.ContainsPoint(r.value[k])
  {
    var id := FormatObjId(tag, path);
    if boundaries.Valid() && JsonExists(doc, id) {
      AccumulateWithin(doc, id, boundaries, fuel);
      var acc := Accumulate(doc, id, boundaries, fuel).value;
      if acc.Ok? {
        SincesWithin(acc.value, boundaries);
      }
    }
  }

  /** The leaves lying within `limits` start within `limits`. */
  lemma SincesWithin(leaves: seq<(IOV, string)>, limits: IOV)
    requires LeavesWithin(leaves, limits)
    ensures forall k :: 0 <= k < |leaves| ==> limits.ContainsPoint(Sinces(leaves)[k])
  {
  }

  /** The body of the `std::for_each` in `iov_boundaries_accumulate` for
      one entry: nothing when it does not overlap `limits`, otherwise the
      leaves under it, clipped to `limits`. */
  function Visit(doc: Json, id: string, limits: IOV, e: (IOV, string), fuel: Fuel)
    : (r: Logged<Result<seq<(IOV, string)>>>)
  {
    if limits.Overlaps(e.0) then Accumulate(doc, Normalized(id + "/" + e.1), limits.Intersect(e.0), fuel)
    else Logged(Ok([]), [])
  }

  /** `acc` followed by what `sub` found; the first error wins. */
  function Joined(acc: Logged<Result<seq<(IOV, string)>>>, sub: Logged<Result<seq<(IOV, string)>>>)
    : (r: Logged<Result<seq<(IOV, string)>>>)
    requires acc.value.Ok?
  {
    Logged(if sub.value.Err? then Err(sub.value.msg) else Ok(acc.value.value + sub.value.value), acc.msgs + sub.msgs)
  }

  /** One more entry of the index: nothing changes after an error,
      otherwise the entry is visited. */
  lemma EntriesStep(doc: Json, id: string, limits: IOV, entries: seq<(IOV, string)>, i: nat, fuel: Fuel)
    requires i < |entries|
    ensures var prev := AccumulateEntries(doc, id, limits, entries[..i], fuel);
            AccumulateEntries(doc, id, limits, entries[..i + 1], fuel)
              == if prev.value.Err? then prev else Joined(prev, Visit(doc, id, limits, entries[i], fuel))
  {
    var s := entries[..i + 1];
    assert s[..|s| - 1] == entries[..i] && s[|s| - 1] == entries[i];
    var prev := AccumulateEntries(doc, id, limits, entries[..i], fuel);
    if prev.value.Ok? && !limits.Overlaps(entries[i].0) {
      assert prev.value.value + [] == prev.value.value;
      assert prev.msgs + [] == prev.msgs;
    }
  }

  /** An object without an `IOVs` file is one leaf with the limits it is
      reached with. */
  lemma LeafValue(doc: Json, id: string, limits: IOV, fuel: Fuel)
    requires !JsonExists(doc, id + "/IOVs")
    ensures Accumulate(doc, id, limits, fuel).value == Ok([(limits, id)])
  {
  }

  /** An object with an `IOVs` file gives what its entries give. */
  lemma IndexValue(doc: Json, id: string, text: string, limits: IOV, fuel: Fuel)
    requires JsonExists(doc, id + "/IOVs") && JsonGet(doc, id + "/IOVs") == Ok(Blob(text))
    ensures Accumulate(doc, id, limits, More(fuel)).value == AccumulateEntries(doc, id, limits, IovsKeys(text), fuel).value
  {
  }

  /** Entries whose visits succeed contribute their leaves in order. */
  lemma EntriesValueStep(doc: Json, id: string, limits: IOV, entries: seq<(IOV, string)>, i: nat, fuel: Fuel,
                         a: seq<(IOV, string)>, b: seq<(IOV, string)>)
    requires i < |entries|
    requires AccumulateEntries(doc, id, limits, entries[..i], fuel).value == Ok(a)
    requires Visit(doc, id, limits, entries[i], fuel).value == Ok(b)
    ensures AccumulateEntries(doc, id, limits, entries[..i + 1], fuel).value == Ok(a + b)
  {
    EntriesStep(doc, id, limits, entries, i, fuel);
  }

  /** An error met in a prefix of the entries ends the loop: later entries
      change neither the result nor what was logged. */
  lemma {:induction false} EntriesErrorStops(doc: Json, id: string, limits: IOV, entries: seq<(IOV, string)>, n: nat, fuel: Fuel)
    requires n <= |entries|
    requires AccumulateEntries(doc, id, limits, entries[..n], fuel).value.Err?
    ensures AccumulateEntries(doc, id, limits, entries, fuel) == AccumulateEntries(doc, id, limits, entries[..n], fuel)
    decreases |entries|
  {
    if n < |entries| {
      var init := entries[..|entries| - 1];
      assert init[..n] == entries[..n];
      EntriesErrorStops(doc, id, limits, init, n, fuel);
    } else {
      assert entries[..n] == entries;
    }
  }

  // ---------------------------------------------------------------------
  // The `CondDB` object

  /** The logger is neither the backend nor the database object, so a
      message sent to it changes neither. */
  lemma LoggerIsApart(log: LoggerRef, impl: DbImpl, db: CondDb)
    ensures log.Target() != impl && log.Target() != db
  {
  }

  class CondDb {
    /** `m_impl`: the backend. */
    const impl: DbImpl
    /** `m_dir_converter`: turns a directory listing into the returned data. */
    var dirConverter: DirContent -> string
    /** `m_reduce_iovs`: whether equal neighbouring keys are merged. */
    var reduceIovs: bool

    /** The private constructor used by `connect`; `converter` stands for
        `json_dir_converter`. IOV reduction is on by default. */
    constructor(impl: DbImpl, converter: DirContent -> string)
      ensures this.impl == impl && dirConverter == converter && reduceIovs
    {
      this.impl := impl;
      dirConverter := converter;
      reduceIovs := true;
    }

    /** `set_dir_converter`: install `converter` and hand back the one it
        replaces. */
    method SetDirConverter(converter: DirContent -> string) returns (previous: DirContent -> string)
      modifies this
      ensures dirConverter == converter && previous == old(dirConverter)
      ensures reduceIovs == old(reduceIovs)
    {
      previous := dirConverter;
      dirConverter := converter;
    }

    /** `iov_reduction()`. */
    function IovReduction(): bool
      reads this
    {
      reduceIovs
    }

    /** `set_iov_reduction`: only the flag changes. */
    method SetIovReduction(value: bool)
      modifies this
      ensures IovReduction() == value && dirConverter == old(dirConverter)
    {
      reduceIovs := value;
    }

    /** `set_logger`, passed on to the backend. */
    method SetLogger(logger: Option<LoggerRef>)
      modifies impl
      ensures logger.Some? ==> impl.log == logger.value
      ensures logger.None? ==> impl.log.NullRef? && fresh(impl.log.n)
    {
      impl.SetLogger(logger);
    }

    /** `logger()`: the backend's logger. */
    function Logger(): object
      reads impl
    {
      impl.Logger()
    }

    /** `connected()`, asked of the backend. */
    predicate Connected()
      reads if impl.backend.GitRepository? then {impl.backend.repo} else {}
    {
      impl.Connected()
    }

    /** `disconnect()`, passed on to the backend. */
    method Disconnect()
      modifies if impl.backend.GitRepository? then {impl.backend.repo, impl.log.Target()} else {}
      ensures !impl.backend.GitRepository? ==> Connected()
      ensures impl.backend.GitRepository? ==>
                !Connected() && impl.backend.repo.calls == old(impl.backend.repo.calls)
                && Delivered(impl.log, old(StateOf(impl.log)), [(DebugMsg, "disconnect from Git repository")])
    {
      impl.Disconnect();
    }

    /** `scoped_connection()`: a guard that disconnects when released. */
    method ScopedConnection() returns (guard: AccessGuard)
      ensures fresh(guard) && guard.db == this
    {
      guard := new AccessGuard(this);
    }

    /** The listing branch of `CondDB::get`: subdirectories holding an IOVs
        file move to the files, then both lists are sorted. */
    method ListDirectory(id: string, content: DirContent) returns (listing: DirContent)
      requires impl.backend.JsonData?
      ensures listing == Listing(impl.backend.doc, id, content)
    {
      var dirs: seq<string> := [];
      var files := content.files;
      for i := 0 to |content.dirs|
        invariant dirs == Reclassify(impl.backend.doc, id, content.dirs[..i]).0
        invariant files == content.files + Reclassify(impl.backend.doc, id, content.dirs[..i]).1
      {
        var f := content.dirs[i];
        ReclassifyStep(impl.backend.doc, id, content.dirs, i);
        if impl.Exists(IndexOf(id, f)) {
          files := files + [f];
        } else {
          dirs := dirs + [f];
        }
      }
      assert content.dirs[..|content.dirs|] == content.dirs;
      files := SortStrings(files);
      dirs := SortStrings(dirs);
      listing := DirContent(content.root, dirs, files);
    }

    /** `CondDB::get(key, bounds)` on the JSON backend. */
    method Get(key: Key, bounds: IOV, fuel: Fuel) returns (r: Result<(string, IOV)>)
      requires impl.backend.JsonData?
      modifies impl.log.Target()
      ensures r == Converted(dirConverter, Resolve(impl.backend.doc, reduceIovs, key, bounds, fuel).value)
      ensures Delivered(impl.log, old(StateOf(impl.log)), Resolve(impl.backend.doc, reduceIovs, key, bounds, fuel).msgs)
      decreases fuel, 1
    {
      LoggerIsApart(impl.log, impl, this);
      ghost var st0 := StateOf(impl.log);
      var path := Normalize.Normalize(key.path);
      var id := key.tag + ":" + path;
      assert StateOf(impl.log) == st0;
      assert id == FormatObjId(key.tag, key.path);
      var data := impl.Get(id);
      ResolveTrace(impl.backend.doc, reduceIovs, key, bounds, fuel);
      if data.Err? {
        return Err(data.msg);
      }
      if data.value.Blob? {
        LeafKeepsBounds(impl.backend.doc, reduceIovs, key, bounds, fuel);
        return Ok((data.value.data, bounds));
      }
      var content := data.value.content;
      if "IOVs" in content.files {
        r := GetThroughIndex(key, bounds, id, fuel);
        AfterAppend(impl.log, st0, JsonGetTrace(impl.backend.doc, id),
                    ThroughIndex(impl.backend.doc, reduceIovs, key, bounds, id, fuel).msgs);
      } else {
        DirectoryGivesListing(impl.backend.doc, reduceIovs, key, bounds, fuel);
        var listing := ListDirectory(id, content);
        r := Ok((dirConverter(listing), IOV.Full()));
      }
    }

    /** The index branch of `CondDB::get` at object `id`. */
    method GetThroughIndex(key: Key, bounds: IOV, id: string, fuel: Fuel) returns (r: Result<(string, IOV)>)
      requires impl.backend.JsonData?
      modifies impl.log.Target()
      ensures r == Converted(dirConverter, ThroughIndex(impl.backend.doc, reduceIovs, key, bounds, id, fuel).value)
      ensures Delivered(impl.log, old(StateOf(impl.log)), ThroughIndex(impl.backend.doc, reduceIovs, key, bounds, id, fuel).msgs)
      decreases fuel, 0
    {
      LoggerIsApart(impl.log, impl, this);
      ghost var st0 := StateOf(impl.log);
      var index := impl.Get(id + "/IOVs");
      if index.Err? {
        return Err(index.msg);
      }
      if index.value.Dir? {
        return Err(WrongAlternative);
      }
      var (k, iov) := KeyIov(index.value.data, key.time, bounds, reduceIovs);
      if !iov.Valid() {
        return Ok((k, iov));
      }
      if fuel.Empty? {
        return Err(TooDeep);
      }
      var next := key.(path := key.path + "/" + k);
      r := Get(next, iov, fuel.rest);
      AfterAppend(impl.log, st0, JsonGetTrace(impl.backend.doc, id + "/IOVs"),
                  Resolve(impl.backend.doc, reduceIovs, next, iov, fuel.rest).msgs);
    }

    /** `iov_boundaries_accumulate(id, limits, acc)`: `acc` extended with
        the leaves under `id`. */
    method IovBoundariesAccumulate(id: string, limits: IOV, acc: seq<(IOV, string)>, fuel: Fuel)
      returns (r: Result<seq<(IOV, string)>>)
      requires impl.backend.JsonData?
      modifies impl.log.Target()
      ensures var a := Accumulate(impl.backend.doc, id, limits, fuel).value;
              r == if a.Ok? then Ok(acc + a.value) else Err(a.msg)
      ensures Delivered(impl.log, old(StateOf(impl.log)), Accumulate(impl.backend.doc, id, limits, fuel).msgs)
      decreases fuel, 1
    {
      LoggerIsApart(impl.log, impl, this);
      var index := id + "/IOVs";
      if !impl.Exists(index) {
        AfterNothing(impl.log, StateOf(impl.log));
        return Ok(acc + [(limits, id)]);
      }
      ghost var st0 := StateOf(impl.log);
      var g := impl.Get(index);
      if g.Err? {
        return Err(g.msg);
      }
      if g.value.Dir? {
        return Err(WrongAlternative);
      }
      if fuel.Empty? {
        return Err(TooDeep);
      }
      ghost var trace := JsonGetTrace(impl.backend.doc, index);
      ghost var st1 := StateOf(impl.log);
      var entries := IovsKeys(g.value.data);
      r := ForEachEntry(id, limits, entries, acc, fuel.rest);
      AfterAppend(impl.log, st0, trace, AccumulateEntries(impl.backend.doc, id, limits, entries, fuel.rest).msgs);
    }

    /** The `std::for_each` of `iov_boundaries_accumulate`: every entry of
        the index is visited in order; the first error ends the walk. */
    method ForEachEntry(id: string, limits: IOV, entries: seq<(IOV, string)>, acc: seq<(IOV, string)>, fuel: Fuel)
      returns (r: Result<seq<(IOV, string)>>)
      requires impl.backend.JsonData?
      modifies impl.log.Target()
      ensures var a := AccumulateEntries(impl.backend.doc, id, limits, entries, fuel).value;
              r == if a.Ok? then Ok(acc + a.value) else Err(a.msg)
      ensures Delivered(impl.log, old(StateOf(impl.log)), AccumulateEntries(impl.backend.doc, id, limits, entries, fuel).msgs)
      decreases fuel, 3
    {
      LoggerIsApart(impl.log, impl, this);
      ghost var doc := impl.backend.doc;
      ghost var st0 := StateOf(impl.log);
      assert entries[..0] == [];
      AfterNothing(impl.log, st0);
      var out := acc;
      ghost var spec := AccumulateEntries(doc, id, limits, entries[..0], fuel);
      for i := 0 to |entries|
        invariant spec == AccumulateEntries(doc, id, limits, entries[..i], fuel)
        invariant spec.value.Ok? && out == acc + spec.value.value
        invariant StateOf(impl.log) == After(impl.log, st0, spec.msgs)
      {
        ghost var visit := Visit(doc, id, limits, entries[i], fuel);
        EntriesStep(doc, id, limits, entries, i, fuel);
        var res := VisitEntry(id, limits, entries[i], out, fuel);
        AfterAppend(impl.log, st0, spec.msgs, visit.msgs);
        AppendAssociates(acc, spec.value.value, if visit.value.Ok? then visit.value.value else []);
        spec := Joined(spec, visit);
        if res.Err? {
          EntriesErrorStops(doc, id, limits, entries, i + 1, fuel);
          return Err(res.msg);
        }
        out := res.value;
        assert spec == AccumulateEntries(doc, id, limits, entries[..i + 1], fuel);
        assert out == acc + spec.value.value;
        assert StateOf(impl.log) == After(impl.log, st0, spec.msgs);
      }
      assert entries[..|entries|] == entries;
      r := Ok(out);
    }

    /** The lambda of that `std::for_each`, for one entry `e`: descend into
        it, clipped to `limits`, when it overlaps them. */
    method VisitEntry(id: string, limits: IOV, e: (IOV, string), acc: seq<(IOV, string)>, fuel: Fuel)
      returns (r: Result<seq<(IOV, string)>>)
      requires impl.backend.JsonData?
      modifies impl.log.Target()
      ensures var v := Visit(impl.backend.doc, id, limits, e, fuel).value;
              r == if v.Ok? then Ok(acc + v.value) else Err(v.msg)
      ensures Delivered(impl.log, old(StateOf(impl.log)), Visit(impl.backend.doc, id, limits, e, fuel).msgs)
      decreases fuel, 2
    {
      if limits.Overlaps(e.0) {
        var next := Normalized(id + "/" + e.1);
        r := IovBoundariesAccumulate(next, limits.Intersect(e.0), acc, fuel);
      } else {
        AfterNothing(impl.log, StateOf(impl.log));
        assert acc + [] == acc;
        r := Ok(acc);
      }
    }

    /** `iov_boundaries(tag, path, boundaries)` on the JSON backend. */
    method IovBoundaries(tag: string, path: string, boundaries: IOV, fuel: Fuel) returns (r: Result<seq<TimePoint>>)
      requires impl.backend.JsonData?
      modifies impl.log.Target()
      ensures r == Boundaries(impl.backend.doc, tag, path, boundaries, fuel).value
      ensures Delivered(impl.log, old(StateOf(impl.log)), Boundaries(impl.backend.doc, tag, path, boundaries, fuel).msgs)
    {
      LoggerIsApart(impl.log, impl, this);
      ghost var st0 := StateOf(impl.log);
      var normalized := Normalize.Normalize(path);
      var id := tag + ":" + normalized;
      assert StateOf(impl.log) == st0;
      assert id == FormatObjId(tag, path);
      if !boundaries.Valid() || !impl.Exists(id) {
        assert Boundaries(impl.backend.doc, tag, path, boundaries, fuel) == Logged(Ok([]), []);
        AfterNothing(impl.log, st0);
        return Ok([]);
      }
      ghost var spec := Accumulate(impl.backend.doc, id, boundaries, fuel);
      assert Boundaries(impl.backend.doc, tag, path, boundaries, fuel).msgs == spec.msgs;
      var tmp := IovBoundariesAccumulate(id, boundaries, [], fuel);
      if tmp.Err? {
        return Err(tmp.msg);
      }
      var leaves := tmp.value;
      assert [] + spec.value.value == spec.value.value;
      assert leaves == spec.value.value;
      r := Ok(Sinces(leaves));
    }
  }

  /** `AccessGuard`: releasing it (its destructor) disconnects the
      database. */
  class AccessGuard {
    const db: CondDb

    constructor(db: CondDb)
      ensures this.db == db
    {
      this.db := db;
    }

    method Release()
      modifies if db.impl.backend.GitRepository? then {db.impl.backend.repo, db.impl.log.Target()} else {}
      ensures db.impl.backend.GitRepository? ==> !db.Connected()
    {
      db.Disconnect();
    }
  }

  // ---------------------------------------------------------------------
  // `connect`

  /** Where `connect` looks, by the prefix of the repository string. */
  datatype Location = FileRoot(root: string) | JsonText(data: string) | GitUrl(url: string)

  /** `s` starts with `p` (`s.substr(0, |p|) == p`, which fails on a
      shorter `s`). */
  predicate HasPrefix(s: string, p: string)
  {
    |p| <= |s| && s[..|p|] == p
  }

  /** The dispatch of `connect`: `file:`, `json:` and `git:` select the
      backend and are dropped; anything else is a Git repository named by
      the whole string. */
  function ConnectTarget(repository: string): (loc: Location)
    ensures loc.FileRoot? <==> HasPrefix(repository, "file:")
    ensures loc.JsonText? <==> HasPrefix(repository, "json:")
    ensures loc.GitUrl? && HasPrefix(repository, "git:") ==> loc.url == repository[4..]
    ensures loc.GitUrl? && !HasPrefix(repository, "git:") ==> loc.url == repository
  {
    if HasPrefix(repository, "file:") then FileRoot(repository[5..])
    else if HasPrefix(repository, "json:") then JsonText(repository[5..])
    else if HasPrefix(repository, "git:") then GitUrl(repository[4..])
    else GitUrl(repository)
  }

  /** The repository string that names a location explicitly. */
  function Spelled(loc: Location): string
  {
    match loc
    case FileRoot(root) => "file:" + root
    case JsonText(data) => "json:" + data
    case GitUrl(url) => "git:" + url
  }

  /** Spelling a location out with its prefix and connecting to that string
      reaches the same location. */
  lemma ConnectSpelled(loc: Location)
    ensures ConnectTarget(Spelled(loc)) == loc
  {
    var s := Spelled(loc);
    match loc
    case FileRoot(root) =>
      assert s[..5] == "file:" && s[5..] == root;
    case JsonText(data) =>
      assert s[..5] == "json:" && s[5..] == data;
      assert s[..5] != "file:";
    case GitUrl(url) =>
      assert s[..4] == "git:" && s[4..] == url;
      assert s[0] == 'g';
  }

  /** A repository string without ':' is a Git repository path, taken
      whole. */
  lemma BarePathIsGit(repository: string)
    requires ':' !in repository
    ensures ConnectTarget(repository) == GitUrl(repository)
  {
    if |repository| >= 4 {
      assert repository[3] != ':';
    }
    if |repository| >= 5 {
      assert repository[4] != ':';
    }
  }

  /** What `connect` relies on outside the model: the file system
      (`is_directory`, what exists under a root, `is_regular_file`), JSON
      parsing of text or of a file's contents, and `git_repository_open`
      (what its n-th call on a URL yields). */
  datatype Environment = Environment(
    isDirectory: string -> bool,
    filesUnder: string -> (string -> bool),
    isRegularFile: string -> bool,
    load: JsonInput -> Result<Json>,
    openRepository: string -> (nat -> Option<Handle>))

  /** JSON parsing builds objects as `std::map`s: every document it yields
      keeps its member names in key order. */
  ghost predicate ParsesKeyOrdered(env: Environment)
  {
    forall input :: env.load(input).Ok? ==> KeyOrdered(env.load(input).value)
  }

  /** The messages the backend constructor logs while connecting. */
  function ConnectTrace(repository: string, env: Environment): (msgs: seq<(Kind, string)>)
  {
    match ConnectTarget(repository)
    case FileRoot(root) => [(InfoMsg, "using files from '" + root + "'")]
    case JsonText(data) =>
      (match JsonSource(data, env.isRegularFile(data))
       case Ok((_, msg)) => [(InfoMsg, msg)]
       case Err(_) => [])
    case GitUrl(url) => [(InfoMsg, "opening Git repository '" + url + "'")]
  }

  /** Why `connect` fails, or `None` when the backend opens. */
  function ConnectError(repository: string, env: Environment): (e: Option<string>)
    ensures ConnectTarget(repository).FileRoot? ==>
              (e.Some? <==> !env.isDirectory(ConnectTarget(repository).root))
    ensures ConnectTarget(repository).GitUrl? ==>
              (e.Some? <==> env.openRepository(ConnectTarget(repository).url)(0).None?)
  {
    match ConnectTarget(repository)
    case FileRoot(root) => if env.isDirectory(root) then None else Some("invalid path " + root)
    case JsonText(data) =>
      (match JsonSource(data, env.isRegularFile(data))
       case Err(m) => Some(m)
       case Ok((input, _)) => if env.load(input).Err? then Some(env.load(input).msg) else None)
    case GitUrl(url) =>
      if env.openRepository(url)(0).Some? then None else Some("invalid Git repository: '" + url + "'")
  }

  /** The backend `connect` opens for a location, logging to `log` as the
      backend's constructor does. */
  method OpenBackend(repository: string, log: LoggerRef, env: Environment) returns (r: Result<Backend>)
    requires ParsesKeyOrdered(env)
    modifies log.Target()
    ensures r.Err? <==> ConnectError(repository, env).Some?
    ensures r.Err? ==> r.msg == ConnectError(repository, env).value
    ensures Delivered(log, old(StateOf(log)), ConnectTrace(repository, env))
    ensures r.Ok? ==>
              match ConnectTarget(repository)
              case FileRoot(root) => r.value == Filesystem(env.filesUnder(root))
              case JsonText(data) =>
                r.value == JsonData(env.load(JsonSource(data, env.isRegularFile(data)).value.0).value)
                && KeyOrdered(r.value.doc)
              case GitUrl(url) =>
                && r.value.GitRepository? && r.value.url == url
                && fresh(r.value.repo) && r.value.repo.factory == env.openRepository(url)
                && r.value.repo.IsSet() && r.value.repo.calls == 1
  {
    match ConnectTarget(repository) {
      case FileRoot(root) =>
        Send(log, InfoMsg, "using files from '" + root + "'");
        if !env.isDirectory(root) {
          return Err("invalid path " + root);
        }
        r := Ok(Filesystem(env.filesUnder(root)));
      case JsonText(data) =>
        var source := JsonSource(data, env.isRegularFile(data));
        if source.Err? {
          AfterNothing(log, StateOf(log));
          return Err(source.msg);
        }
        Send(log, InfoMsg, source.value.1);
        var doc := env.load(source.value.0);
        if doc.Err? {
          return Err(doc.msg);
        }
        r := Ok(JsonData(doc.value));
      case GitUrl(url) =>
        var repo := new RepositoryPtr(env.openRepository(url));
        Send(log, InfoMsg, "opening Git repository '" + url + "'");
        var handle := repo.Get();
        if handle.Err? {
          return Err("invalid Git repository: '" + url + "'");
        }
        r := Ok(GitRepository(url, repo));
    }
  }

  /** `connect(repository, logger)`: a missing logger is replaced by a
      `BasicLogger`, the backend the prefix selects is opened (a Git
      repository is accessed once straight away), and the database uses
      `converter` for listings. */
  method Connect(repository: string, logger: Option<LoggerRef>, env: Environment, converter: DirContent -> string)
    returns (r: Result<CondDb>)
    requires ParsesKeyOrdered(env)
    modifies if logger.Some? then {logger.value.Target()} else {}
    ensures r.Err? <==> ConnectError(repository, env).Some?
    ensures r.Err? ==> r.msg == ConnectError(repository, env).value
    ensures logger.Some? ==> Delivered(logger.value, old(StateOf(logger.value)), ConnectTrace(repository, env))
    ensures r.Ok? ==> fresh(r.value) && fresh(r.value.impl) && r.value.reduceIovs && r.value.dirConverter == converter
    ensures r.Ok? && r.value.impl.backend.JsonData? ==> KeyOrdered(r.value.impl.backend.doc)
    ensures r.Ok? && logger.Some? ==> r.value.impl.log == logger.value
    ensures r.Ok? && logger.None? ==>
              r.value.impl.log.BasicRef? && fresh(r.value.impl.log.b)
              && StateOf(r.value.impl.log) == After(r.value.impl.log, LogState(Quiet, [], []), ConnectTrace(repository, env))
  {
    var log: LoggerRef;
    if logger.Some? {
      log := logger.value;
    } else {
      var b := new BasicLogger();
      log := BasicRef(b);
    }
    var backend := OpenBackend(repository, log, env);
    if backend.Err? {
      return Err(backend.msg);
    }
    var impl := new DbImpl(backend.value, Some(log));
    var db := new CondDb(impl, converter);
    r := Ok(db);
  }
}
