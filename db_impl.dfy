/** The storage backends behind `CondDB`. Object ids have the form
    `<tag>:<path>`. The JSON backend keeps the whole database as one JSON
    document: objects are directories, strings are files, and the tag is
    ignored. The filesystem backend is modelled as far as it does not read
    the disk, and the Git backend only as far as its connection state. */
module DBImpl {
  import opened Text
  import opened Outcome
  import opened Logging
  import opened GitHelpers

  // ---------------------------------------------------------------------
  // Object ids

  /** `find_first_of(c)`: the index of the first `c`, or `|s|` when there
      is none. */
  function FirstIndexOf(s: string, c: char): (i: nat)
    ensures i <= |s| && c !in s[..i]
    ensures i < |s| ==> s[i] == c
  {
    if s == [] then 0
    else if s[0] == c then 0
    else
      assert s[1..][..FirstIndexOf(s[1..], c)] == s[1..1 + FirstIndexOf(s[1..], c)];
      1 + FirstIndexOf(s[1..], c)
  }

  /** `strip_tag`: the id without everything up to and including its first
      ':'; an id without ':' is returned as it is. */
  function StripTag(id: string): (path: string)
    ensures ':' !in id ==> path == id
    ensures ':' in id ==> |path| < |id| && id == id[..|id| - |path| - 1] + [':'] + path && ':' !in id[..|id| - |path| - 1]
  {
    var i := FirstIndexOf(id, ':');
    if i < |id| then
      assert id == id[..i] + [':'] + id[i + 1..];
      id[i + 1..]
    else id
  }

  /** The tag of an id never reaches the storage: ids that differ only in
      their tag denote the same path. */
  lemma StripTagIgnoresTag(tag: string, path: string)
    requires ':' !in tag
    ensures StripTag(tag + ":" + path) == path
  {
    var id := tag + ":" + path;
    assert id[|tag|] == ':';
    assert id[..|tag|] == tag;
    assert id[|tag| + 1..] == path;
  }

  // ---------------------------------------------------------------------
  // The JSON document and JSON pointers (section 3 of RFC 6901)

  datatype Json =
    | Null
    | Boolean(b: bool)
    | Number(n: int)
    | Str(s: string)
    | Array(items: seq<Json>)
    | Object(members: seq<Member>)

  datatype Member = Member(name: string, value: Json)

  /** What every document nlohmann's parser builds satisfies: an object is
      a `std::map`, so its member names are unique and iterate in ascending
      `std::string` order, at every level. */
  predicate KeyOrdered(v: Json)
  {
    match v
    case Object(ms) =>
      StrictlySorted(Names(ms)) && forall k :: 0 <= k < |ms| ==> KeyOrdered(ms[k].value)
    case Array(items) => forall k :: 0 <= k < |items| ==> KeyOrdered(items[k])
    case _ => true
  }

  /** In a well-formed object the member called `name` is the only one. */
  lemma MemberUnique(ms: seq<Member>, name: string, j: nat)
    requires StrictlySorted(Names(ms)) && j < |ms| && ms[j].name == name
    ensures FindMember(ms, name) == j
  {
  }

  /** `JSONImpl::to_path`: the JSON pointer of an object id, `""` (the whole
      document) for an empty path and `"/" + path` otherwise. */
  function ToPath(id: string): (pointer: string)
    ensures pointer == [] || pointer[0] == '/'
    ensures StripTag(id) == [] <==> pointer == []
  {
    var path := StripTag(id);
    if path == [] then [] else "/" + path
  }

  /** `s` cut at every `c`: `"a/b"` gives `["a", "b"]`, `""` gives `[""]`. */
  function Split(s: string, c: char): (parts: seq<string>)
    ensures |parts| > 0
    ensures forall k :: 0 <= k < |parts| ==> c !in parts[k]
    decreases |s|
  {
    var i := FirstIndexOf(s, c);
    if i == |s| then [s] else [s[..i]] + Split(s[i + 1..], c)
  }

  /** The parts joined again with `c` between them. */
  function Join(parts: seq<string>, c: char): string
    requires |parts| > 0
  {
    if |parts| == 1 then parts[0] else parts[0] + [c] + Join(parts[1..], c)
  }

  /** Splitting loses nothing: joining the parts gives the string back. */
  lemma {:induction false} JoinSplit(s: string, c: char)
    ensures Join(Split(s, c), c) == s
    decreases |s|
  {
    var i := FirstIndexOf(s, c);
    if i < |s| {
      var tail := Split(s[i + 1..], c);
      JoinSplit(s[i + 1..], c);
      assert Split(s, c) == [s[..i]] + tail;
      assert Split(s, c)[1..] == tail;
      assert Join(Split(s, c), c) == s[..i] + [c] + Join(tail, c);
      assert s == s[..i] + [c] + s[i + 1..];
    }
  }

  /** The reference tokens of a pointer: none for `""`, otherwise the parts
      between the '/'s. */
  function Tokens(pointer: string): (tokens: seq<string>)
    requires pointer == [] || pointer[0] == '/'
  {
    if pointer == [] then [] else Split(pointer[1..], '/')
  }

  /** Index of the first member called `name`, or `|ms|`. */
  function FindMember(ms: seq<Member>, name: string): (k: nat)
    ensures k <= |ms|
    ensures forall j :: 0 <= j < k ==> ms[j].name != name
    ensures k < |ms| ==> ms[k].name == name
  {
    if ms == [] then 0 else if ms[0].name == name then 0 else 1 + FindMember(ms[1..], name)
  }

  /** A reference token that names an array element: decimal digits
      without a leading zero (section 4 of RFC 6901). */
  predicate IsArrayIndex(token: string)
  {
    |token| > 0 && AllDigits(token) && (|token| > 1 ==> token[0] != '0')
  }

  /** The value a pointer refers to, or `Null` when it refers to nothing:
      a missing member, an array index past the end or `-`, or a token
      applied to a string, number or boolean. */
  function Lookup(v: Json, tokens: seq<string>): (r: Json)
    ensures KeyOrdered(v) ==> KeyOrdered(r)
    decreases |tokens|
  {
    if tokens == [] then v
    else match v
      case Object(ms) =>
        var k := FindMember(ms, tokens[0]);
        if k < |ms| then Lookup(ms[k].value, tokens[1..]) else Null
      case Array(items) =>
        if IsArrayIndex(tokens[0]) && DigitsValue(tokens[0]) < |items|
        then Lookup(items[DigitsValue(tokens[0])], tokens[1..])
        else Null
      case _ => Null
  }

  /** `m_json.value(to_path(id), json{})`. */
  function Value(doc: Json, id: string): (r: Json)
    ensures StripTag(id) == [] ==> r == doc
  {
    Lookup(doc, Tokens(ToPath(id)))
  }

  /** The pointer of an id names, token by token, the '/'-separated parts of
      its path, and the whole document when the path is empty. */
  lemma ValueFollowsPath(doc: Json, id: string)
    ensures StripTag(id) == [] ==> Value(doc, id) == doc
    ensures StripTag(id) != [] ==> Value(doc, id) == Lookup(doc, Split(StripTag(id), '/'))
  {
    if StripTag(id) != [] {
      assert ToPath(id)[1..] == StripTag(id);
    }
  }

  /** `k` is the first index of `c` when `c` is there and not before. */
  lemma {:induction false} FirstIndexAt(s: string, c: char, k: nat)
    requires k < |s| && s[k] == c && c !in s[..k]
    ensures FirstIndexOf(s, c) == k
    decreases k
  {
    if k > 0 {
      assert s[..k][0] == s[0];
      assert s[1..][..k - 1] == s[..k][1..];
      FirstIndexAt(s[1..], c, k - 1);
    }
  }

  /** Text appended after the first `c` does not move it. */
  lemma FirstIndexOfAppend(p: string, s: string, c: char)
    requires c in p
    ensures FirstIndexOf(p + s, c) == FirstIndexOf(p, c)
  {
    var i := FirstIndexOf(p, c);
    assert (p + s)[..i] == p[..i];
    FirstIndexAt(p + s, c, i);
  }

  /** Appending to a tagged id appends to its path. */
  lemma StripTagAppend(id: string, s: string)
    requires ':' in id
    ensures StripTag(id + s) == StripTag(id) + s
  {
    FirstIndexOfAppend(id, s, ':');
    var i := FirstIndexOf(id, ':');
    assert (id + s)[i + 1..] == id[i + 1..] + s;
  }

  /** One more component adds one more token. */
  lemma {:induction false} SplitAppend(p: string, q: string)
    requires '/' !in q
    ensures Split(p + "/" + q, '/') == Split(p, '/') + [q]
    decreases |p|
  {
    var i := FirstIndexOf(p, '/');
    if i < |p| {
      var rest := p[i + 1..];
      AppendAssociates(p, "/", q);
      AppendAssociates(rest, "/", q);
      SplitAfterFirst(p, "/" + q, i);
      SplitAppend(rest, q);
      AppendAssociates([p[..i]], Split(rest, '/'), [q]);
    } else {
      SplitLast(p, q);
    }
  }

  /** Cutting `p + t` at the first `/` of `p`. */
  lemma SplitAfterFirst(p: string, t: string, i: nat)
    requires i == FirstIndexOf(p, '/') && i < |p|
    ensures Split(p + t, '/') == [p[..i]] + Split(p[i + 1..] + t, '/')
  {
    FirstIndexOfAppend(p, t, '/');
    SplitAt(p + t, i);
    CutInPrefix(p, t, i);
  }

  lemma SplitAt(s: string, i: nat)
    requires i == FirstIndexOf(s, '/') && i < |s|
    ensures Split(s, '/') == [s[..i]] + Split(s[i + 1..], '/')
  {
  }

  /** Cutting `p + t` inside `p`. */
  lemma CutInPrefix<T>(p: seq<T>, t: seq<T>, i: nat)
    requires i < |p|
    ensures (p + t)[..i] == p[..i] && (p + t)[i + 1..] == p[i + 1..] + t
  {
  }

  /** Cutting `p/q` where `p` holds no `/`. */
  lemma SplitLast(p: string, q: string)
    requires FirstIndexOf(p, '/') == |p| && '/' !in q
    ensures Split(p + "/" + q, '/') == [p] + [q]
    ensures Split(p, '/') == [p]
  {
    var s := p + "/" + q;
    assert s[..|p|] == p;
    FirstIndexAt(s, '/', |p|);
    assert s[|p| + 1..] == q;
    assert FirstIndexOf(q, '/') == |q|;
  }

  /** One more token looks one level further down. */
  lemma {:induction false} LookupAppend(v: Json, tokens: seq<string>, t: string)
    ensures Lookup(v, tokens + [t]) == Lookup(Lookup(v, tokens), [t])
    decreases |tokens|
  {
    if tokens != [] {
      assert (tokens + [t])[1..] == tokens[1..] + [t];
      match v
      case Object(ms) =>
        var k := FindMember(ms, tokens[0]);
        if k < |ms| {
          LookupAppend(ms[k].value, tokens[1..], t);
        }
      case Array(items) =>
        if IsArrayIndex(tokens[0]) && DigitsValue(tokens[0]) < |items| {
          LookupAppend(items[DigitsValue(tokens[0])], tokens[1..], t);
        }
      case _ =>
    }
  }

  /** The value of `id/name` is the member or element `name` of the value
      of `id`. */
  lemma ValueBelow(doc: Json, id: string, name: string)
    requires ':' in id && StripTag(id) != [] && '/' !in name
    ensures Value(doc, id + "/" + name) == Lookup(Value(doc, id), [name])
  {
    var path := StripTag(id);
    StripTagAppend(id, "/" + name);
    AppendAssociates(id, "/", name);
    AppendAssociates(path, "/", name);
    ValueFollowsPath(doc, id);
    ValueFollowsPath(doc, id + "/" + name);
    SplitAppend(path, name);
    LookupAppend(doc, Split(path, '/'), name);
  }

  /** A string, a missing entry, a number or a boolean has nothing below
      it, and an array nothing at a name that is not an index: the id
      `id/name` refers to nothing. */
  lemma NothingBelow(doc: Json, id: string, name: string)
    requires ':' in id && StripTag(id) != [] && '/' !in name
    requires !Value(doc, id).Object? && !(Value(doc, id).Array? && IsArrayIndex(name))
    ensures Value(doc, id + "/" + name) == Null
  {
    ValueBelow(doc, id, name);
  }

  /** Below an array, the id `id/<k>` refers to its element `k`, or to
      nothing past its end. */
  lemma ArrayElement(doc: Json, id: string, k: nat)
    requires ':' in id && StripTag(id) != [] && Value(doc, id).Array?
    ensures k < |Value(doc, id).items| ==> Value(doc, id + "/" + NatToString(k)) == Value(doc, id).items[k]
    ensures k >= |Value(doc, id).items| ==> Value(doc, id + "/" + NatToString(k)) == Null
  {
    var s := NatToString(k);
    assert '/' !in s;
    ValueBelow(doc, id, s);
    ElementAt(Value(doc, id).items, k);
  }

  /** The token `<k>` picks element `k` of an array. */
  lemma ElementAt(items: seq<Json>, k: nat)
    ensures k < |items| ==> Lookup(Array(items), [NatToString(k)]) == items[k]
    ensures k >= |items| ==> Lookup(Array(items), [NatToString(k)]) == Null
  {
    DigitsRoundTrip(k);
    assert IsArrayIndex(NatToString(k));
    assert [NatToString(k)][1..] == [];
  }

  /** A string inside an array is read like any other file:
      `{"a": [x]}` at `<tag>:a/0` gives `x`. */
  lemma ArrayElementExample(tag: string, x: string)
    requires ':' !in tag
    ensures JsonGet(Object([Member("a", Array([Str(x)]))]), tag + ":" + "a" + "/" + "0") == Ok(Blob(x))
  {
    var doc := Object([Member("a", Array([Str(x)]))]);
    var id := tag + ":" + "a";
    StripTagIgnoresTag(tag, "a");
    assert ':' in id by { assert id[|tag|] == ':'; }
    ValueFollowsPath(doc, id);
    assert Split("a", '/') == ["a"] by { assert FirstIndexOf("a", '/') == 1; }
    assert Value(doc, id) == Array([Str(x)]);
    ArrayElement(doc, id, 0);
    assert NatToString(0) == "0";
  }

  /** `id/name` spelled with the separator in front of the name. */
  lemma JoinedName(id: string, name: string, slashed: string)
    requires slashed == "/" + name
    ensures id + slashed == id + "/" + name
  {
  }

  lemma IovsFileName()
    ensures "/IOVs" == "/" + "IOVs" && '/' !in "IOVs" && !IsArrayIndex("IOVs")
  {
    assert !IsDigit("IOVs"[0]);
  }

  /** An id with a tag keeps it when something is appended. */
  lemma TaggedAppend(id: string, s: string)
    requires ':' in id
    ensures ':' in id + s
  {
    assert (id + s)[..|id|] == id;
  }

  /** Only an object or an array has anything below it. */
  lemma BelowMeansContainer(doc: Json, id: string, name: string)
    requires ':' in id && StripTag(id) != [] && '/' !in name
    ensures !Value(doc, id + "/" + name).Null? ==> Value(doc, id).Object? || Value(doc, id).Array?
  {
    ValueBelow(doc, id, name);
  }

  /** Only a directory can hold a file, so an object with one exists. */
  lemma FileBelowExists(doc: Json, id: string, name: string, slashed: string)
    requires ':' in id && StripTag(id) != [] && '/' !in name && slashed == "/" + name
    requires !Value(doc, id + slashed).Null?
    ensures JsonExists(doc, id)
  {
    JoinedName(id, name, slashed);
    BelowMeansContainer(doc, id, name);
  }

  // ---------------------------------------------------------------------
  // Directory contents

  /** `CondDB::dir_content`. */
  datatype DirContent = DirContent(root: string, dirs: seq<string>, files: seq<string>)

  /** `std::variant<std::string, dir_content>`: a file's data or a listing. */
  datatype Entry = Blob(data: string) | Dir(content: DirContent)

  /** Names of the object-valued members, in member order. */
  function DirNames(ms: seq<Member>): (names: seq<string>)
    ensures |names| <= |ms|
  {
    if ms == [] then []
    else DirNames(ms[..|ms| - 1]) + (if ms[|ms| - 1].value.Object? then [ms[|ms| - 1].name] else [])
  }

  /** Names of all other members, in member order. */
  function FileNames(ms: seq<Member>): (names: seq<string>)
    ensures |names| <= |ms|
  {
    if ms == [] then []
    else FileNames(ms[..|ms| - 1]) + (if ms[|ms| - 1].value.Object? then [] else [ms[|ms| - 1].name])
  }

  function Names(ms: seq<Member>): (names: seq<string>)
    ensures |names| == |ms|
    ensures forall k :: 0 <= k < |ms| ==> names[k] == ms[k].name
  {
    if ms == [] then [] else Names(ms[..|ms| - 1]) + [ms[|ms| - 1].name]
  }

  /** A listing puts each member in exactly one of its two lists. */
  lemma {:induction false} ListingPartitions(ms: seq<Member>)
    ensures multiset(DirNames(ms)) + multiset(FileNames(ms)) == multiset(Names(ms))
    decreases |ms|
  {
    if ms != [] {
      ListingPartitions(ms[..|ms| - 1]);
    }
  }

  /** Every name in `dirs` is that of an object-valued member. */
  lemma {:induction false} DirsAreObjects(ms: seq<Member>)
    ensures forall d :: d in DirNames(ms) ==> exists k :: 0 <= k < |ms| && ms[k].name == d && ms[k].value.Object?
    decreases |ms|
  {
    if ms != [] {
      var init := ms[..|ms| - 1];
      DirsAreObjects(init);
      forall d | d in DirNames(init) ensures exists k :: 0 <= k < |ms| && ms[k].name == d && ms[k].value.Object? {
        var k :| 0 <= k < |init| && init[k].name == d && init[k].value.Object?;
        assert ms[k] == init[k];
      }
    }
  }

  /** Every name in `files` is that of a member with any other value. */
  lemma {:induction false} FilesAreNotObjects(ms: seq<Member>)
    ensures forall f :: f in FileNames(ms) ==> exists k :: 0 <= k < |ms| && ms[k].name == f && !ms[k].value.Object?
    decreases |ms|
  {
    if ms != [] {
      var init := ms[..|ms| - 1];
      FilesAreNotObjects(init);
      forall f | f in FileNames(init) ensures exists k :: 0 <= k < |ms| && ms[k].name == f && !ms[k].value.Object? {
        var k :| 0 <= k < |init| && init[k].name == f && !init[k].value.Object?;
        assert ms[k] == init[k];
      }
    }
  }

  /** A name above every name of an ascending list extends it. */
  lemma AppendAbove(names: seq<string>, x: string)
    requires StrictlySorted(names) && forall n :: n in names ==> Before(n, x)
    ensures StrictlySorted(names + [x])
  {
    forall i, j | 0 <= i < j < |names| + 1 ensures Before((names + [x])[i], (names + [x])[j]) {
      if j == |names| {
        assert names[i] in names;
      }
    }
  }

  /** The two lists of a listing keep the key order of the object. */
  lemma {:induction false} ListedInKeyOrder(ms: seq<Member>)
    requires StrictlySorted(Names(ms))
    ensures StrictlySorted(DirNames(ms)) && StrictlySorted(FileNames(ms))
    decreases |ms|
  {
    if ms != [] {
      var init := ms[..|ms| - 1];
      var last := ms[|ms| - 1].name;
      assert StrictlySorted(Names(init)) by {
        forall i, j | 0 <= i < j < |init| ensures Before(Names(init)[i], Names(init)[j]) {
          assert Names(init)[i] == Names(ms)[i] && Names(init)[j] == Names(ms)[j];
        }
      }
      ListedInKeyOrder(init);
      DirsAreObjects(init);
      FilesAreNotObjects(init);
      forall n | n in DirNames(init) ensures Before(n, last) {
        var k :| 0 <= k < |init| && init[k].name == n && init[k].value.Object?;
        assert Names(ms)[k] == n && Names(ms)[|ms| - 1] == last;
      }
      forall n | n in FileNames(init) ensures Before(n, last) {
        var k :| 0 <= k < |init| && init[k].name == n && !init[k].value.Object?;
        assert Names(ms)[k] == n && Names(ms)[|ms| - 1] == last;
      }
      if ms[|ms| - 1].value.Object? {
        AppendAbove(DirNames(init), last);
        assert FileNames(init) + [] == FileNames(init);
      } else {
        AppendAbove(FileNames(init), last);
        assert DirNames(init) + [] == DirNames(init);
      }
    }
  }

  /** The loop of `JSONImpl::get` over an object's members: object-valued
      ones go to `dirs`, all others to `files`, in member order. */
  method ListMembers(ms: seq<Member>) returns (dirs: seq<string>, files: seq<string>)
    ensures dirs == DirNames(ms) && files == FileNames(ms)
  {
    dirs, files := [], [];
    for i := 0 to |ms|
      invariant dirs == DirNames(ms[..i])
      invariant files == FileNames(ms[..i])
    {
      assert ms[..i + 1][..i] == ms[..i];
      if ms[i].value.Object? {
        dirs := dirs + [ms[i].name];
      } else {
        files := files + [ms[i].name];
      }
    }
    assert ms[..|ms|] == ms;
  }

  /** `JSONImpl::get`: a string is returned verbatim, an object as a listing
      rooted at the stripped id, a missing entry and any other value are
      errors. */
  function JsonGet(doc: Json, id: string): (r: Result<Entry>)
    ensures r.Err? <==> !Value(doc, id).Str? && !Value(doc, id).Object?
    ensures Value(doc, id).Null? ==> r == Err("cannot resolve object " + id)
    ensures r.Err? && !Value(doc, id).Null? ==> r == Err("invalid type at " + id)
    ensures Value(doc, id).Str? ==> r == Ok(Blob(Value(doc, id).s))
    ensures r.Ok? && r.value.Dir? ==> r.value.content.root == StripTag(id)
  {
    match Value(doc, id)
    case Null => Err("cannot resolve object " + id)
    case Object(ms) => Ok(Dir(DirContent(StripTag(id), DirNames(ms), FileNames(ms))))
    case Str(s) => Ok(Blob(s))
    case _ => Err("invalid type at " + id)
  }

  /** A listing of a well-formed document names its directories, and its
      files, in ascending order without repeats, as a `std::map` iterates. */
  lemma ListingInKeyOrder(doc: Json, id: string)
    requires KeyOrdered(doc)
    ensures var r := JsonGet(doc, id);
            r.Ok? && r.value.Dir? ==> StrictlySorted(r.value.content.dirs) && StrictlySorted(r.value.content.files)
  {
    if Value(doc, id).Object? {
      ListedInKeyOrder(Value(doc, id).members);
    }
  }

  /** The debug message `JSONImpl::get` sends before the lookup. */
  function AccessMessage(id: string): (string)
  {
    "accessing entry '" + ToPath(id) + "'"
  }

  /** The debug message it sends after the lookup, if any. */
  function FoundTrace(v: Json): (msgs: seq<(Kind, string)>)
  {
    match v
    case Object(_) => [(DebugMsg, "found object")]
    case Str(_) => [(DebugMsg, "found string")]
    case _ => []
  }

  /** The debug messages `JSONImpl::get` sends to its logger: the access,
      then what was found when it is an object or a string. */
  function JsonGetTrace(doc: Json, id: string): (msgs: seq<(Kind, string)>)
    ensures 1 <= |msgs| <= 2 && msgs[0] == (DebugMsg, AccessMessage(id))
    ensures |msgs| == 2 <==> JsonGet(doc, id).Ok?
  {
    [(DebugMsg, AccessMessage(id))] + FoundTrace(Value(doc, id))
  }

  /** `JSONImpl::exists`: true for every id without ':' (a bare tag name),
      otherwise whether the id's pointer refers to a non-null value. */
  function JsonExists(doc: Json, id: string): (r: bool)
    ensures ':' !in id ==> r
    ensures ':' in id ==> (r <==> !Value(doc, id).Null?)
  {
    FirstIndexOf(id, ':') == |id| || !Value(doc, id).Null?
  }

  /** What `get` finds is exactly what `exists` reports, for ids with a tag:
      an id that does not exist cannot be read, and one that exists either
      reads or has a type `get` refuses. */
  lemma ExistsIffResolvable(doc: Json, id: string)
    requires ':' in id
    ensures !JsonExists(doc, id) <==> JsonGet(doc, id) == Err("cannot resolve object " + id)
  {
    var v := Value(doc, id);
    if !v.Null? && !v.Str? && !v.Object? {
      assert JsonGet(doc, id).msg[0] == 'i';
      assert ("cannot resolve object " + id)[0] == 'c';
    }
  }

  /** `FilesystemImpl::exists`: true for every id without ':', otherwise
      whether the stripped path exists under the root directory, as
      `onDisk` (the file system) answers. */
  function FsExists(onDisk: string -> bool, id: string): (r: bool)
    ensures ':' !in id ==> r
    ensures ':' in id ==> r == onDisk(StripTag(id))
  {
    FirstIndexOf(id, ':') == |id| || onDisk(StripTag(id))
  }

  // ---------------------------------------------------------------------
  // Opening the JSON backend

  /** Where the JSON text comes from. */
  datatype JsonInput = Inline(text: string) | FromFile(path: string)

  /** The dispatch of the `JSONImpl` constructor and the message it logs:
      text containing '{' is JSON itself, otherwise it names a regular
      file (`isRegularFile` is the file system's answer), otherwise the
      connection fails. */
  function JsonSource(data: string, isRegularFile: bool): (r: Result<(JsonInput, string)>)
    ensures r.Ok? <==> '{' in data || isRegularFile
    ensures '{' in data ==> r == Ok((Inline(data), "using JSON data from memory"))
    ensures '{' !in data && isRegularFile ==> r.value.0 == FromFile(data)
    ensures r.Err? ==> r.msg == "invalid JSON"
  {
    if FirstIndexOf(data, '{') < |data| then Ok((Inline(data), "using JSON data from memory"))
    else if isRegularFile then Ok((FromFile(data), "loading JSON data from '" + data + "'"))
    else Err("invalid JSON")
  }

  // ---------------------------------------------------------------------
  // The backend object

  /** The largest `std::chrono::system_clock::time_point`: a signed 64-bit
      tick count. */
  const MaxClock: int := 0x7FFF_FFFF_FFFF_FFFF

  /** `DBImpl` and its three implementations, told apart by `backend`. */
  datatype Backend =
    | Filesystem(onDisk: string -> bool)
    | JsonData(doc: Json)
    | GitRepository(url: string, repo: RepositoryPtr)

  /** The logger is not the backend object, so a message sent to it leaves
      the backend as it is. */
  lemma LogIsApart(log: LoggerRef, impl: DbImpl)
    ensures log.Target() != impl
  {
  }

  /** The messages `JSONImpl::get` sends around the lookup of `id`, which
      found `obj`. */
  method SendGetTrace(log: LoggerRef, id: string, obj: Json)
    modifies log.Target()
    ensures Delivered(log, old(StateOf(log)), [(DebugMsg, AccessMessage(id))] + FoundTrace(obj))
  {
    ghost var st0 := StateOf(log);
    Send(log, DebugMsg, AccessMessage(id));
    SendAll(log, FoundTrace(obj));
    AfterAppend(log, st0, [(DebugMsg, AccessMessage(id))], FoundTrace(obj));
  }

  /** `DBImpl` and its three implementations, told apart by `backend`. */
  class DbImpl {
    /** `log`: the logger messages go to; never null. */
    var log: LoggerRef
    const backend: Backend

    constructor(backend: Backend, logger: Option<LoggerRef>)
      ensures this.backend == backend
      ensures logger.Some? ==> log == logger.value
      ensures logger.None? ==> log.NullRef? && fresh(log.n)
    {
      this.backend := backend;
      if logger.Some? {
        log := logger.value;
      } else {
        var n := new NullLogger();
        log := NullRef(n);
      }
    }

    /** `set_logger`: install the given logger, or a fresh `NullLogger` for
        a null pointer. */
    method SetLogger(logger: Option<LoggerRef>)
      modifies this
      ensures logger.Some? ==> log == logger.value
      ensures logger.None? ==> log.NullRef? && fresh(log.n)
    {
      if logger.Some? {
        log := logger.value;
      } else {
        var n := new NullLogger();
        log := NullRef(n);
      }
    }

    /** `logger()`: the logger object in use. */
    function Logger(): object
      reads this
    {
      log.Target()
    }

    /** `connected()`: the file system and JSON backends are always
        connected; the Git backend is while it holds a repository handle. */
    predicate Connected()
      reads if backend.GitRepository? then {backend.repo} else {}
    {
      match backend
      case GitRepository(_, repo) => repo.IsSet()
      case _ => true
    }

    /** `disconnect()`: a no-op for the file system and JSON backends; the
        Git backend logs it and drops its handle. */
    method Disconnect()
      modifies if backend.GitRepository? then {backend.repo, log.Target()} else {}
      ensures !backend.GitRepository? ==> Connected()
      ensures backend.GitRepository? ==>
                !Connected() && backend.repo.calls == old(backend.repo.calls)
                && Delivered(log, old(StateOf(log)), [(DebugMsg, "disconnect from Git repository")])
    {
      if backend.GitRepository? {
        Send(log, DebugMsg, "disconnect from Git repository");
        backend.repo.Reset();
      }
    }

    /** `exists(id)` of the file system and JSON backends. */
    function Exists(id: string): (r: bool)
      requires !backend.GitRepository?
      ensures ':' !in id ==> r
    {
      match backend
      case Filesystem(onDisk) => FsExists(onDisk, id)
      case JsonData(doc) => JsonExists(doc, id)
    }

    /** `commit_time` of the file system and JSON backends: the largest
        time point, whatever the commit. */
    function CommitTime(commitId: string): (t: int)
      requires !backend.GitRepository?
      ensures t == MaxClock
    {
      MaxClock
    }

    /** `JSONImpl::get`: log the pointer, look it up, and for an object
        sort its members into `dirs` and `files` one by one. */
    method Get(id: string) returns (r: Result<Entry>)
      requires backend.JsonData?
      modifies log.Target()
      ensures r == JsonGet(backend.doc, id)
      ensures KeyOrdered(backend.doc) && r.Ok? && r.value.Dir? ==>
                StrictlySorted(r.value.content.dirs) && StrictlySorted(r.value.content.files)
      ensures Delivered(log, old(StateOf(log)), JsonGetTrace(backend.doc, id))
    {
      LogIsApart(log, this);
      var obj := Value(backend.doc, id);
      SendGetTrace(log, id, obj);
      if obj.Null? {
        r := Err("cannot resolve object " + id);
      } else if obj.Object? {
        var dirs, files := ListMembers(obj.members);
        r := Ok(Dir(DirContent(StripTag(id), dirs, files)));
      } else if obj.Str? {
        r := Ok(Blob(obj.s));
      } else {
        r := Err("invalid type at " + id);
      }
      assert r == JsonGet(backend.doc, id);
      if KeyOrdered(backend.doc) {
        ListingInKeyOrder(backend.doc, id);
      }
    }
  }
}
