# GitCondDB: interval-of-validity resolution

A Dafny model of the core of GitCondDB, the conditions database of the LHCb
software. A condition is stored under a path, in a version identified by a
tag. A condition that changes over time is a directory holding an `IOVs` index
file. Each line of that file is `<timestamp> <key>`, meaning: from this time on,
the value is the entry `key` next to the index. Keys may be relative
(`../v1`) and may lead to further indices.

The model covers:

- the `IOV` interval algebra on the unsigned 64-bit time axis (`iov.dfy`);
- the two readers of an index file (`iov_helpers.dfy`):
  - `get_key_iov` returns the key valid at a time, clipped to caller bounds,
    optionally merging repeated keys;
  - `parse_IOVs_keys` returns the whole index as consecutive intervals.
- the text handling those readers depend on (`text.dfy`): `getline`
  splitting, `>>` extraction of a number and a token, decimal printing,
  lexicographic order and substring search;
- path normalisation (the `/x/../` and `/./` rewrite run to a fixpoint) and
  object ids (`normalize.dfy`, `conddb.dfy`);
- the storage backend as an in-memory JSON tree, following `JSONImpl`
  (`db_impl.dfy`): objects are directories, strings are files, arrays are
  indexed by decimal tokens as a JSON pointer does, and the tag before `:` is
  ignored (the differences from the JSON library are listed under
  "Left out"). It also covers `strip_tag`, the JSON pointer
  of an id, `exists`, `get` with its errors and debug messages, the
  constructor's input dispatch, `set_logger`, and the constant answers of the
  filesystem backend;
- `CondDB::get`, which resolves through nested indices. It also covers the
  directory listing, `iov_boundaries` with its recursive accumulator,
  `connect`, the `CondDB` settings and `AccessGuard` (`conddb.dfy`);
- the lazily connected repository handle `git_repository_ptr`
  (`git_helpers.dfy`);
- `BasicLogger`'s level filter and line format, `NullLogger`, and the test
  suite's `CapturingLogger` (`logger.dfy`);
- the fixture script's IOV writer and constant tables (`fixtures.dfy`);
- the mini repository the resolution tests read (`mini_repo.dfy`);
- the `GetIOVs` test of `iov_boundaries`: the walk step by step and the mini
  repository at `v1` (`boundary_cases.dfy`), and its two JSON trees
  (`json_cases.dfy`);
- the XML catalog directory converter of the tests (`xml_catalog.dfy`).

Loops of the source are methods with loop invariants, each proved equal to a
specification function:

- `GetKeyIov` and `ParseIovsKeys` for the index readers;
- `Normalize` for path normalisation;
- `ListMembers` for the member loop of `JSONImpl::get`;
- `GenerateXmlCatalog` for the catalog converter.

Objects the source updates in place are classes:

- `CondDb`, `AccessGuard`, `DbImpl` and `RepositoryPtr`;
- the three loggers.

What a call logs is stated through `Delivered(log, before, msgs)`: the logger
ends in the state it reaches from `before` by receiving `msgs` in order.

Resolution can pass through an index that leads back to itself (`../b` inside
`a/b`), and the source would then never return. `Resolve` and `Accumulate`
therefore take a `Fuel` argument, which bounds how many indices they pass
through. Running out of fuel is an error that only the model has, and fuel
only cuts the work short: any other result, with its messages, stays the same
when more fuel is given (`ResolveMore`, `AccumulateMore`).

## Model

| member | source | states |
|---|---|---|
| Iov.IOV.Valid | include/GitCondDB.h:66 | An IOV is valid iff it contains its own start. |
| Iov.IOV.ContainsPoint | include/GitCondDB.h:67 | A contained point lies in `[since, until)`, so the IOV is not empty, and the point is below the largest time. |
| Iov.IOV.Overlaps | include/GitCondDB.h:71 | Only two valid IOVs can overlap. |
| Iov.IOV.Full | include/GitCondDB.h:54-59 | The default IOV starts at 0 and ends at 2^64-1, the limits of `uint_fast64_t`. |
| Iov.IOV.Intersect | include/GitCondDB.h:61-63 | The intersection contains exactly the points contained in both intervals, and lies within each of them. |
| Iov.IOV.Cut | include/GitCondDB.h:64 | Cutting gives the intersection with the boundary and never widens the interval. |
| Iov.IntersectCommutes | src/tests/Helpers_UnitTests.cpp:93-112 | Intersection is commutative. |
| Iov.IntersectIdempotent | include/GitCondDB.h:61-63 | Intersecting again with the same boundary changes nothing. |
| Iov.ValidIffInhabited | include/GitCondDB.h:66-67 | An IOV is valid iff it contains some point; an invalid IOV contains no point. |
| Iov.ContainsIovIffSubset | include/GitCondDB.h:68-70 | `contains(other)` holds iff `other` is valid and every point of `other` is a point of this IOV. |
| Iov.InvalidContainment | src/tests/Helpers_UnitTests.cpp:174-179 | An invalid IOV is contained in no IOV and contains none. |
| Iov.OverlapsIffCommonPoint | include/GitCondDB.h:71 | Two IOVs overlap iff they share a point, so overlapping is symmetric. |
| Iov.CutsNarrow | src/tests/Helpers_UnitTests.cpp:114-142 | Successive cuts stay within the original interval and within every boundary applied. |
| Iov.CutSequenceExample | src/tests/Helpers_UnitTests.cpp:114-142 | The test's sequence of cuts gives the expected intervals and ends invalid. |
| IovHelpers.Clamp | src/iov_helpers.h:43 | A timestamp that fits in 64 bits is read as itself, and a larger one as the largest value. |
| IovHelpers.ParseFormatted | src/iov_helpers.h:42-43 | Extracting a number and a token from a printed `<time> <key>` line gives back the record. |
| IovHelpers.RecordsCons | src/iov_helpers.h:41-43 | The first line read by `getline` gives the first record, and reading goes on after its newline. |
| IovHelpers.RecordsOfText | src/iov_helpers.h:41-43 | An index printed from records with single-token keys reads back as exactly those records. |
| IovHelpers.Scan | src/iov_helpers.h:41-52 | The selected `since` is at most the query time, and the selected `until` is after it or is `max`. |
| IovHelpers.ScanAscending | src/iov_helpers.h:41-52 | With ascending times and distinct neighbouring keys, the selection is the last line at or before `t`, up to the next line's time or `max`. Before the first line, the initial key is kept. |
| IovHelpers.ReductionSkipsRepeats | src/iov_helpers.h:44 | With reduction on, the scan equals a scan without reduction over the lines left after dropping each line that repeats the selected key, so runs of one key merge. |
| IovHelpers.KeyIov | src/iov_helpers.h:24-56 | A time outside the bounds gives the empty key and the invalid `[0, 0)`. A time inside gives an IOV containing it and lying within the bounds. |
| IovHelpers.GetKeyIov | src/iov_helpers.h:24-56 | The `getline` loop with its early `break` and final cut computes exactly `KeyIov`. |
| IovHelpers.BeforeFirstLine | src/iov_helpers.h:27-53 | A query earlier than the first line gives the empty key on `[0, first time)` cut to the bounds, without error. |
| IovHelpers.KeyIovTestVectors | src/tests/Helpers_UnitTests.cpp:21-78 | The seven lookups of the test give the expected keys and intervals, including the invalid result outside the bounds. |
| IovHelpers.ScanTestRecords | src/tests/Helpers_UnitTests.cpp:29-56 | Scans of the test index select `a`, `b`, `c`, `c` and `d` with the expected limits. |
| IovHelpers.TestIndexRecords | src/tests/Helpers_UnitTests.cpp:24-27 | The test index text reads as the four records `0 a` to `300 d`. |
| IovHelpers.IovsKeys | src/iov_helpers.h:58-75 | There is one entry per line, in order, with the key verbatim. Each entry runs from its line's time to the next line's time, the last one to `max`. |
| IovHelpers.Pairs | src/iov_helpers.h:67-72 | The entries built from records satisfy the same consecutive-interval relation. |
| IovHelpers.ConsecutiveUnique | src/iov_helpers.h:67-72 | That relation determines the entry list, so any two lists satisfying it are equal. |
| IovHelpers.KeysOfText | src/iov_helpers.h:58-75 | Parsing a printed index gives the entries of its records. |
| IovHelpers.IovsKeysTile | src/iov_helpers.h:70-71 | Each entry ends where the next one starts, and the last ends at `max`. |
| IovHelpers.ParseIovsKeys | src/iov_helpers.h:58-75 | The loop that back-patches the previous entry's `until` computes exactly `IovsKeys`. |
| Text.NatToString | src/iov_helpers.h:43 | Decimal printing is a non-empty digit string without a leading zero. |
| Text.DigitsRoundTrip | src/iov_helpers.h:43 | Reading back the decimal digits of `n` gives `n`. |
| Text.GetLine | src/iov_helpers.h:41 | `getline` returns a newline-free line and a shorter rest, and the text is the line, the newline (if any) and the rest. |
| Text.LinesOfJoined | src/iov_helpers.h:41 | Newline-free lines, each ended by a newline, read back as the same lines. |
| Text.ExtractNumberOfString | src/iov_helpers.h:43 | `>>` into an integer reads back a printed number and stops at the first non-digit. |
| Text.ExtractTokenOfSpaced | src/iov_helpers.h:43 | `>>` into a string skips the blank and reads the whole token. |
| Text.LessEqTotal | src/GitCondDB.cpp:95-96 | The string order `std::sort` uses is total. |
| Text.LessEqAntisymmetric | src/GitCondDB.cpp:95-96 | The string order is antisymmetric. |
| Text.LessEqTransitive | src/GitCondDB.cpp:95-96 | The string order is transitive. |
| Text.ContainsAt | src/tests/test_common.h:31-36 | `find(sub) != npos` holds iff `sub` occurs at some position. |
| Normalize.ParentPrefix | src/GitCondDB.cpp:35 | It gives the unique length of a `/<seg>/../` match at the start, or 0. |
| Normalize.MatchLen | src/GitCondDB.cpp:35 | A match at the start is either absent or at least three characters long, and absent iff neither alternative of the pattern matches. |
| Normalize.Replace | src/GitCondDB.cpp:39 | One `regex_replace` pass never lengthens the path and keeps a non-empty path non-empty. |
| Normalize.ReplaceShortens | src/GitCondDB.cpp:37-40 | A pass keeps the length iff the path holds no match, and then the path is unchanged. This is the loop's stopping test. |
| Normalize.Normalized | src/GitCondDB.cpp:33-42 | The fixpoint holds no match and is no longer than the input. |
| Normalize.Normalize | src/GitCondDB.cpp:33-42 | The swap-and-replace loop computes exactly `Normalized`. |
| Normalize.NoMatchNowhere | src/GitCondDB.cpp:35 | Having no match is the same as the pattern matching at no position. |
| Normalize.NormalizedHasNoPattern | src/GitCondDB.cpp:33-42 | The result contains neither `/<seg>/../` nor `/./` anywhere and is never longer than the input. |
| Normalize.NormalizeIdempotent | src/GitCondDB.cpp:33-42 | Normalising twice is the same as normalising once. |
| Normalize.PlainPathUnchanged | src/GitCondDB.cpp:33-42 | A path without the patterns is left as it is. |
| Normalize.ParentSegmentRemoved | src/GitCondDB.cpp:33-42 | `a/<seg>/../b` normalises to `a/b`. |
| Normalize.PlainPathNormal | src/GitCondDB.cpp:33-42 | A path of plain components is its own normal form. |
| Normalize.GroupParentExample | src/GitCondDB.cpp:33-42 | `Cond/group/../v1` normalises to `Cond/v1`. |
| CondDB.FormatObjId | src/GitCondDB.cpp:44-50 | For a tag without `:`, the backend sees exactly the normalised path of the id. |
| CondDB.ObjIdPath | src/GitCondDB.cpp:44-50 | The backend sees the normalised path of an object id, and re-forming the id from its path gives the same id. |
| CondDB.RelativeKeyResolves | src/GitCondDB.cpp:44-46 | The object id of `Cond/group/../v1` is `<tag>:Cond/v1`. |
| CondDB.Insert | src/GitCondDB.cpp:95-96 | Insertion adds exactly one occurrence of the element. |
| CondDB.InsertSorted | src/GitCondDB.cpp:95-96 | Inserting into a sorted list keeps it sorted. |
| CondDB.SortStrings | src/GitCondDB.cpp:95-96 | The result is sorted and is a permutation of the input. |
| CondDB.SortedPermutationUnique | src/GitCondDB.cpp:95-96 | Two sorted permutations of one list are equal, so the sorted listing does not depend on the sort algorithm. |
| CondDB.ReclassifyKeepsNames | src/GitCondDB.cpp:91-94 | Moving indexed subdirectories to the files loses and adds no names. |
| CondDB.ReclassifySeparates | src/GitCondDB.cpp:91-94 | A subdirectory is moved iff an `IOVs` exists under it. |
| CondDB.Listing | src/GitCondDB.cpp:87-97 | The listing keeps the root, and both of its lists are sorted. |
| CondDB.ListingSpec | src/GitCondDB.cpp:88-97 | The listing keeps the root, has both lists sorted and is a permutation of all names. Its dirs are exactly the subdirectories without an index. Its files are the files plus the indexed subdirectories. |
| CondDB.Resolve | src/GitCondDB.cpp:72-102 | Resolution first logs the access to the object's id. A listing always comes with the full IOV. |
| CondDB.ThroughIndex | src/GitCondDB.cpp:77-86 | The index branch first logs the access to `<id>/IOVs`. A listing it reaches comes with the full IOV. |
| CondDB.FollowedWith | src/GitCondDB.cpp:77-83 | With fuel left, the index branch resolves the selected entry at `path/key` with its IOV as bounds, after the index's own messages. |
| CondDB.ResolveMore | src/GitCondDB.cpp:72-102 | A result of `get` other than running out of fuel, messages included, is unchanged by more fuel, so it is the source's answer. |
| CondDB.ThroughMore | src/GitCondDB.cpp:77-86 | The same for the index branch. |
| CondDB.ResolveAtIndex | src/GitCondDB.cpp:75-77 | At a directory holding an `IOVs` file, `get` returns what the index branch returns. |
| CondDB.LeafKeepsBounds | src/GitCondDB.cpp:99-101 | A value found directly is returned with the caller's bounds unchanged. |
| CondDB.FollowsEntry | src/GitCondDB.cpp:78-83 | With a valid selected IOV, resolution goes on at `path/key` with that IOV as the new bounds. |
| CondDB.OutsideBoundsIsInvalid | src/GitCondDB.cpp:78-86 | At an index, a time outside the bounds returns the empty data with the invalid `[0, 0)` and resolves nothing further. |
| CondDB.DirectoryGivesListing | src/GitCondDB.cpp:87-98 | A directory without an index gives its listing, valid at all times. |
| CondDB.ResolvedIovInBounds | src/GitCondDB.cpp:72-102 | For a time inside the bounds, a successful result is either a directory listing with the full IOV, or a value whose IOV contains that time and lies within the bounds. |
| CondDB.IndexIovInBounds | src/GitCondDB.cpp:77-86 | The same holds for what the index branch returns: a listing with the full IOV, otherwise an IOV containing the time within the bounds. |
| CondDB.NotIndexInBounds | src/GitCondDB.cpp:87-101 | The same holds when the object is not an index: a listing carries the full IOV, and a value keeps the bounds. |
| CondDB.ResolveTrace | src/GitCondDB.cpp:72-102 | `get` logs the backend's messages for the object, followed by those of the index branch when it is an index. |
| CondDB.Accumulate | src/GitCondDB.cpp:122-135 | The accumulator logs something iff the object has an `IOVs` file, which it reads. |
| CondDB.AccumulateMore | src/GitCondDB.cpp:122-135 | A result of the accumulator other than running out of fuel, messages included, is unchanged by more fuel. |
| CondDB.EntriesMore | src/GitCondDB.cpp:130-133 | The same for the walk over an index's entries. |
| CondDB.AccumulateWithin | src/GitCondDB.cpp:122-135 | Every leaf collected under valid limits has a valid IOV within those limits. |
| CondDB.AccumulateEntriesWithin | src/GitCondDB.cpp:130-133 | Every leaf collected over an index's entries has a valid IOV within the limits. |
| CondDB.VisitWithin | src/GitCondDB.cpp:130-133 | The leaves one entry contributes lie within the limits. |
| CondDB.LeafValue | src/GitCondDB.cpp:125-127 | An object without an index contributes one leaf: the limits and its own id. |
| CondDB.IndexValue | src/GitCondDB.cpp:128-133 | An index contributes what its parsed entries contribute. |
| CondDB.EntriesStep | src/GitCondDB.cpp:130-133 | Each entry's leaves are appended after those of the entries before it, and the first error stops the walk. |
| CondDB.EntriesErrorStops | src/GitCondDB.cpp:130-133 | Once an error occurs, later entries change nothing. |
| CondDB.Sinces | src/GitCondDB.cpp:147-148 | The output has one time per leaf, the start of its IOV, in order. |
| CondDB.BoundariesMore | src/GitCondDB.cpp:137-151 | A result of `iov_boundaries` other than running out of fuel is unchanged by more fuel. |
| CondDB.BoundariesWithin | src/GitCondDB.cpp:137-151 | Invalid boundaries or a missing object give no boundaries. Every boundary returned lies within the boundaries asked for. |
| CondDB.CondDb.constructor | src/GitCondDB.cpp:58-61 | A new `CondDB` holds its backend and the given converter, with IOV reduction on. |
| CondDB.CondDb.SetDirConverter | include/GitCondDB.h:115-118 | The new converter is installed, the previous one is returned, and the reduction flag is unchanged. |
| CondDB.CondDb.SetIovReduction | include/GitCondDB.h:123-124 | Only the reduction flag changes, and `iov_reduction()` then reports the new value. |
| CondDB.CondDb.SetLogger | src/GitCondDB.cpp:64 | The backend logs to the given logger, or to a new `NullLogger` when none is given. |
| CondDB.CondDb.Disconnect | src/GitCondDB.cpp:68 | A Git backend drops its handle and logs the disconnection; other backends stay connected. |
| CondDB.CondDb.ScopedConnection | include/GitCondDB.h:90 | It returns a new guard bound to this database. |
| CondDB.CondDb.ListDirectory | src/GitCondDB.cpp:88-97 | The loop over the subdirectories and the two sorts compute exactly `Listing`. |
| CondDB.CondDb.Get | src/GitCondDB.cpp:72-102 | The result is `Resolve`'s, with a listing passed through the current converter, and the logger receives `Resolve`'s messages. |
| CondDB.CondDb.GetThroughIndex | src/GitCondDB.cpp:77-86 | The index branch returns and logs what `ThroughIndex` specifies. |
| CondDB.CondDb.IovBoundariesAccumulate | src/GitCondDB.cpp:122-135 | `acc` is extended by exactly the leaves `Accumulate` specifies, and those messages are logged. |
| CondDB.CondDb.ForEachEntry | src/GitCondDB.cpp:130-133 | The `for_each` appends the leaves of the entries in order and stops at the first error. |
| CondDB.CondDb.VisitEntry | src/GitCondDB.cpp:130-133 | One entry adds nothing unless it overlaps the limits. If it does, it adds the leaves under the normalised `id/key` with the limits narrowed to the entry's IOV. |
| CondDB.CondDb.IovBoundaries | src/GitCondDB.cpp:137-151 | The result and the messages logged are those `Boundaries` specifies. |
| CondDB.AccessGuard.constructor | include/GitCondDB.h:78 | The guard refers to its database. |
| CondDB.AccessGuard.Release | include/GitCondDB.h:83 | Releasing the guard leaves a Git-backed database disconnected. |
| CondDB.ConnectTarget | src/GitCondDB.cpp:108-120 | `file:` and `json:` select their backends and are dropped, and `git:` is dropped. Any other string names a Git repository as a whole. |
| CondDB.ConnectSpelled | src/GitCondDB.cpp:111-118 | Writing a location with its prefix and connecting reaches that location. |
| CondDB.BarePathIsGit | src/GitCondDB.cpp:117-119 | A string without `:` is a Git repository path. |
| CondDB.ConnectError | src/GitCondDB.cpp:108-120 | A filesystem root fails iff it is not a directory, and a Git repository fails iff opening it yields nothing. |
| CondDB.OpenBackend | src/GitCondDB.cpp:111-119 | It fails exactly as `ConnectError` says. On success it opens the backend the prefix selects, and it logs that backend constructor's message. A Git backend already holds its handle after one open. A JSON backend holds a document whose objects have unique, ordered member names, as the JSON library's `std::map` objects do; the parser parameter is required to produce such documents. |
| CondDB.Connect | src/GitCondDB.cpp:108-120 | It fails exactly as `ConnectError` says. The new database has reduction on and the given converter. A missing logger is replaced by a new `BasicLogger`, which receives the connection message. A JSON backend's document has unique, ordered member names. |
| DBImpl.StripTag | src/DBImpl.h:68-73 | Everything up to and including the first `:` is dropped, and an id without `:` is returned unchanged. |
| DBImpl.StripTagIgnoresTag | src/DBImpl.h:68-73 | Whatever the tag, `tag:path` strips to `path`. |
| DBImpl.ToPath | src/DBImpl.h:312-315 | The pointer is empty (the whole document) iff the stripped path is empty; otherwise it starts with `/`. |
| DBImpl.Lookup | src/DBImpl.h:281 | The pointer lookup goes through object members by name and array elements by decimal index; below a document with unique, ordered names, every value found has them too. |
| DBImpl.Value | src/DBImpl.h:278-281 | The value at an id with an empty path is the whole document. |
| DBImpl.LookupAppend | src/DBImpl.h:281 | Looking up one more token is looking it up in the value found for the tokens before it. |
| DBImpl.ValueBelow | src/DBImpl.h:278-281 | The value at `id/name` is the lookup of `name` in the value at `id`. |
| DBImpl.ValueFollowsPath | src/DBImpl.h:278-281 | The value at an id is the document for an empty path, and otherwise the lookup of the path's components. |
| DBImpl.FindMember | src/DBImpl.h:281 | The member looked up is the first one with the name, or none. |
| DBImpl.MemberUnique | src/DBImpl.h:281 | With unique, ordered names, the member found is the only one with that name. |
| DBImpl.ArrayElement | src/DBImpl.h:269-284 | Below an array, `id/<k>` is element `k`, and nothing past the end. |
| DBImpl.ElementAt | src/DBImpl.h:281 | The decimal token of `k` selects element `k` of an array, or nothing past the end. |
| DBImpl.ArrayElementExample | src/DBImpl.h:275-305 | `get("<tag>:a/0")` on `{"a": [x]}` returns the string `x`. |
| DBImpl.JoinSplit | src/DBImpl.h:312-315 | Splitting a path at `/` loses nothing: joining the components gives the path back. |
| DBImpl.NothingBelow | src/DBImpl.h:269-273 | Nothing exists below a value that is neither an object nor an array indexed by a decimal token. |
| DBImpl.BelowMeansContainer | src/DBImpl.h:269-273 | If something exists below an id, the id holds an object or an array. |
| DBImpl.FileBelowExists | src/DBImpl.h:269-273 | If a file exists below an id, the id exists. |
| DBImpl.ListingPartitions | src/DBImpl.h:293-295 | Every member name goes to exactly one of `dirs` and `files`. |
| DBImpl.DirsAreObjects | src/DBImpl.h:293-295 | Every name in `dirs` is that of an object-valued member. |
| DBImpl.FilesAreNotObjects | src/DBImpl.h:293-295 | Every name in `files` is that of a member whose value is not an object. |
| DBImpl.ListMembers | src/DBImpl.h:293-295 | The member loop computes exactly the two name lists. |
| DBImpl.ListedInKeyOrder | src/DBImpl.h:293-295 | Members iterated in key order give strictly ordered `dirs` and `files`. |
| DBImpl.ListingInKeyOrder | src/DBImpl.h:288-297 | In a document with unique, ordered names, a listing has strictly ordered `dirs` and `files`. |
| DBImpl.JsonGet | src/DBImpl.h:275-305 | The pointer goes through objects and arrays. A string is returned verbatim and an object as a listing rooted at the stripped id. A missing entry gives `cannot resolve object <id>`, and any other value (an array, a number, a boolean) `invalid type at <id>`. |
| DBImpl.JsonGetTrace | src/DBImpl.h:279-299 | `get` logs its access message first, then one `found ...` message iff it succeeds. |
| DBImpl.JsonExists | src/DBImpl.h:269-273 | An id without `:` always exists; otherwise the id exists iff its pointer refers to a non-null value. |
| DBImpl.ExistsIffResolvable | src/DBImpl.h:269-284 | A tagged id does not exist iff `get` fails with `cannot resolve object`. |
| DBImpl.FsExists | src/DBImpl.h:197-201 | An id without `:` always exists; otherwise existence is that of the stripped path under the root. |
| DBImpl.JsonSource | src/DBImpl.h:252-262 | Text holding `{` is inline JSON, otherwise a regular file is read, and otherwise the result is `invalid JSON`. |
| DBImpl.DbImpl.constructor | src/DBImpl.h:75 | The backend logs to the given logger, or to a new `NullLogger` when none is given. |
| DBImpl.DbImpl.SetLogger | src/DBImpl.h:77-83 | The given logger is installed, or a new `NullLogger` when none is given, so the logger is never missing. |
| DBImpl.DbImpl.Disconnect | src/DBImpl.h:122-127 | A Git backend logs `disconnect from Git repository` and drops its handle without reopening. Filesystem and JSON backends stay connected. |
| DBImpl.DbImpl.Exists | src/DBImpl.h:197-201 | For the filesystem and JSON backends, an id without `:` always exists. |
| DBImpl.DbImpl.CommitTime | src/DBImpl.h:307-309 | The filesystem and JSON backends report the largest time point. |
| DBImpl.DbImpl.Get | src/DBImpl.h:275-305 | The result is `JsonGet`'s, and the logger receives `JsonGetTrace`'s messages. A listing of a document with unique, ordered names has strictly ordered `dirs` and `files`. |
| GitHelpers.RepositoryPtr.constructor | src/git_helpers.h:41 | A new handle holds its factory and no repository, and the factory has not been called. |
| GitHelpers.RepositoryPtr.Get | src/git_helpers.h:43-52 | A held handle is returned without calling the factory. Otherwise the factory is called once and its result stored, and a null result is the error `unable create object`. |
| GitHelpers.RepositoryPtr.ToBool | src/git_helpers.h:58 | `operator bool` creates the handle as `get` does and is true once it exists. |
| GitHelpers.RepositoryPtr.Reset | src/git_helpers.h:60-63 | The handle is dropped without calling the factory. |
| GitHelpers.GetResetGet | src/git_helpers.h:43-63 | `get`, `get`, `reset`, `get`: the second call returns the first handle, and the third reconnects through a second factory call. |
| Logging.Rank | include/GitCondDB.h:36 | The four levels are ranked in declaration order. |
| Logging.PadRight | src/BasicLogger.h:23 | `std::left << std::setw(w)` pads on the right with blanks to width `w` and keeps the text. |
| Logging.Printed | src/BasicLogger.h:25-33 | A message prints at most one line. |
| Logging.CapturedAll | src/tests/test_common.h:23-29 | Each message is recorded as its level name and text, one entry per message, in order. |
| Logging.LineLayout | src/BasicLogger.h:22-24 | A line is the level name padded to 7, `": "`, the message and a newline. |
| Logging.NothingPrintsNothing | src/BasicLogger.h:25-33 | `Nothing` prints no message. |
| Logging.QuietPrintsOnlyWarnings | src/BasicLogger.h:25-33 | The default `Quiet` prints warnings and only warnings. |
| Logging.DebugOnlyAtDebug | src/BasicLogger.h:31-33 | Debug messages print only at `Debug`. |
| Logging.WarningAndInfoLevels | src/BasicLogger.h:25-30 | Warnings print at every level except `Nothing`, and info messages only at `Debug` and `Verbose`. |
| Logging.LoweringNeverSuppresses | src/BasicLogger.h:25-33 | At a lower level, every line printed at a higher level is still printed and no fewer lines appear. |
| Logging.PrintedAllAppend | src/BasicLogger.h:25-33 | Printing two batches of messages prints the lines of the first, then those of the second. |
| Logging.CapturedAllAppend | src/tests/test_common.h:23-24 | Capture is append-only: entries recorded earlier stay in front. |
| Logging.NullLogger.constructor | src/DBImpl.h:46-50 | A `NullLogger` starts at the default level. |
| Logging.BasicLogger.constructor | src/BasicLogger.h:21 | A `BasicLogger` starts at `Quiet`, having printed nothing. |
| Logging.BasicLogger.Warning | src/BasicLogger.h:25-27 | The printed lines grow by the warning's line iff the level lets it through. |
| Logging.BasicLogger.Info | src/BasicLogger.h:28-30 | The printed lines grow by the info line iff the level lets it through. |
| Logging.BasicLogger.Debug | src/BasicLogger.h:31-33 | The printed lines grow by the debug line iff the level lets it through. |
| Logging.CapturingLogger.constructor | src/tests/test_common.h:22 | A `CapturingLogger` starts with nothing recorded. |
| Logging.CapturingLogger.Warning | src/tests/test_common.h:23-27 | Exactly one entry, `("warning", msg)`, is appended, and the warning's formatted line is printed whatever the level. |
| Logging.CapturingLogger.Info | src/tests/test_common.h:23-28 | Exactly one entry, `("info", msg)`, is appended, and the info line is printed whatever the level. |
| Logging.CapturingLogger.Debug | src/tests/test_common.h:23-29 | Exactly one entry, `("debug", msg)`, is appended, and the debug line is printed whatever the level. |
| Logging.EchoesEveryMessage | src/tests/test_common.h:23-26 | Echoing a series of messages prints one formatted line per message, in order. |
| Logging.CapturingLogger.Size | src/tests/test_common.h:38 | `size()` is the number of entries recorded. |
| Logging.CapturingLogger.ContainsLast | src/tests/test_common.h:31-33 | `contains(sub)` is false on an empty log and otherwise checks only the last message. |
| Logging.CapturingLogger.ContainsIn | src/tests/test_common.h:34-36 | `contains(idx, sub)` is false when `idx >= size()` and otherwise checks message `idx`. |
| Logging.AfterAppend | src/tests/test_common.h:23-26 | Delivering two batches of messages one after the other is delivering them together, for the recorded entries and the printed lines alike. |
| Logging.Send | src/DBImpl.h:87-89 | A logging call delivers one message to whichever logger is installed. |
| Logging.SendAll | src/DBImpl.h:87-89 | A series of logging calls delivers its messages in order. |
| TestData.ToTs | tests/prepare_test_data.py:52-53 | A date at midnight is a whole number of days after the epoch, counted in nanoseconds. |
| TestData.EpochIsZero | tests/prepare_test_data.py:25 | `to_ts(EPOCH)` is 0. |
| TestData.NextDay | tests/prepare_test_data.py:52-53 | The next day is one day, in nanoseconds, later. |
| TestData.IovLines | tests/prepare_test_data.py:61-62 | There is one line per pair. |
| TestData.WriteIovsJoins | tests/prepare_test_data.py:61-62 | The text is the lines `<to_ts(dt)> <key>`, each ended by a newline, in the given order. |
| TestData.WriteIovsLines | tests/prepare_test_data.py:56-62 | Splitting the written text into lines gives exactly one line per pair. |
| TestData.WriteIovsIsIndexText | tests/prepare_test_data.py:56-62 | The written text is the index text of the corresponding records. |
| TestData.WrittenIovsReadBack | tests/prepare_test_data.py:56-62 | Parsing the written text gives one entry per pair, with the same keys in order and `since` equal to the written timestamps. Each entry ends where the next starts, and the last at `max`. |
| TestData.Jan2016 | tests/prepare_test_data.py:96 | 2016-01-01 is 1451606400 seconds after the epoch. |
| TestData.July2016 | tests/prepare_test_data.py:103 | 2016-07-01 is 1467331200 seconds after the epoch. |
| TestData.Jan2017 | tests/prepare_test_data.py:97 | 2017-01-01 is 1483228800 seconds after the epoch. |
| TestData.TablesAscending | tests/prepare_test_data.py:96-106 | The four partition tables have strictly increasing timestamps. |
| TestData.ChangingRootEntries | tests/prepare_test_data.py:96-97 | The root partition index parses to `initial`, `2016` and `2017` on consecutive intervals ending at `max`. |
| MiniRepo.CondV0Selections | tests/prepare_test_data.py:160-161 | In the v0 `Cond/IOVs`, time 0 selects `v0` on `[0, 100)`, and time 110 selects `group` on `[100, max)`. |
| MiniRepo.GroupV0Selections | tests/prepare_test_data.py:162-163 | In the v0 `group/IOVs`, time 110 within `[100, max)` selects `../v1` on `[100, max)`. |
| MiniRepo.CondV1Selections | tests/prepare_test_data.py:174-175 | In the v1 `Cond/IOVs`, the test times select `v0`, `group`, `group` and `v3` with the expected intervals. |
| MiniRepo.GroupV1Selections | tests/prepare_test_data.py:176-177 | In the v1 `group/IOVs`, time 110 selects `../v1` on `[100, 150)` and time 150 selects `../v2` on `[150, 200)`. |
| MiniRepo.IndexedLeaf | src/GitCondDB.cpp:77-100 | Through one index, `get` returns the selected leaf's data with the selected IOV. |
| MiniRepo.GroupRedirect | src/GitCondDB.cpp:77-100 | Through an index, then a group index with a `../leaf` key, `get` returns the sibling leaf's data with the group's IOV. |
| MiniRepo.IndexOutOfBounds | src/GitCondDB.cpp:78-86 | At an index, a time outside the bounds gives the empty data and `[0, 0)`. |
| MiniRepo.V0At0 | src/tests/CondDB_UnitTests.cpp:150-155 | In the v0 tree, time 0 gives `data 0` on `[0, 100)`. |
| MiniRepo.V0At110 | src/tests/CondDB_UnitTests.cpp:156-161 | In the v0 tree, time 110 gives `data 1` on `[100, max)`. |
| MiniRepo.V1At0 | src/tests/CondDB_UnitTests.cpp:162-167 | In the v1 tree, time 0 gives `data 0` on `[0, 100)`. |
| MiniRepo.V1At110 | src/tests/CondDB_UnitTests.cpp:168-173 | In the v1 tree, time 110 gives `data 1` on `[100, 150)`. |
| MiniRepo.V1At150 | src/tests/CondDB_UnitTests.cpp:174-179 | In the v1 tree, time 150 gives `data 2` on `[150, 200)`. |
| MiniRepo.V1At210 | src/tests/CondDB_UnitTests.cpp:180-185 | In the v1 tree, time 210 gives `data 3` on `[200, max)`. |
| MiniRepo.V1OutsideBounds | src/tests/CondDB_UnitTests.cpp:187-192 | Time 210 with bounds `[0, 200)` gives empty data and an invalid IOV. |
| MiniRepo.Head | tests/prepare_test_data.py:183-186 | The head is one of the commits. |
| MiniRepo.HeadIsLatest | tests/prepare_test_data.py:169-186 | When commit dates increase, no commit is later than the head. |
| MiniRepo.MiniRepoHead | src/tests/CondDB_UnitTests.cpp:83 | The pinned commit dates increase, and the head, `v1`, has the latest date, 1483225200. |
| BoundaryCases.PayloadLeaf | src/GitCondDB.cpp:125-127 | A value that is not a directory is one leaf with the limits. |
| BoundaryCases.IndexEntries | src/GitCondDB.cpp:128-133 | An index contributes the leaves of its parsed entries. |
| BoundaryCases.BoundariesOfLeaves | src/GitCondDB.cpp:143-150 | The boundaries are the starts of the collected leaves. |
| BoundaryCases.TreeV1Leaves | src/GitCondDB.cpp:122-135 | In the v1 tree, the leaves are `v0`, `v1`, `v2` and `v3` on `[0,100)`, `[100,150)`, `[150,200)` and `[200,max)`. |
| BoundaryCases.BoundariesV1 | src/tests/CondDB_UnitTests.cpp:196-202 | `iov_boundaries("v1", "Cond")` on the v1 tree is `{0, 100, 150, 200}`. |
| JsonCases.NestedLeaves | src/tests/CondDB_UnitTests.cpp:204-214 | In the nested tree, the leaves are `a`, `level1/i`, `level1/level2/x`, `level1/level2/y` and `b`, with the expected intervals. |
| JsonCases.NestedBoundaries | src/tests/CondDB_UnitTests.cpp:203-219 | `iov_boundaries` on the nested tree is `{0, 100, 150, 170, 200}`. |
| JsonCases.SiblingLeaves | src/tests/CondDB_UnitTests.cpp:221-231 | In the tree with a `../levelB` key, the leaves under `levelB` are reached through the sibling path. |
| JsonCases.SiblingBoundaries | src/tests/CondDB_UnitTests.cpp:220-236 | `iov_boundaries` on the sibling tree is `{0, 100, 150, 170, 200}`. |
| XmlCatalog.LastSlash | src/tests/CondDB_UnitTests.cpp:27 | `rfind('/')` is -1 or the position of a `/`, and no `/` comes after it. |
| XmlCatalog.LastSlashIsLast | src/tests/CondDB_UnitTests.cpp:27 | No `/` comes after the position found. |
| XmlCatalog.BasenameIsLastSegment | src/tests/CondDB_UnitTests.cpp:25-28 | The basename is a `/`-free suffix of the path, preceded by a `/` unless it is the whole path. |
| XmlCatalog.BasenameOfName | src/tests/CondDB_UnitTests.cpp:25-28 | A path without `/` is its own basename. |
| XmlCatalog.BasenameOfJoined | src/tests/CondDB_UnitTests.cpp:25-28 | The basename of `dir/name` is `name`. |
| XmlCatalog.KeptMembers | src/tests/CondDB_UnitTests.cpp:44-50 | A file is referenced iff its last four characters are neither `.xml` nor `.txt`. |
| XmlCatalog.KeptAppend | src/tests/CondDB_UnitTests.cpp:44-50 | The files referenced keep their order. |
| XmlCatalog.KeptAll | src/tests/CondDB_UnitTests.cpp:44-50 | When no file is ignored, all are referenced. |
| XmlCatalog.ConditionsAreKeptRefs | src/tests/CondDB_UnitTests.cpp:44-50 | The condition references are those of the kept files, in order. |
| XmlCatalog.AllIgnored | src/tests/CondDB_UnitTests.cpp:44-50 | Ignored files produce no reference. |
| XmlCatalog.GenerateXmlCatalog | src/tests/CondDB_UnitTests.cpp:31-56 | The streaming loops produce exactly `Catalog`. |
| XmlCatalog.CatalogFrame | src/tests/CondDB_UnitTests.cpp:34-53 | The output starts with the XML header, the DOCTYPE and the opening catalog tag named after the basename, and ends with `</catalog></DDDB>`. |
| XmlCatalog.OneDirTwoConditions | src/tests/CondDB_UnitTests.cpp:41-50 | One directory and two kept files among four give one catalog reference, then two condition references. |
| XmlCatalog.DirectCatalog | src/tests/CondDB_UnitTests.cpp:115-135 | For `Direct` with `Nested` and four files, the output is exactly the expected string of the test. |

## Left out

- `GitImpl`'s repository access through libgit2 (opening, `revparse`, tree, blob and commit reads) is foreign library code. The Git backend appears only as a `RepositoryPtr` over a factory, which `connect` and `disconnect` use. `get`, `exists` and `commit_time` are modelled for the JSON backend, and for the filesystem backend only `exists` (with the file system as a parameter) and `commit_time`.
- `FilesystemImpl::get` (directory iteration and file reading) is file-system I/O.
- JSON parsing in the `JSONImpl` constructor is foreign: `connect` takes a parser as a parameter, and the document is an already-parsed tree. The parser is required to give objects unique member names in key order, as the library's `std::map` objects have; the model's objects are member lists, so this order is a stated assumption rather than a property of the type. The default directory converter serialises with the same library's `dump`, so it is a parameter of `CondDb` as well.
- JSON documents whose root is not an object are not distinguished: a JSON pointer on such a root would throw in the source.
- DBImpl.Lookup: under an array, a token the JSON library cannot read as an index makes the source throw: `parse_error` for a leading zero or a non-digit first character (`01`, `ab`), `std::invalid_argument` for an empty or one-letter token. Here such a token finds nothing. A token of digits followed by other characters (`1a`) finds nothing in both, as in version 3.9 and later of the library.
- DBImpl.JsonGet: for an id through such a token the source throws a JSON library exception after logging the access; the model logs the same access message and returns `cannot resolve object <id>`.
- DBImpl.JsonExists: for such an id the source throws; the model answers false. DBImpl.DbImpl.Exists inherits this for the JSON backend, and DBImpl.DbImpl.Get inherits the JsonGet line above.
- DBImpl.NothingBelow: states Null below an array for a token that is not an index, where the source throws.
- CondDB.CondDb.Get and CondDB.CondDb.IovBoundaries inherit these differences only for keys that pass through an array with such a token.
- CondDB.LeafValue and BoundaryCases.PayloadLeaf: an array reached by the accumulator is a leaf here, because `IOVs` finds nothing below it; in the source `exists(id + "/IOVs")` on an array throws `parse_error`, since `IOVs` is not an array index.
- The mini repository is a Git tree read through `GitImpl`, whose log messages (`get Git object <id>`, `found tree object`, `found blob object`) and missing-object errors come from libgit2 and differ from `JSONImpl`'s; the lemmas about the mini repository state only the data and IOV returned, not the messages logged.
- DBImpl.Lookup: JSON Pointer escaping is not modelled. `to_path` hands the id's path to the JSON library unescaped, and the library reads `~0` as `~` and `~1` as `/` in each token and throws `parse_error` on any other `~`; the model treats `~` as an ordinary character, so `t:a~1b` names the member `a~1b` here and `a/b` in the source.
- The `std::mutex` of `git_repository_ptr` is concurrency scaffolding; the model is sequential.
- Printing to standard output, by `BasicLogger` and by the test's `CapturingLogger`, is modelled as lines appended to a sequence; the stream state itself is not modelled.
- `to_ts`'s floating-point arithmetic is replaced by exact integer arithmetic on dates at midnight, which gives the same values for the dates in the tables.
- The subprocess, file and directory operations of the fixture script are left out; only its IOV tables and the commit dates it pins are modelled, as constant data.
- The tree of the mini repository is not one literal document: the lemmas about it hold for any document whose index files and leaves hold the fixture's contents.
- IovHelpers.ScanAscending: the result is stated for well-formed index files only (ascending times and single-token keys). For malformed lines, `>>` is modelled as total with defaults of 0 and the empty key, which need not match the stream's failure state.
- IovHelpers.Clamp: a timestamp too large for 64 bits reads as the largest value, as in the source. The source's `>>` also sets the fail bit of that line's own `istringstream`, made afresh for each line, so the `getline` loop goes on; but the following `>> tmp_key` is then skipped, and the source compares the previous line's `tmp_key` (possibly already moved out) with `key`. The model reads the line's own key; this stale-key behaviour is not modelled.
- CondDB.CondDb.Get: any chain of indices deeper than the fuel passed in ends in the error "IOV indirection too deep", whether it is cyclic (where the source never returns) or only longer than the fuel (where the source goes on to an answer). Every other result is the one any larger fuel gives (`ResolveMore`). The same holds for CondDB.CondDb.IovBoundaries (`BoundariesMore`).
- CondDB.ConnectError: every failure to open a Git repository is reported as `invalid Git repository: '<url>'`; the separate libgit2 message of `git_call` is not modelled.
- Iov.IOV.Cut: `cut` assigns in place in the source; IOV is a value type here, so the model returns the new value.
- src/utilities/read_gitconddb.cpp and src/common.h are not part of this model: one is a driver with a fixed path, the other only holds branch-hint macros.
