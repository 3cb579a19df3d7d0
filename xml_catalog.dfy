/** The directory converter of the unit tests: `basename` and
    `generateXMLCatalog` in src/tests/CondDB_UnitTests.cpp, which turn a
    directory listing into an LHCb XML catalog. */
module XmlCatalog {
  import opened DBImpl

  // ---------------------------------------------------------------------
  // basename

  /** `path.rfind('/')`, with `npos` written as -1 (so that `npos + 1`,
      which wraps to 0 in the source, is 0 here too). */
  function LastSlash(path: string): (i: int)
    ensures -1 <= i < |path|
    ensures i >= 0 ==> path[i] == '/'
  {
    if path == [] then -1
    else if path[|path| - 1] == '/' then |path| - 1
    else LastSlash(path[..|path| - 1])
  }

  /** No '/' follows the one `rfind` finds. */
  lemma {:induction false} LastSlashIsLast(path: string)
    ensures forall j :: LastSlash(path) < j < |path| ==> path[j] != '/'
    decreases |path|
  {
    if path != [] && path[|path| - 1] != '/' {
      LastSlashIsLast(path[..|path| - 1]);
    }
  }

  /** `basename(path)`: the text after the last '/'. */
  function Basename(path: string): string
  {
    path[LastSlash(path) + 1..]
  }

  /** The basename is the longest suffix of `path` without a '/': it is
      either all of `path` or preceded by a '/'. */
  lemma BasenameIsLastSegment(path: string)
    ensures var name := Basename(path);
            |name| <= |path| && path[|path| - |name|..] == name
            && '/' !in name
            && (|name| < |path| ==> path[|path| - |name| - 1] == '/')
  {
    LastSlashIsLast(path);
    var name := Basename(path);
    assert forall k :: 0 <= k < |name| ==> name[k] == path[LastSlash(path) + 1 + k];
  }

  /** A path without '/' is its own basename. */
  lemma BasenameOfName(path: string)
    requires '/' !in path
    ensures Basename(path) == path
  {
    BasenameIsLastSegment(path);
  }

  /** The basename of `dir/name` is `name`, whatever `dir` is. */
  lemma BasenameOfJoined(dir: string, name: string)
    requires '/' !in name
    ensures Basename(dir + "/" + name) == name
  {
    var path := dir + "/" + name;
    BasenameIsLastSegment(path);
    assert path[|dir|] == '/';
    assert path[|path| - |name|..] == name;
  }

  // ---------------------------------------------------------------------
  // generateXMLCatalog

  /** The XML declaration and the DOCTYPE. */
  const Prolog: string := "<?xml version=\"1.0\" encoding=\"ISO-8859-1\"?>"
                          + "<!DOCTYPE DDDB SYSTEM \"git:/DTD/structure.dtd\">"
  /** The end of the catalog and of the root element. */
  const Closing: string := "</catalog></DDDB>"
  const CatalogTag: string := "<catalogref href=\""
  const ConditionTag: string := "<conditionref href=\""

  /** The start of the root element and of the catalog called `name`. */
  function Opening(name: string): string
  {
    "<DDDB><catalog name=\"" + name + "\">"
  }

  /** One reference element: `<tag>name/item"/>`. */
  function Ref(tag: string, name: string, item: string): string
  {
    tag + name + "/" + item + "\"/>"
  }

  /** The reference elements of `items`, in order. */
  function Refs(tag: string, name: string, items: seq<string>): (xml: string)
    ensures items == [] ==> xml == []
  {
    if items == [] then []
    else Refs(tag, name, items[..|items| - 1]) + Ref(tag, name, items[|items| - 1])
  }

  /** A file whose last four characters are `.xml` or `.txt`; a name
      shorter than four characters is never one. */
  predicate Ignored(f: string)
  {
    |f| >= 4 && (f[|f| - 4..] == ".xml" || f[|f| - 4..] == ".txt")
  }

  /** The files that get a `conditionref`, in order. */
  function Kept(files: seq<string>): (kept: seq<string>)
    ensures |kept| <= |files|
  {
    if files == [] then []
    else
      var f := files[|files| - 1];
      Kept(files[..|files| - 1]) + (if Ignored(f) then [] else [f])
  }

  /** Exactly the files that are not ignored are kept. */
  lemma {:induction false} KeptMembers(files: seq<string>)
    ensures forall f :: f in Kept(files) <==> f in files && !Ignored(f)
    decreases |files|
  {
    if files != [] {
      var init := files[..|files| - 1];
      KeptMembers(init);
      assert files == init + [files[|files| - 1]];
    }
  }

  /** Filtering keeps the order: the kept files of a concatenation are those
      of each part, one after the other. */
  lemma {:induction false} KeptAppend(a: seq<string>, b: seq<string>)
    ensures Kept(a + b) == Kept(a) + Kept(b)
    decreases |b|
  {
    if b != [] {
      var init := b[..|b| - 1];
      assert (a + b)[..|a + b| - 1] == a + init;
      assert (a + b)[|a + b| - 1] == b[|b| - 1];
      KeptAppend(a, init);
    } else {
      assert a + b == a;
    }
  }

  /** When no file is ignored every file is kept, in order. */
  lemma {:induction false} KeptAll(files: seq<string>)
    requires forall i :: 0 <= i < |files| ==> !Ignored(files[i])
    ensures Kept(files) == files
    decreases |files|
  {
    if files != [] {
      KeptAll(files[..|files| - 1]);
    }
  }

  /** The `conditionref` elements the file loop streams: one per file
      whose name does not end in `.xml` or `.txt`, in order. */
  function Conditions(name: string, files: seq<string>): string
  {
    if files == [] then []
    else
      var f := files[|files| - 1];
      Conditions(name, files[..|files| - 1]) + (if Ignored(f) then [] else Ref(ConditionTag, name, f))
  }

  /** The file loop writes a `conditionref` for exactly the kept files. */
  lemma {:induction false} ConditionsAreKeptRefs(name: string, files: seq<string>)
    ensures Conditions(name, files) == Refs(ConditionTag, name, Kept(files))
    decreases |files|
  {
    if files != [] {
      var init, f := files[..|files| - 1], files[|files| - 1];
      ConditionsAreKeptRefs(name, init);
      var k := Kept(init);
      if !Ignored(f) {
        assert (k + [f])[..|k|] == k;
      } else {
        assert k + [] == k;
      }
    }
  }

  /** The catalog of a listing: a `catalogref` per directory, then a
      `conditionref` per kept file, each under the basename of the root. */
  function Catalog(content: DirContent): (xml: string)
  {
    var name := Basename(content.root);
    Prolog + Opening(name) + Refs(CatalogTag, name, content.dirs)
    + Conditions(name, content.files) + Closing
  }

  /** One more directory adds its reference element at the end. */
  lemma RefsPrefixStep(tag: string, name: string, items: seq<string>, i: nat)
    requires i < |items|
    ensures Refs(tag, name, items[..i + 1]) == Refs(tag, name, items[..i]) + Ref(tag, name, items[i])
  {
    assert items[..i + 1][..i] == items[..i];
  }

  /** One more file adds its `conditionref` at the end unless it is ignored. */
  lemma ConditionsPrefixStep(name: string, files: seq<string>, j: nat)
    requires j < |files|
    ensures Conditions(name, files[..j + 1])
            == Conditions(name, files[..j]) + (if Ignored(files[j]) then [] else Ref(ConditionTag, name, files[j]))
  {
    assert files[..j + 1][..j] == files[..j];
  }

  /** `generateXMLCatalog(content)`: streams the header, one element per
      directory and one per kept file, and the closing tags. The elements
      of each loop are collected in their own buffer and then streamed. */
  method GenerateXmlCatalog(content: DirContent) returns (xml: string)
    ensures xml == Catalog(content)
  {
    var name := Basename(content.root);
    var catalogs: string := [];
    var i := 0;
    while i < |content.dirs|
      invariant 0 <= i <= |content.dirs|
      invariant catalogs == Refs(CatalogTag, name, content.dirs[..i])
    {
      RefsPrefixStep(CatalogTag, name, content.dirs, i);
      catalogs := catalogs + Ref(CatalogTag, name, content.dirs[i]);
      i := i + 1;
    }
    assert content.dirs[..i] == content.dirs;
    var conditions: string := [];
    var j := 0;
    while j < |content.files|
      invariant 0 <= j <= |content.files|
      invariant conditions == Conditions(name, content.files[..j])
    {
      var f := content.files[j];
      var suffix := if |f| >= 4 then f[|f| - 4..] else "";
      ConditionsPrefixStep(name, content.files, j);
      if !(suffix == ".xml" || suffix == ".txt") {
        assert !Ignored(f);
        conditions := conditions + Ref(ConditionTag, name, f);
      } else {
        assert Ignored(f);
      }
      j := j + 1;
    }
    assert content.files[..j] == content.files;
    xml := Prolog + Opening(name) + catalogs + conditions + Closing;
  }

  /** The catalog begins with the prolog and the opening of a catalog named
      after the root's basename, and ends with the closing tags. */
  lemma CatalogFrame(content: DirContent)
    ensures var xml := Catalog(content);
            var start := Prolog + Opening(Basename(content.root));
            |xml| >= |start| + |Closing|
            && xml[..|start|] == start
            && xml[|xml| - |Closing|..] == Closing
  {
    var name := Basename(content.root);
    var start := Prolog + Opening(name);
    var body := Refs(CatalogTag, name, content.dirs) + Conditions(name, content.files);
    assert Catalog(content) == start + body + Closing;
  }

  /** A listing whose files are all ignored gets no `conditionref`. */
  lemma {:induction false} AllIgnored(name: string, files: seq<string>)
    requires forall i :: 0 <= i < |files| ==> Ignored(files[i])
    ensures Conditions(name, files) == []
    decreases |files|
  {
    if files != [] {
      AllIgnored(name, files[..|files| - 1]);
    }
  }

  // ---------------------------------------------------------------------
  // The `Direct` directory of the unit test

  lemma ConditionsSnoc(name: string, files: seq<string>, f: string)
    ensures Conditions(name, files + [f])
            == Conditions(name, files) + (if Ignored(f) then [] else Ref(ConditionTag, name, f))
  {
    assert (files + [f])[..|files|] == files;
  }

  /** Two files that are not ignored each get a `conditionref`. */
  lemma TwoConditions(name: string, a: string, b: string)
    requires !Ignored(a) && !Ignored(b)
    ensures Conditions(name, [a, b]) == Ref(ConditionTag, name, a) + Ref(ConditionTag, name, b)
  {
    var none: seq<string> := [];
    ConditionsSnoc(name, none, a);
    ConditionsSnoc(name, [a], b);
    assert none + [a] == [a] && [a] + [b] == [a, b];
    assert [] + Ref(ConditionTag, name, a) == Ref(ConditionTag, name, a);
  }

  /** Ignored files at the end add nothing. */
  lemma IgnoredTail(name: string, files: seq<string>, c: string, d: string)
    requires Ignored(c) && Ignored(d)
    ensures Conditions(name, files + [c] + [d]) == Conditions(name, files)
  {
    ConditionsSnoc(name, files, c);
    ConditionsSnoc(name, files + [c], d);
    assert Conditions(name, files) + [] == Conditions(name, files);
  }

  /** Of four files where only the last two are ignored (as `Cond1`,
      `Cond2`, `Ignored.txt` and `Ignored.xml` are), only the first two get
      a `conditionref`. */
  lemma TwoOfFourConditions(name: string, a: string, b: string, c: string, d: string)
    requires !Ignored(a) && !Ignored(b) && Ignored(c) && Ignored(d)
    ensures Conditions(name, [a, b, c, d]) == Ref(ConditionTag, name, a) + Ref(ConditionTag, name, b)
  {
    TwoConditions(name, a, b);
    IgnoredTail(name, [a, b], c, d);
    assert [a, b] + [c] + [d] == [a, b, c, d];
  }

  lemma OneRef(tag: string, name: string, n: string)
    ensures Refs(tag, name, [n]) == Ref(tag, name, n)
  {
    assert [n][..0] == [];
    assert [] + Ref(tag, name, n) == Ref(tag, name, n);
  }

  /** The catalog of a root without '/', one directory and four files of
      which the last two are ignored. */
  lemma OneDirTwoConditions(root: string, n: string, a: string, b: string, c: string, d: string)
    requires '/' !in root
    requires !Ignored(a) && !Ignored(b) && Ignored(c) && Ignored(d)
    ensures Catalog(DirContent(root, [n], [a, b, c, d]))
            == Prolog + Opening(root) + Ref(CatalogTag, root, n)
               + Ref(ConditionTag, root, a) + Ref(ConditionTag, root, b) + Closing
  {
    BasenameOfName(root);
    TwoOfFourConditions(root, a, b, c, d);
    OneRef(CatalogTag, root, n);
    RegroupRefs(Prolog + Opening(root) + Ref(CatalogTag, root, n), Ref(ConditionTag, root, a), Ref(ConditionTag, root, b), Closing);
  }

  lemma RegroupRefs(head: string, x: string, y: string, tail: string)
    ensures head + (x + y) + tail == head + x + y + tail
  {
  }

  lemma DirectNames()
    ensures '/' !in "Direct"
    ensures !Ignored("Cond1") && !Ignored("Cond2") && Ignored("Ignored.txt") && Ignored("Ignored.xml")
  {
  }

  /** The elements written for `Direct`, `Nested`, `Cond1` and `Cond2`. */
  lemma DirectElements()
    ensures Opening("Direct") == "<DDDB><catalog name=\"Direct\">"
    ensures Ref(CatalogTag, "Direct", "Nested") == "<catalogref href=\"Direct/Nested\"/>"
    ensures Ref(ConditionTag, "Direct", "Cond1") == "<conditionref href=\"Direct/Cond1\"/>"
    ensures Ref(ConditionTag, "Direct", "Cond2") == "<conditionref href=\"Direct/Cond2\"/>"
  {
  }

  /** The listing of `Direct` (one directory `Nested`, files `Cond1`,
      `Cond2`, `Ignored.txt`, `Ignored.xml`) becomes the catalog the test
      expects: `Nested` as a catalog, `Cond1` and `Cond2` as conditions. */
  lemma DirectCatalog(root: string, dirs: seq<string>, files: seq<string>)
    requires root == "Direct" && dirs == ["Nested"] && files == ["Cond1", "Cond2", "Ignored.txt", "Ignored.xml"]
    ensures Catalog(DirContent(root, dirs, files))
            == Prolog
               + "<DDDB><catalog name=\"Direct\">"
               + "<catalogref href=\"Direct/Nested\"/>"
               + "<conditionref href=\"Direct/Cond1\"/>"
               + "<conditionref href=\"Direct/Cond2\"/>"
               + "</catalog></DDDB>"
  {
    DirectNames();
    OneDirTwoConditions(root, dirs[0], files[0], files[1], files[2], files[3]);
    DirectElements();
  }
}
