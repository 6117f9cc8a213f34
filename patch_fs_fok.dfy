/** The install-time script scripts/patch-fs-fok.js: it walks a directory tree,
    collects the `.js` files, and in each file that mentions `fs.F_OK` rewrites
    every occurrence to `fs.constants.F_OK` with `split`/`join`, counting the
    files it rewrote. The file system is a tree value; reading, stat and
    directory-listing failures are parts of that value, and the writes the run
    performs are its result. */
module PatchFsFok {
  import opened JsText

  const Needle := "fs.F_OK"
  const Replacement := "fs.constants.F_OK"

  /** `p` occurs nowhere in `s`. */
  ghost predicate NoOccurrence(s: string, p: string) {
    forall j :: !OccursAt(s, p, j)
  }

  lemma OccursAtShift(s: string, p: string, i: int)
    requires 1 <= i && |s| >= 1
    ensures OccursAt(s, p, i) <==> OccursAt(s[1..], p, i - 1)
  {
    if i + |p| <= |s| {
      assert s[1..][i - 1..i - 1 + |p|] == s[i..i + |p|];
    }
  }

  /** `s.indexOf(p)`: the first occurrence of a non-empty `p`, None for -1. */
  function IndexOf(s: string, p: string): (r: Option<nat>)
    requires p != ""
    ensures r.Some? ==> OccursAt(s, p, r.value) && forall j :: 0 <= j < r.value ==> !OccursAt(s, p, j)
    ensures r.None? ==> NoOccurrence(s, p)
    decreases |s|
  {
    if |s| < |p| then None
    else if s[..|p|] == p then Some(0)
    else
      var rest := IndexOf(s[1..], p);
      assert !OccursAt(s, p, 0);
      if rest.None? then
        assert forall j :: !OccursAt(s, p, j) by {
          forall j | 1 <= j ensures !OccursAt(s, p, j) {
            OccursAtShift(s, p, j);
          }
        }
        None
      else
        var i := rest.value;
        OccursAtShift(s, p, i + 1);
        assert forall j :: 1 <= j <= i ==> !OccursAt(s, p, j) by {
          forall j | 1 <= j <= i ensures !OccursAt(s, p, j) {
            OccursAtShift(s, p, j);
          }
        }
        Some(i + 1)
  }

  /** `s.split(sep)` for a non-empty separator: the pieces between the
      occurrences found from the left. */
  function Split(s: string, sep: string): (parts: seq<string>)
    requires sep != ""
    ensures |parts| >= 1
    decreases |s|
  {
    match IndexOf(s, sep)
    case None => [s]
    case Some(i) => [s[..i]] + Split(s[i + |sep|..], sep)
  }

  /** No piece of a split contains the separator. */
  lemma {:induction false} SplitPiecesClean(s: string, sep: string)
    requires sep != ""
    ensures forall k :: 0 <= k < |Split(s, sep)| ==> NoOccurrence(Split(s, sep)[k], sep)
    decreases |s|
  {
    var found := IndexOf(s, sep);
    if found.Some? {
      var i := found.value;
      var head := s[..i];
      assert |sep| > 0 && |head| == i;
      forall j | 0 <= j && j + |sep| <= |head| ensures !OccursAt(head, sep, j) {
        assert s[j..j + |sep|] == head[j..j + |sep|];
        assert !OccursAt(s, sep, j);
      }
      SplitPiecesClean(s[i + |sep|..], sep);
    }
  }

  /** Joining the pieces of a split with its separator gives the text back. */
  lemma {:induction false} SplitJoin(s: string, sep: string)
    requires sep != ""
    ensures Join(Split(s, sep), sep) == s
    decreases |s|
  {
    match IndexOf(s, sep)
    case None =>
    case Some(i) =>
      var rest := s[i + |sep|..];
      var tail := Split(rest, sep);
      SplitJoin(rest, sep);
      var parts := Split(s, sep);
      assert parts == [s[..i]] + tail;
      assert |parts| >= 2 && parts[0] == s[..i] && parts[1..] == tail;
      calc {
        Join(parts, sep);
        parts[0] + sep + Join(parts[1..], sep);
        s[..i] + sep + rest;
        { assert s[i..i + |sep|] == sep; }
        s;
      }
  }

  /** A text without the separator splits into itself alone. */
  lemma SplitWithout(s: string, sep: string)
    requires sep != "" && NoOccurrence(s, sep)
    ensures Split(s, sep) == [s]
  {
  }

  /** `content.split('fs.F_OK').join('fs.constants.F_OK')`. */
  function Patch(content: string): string {
    Join(Split(content, Needle), Replacement)
  }

  /** Every character of `Needle` after its first differs from `f`. */
  lemma NeedleShape()
    ensures |Needle| == 7 && Needle[0] == 'f'
    ensures forall k :: 1 <= k < |Needle| ==> Needle[k] != 'f'
    ensures Needle[3] == 'F'
  {
  }

  lemma ReplacementShape()
    ensures |Replacement| == 17 && Replacement[0] == 'f' && Replacement[3] == 'c'
    ensures forall k :: 1 <= k < |Replacement| ==> Replacement[k] != 'f'
  {
  }

  /** Two texts without `Needle` stay without it when joined, provided the
      second starts with the only letter `f` can be: the needle's first. */
  lemma ConcatNoNeedle(x: string, y: string)
    requires NoOccurrence(x, Needle) && NoOccurrence(y, Needle)
    requires y != "" ==> y[0] == 'f'
    ensures NoOccurrence(x + y, Needle)
  {
    NeedleShape();
    var xy := x + y;
    forall j ensures !OccursAt(xy, Needle, j) {
      if !(0 <= j && j + |Needle| <= |xy|) {
      } else if j + |Needle| <= |x| {
        assert x[j..j + |Needle|] == xy[j..j + |Needle|];
        assert !OccursAt(x, Needle, j);
      } else if j >= |x| {
        assert y[j - |x|..j - |x| + |Needle|] == xy[j..j + |Needle|];
        assert !OccursAt(y, Needle, j - |x|);
      } else {
        var k := |x| - j;
        assert xy[j..j + |Needle|][k] == y[0];
      }
    }
  }

  /** The replacement followed by a text without `Needle` has none. */
  lemma ReplacementThenNoNeedle(p: string)
    requires NoOccurrence(p, Needle)
    ensures NoOccurrence(Replacement + p, Needle)
  {
    NeedleShape();
    ReplacementShape();
    var r := Replacement + p;
    forall j ensures !OccursAt(r, Needle, j) {
      if !(0 <= j && j + |Needle| <= |r|) {
      } else if j >= |Replacement| {
        assert p[j - |Replacement|..j - |Replacement| + |Needle|] == r[j..j + |Needle|];
        assert !OccursAt(p, Needle, j - |Replacement|);
      } else if j == 0 {
        assert r[j..j + |Needle|][3] == 'c';
      } else {
        assert r[j..j + |Needle|][0] == Replacement[j];
      }
    }
  }

  lemma {:induction false} JoinNoNeedle(parts: seq<string>)
    requires forall k :: 0 <= k < |parts| ==> NoOccurrence(parts[k], Needle)
    ensures NoOccurrence(Join(parts, Replacement), Needle)
    decreases |parts|
  {
    if |parts| == 0 {
      assert forall j :: !OccursAt("", Needle, j);
    } else if |parts| > 1 {
      var tail := Join(parts[1..], Replacement);
      JoinNoNeedle(parts[1..]);
      ReplacementThenNoNeedle(tail);
      ReplacementShape();
      ConcatNoNeedle(parts[0], Replacement + tail);
      assert Join(parts, Replacement) == parts[0] + (Replacement + tail);
    }
  }

  /** After patching, `fs.F_OK` occurs nowhere, so `includes` is false. */
  lemma PatchRemovesNeedle(content: string)
    ensures !Includes(Patch(content), Needle)
  {
    SplitPiecesClean(content, Needle);
    JoinNoNeedle(Split(content, Needle));
  }

  /** Patching a patched text changes nothing. */
  lemma PatchIdempotent(content: string)
    ensures Patch(Patch(content)) == Patch(content)
  {
    PatchRemovesNeedle(content);
    SplitWithout(Patch(content), Needle);
  }

  /** A text that does not mention `fs.F_OK` is left as it is. */
  lemma PatchWithoutNeedle(content: string)
    requires !Includes(content, Needle)
    ensures Patch(content) == content
  {
    SplitWithout(content, Needle);
  }

  /** A node of the tree as `statSync` sees it: a regular file (its content, None
      when it cannot be read, and whether it can be written), a directory (its
      listing in `readdirSync` order), a directory that cannot be listed, or
      anything else, including an entry whose `stat` fails. */
  datatype Node =
    | File(content: Option<string>, writable: bool)
    | Directory(children: seq<Child>)
    | Unlistable
    | Other

  datatype Child = Child(name: string, node: Node)

  /** A file `walk` collected. */
  datatype Found = Found(path: string, content: Option<string>, writable: bool)

  /** `path.join(dir, file)`. */
  function JoinPath(dir: string, name: string): string {
    dir + "/" + name
  }

  /** `walk(dir)` over a listing: each child in order, directories recursively;
      a directory that cannot be listed adds nothing. */
  function Walk(dir: string, listing: seq<Child>): seq<Found>
    decreases listing
  {
    if listing == [] then [] else WalkChild(dir, listing[0]) + Walk(dir, listing[1..])
  }

  function WalkChild(dir: string, c: Child): seq<Found>
    decreases c
  {
    var path := JoinPath(dir, c.name);
    match c.node
    case Directory(children) => Walk(path, children)
    case Unlistable => []
    case File(content, writable) => if EndsWith(path, ".js") then [Found(path, content, writable)] else []
    case Other => []
  }

  /** `walk` collects only paths ending in `.js`. */
  lemma {:induction false} WalkOnlyScripts(dir: string, listing: seq<Child>)
    ensures forall f :: f in Walk(dir, listing) ==> EndsWith(f.path, ".js")
    decreases listing
  {
    if listing != [] {
      WalkChildOnlyScripts(dir, listing[0]);
      WalkOnlyScripts(dir, listing[1..]);
    }
  }

  lemma {:induction false} WalkChildOnlyScripts(dir: string, c: Child)
    ensures forall f :: f in WalkChild(dir, c) ==> EndsWith(f.path, ".js")
    decreases c
  {
    if c.node.Directory? {
      WalkOnlyScripts(JoinPath(dir, c.name), c.node.children);
    }
  }

  /** `f` is a `.js` file somewhere under `listing`, read from `dir`: a file whose
      joined path ends in `.js`, or one found the same way inside a listed directory. */
  ghost predicate ScriptIn(dir: string, listing: seq<Child>, f: Found)
    decreases listing
  {
    exists i :: 0 <= i < |listing| && ScriptInChild(dir, listing[i], f)
  }

  ghost predicate ScriptInChild(dir: string, c: Child, f: Found)
    decreases c
  {
    var path := JoinPath(dir, c.name);
    match c.node
    case File(content, writable) => EndsWith(path, ".js") && f == Found(path, content, writable)
    case Directory(children) => ScriptIn(path, children, f)
    case Unlistable => false
    case Other => false
  }

  lemma ScriptInCons(dir: string, listing: seq<Child>, f: Found)
    requires listing != []
    ensures ScriptIn(dir, listing, f) <==> ScriptInChild(dir, listing[0], f) || ScriptIn(dir, listing[1..], f)
  {
    if ScriptIn(dir, listing, f) {
      var i :| 0 <= i < |listing| && ScriptInChild(dir, listing[i], f);
      if i > 0 {
        assert listing[1..][i - 1] == listing[i];
      }
    }
    if ScriptIn(dir, listing[1..], f) {
      var j :| 0 <= j < |listing| - 1 && ScriptInChild(dir, listing[1..][j], f);
      assert listing[1..][j] == listing[j + 1];
    }
  }

  /** `walk` collects every `.js` file of the tree and nothing else: a directory
      that cannot be listed and an entry whose `stat` fails contribute nothing. */
  lemma {:induction false} WalkFindsScripts(dir: string, listing: seq<Child>)
    ensures forall f :: f in Walk(dir, listing) <==> ScriptIn(dir, listing, f)
    decreases listing
  {
    if listing != [] {
      WalkChildFindsScripts(dir, listing[0]);
      WalkFindsScripts(dir, listing[1..]);
      forall f
        ensures f in Walk(dir, listing) <==> ScriptIn(dir, listing, f)
      {
        ScriptInCons(dir, listing, f);
      }
    }
  }

  lemma {:induction false} WalkChildFindsScripts(dir: string, c: Child)
    ensures forall f :: f in WalkChild(dir, c) <==> ScriptInChild(dir, c, f)
    decreases c
  {
    if c.node.Directory? {
      WalkFindsScripts(JoinPath(dir, c.name), c.node.children);
    }
  }

  /** `walk` visits the listing in order: the files of a longer listing are those
      of its first part followed by those of the rest. */
  lemma {:induction false} WalkAppend(dir: string, a: seq<Child>, b: seq<Child>)
    ensures Walk(dir, a + b) == Walk(dir, a) + Walk(dir, b)
  {
    if a == [] {
      assert a + b == b;
    } else {
      assert (a + b)[0] == a[0];
      assert (a + b)[1..] == a[1..] + b;
      WalkAppend(dir, a[1..], b);
    }
  }

  /** A file write: the path and the new content. */
  datatype Write = Write(path: string, content: string)

  /** Whether the run rewrites a collected file: it reads, mentions `fs.F_OK`,
      and the write goes through. */
  predicate Rewrites(f: Found) {
    f.content.Some? && Includes(f.content.value, Needle) && f.writable
  }

  /** The writes of a run over the collected files, in order. */
  function Writes(files: seq<Found>): seq<Write> {
    if files == [] then []
    else
      var f := files[|files| - 1];
      Writes(files[..|files| - 1]) + (if Rewrites(f) then [Write(f.path, Patch(f.content.value))] else [])
  }

  /** Every write is the patched content of a collected file that mentions
      `fs.F_OK`, and no written content mentions it. */
  lemma {:induction false} WritesSpec(files: seq<Found>)
    ensures |Writes(files)| <= |files|
    ensures forall w :: w in Writes(files) ==>
      && !Includes(w.content, Needle)
      && exists f :: f in files && Rewrites(f) && w == Write(f.path, Patch(f.content.value))
    decreases |files|
  {
    if files != [] {
      var init, f := files[..|files| - 1], files[|files| - 1];
      WritesSpec(init);
      if Rewrites(f) {
        PatchRemovesNeedle(f.content.value);
      }
      assert forall g :: g in init ==> g in files;
    }
  }

  /** Conversely, every collected file that reads, mentions `fs.F_OK` and is
      writable gets its patched content written. */
  lemma {:induction false} WritesEveryRewrite(files: seq<Found>)
    ensures forall f :: f in files && Rewrites(f) ==> Write(f.path, Patch(f.content.value)) in Writes(files)
    decreases |files|
  {
    if files != [] {
      var init, last := files[..|files| - 1], files[|files| - 1];
      WritesEveryRewrite(init);
      forall f | f in files && Rewrites(f)
        ensures Write(f.path, Patch(f.content.value)) in Writes(files)
      {
        assert files == init + [last];
        if f != last {
          assert f in init;
        }
      }
    }
  }

  /** The positions of the collected files that a run rewrites. */
  ghost function RewrittenAt(files: seq<Found>): set<int> {
    set i | 0 <= i < |files| && Rewrites(files[i])
  }

  lemma RewrittenAtSnoc(files: seq<Found>)
    requires files != []
    ensures var n := |files| - 1;
      RewrittenAt(files) == RewrittenAt(files[..n]) + (if Rewrites(files[n]) then {n} else {})
  {
    var n := |files| - 1;
    forall i
      ensures i in RewrittenAt(files) <==> i in RewrittenAt(files[..n]) || (i == n && Rewrites(files[n]))
    {
      if 0 <= i < n {
        assert files[..n][i] == files[i];
      }
    }
  }

  /** One write per rewritten file, so the logged count is the number of
      collected files that read, mention `fs.F_OK` and are writable. */
  lemma {:induction false} WritesCount(files: seq<Found>)
    ensures |Writes(files)| == |RewrittenAt(files)|
    decreases |files|
  {
    if files != [] {
      var n := |files| - 1;
      WritesCount(files[..n]);
      RewrittenAtSnoc(files);
      assert n !in RewrittenAt(files[..n]);
    }
  }

  /** The outcome of `patchFiles(root)`: nothing when the root does not exist;
      an uncaught exception when the root cannot be listed; otherwise the
      writes and the count it logs. */
  datatype RunResult = NoRoot | RootFailed | Ran(writes: seq<Write>, patched: nat)

  /** `patchFiles(root)`: collects the files, then rewrites each one that
      mentions `fs.F_OK`, counting the successful writes; read and write
      failures skip the file. */
  method PatchFiles(root: string, tree: Option<Node>) returns (result: RunResult)
    ensures tree.None? ==> result == NoRoot
    ensures tree.Some? && !tree.value.Directory? ==> result == RootFailed
    ensures tree.Some? && tree.value.Directory? ==>
      var w := Writes(Walk(root, tree.value.children));
      result == Ran(w, |w|) && result.patched == |RewrittenAt(Walk(root, tree.value.children))|
  {
    if tree.None? {
      return NoRoot;
    }
    if !tree.value.Directory? {
      return RootFailed;
    }
    var files := Walk(root, tree.value.children);
    var patched := 0;
    var writes: seq<Write> := [];
    for i := 0 to |files|
      invariant writes == Writes(files[..i])
      invariant patched == |writes|
    {
      assert files[..i + 1][..i] == files[..i];
      var file := files[i];
      if file.content.Some? {
        var content := file.content.value;
        if Includes(content, Needle) {
          var updated := Join(Split(content, Needle), Replacement);
          if file.writable {
            writes := writes + [Write(file.path, updated)];
            patched := patched + 1;
          }
        }
      }
    }
    assert files[..|files|] == files;
    WritesCount(files);
    result := Ran(writes, patched);
  }

  /** The tree after a run: every file the run rewrites holds its patched content. */
  function PatchListing(dir: string, listing: seq<Child>): (r: seq<Child>)
    ensures |r| == |listing|
    decreases listing
  {
    if listing == [] then [] else [PatchChild(dir, listing[0])] + PatchListing(dir, listing[1..])
  }

  function PatchChild(dir: string, c: Child): Child
    decreases c
  {
    var path := JoinPath(dir, c.name);
    match c.node
    case Directory(children) => Child(c.name, Directory(PatchListing(path, children)))
    case File(content, writable) =>
      if EndsWith(path, ".js") && Rewrites(Found(path, content, writable))
      then Child(c.name, File(Some(Patch(content.value)), writable))
      else c
    case _ => c
  }

  /** What the walk collects after a run: the same files, the rewritten ones patched. */
  function AfterRun(f: Found): Found {
    if Rewrites(f) then f.(content := Some(Patch(f.content.value))) else f
  }

  function AfterRunAll(files: seq<Found>): (r: seq<Found>)
    ensures |r| == |files|
    ensures forall i :: 0 <= i < |files| ==> r[i] == AfterRun(files[i])
  {
    seq(|files|, i requires 0 <= i < |files| => AfterRun(files[i]))
  }

  lemma {:induction false} WalkAfterRun(dir: string, listing: seq<Child>)
    ensures Walk(dir, PatchListing(dir, listing)) == AfterRunAll(Walk(dir, listing))
    decreases listing
  {
    if listing != [] {
      WalkChildAfterRun(dir, listing[0]);
      WalkAfterRun(dir, listing[1..]);
      var b := Walk(dir, listing[1..]);
      assert AfterRunAll(WalkChild(dir, listing[0]) + b) == AfterRunAll(WalkChild(dir, listing[0])) + AfterRunAll(b);
    }
  }

  lemma {:induction false} WalkChildAfterRun(dir: string, c: Child)
    ensures WalkChild(dir, PatchChild(dir, c)) == AfterRunAll(WalkChild(dir, c))
    decreases c
  {
    if c.node.Directory? {
      WalkAfterRun(JoinPath(dir, c.name), c.node.children);
    }
  }

  lemma {:induction false} NothingLeftToRewrite(files: seq<Found>)
    ensures Writes(AfterRunAll(files)) == []
    decreases |files|
  {
    if files != [] {
      var n := |files| - 1;
      assert AfterRunAll(files)[..n] == AfterRunAll(files[..n]);
      NothingLeftToRewrite(files[..n]);
      if Rewrites(files[n]) {
        PatchRemovesNeedle(files[n].content.value);
      }
    }
  }

  /** A second run over the tree the first one left writes nothing. */
  lemma SecondRunWritesNothing(root: string, listing: seq<Child>)
    ensures Writes(Walk(root, PatchListing(root, listing))) == []
  {
    WalkAfterRun(root, listing);
    NothingLeftToRewrite(Walk(root, listing));
  }
}
