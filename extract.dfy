/** The source splitter: a script run at a project root that walks the tree
    top-down, prunes excluded directory names in place, and appends one record
    per file to a backend or a frontend output according to the file's path
    relative to the root. The directory tree is a value; the two output files
    are the fields of an `Outputs` object, with a log of every `open` call. */
module Extract {
  import opened Wrappers
  import Strings
  import Seqs

  /** A directory entry. A file's `content` is the text `read()` returns in
      text mode, so its line endings are already `\n`; a file whose bytes are
      not valid UTF-8 has no text. Paths are joined with `/`, as on POSIX. */
  datatype Node = File(name: string, content: Option<string>) | Dir(name: string, children: seq<Node>)

  /** A visited file: its path segments below the root and its text. */
  datatype Entry = Entry(segs: seq<string>, content: Option<string>)

  /** One pending directory of the walk: its path below the root and its listing. */
  datatype Frame = Frame(segs: seq<string>, children: seq<Node>)

  datatype Target = Backend | Frontend

  /** How an output file was opened: mode "w" (truncate or create) or mode "a". */
  datatype Open = Truncate(target: Target) | Append(target: Target)

  const ExcludeDirs: set<string> := {".git", "node_modules", "__pycache__"}
  const BackendPrefix: string := "packages/backend"
  const FrontendPrefix: string := "packages/frontend"
  const Marker: string := "&^&^&^&^&^&^"
  const BinaryPlaceholder: string := "[BINARY FILE - CONTENT SKIPPED]\n"

  function NoPackageJsonMessage(base: string): string
  {
    "No package.json found in " + base + ". Please place this script in your project root."
  }

  /** `os.path.isfile(os.path.join(BASE_DIR, "package.json"))`. */
  predicate HasPackageJson(root: seq<Node>)
  {
    exists k :: 0 <= k < |root| && root[k].File? && root[k].name == "package.json"
  }

  // ---------------------------------------------------------------- sizes

  function Size(n: Node): (s: nat)
    ensures s >= 1
  {
    match n
    case File(_, _) => 1
    case Dir(_, children) => 1 + SizeAll(children)
  }

  function SizeAll(ns: seq<Node>): nat
  {
    if ns == [] then 0 else Size(ns[0]) + SizeAll(ns[1..])
  }

  function StackSize(stack: seq<Frame>): nat
  {
    if stack == [] then 0 else 1 + SizeAll(stack[0].children) + StackSize(stack[1..])
  }

  // ---------------------------------------------------------------- routing and records

  /** `os.path.relpath` of a file below the root, with `/` as separator. */
  function RelPath(segs: seq<string>): string
  {
    Strings.Join(segs, "/")
  }

  /** Which output a relative path goes to; `None` is the `continue`. */
  function Route(rel: string): Option<Target>
  {
    if BackendPrefix <= rel then Some(Backend)
    else if FrontendPrefix <= rel then Some(Frontend)
    else None
  }

  function Header(rel: string): string
  {
    "\n\n" + Marker + " " + rel + " " + Marker + "\n"
  }

  /** What one routed file adds to its output: the header, then the text or the placeholder. */
  function Record(e: Entry): string
  {
    Header(RelPath(e.segs)) + (match e.content case Some(text) => text case None => BinaryPlaceholder)
  }

  /** The concatenation, in order, of the records of the entries routed to `t`. */
  function Expected(entries: seq<Entry>, t: Target): string
  {
    if entries == [] then ""
    else (if Route(RelPath(entries[0].segs)) == Some(t) then Record(entries[0]) else "") + Expected(entries[1..], t)
  }

  /** The append-mode opens that the routed entries cause, in order. */
  function Appends(entries: seq<Entry>): seq<Open>
  {
    if entries == [] then []
    else
      (match Route(RelPath(entries[0].segs)) case Some(t) => [Append(t)] case None => []) + Appends(entries[1..])
  }

  /** The two output files and the log of their opens, as values. */
  datatype Snapshot = Snapshot(backend: string, frontend: string, opens: seq<Open>)

  /** The effect of one visited file on the outputs: one append-mode open and
      one record when it is routed, nothing when it is skipped. */
  function Write(s: Snapshot, e: Entry): Snapshot
  {
    match Route(RelPath(e.segs))
    case None => s
    case Some(Backend) => s.(backend := s.backend + Record(e), opens := s.opens + [Append(Backend)])
    case Some(Frontend) => s.(frontend := s.frontend + Record(e), opens := s.opens + [Append(Frontend)])
  }

  /** The effect of visiting `es` in order. */
  function WriteAll(s: Snapshot, es: seq<Entry>): Snapshot
    decreases |es|
  {
    if es == [] then s else WriteAll(Write(s, es[0]), es[1..])
  }

  // ---------------------------------------------------------------- the walk

  /** The files of a listing, in listing order (`filenames`). */
  function Files(children: seq<Node>): (fs: seq<Node>)
    ensures forall k :: 0 <= k < |fs| ==> fs[k].File?
  {
    if children == [] then []
    else (if children[0].File? then [children[0]] else []) + Files(children[1..])
  }

  /** The subdirectories of a listing, in listing order (`dirnames`). */
  function SubDirs(children: seq<Node>): (ds: seq<Node>)
    ensures forall k :: 0 <= k < |ds| ==> ds[k].Dir?
  {
    if children == [] then []
    else (if children[0].Dir? then [children[0]] else []) + SubDirs(children[1..])
  }

  /** `[d for d in dirnames if d not in EXCLUDE_DIRS]`. */
  function Prune(dirs: seq<Node>): (kept: seq<Node>)
    ensures forall k :: 0 <= k < |kept| ==> kept[k].name !in ExcludeDirs
    ensures forall d :: d in kept ==> d in dirs
    ensures (forall k :: 0 <= k < |dirs| ==> dirs[k].Dir?) ==> forall k :: 0 <= k < |kept| ==> kept[k].Dir?
  {
    if dirs == [] then []
    else (if dirs[0].name in ExcludeDirs then [] else [dirs[0]]) + Prune(dirs[1..])
  }

  function FileEntries(segs: seq<string>, files: seq<Node>): (es: seq<Entry>)
    requires forall k :: 0 <= k < |files| ==> files[k].File?
    ensures |es| == |files|
  {
    if files == [] then []
    else [Entry(segs + [files[0].name], files[0].content)] + FileEntries(segs, files[1..])
  }

  function FramesOf(segs: seq<string>, dirs: seq<Node>): (fr: seq<Frame>)
    requires forall k :: 0 <= k < |dirs| ==> dirs[k].Dir?
  {
    if dirs == [] then []
    else [Frame(segs + [dirs[0].name], dirs[0].children)] + FramesOf(segs, dirs[1..])
  }

  /** The files the top-down walk of `children` (located at `segs`) visits, in
      visit order: the directory's own files, then each non-excluded
      subdirectory's walk in listing order. */
  function Visit(segs: seq<string>, children: seq<Node>): seq<Entry>
    decreases SizeAll(children), 1
  {
    FileEntries(segs, Files(children)) + VisitDirs(segs, children)
  }

  function VisitDirs(segs: seq<string>, items: seq<Node>): seq<Entry>
    decreases SizeAll(items), 0
  {
    if items == [] then []
    else
      assert SizeAll(items) == Size(items[0]) + SizeAll(items[1..]);
      (match items[0]
       case File(_, _) => []
       case Dir(n, ch) => if n in ExcludeDirs then [] else Visit(segs + [n], ch))
      + VisitDirs(segs, items[1..])
  }

  /** The walk of the frames still on the stack, first frame first. */
  function Pending(stack: seq<Frame>): seq<Entry>
    decreases StackSize(stack)
  {
    if stack == [] then [] else Visit(stack[0].segs, stack[0].children) + Pending(stack[1..])
  }

  // ---------------------------------------------------------------- reference definition: every file, no pruning

  function AllFiles(segs: seq<string>, children: seq<Node>): seq<Entry>
    decreases SizeAll(children), 1
  {
    FileEntries(segs, Files(children)) + AllDirs(segs, children)
  }

  function AllDirs(segs: seq<string>, items: seq<Node>): seq<Entry>
    decreases SizeAll(items), 0
  {
    if items == [] then []
    else
      assert SizeAll(items) == Size(items[0]) + SizeAll(items[1..]);
      (match items[0]
       case File(_, _) => []
       case Dir(n, ch) => AllFiles(segs + [n], ch))
      + AllDirs(segs, items[1..])
  }

  /** No directory segment of `e` at depth `base` or deeper is an excluded name. */
  predicate KeptBelow(e: Entry, base: nat)
  {
    forall k :: base <= k < |e.segs| - 1 ==> e.segs[k] !in ExcludeDirs
  }

  function KeepBelow(es: seq<Entry>, base: nat): seq<Entry>
  {
    if es == [] then [] else (if KeptBelow(es[0], base) then [es[0]] else []) + KeepBelow(es[1..], base)
  }

  // ---------------------------------------------------------------- lemmas

  lemma {:induction false} WriteAllConcat(s: Snapshot, a: seq<Entry>, b: seq<Entry>)
    ensures WriteAll(s, a + b) == WriteAll(WriteAll(s, a), b)
    decreases |a|
  {
    if a != [] {
      assert (a + b)[1..] == a[1..] + b;
      WriteAllConcat(Write(s, a[0]), a[1..], b);
    } else {
      assert a + b == b;
    }
  }

  /** Writing one entry in front of `tail` appends its record to its own output only. */
  lemma WriteOne(s: Snapshot, e: Entry, tail: seq<Entry>)
    ensures Write(s, e).backend + Expected(tail, Backend) == s.backend + Expected([e] + tail, Backend)
    ensures Write(s, e).frontend + Expected(tail, Frontend) == s.frontend + Expected([e] + tail, Frontend)
    ensures Write(s, e).opens + Appends(tail) == s.opens + Appends([e] + tail)
  {
    assert ([e] + tail)[0] == e && ([e] + tail)[1..] == tail;
    match Route(RelPath(e.segs))
    case None =>
    case Some(Backend) =>
      Seqs.AppendAssoc(s.backend, Record(e), Expected(tail, Backend));
      Seqs.AppendAssoc(s.opens, [Append(Backend)], Appends(tail));
    case Some(Frontend) =>
      Seqs.AppendAssoc(s.frontend, Record(e), Expected(tail, Frontend));
      Seqs.AppendAssoc(s.opens, [Append(Frontend)], Appends(tail));
  }

  /** Writing the entries in order appends to each output exactly the records
      routed to it, and logs one append-mode open per routed entry. */
  lemma {:induction false} WriteAllIsExpected(s: Snapshot, es: seq<Entry>)
    ensures WriteAll(s, es).backend == s.backend + Expected(es, Backend)
    ensures WriteAll(s, es).frontend == s.frontend + Expected(es, Frontend)
    ensures WriteAll(s, es).opens == s.opens + Appends(es)
    decreases |es|
  {
    if es != [] {
      WriteAllIsExpected(Write(s, es[0]), es[1..]);
      WriteOne(s, es[0], es[1..]);
      assert es == [es[0]] + es[1..];
    }
  }

  lemma {:induction false} PendingConcat(a: seq<Frame>, b: seq<Frame>)
    ensures Pending(a + b) == Pending(a) + Pending(b)
    ensures StackSize(a + b) == StackSize(a) + StackSize(b)
  {
    if a != [] {
      assert (a + b)[1..] == a[1..] + b;
      PendingConcat(a[1..], b);
    } else {
      assert a + b == b;
    }
  }

  /** Popping a frame and pushing the frames of its pruned subdirectories
      leaves the rest of the walk as it was. */
  lemma {:induction false} VisitDirsIsPrunedFrames(segs: seq<string>, items: seq<Node>)
    ensures VisitDirs(segs, items) == Pending(FramesOf(segs, Prune(SubDirs(items))))
    ensures StackSize(FramesOf(segs, Prune(SubDirs(items)))) <= SizeAll(items)
  {
    if items != [] {
      VisitDirsIsPrunedFrames(segs, items[1..]);
      var rest := FramesOf(segs, Prune(SubDirs(items[1..])));
      var d := items[0];
      if d.Dir? {
        assert SubDirs(items) == [d] + SubDirs(items[1..]);
        assert ([d] + SubDirs(items[1..]))[1..] == SubDirs(items[1..]);
        if d.name !in ExcludeDirs {
          assert Prune(SubDirs(items)) == [d] + Prune(SubDirs(items[1..]));
          var f := Frame(segs + [d.name], d.children);
          assert ([d] + Prune(SubDirs(items[1..])))[1..] == Prune(SubDirs(items[1..]));
          assert FramesOf(segs, Prune(SubDirs(items))) == [f] + rest;
          assert ([f] + rest)[1..] == rest;
        } else {
          assert Prune(SubDirs(items)) == Prune(SubDirs(items[1..]));
        }
      } else {
        assert SubDirs(items) == SubDirs(items[1..]);
      }
    }
  }

  /** One step of the walk: the first pending directory's own files come
      first, then its pruned subdirectories, then the rest of the stack. */
  lemma PopFrame(frame: Frame, stack: seq<Frame>)
    ensures Pending([frame] + stack) ==
              FileEntries(frame.segs, Files(frame.children))
              + Pending(FramesOf(frame.segs, Prune(SubDirs(frame.children))) + stack)
  {
    var whole := [frame] + stack;
    var fe := FileEntries(frame.segs, Files(frame.children));
    var pushed := FramesOf(frame.segs, Prune(SubDirs(frame.children)));
    assert whole[0] == frame && whole[1..] == stack;
    assert Pending(whole) == Visit(frame.segs, frame.children) + Pending(stack);
    assert Visit(frame.segs, frame.children) == fe + VisitDirs(frame.segs, frame.children);
    VisitDirsIsPrunedFrames(frame.segs, frame.children);
    PendingConcat(pushed, stack);
    Seqs.AppendAssoc(fe, Pending(pushed), Pending(stack));
  }

  /** The same step shrinks the work left, so the walk ends. */
  lemma PopFrameShrinks(frame: Frame, stack: seq<Frame>)
    ensures StackSize(FramesOf(frame.segs, Prune(SubDirs(frame.children))) + stack) < StackSize([frame] + stack)
  {
    var whole := [frame] + stack;
    assert whole[0] == frame && whole[1..] == stack;
    VisitDirsIsPrunedFrames(frame.segs, frame.children);
    PendingConcat(FramesOf(frame.segs, Prune(SubDirs(frame.children))), stack);
  }

  /** Every entry of `FileEntries(segs, fs)` sits directly in `segs`. */
  lemma {:induction false} FileEntriesUnder(segs: seq<string>, files: seq<Node>, e: Entry)
    requires forall k :: 0 <= k < |files| ==> files[k].File?
    requires e in FileEntries(segs, files)
    ensures |e.segs| == |segs| + 1 && e.segs[..|segs|] == segs
  {
    if e != FileEntries(segs, files)[0] {
      FileEntriesUnder(segs, files[1..], e);
    }
  }

  /** Every entry of the unpruned walk below `segs` lies strictly below `segs`. */
  lemma {:induction false} AllFilesUnder(segs: seq<string>, children: seq<Node>, e: Entry)
    requires e in AllFiles(segs, children)
    ensures |e.segs| > |segs| && e.segs[..|segs|] == segs
    decreases SizeAll(children), 1
  {
    if e in FileEntries(segs, Files(children)) {
      FileEntriesUnder(segs, Files(children), e);
    } else {
      AllDirsUnder(segs, children, e);
    }
  }

  lemma {:induction false} AllDirsUnder(segs: seq<string>, items: seq<Node>, e: Entry)
    requires e in AllDirs(segs, items)
    ensures |e.segs| > |segs| + 1 && e.segs[..|segs|] == segs
    decreases SizeAll(items), 0
  {
    assert SizeAll(items) == Size(items[0]) + SizeAll(items[1..]);
    var head := match items[0] case File(_, _) => [] case Dir(n, ch) => AllFiles(segs + [n], ch);
    assert AllDirs(segs, items) == head + AllDirs(segs, items[1..]);
    if e in head {
      var n, ch := items[0].name, items[0].children;
      AllFilesUnder(segs + [n], ch, e);
      assert e.segs[..|segs|] == e.segs[..|segs| + 1][..|segs|];
    } else {
      AllDirsUnder(segs, items[1..], e);
    }
  }

  lemma {:induction false} KeepBelowConcat(a: seq<Entry>, b: seq<Entry>, base: nat)
    ensures KeepBelow(a + b, base) == KeepBelow(a, base) + KeepBelow(b, base)
  {
    if a != [] {
      assert (a + b)[1..] == a[1..] + b;
      KeepBelowConcat(a[1..], b, base);
    } else {
      assert a + b == b;
    }
  }

  /** Entries that all keep the same verdict at two depths filter alike. */
  lemma {:induction false} KeepBelowStep(es: seq<Entry>, base: nat)
    requires forall e :: e in es ==> |e.segs| > base + 1 && e.segs[base] !in ExcludeDirs
    ensures KeepBelow(es, base) == KeepBelow(es, base + 1)
  {
    if es != [] {
      var e := es[0];
      if KeptBelow(e, base + 1) {
        forall k | base <= k < |e.segs| - 1 ensures e.segs[k] !in ExcludeDirs {
          if k > base { assert base + 1 <= k; }
        }
      }
      KeepBelowStep(es[1..], base);
    }
  }

  /** Entries that all pass through an excluded directory at depth `base` are all dropped. */
  lemma {:induction false} KeepBelowNone(es: seq<Entry>, base: nat)
    requires forall e :: e in es ==> |e.segs| > base + 1 && e.segs[base] in ExcludeDirs
    ensures KeepBelow(es, base) == []
  {
    if es != [] {
      var e := es[0];
      assert !KeptBelow(e, base) by { assert base <= base < |e.segs| - 1; }
      KeepBelowNone(es[1..], base);
    }
  }

  lemma {:induction false} KeepBelowFiles(segs: seq<string>, files: seq<Node>)
    requires forall k :: 0 <= k < |files| ==> files[k].File?
    ensures KeepBelow(FileEntries(segs, files), |segs|) == FileEntries(segs, files)
  {
    if files != [] {
      var e := Entry(segs + [files[0].name], files[0].content);
      assert FileEntries(segs, files) == [e] + FileEntries(segs, files[1..]);
      assert KeptBelow(e, |segs|);
      KeepBelowFiles(segs, files[1..]);
    }
  }

  /** The pruned walk is exactly the unpruned walk with every file that lies
      under an excluded directory (below the starting point) removed, in the
      same order. */
  lemma {:induction false} VisitIsKeptWalk(segs: seq<string>, children: seq<Node>)
    ensures Visit(segs, children) == KeepBelow(AllFiles(segs, children), |segs|)
    decreases SizeAll(children), 1
  {
    var fe := FileEntries(segs, Files(children));
    KeepBelowConcat(fe, AllDirs(segs, children), |segs|);
    KeepBelowFiles(segs, Files(children));
    VisitDirsIsKeptDirs(segs, children);
  }

  lemma {:induction false} VisitDirsIsKeptDirs(segs: seq<string>, items: seq<Node>)
    ensures VisitDirs(segs, items) == KeepBelow(AllDirs(segs, items), |segs|)
    decreases SizeAll(items), 0
  {
    if items != [] {
      assert SizeAll(items) == Size(items[0]) + SizeAll(items[1..]);
      VisitDirsIsKeptDirs(segs, items[1..]);
      match items[0]
      case File(_, _) =>
        assert AllDirs(segs, items) == [] + AllDirs(segs, items[1..]);
        KeepBelowConcat([], AllDirs(segs, items[1..]), |segs|);
      case Dir(n, ch) =>
        assert AllDirs(segs, items) == AllFiles(segs + [n], ch) + AllDirs(segs, items[1..]);
        KeepBelowConcat(AllFiles(segs + [n], ch), AllDirs(segs, items[1..]), |segs|);
        DirIsKept(segs, n, ch);
    }
  }

  /** One subdirectory `n` of `segs`: walked when its name is kept, skipped
      when excluded, and either way what the filter keeps of its unpruned walk. */
  lemma {:induction false} DirIsKept(segs: seq<string>, n: string, ch: seq<Node>)
    ensures (if n in ExcludeDirs then [] else Visit(segs + [n], ch)) == KeepBelow(AllFiles(segs + [n], ch), |segs|)
    decreases SizeAll(ch), 2
  {
    var sub := AllFiles(segs + [n], ch);
    forall e | e in sub ensures |e.segs| > |segs| + 1 && e.segs[|segs|] == n {
      AllFilesUnder(segs + [n], ch, e);
      assert e.segs[|segs|] == e.segs[..|segs| + 1][|segs|];
    }
    if n in ExcludeDirs {
      KeepBelowNone(sub, |segs|);
    } else {
      KeepBelowStep(sub, |segs|);
      VisitIsKeptWalk(segs + [n], ch);
    }
  }

  /** No visited file lies under `.git`, `node_modules` or `__pycache__` at any depth. */
  lemma ExcludedNeverVisited(root: seq<Node>, e: Entry, k: nat)
    requires e in Visit([], root)
    requires k < |e.segs| - 1
    ensures e.segs[k] !in ExcludeDirs
  {
    VisitIsKeptWalk([], root);
    KeptOnly(AllFiles([], root), 0, e);
  }

  lemma {:induction false} KeptOnly(es: seq<Entry>, base: nat, e: Entry)
    requires e in KeepBelow(es, base)
    ensures e in es && KeptBelow(e, base)
  {
    if es != [] {
      assert KeepBelow(es, base) == (if KeptBelow(es[0], base) then [es[0]] else []) + KeepBelow(es[1..], base);
      if e !in (if KeptBelow(es[0], base) then [es[0]] else []) {
        KeptOnly(es[1..], base, e);
      }
    }
  }

  /** Every file outside the excluded directories is visited. */
  lemma VisitComplete(root: seq<Node>, e: Entry)
    requires e in AllFiles([], root)
    requires forall k :: 0 <= k < |e.segs| - 1 ==> e.segs[k] !in ExcludeDirs
    ensures e in Visit([], root)
  {
    VisitIsKeptWalk([], root);
    KeepsKept(AllFiles([], root), 0, e);
  }

  lemma {:induction false} KeepsKept(es: seq<Entry>, base: nat, e: Entry)
    requires e in es && KeptBelow(e, base)
    ensures e in KeepBelow(es, base)
  {
    assert KeepBelow(es, base) == (if KeptBelow(es[0], base) then [es[0]] else []) + KeepBelow(es[1..], base);
    if e != es[0] {
      KeepsKept(es[1..], base, e);
    }
  }

  /** Each path goes to at most one output, the backend test taking precedence. */
  lemma RouteExclusive(rel: string)
    ensures Route(rel) == Some(Backend) <==> BackendPrefix <= rel
    ensures Route(rel) == Some(Frontend) <==> FrontendPrefix <= rel && !(BackendPrefix <= rel)
    ensures Route(rel) == None <==> !(BackendPrefix <= rel) && !(FrontendPrefix <= rel)
  {
  }

  /** The test is a raw string prefix: a sibling directory whose name merely
      starts with `backend` is routed to the backend output. */
  lemma RawPrefixRoutesLegacy()
    ensures Route(RelPath(["packages", "backend-legacy", "x"])) == Some(Backend)
  {
    var rel := RelPath(["packages", "backend-legacy", "x"]);
    assert rel == "packages/backend-legacy/x";
  }

  /** A file that cannot be decoded still gets its header, followed by exactly the placeholder. */
  lemma BinaryRecordIsHeaderAndPlaceholder(segs: seq<string>)
    ensures Record(Entry(segs, None)) == Header(RelPath(segs)) + "[BINARY FILE - CONTENT SKIPPED]\n"
  {
  }

  /** An output receives nothing from entries none of which is routed to it. */
  lemma {:induction false} SkippedContributeNothing(entries: seq<Entry>, t: Target)
    requires forall k :: 0 <= k < |entries| ==> Route(RelPath(entries[k].segs)) != Some(t)
    ensures Expected(entries, t) == ""
  {
    if entries != [] {
      SkippedContributeNothing(entries[1..], t);
    }
  }

  /** A routed file's record occurs, whole, in its output. */
  lemma {:induction false} RoutedRecordInOutput(entries: seq<Entry>, k: nat, t: Target)
    requires k < |entries| && Route(RelPath(entries[k].segs)) == Some(t)
    ensures Record(entries[k]) <= Expected(entries[k..], t)
  {
    assert entries[k..][0] == entries[k];
    assert entries[k..][1..] == entries[k + 1..];
  }

  // ---------------------------------------------------------------- the output files

  class Outputs {
    var backend: string
    var frontend: string
    /** Every `open` of an output file, oldest first. */
    var opens: seq<Open>

    function Snap(): Snapshot
      reads this
    {
      Snapshot(backend, frontend, opens)
    }

    constructor (backend: string, frontend: string)
      ensures this.backend == backend && this.frontend == frontend && opens == []
    {
      this.backend := backend;
      this.frontend := frontend;
      opens := [];
    }

    /** `open(path, "w")`: empties the file. */
    method Truncate(t: Target)
      modifies this
      ensures t == Backend ==> backend == "" && frontend == old(frontend)
      ensures t == Frontend ==> frontend == "" && backend == old(backend)
      ensures opens == old(opens) + [Open.Truncate(t)]
    {
      if t == Backend { backend := ""; } else { frontend := ""; }
      opens := opens + [Open.Truncate(t)];
    }

    /** `open(path, "a")` followed by writes of `text`. */
    method AppendText(t: Target, text: string)
      modifies this
      ensures t == Backend ==> backend == old(backend) + text && frontend == old(frontend)
      ensures t == Frontend ==> frontend == old(frontend) + text && backend == old(backend)
      ensures opens == old(opens) + [Open.Append(t)]
    {
      if t == Backend { backend := backend + text; } else { frontend := frontend + text; }
      opens := opens + [Open.Append(t)];
    }
  }

  /** One iteration of `for fname in filenames`. */
  method WriteFile(out: Outputs, segs: seq<string>, f: Node)
    requires f.File?
    modifies out
    ensures out.Snap() == Write(old(out.Snap()), Entry(segs + [f.name], f.content))
  {
    ghost var e := Entry(segs + [f.name], f.content);
    var rel := RelPath(segs + [f.name]);
    var target := Route(rel);
    if target.Some? {
      var body: string;
      match f.content {
        case Some(text) => body := text;
        case None => body := BinaryPlaceholder;
      }
      assert Header(rel) + body == Record(e);
      out.AppendText(target.value, Header(rel) + body);
    }
  }

  /** `for fname in filenames`. */
  method WriteFiles(out: Outputs, segs: seq<string>, filenames: seq<Node>)
    requires forall k :: 0 <= k < |filenames| ==> filenames[k].File?
    modifies out
    ensures out.Snap() == WriteAll(old(out.Snap()), FileEntries(segs, filenames))
  {
    assert filenames[0..] == filenames;
    var i := 0;
    while i < |filenames|
      invariant i <= |filenames|
      invariant WriteAll(out.Snap(), FileEntries(segs, filenames[i..])) == WriteAll(old(out.Snap()), FileEntries(segs, filenames))
    {
      var f := filenames[i];
      assert filenames[i..][1..] == filenames[i + 1..];
      WriteFile(out, segs, f);
      i := i + 1;
    }
    assert filenames[i..] == [];
  }

  /** The `os.walk` loop: a stack of directories still to visit, each one's
      files written in order before its pruned subdirectories are pushed. */
  method Walk(out: Outputs, root: seq<Node>)
    modifies out
    ensures out.Snap() == WriteAll(old(out.Snap()), Visit([], root))
  {
    ghost var all := Visit([], root);
    ghost var start := out.Snap();
    var stack := [Frame([], root)];
    assert Pending(stack) == all + Pending([]);
    assert Pending(stack) == all;
    while stack != []
      invariant WriteAll(out.Snap(), Pending(stack)) == WriteAll(start, all)
      decreases StackSize(stack)
    {
      var frame := stack[0];
      PopFrame(frame, stack[1..]);
      PopFrameShrinks(frame, stack[1..]);
      assert stack == [frame] + stack[1..];
      stack := stack[1..];
      var dirnames := SubDirs(frame.children);
      var filenames := Files(frame.children);
      dirnames := Prune(dirnames);
      WriteAllConcat(out.Snap(), FileEntries(frame.segs, filenames), Pending(FramesOf(frame.segs, dirnames) + stack));
      WriteFiles(out, frame.segs, filenames);
      stack := FramesOf(frame.segs, dirnames) + stack;
    }
    assert Pending(stack) == [];
  }

  /** The whole script. Without `package.json` at the root it fails before
      touching either output; otherwise both outputs are truncated once and
      then each receives, by appends only, the records of its files in walk order. */
  method Run(base: string, root: seq<Node>, out: Outputs) returns (r: Result<(), string>)
    modifies out
    ensures !HasPackageJson(root) ==>
              r == Err(NoPackageJsonMessage(base)) && out.Snap() == old(out.Snap())
    ensures HasPackageJson(root) ==>
              r == Ok(()) && out.backend == Expected(Visit([], root), Backend)
              && out.frontend == Expected(Visit([], root), Frontend)
              && out.opens == old(out.opens) + [Open.Truncate(Backend), Open.Truncate(Frontend)] + Appends(Visit([], root))
  {
    if !HasPackageJson(root) {
      return Err(NoPackageJsonMessage(base));
    }
    out.Truncate(Backend);
    out.Truncate(Frontend);
    ghost var start := out.Snap();
    Walk(out, root);
    WriteAllIsExpected(start, Visit([], root));
    r := Ok(());
  }
}
