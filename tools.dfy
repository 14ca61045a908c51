/**
 * The four tools the remote model may call (`read_file`, `write_file`,
 * `list_files`, `run_shell`), the truncation of their results, and the
 * dispatch of a decoded call to one of them. The filesystem and the
 * subprocess are not modelled: what they answer is an input.
 */
module Tools {
  import opened Wrappers
  import opened Text
  import opened BuildVerification

  // ---------------------------------------------------------------------------
  // Truncation of tool results
  // ---------------------------------------------------------------------------

  /** Results longer than this are cut down. */
  const ResultLimit: nat := 10000
  /** How many characters are kept from each end of a long result. */
  const KeptEachEnd: nat := 5000
  const TruncationMarker := "\n\n... [truncated] ...\n\n"

  /** A tool result as it enters the transcript. */
  function Truncate(s: string): string {
    if |s| > ResultLimit then s[..KeptEachEnd] + TruncationMarker + s[|s| - KeptEachEnd..] else s
  }

  /**
   * A result of at most 10000 characters is kept; a longer one becomes
   * exactly 10023 characters: its first 5000, the marker, its last 5000.
   */
  lemma TruncateCharacterized(s: string)
    ensures var r := Truncate(s);
      (|s| <= ResultLimit ==> r == s) &&
      (|s| > ResultLimit ==>
        |r| == 2 * KeptEachEnd + |TruncationMarker| == 10023 &&
        r[..KeptEachEnd] == s[..KeptEachEnd] &&
        r[KeptEachEnd..KeptEachEnd + |TruncationMarker|] == TruncationMarker &&
        r[|r| - KeptEachEnd..] == s[|s| - KeptEachEnd..])
  {
    if |s| > ResultLimit {
      var r := Truncate(s);
      assert r[..KeptEachEnd] == s[..KeptEachEnd];
    }
  }

  // ---------------------------------------------------------------------------
  // list_files
  // ---------------------------------------------------------------------------

  /** Files listed before the listing is cut off. */
  const MaxFilesInContext: nat := 100
  const ListingMarker := "... (truncated, 100+ files)"
  const IgnoredDirs: set<string> :=
    {".git", ".gradle", ".idea", ".venv", "__pycache__", "build", ".kotlin", "node_modules"}
  const IgnoredExtensions: seq<string> := [".jar", ".class", ".pyc", ".so", ".dylib"]

  /** A directory as `os.walk` sees it: subdirectories and file names, in listing order. */
  datatype Dir = Dir(subdirs: seq<Subdir>, files: seq<string>)
  datatype Subdir = Subdir(name: string, dir: Dir)

  /** The walk descends into this subdirectory. */
  predicate KeptDir(name: string) {
    name !in IgnoredDirs && !StartsWith(name, ".")
  }

  /** The listing includes a file of this name. */
  predicate KeptFile(name: string) {
    !StartsWith(name, ".") && !(exists k | 0 <= k < |IgnoredExtensions| :: EndsWith(name, IgnoredExtensions[k]))
  }

  predicate AllKept(via: seq<string>) {
    forall k | 0 <= k < |via| :: KeptDir(via[k])
  }

  /** One step of the walk: the subdirectory names leading to a directory, and its files. */
  datatype Visit = Visit(via: seq<string>, files: seq<string>)

  /** `os.walk` top-down, with the `dirs[:]` pruning applied before each descent. */
  function Walk(d: Dir, via: seq<string>): seq<Visit>
    decreases d
  {
    [Visit(via, d.files)] + WalkSubdirs(d.subdirs, via)
  }

  function WalkSubdirs(subs: seq<Subdir>, via: seq<string>): seq<Visit>
    decreases subs
  {
    if subs == [] then []
    else
      (if KeptDir(subs[0].name) then Walk(subs[0].dir, via + [subs[0].name]) else [])
      + WalkSubdirs(subs[1..], via)
  }

  /** The walk of `path`; a path that is not a directory yields nothing. */
  function Visits(tree: Option<Dir>): seq<Visit> {
    if tree.None? then [] else Walk(tree.value, [])
  }

  /** A file that passes the filters, and the subdirectories leading to it. */
  datatype Entry = Entry(via: seq<string>, name: string)

  function KeptEntries(via: seq<string>, names: seq<string>): seq<Entry> {
    if names == [] then []
    else (if KeptFile(names[0]) then [Entry(via, names[0])] else []) + KeptEntries(via, names[1..])
  }

  /** The files that pass the filters, in walk order. */
  function Entries(visits: seq<Visit>): seq<Entry> {
    if visits == [] then [] else KeptEntries(visits[0].via, visits[0].files) + Entries(visits[1..])
  }

  /** The `root` that `os.walk` reports for a directory reached through `via`. */
  function DirPath(top: string, via: seq<string>): string {
    if via == [] then top else PathJoin(DirPath(top, via[..|via| - 1]), via[|via| - 1])
  }

  /** `os.path.join(root, filename)` for an entry. */
  function EntryPath(top: string, e: Entry): string {
    PathJoin(DirPath(top, e.via), e.name)
  }

  function Paths(top: string, es: seq<Entry>): (r: seq<string>)
    ensures |r| == |es|
  {
    if es == [] then [] else [EntryPath(top, es[0])] + Paths(top, es[1..])
  }

  /** The cap: the first 100 paths and a marker once 100 are reached. */
  function Capped(paths: seq<string>): seq<string> {
    if |paths| >= MaxFilesInContext then paths[..MaxFilesInContext] + [ListingMarker] else paths
  }

  /** At most 100 paths and the marker, which appears exactly when 100 paths are reached. */
  lemma CappedCharacterized(paths: seq<string>)
    ensures var r := Capped(paths);
      |r| <= MaxFilesInContext + 1 &&
      (|paths| < MaxFilesInContext ==> r == paths) &&
      (|paths| >= MaxFilesInContext ==>
        |r| == MaxFilesInContext + 1 && r[..MaxFilesInContext] == paths[..MaxFilesInContext] &&
        r[MaxFilesInContext] == ListingMarker)
  {
    if |paths| >= MaxFilesInContext {
      assert Capped(paths)[..MaxFilesInContext] == paths[..MaxFilesInContext];
    }
  }

  /** The lines `list_files(path)` joins, for the directory tree found at `path`. */
  function Listing(path: string, tree: Option<Dir>): seq<string> {
    Capped(Paths(path, Entries(Visits(tree))))
  }

  lemma {:induction false} KeptEntriesAppend(via: seq<string>, a: seq<string>, b: seq<string>)
    ensures KeptEntries(via, a + b) == KeptEntries(via, a) + KeptEntries(via, b)
  {
    if a == [] {
      assert a + b == b;
    } else {
      assert (a + b)[0] == a[0];
      assert (a + b)[1..] == a[1..] + b;
      KeptEntriesAppend(via, a[1..], b);
      var head := if KeptFile(a[0]) then [Entry(via, a[0])] else [];
      assert head + (KeptEntries(via, a[1..]) + KeptEntries(via, b))
          == (head + KeptEntries(via, a[1..])) + KeptEntries(via, b);
    }
  }

  lemma {:induction false} EntriesAppend(a: seq<Visit>, b: seq<Visit>)
    ensures Entries(a + b) == Entries(a) + Entries(b)
  {
    if a == [] {
      assert a + b == b;
    } else {
      assert (a + b)[1..] == a[1..] + b;
      EntriesAppend(a[1..], b);
    }
  }

  lemma {:induction false} PathsAppend(top: string, a: seq<Entry>, b: seq<Entry>)
    ensures Paths(top, a + b) == Paths(top, a) + Paths(top, b)
  {
    if a == [] {
      assert a + b == b;
    } else {
      assert (a + b)[1..] == a[1..] + b;
      PathsAppend(top, a[1..], b);
    }
  }

  /** The file `name` is in the directory reached from `d` through the subdirectories `rel`. */
  predicate HasFile(d: Dir, rel: seq<string>, name: string)
    decreases rel
  {
    if rel == [] then name in d.files
    else exists i | 0 <= i < |d.subdirs| ::
      d.subdirs[i].name == rel[0] && HasFile(d.subdirs[i].dir, rel[1..], name)
  }

  lemma {:induction false} KeptEntriesMembers(via: seq<string>, names: seq<string>)
    ensures forall e | e in KeptEntries(via, names) :: e.via == via && e.name in names && KeptFile(e.name)
    ensures forall n | n in names && KeptFile(n) :: Entry(via, n) in KeptEntries(via, names)
  {
    if names != [] {
      KeptEntriesMembers(via, names[1..]);
    }
  }

  /**
   * Every file the walk below `d` lists passes the file filters, lies in
   * the tree, and is reached only through subdirectories the walk may enter.
   */
  lemma {:induction false} WalkSound(d: Dir, pre: seq<string>)
    ensures forall e | e in Entries(Walk(d, pre)) ::
      |pre| <= |e.via| && e.via[..|pre|] == pre && KeptFile(e.name) &&
      AllKept(e.via[|pre|..]) && HasFile(d, e.via[|pre|..], e.name)
    decreases d, 1
  {
    EntriesAppend([Visit(pre, d.files)], WalkSubdirs(d.subdirs, pre));
    assert [Visit(pre, d.files)][1..] == [];
    KeptEntriesMembers(pre, d.files);
    WalkSubdirsSound(d.subdirs, pre);
    forall e | e in Entries(WalkSubdirs(d.subdirs, pre))
      ensures HasFile(d, e.via[|pre|..], e.name)
    {
      var rel := e.via[|pre|..];
      var i :| 0 <= i < |d.subdirs| && d.subdirs[i].name == rel[0] && HasFile(d.subdirs[i].dir, rel[1..], e.name);
    }
  }

  lemma {:induction false} WalkSubdirsSound(subs: seq<Subdir>, pre: seq<string>)
    ensures forall e | e in Entries(WalkSubdirs(subs, pre)) ::
      |pre| < |e.via| && e.via[..|pre|] == pre && KeptFile(e.name) && AllKept(e.via[|pre|..]) &&
      exists i | 0 <= i < |subs| ::
        subs[i].name == e.via[|pre|] && HasFile(subs[i].dir, e.via[|pre| + 1..], e.name)
    decreases subs, 0
  {
    if subs != [] {
      var first := if KeptDir(subs[0].name) then Walk(subs[0].dir, pre + [subs[0].name]) else [];
      EntriesAppend(first, WalkSubdirs(subs[1..], pre));
      WalkSubdirsSound(subs[1..], pre);
      forall e | e in Entries(WalkSubdirs(subs[1..], pre))
        ensures exists i | 0 <= i < |subs| ::
          subs[i].name == e.via[|pre|] && HasFile(subs[i].dir, e.via[|pre| + 1..], e.name)
      {
        var i :| 0 <= i < |subs[1..]| && subs[1..][i].name == e.via[|pre|] &&
          HasFile(subs[1..][i].dir, e.via[|pre| + 1..], e.name);
        assert subs[i + 1] == subs[1..][i];
      }
      if KeptDir(subs[0].name) {
        var pre' := pre + [subs[0].name];
        WalkSound(subs[0].dir, pre');
        forall e | e in Entries(first)
          ensures |pre| < |e.via| && e.via[..|pre|] == pre && AllKept(e.via[|pre|..])
          ensures subs[0].name == e.via[|pre|] && HasFile(subs[0].dir, e.via[|pre| + 1..], e.name)
        {
          assert e.via[..|pre'|][..|pre|] == e.via[..|pre|];
          assert e.via[|pre|..] == [subs[0].name] + e.via[|pre'|..];
          assert e.via[|pre| + 1..] == e.via[|pre'|..];
        }
      } else {
        assert Entries(first) == [];
      }
    }
  }

  /** The entries below a subdirectory the walk enters are among those of its parent's walk. */
  lemma {:induction false} SubdirIncluded(subs: seq<Subdir>, i: nat, pre: seq<string>, e: Entry)
    requires i < |subs| && KeptDir(subs[i].name)
    requires e in Entries(Walk(subs[i].dir, pre + [subs[i].name]))
    ensures e in Entries(WalkSubdirs(subs, pre))
    decreases i
  {
    var first := if KeptDir(subs[0].name) then Walk(subs[0].dir, pre + [subs[0].name]) else [];
    EntriesAppend(first, WalkSubdirs(subs[1..], pre));
    if i > 0 {
      assert subs[1..][i - 1] == subs[i];
      SubdirIncluded(subs[1..], i - 1, pre, e);
    }
  }

  /**
   * Every file in the tree that passes the filters and is reached only
   * through subdirectories the walk may enter is listed by the walk.
   */
  lemma {:induction false} WalkComplete(d: Dir, pre: seq<string>, rel: seq<string>, name: string)
    requires HasFile(d, rel, name) && AllKept(rel) && KeptFile(name)
    ensures Entry(pre + rel, name) in Entries(Walk(d, pre))
    decreases rel
  {
    EntriesAppend([Visit(pre, d.files)], WalkSubdirs(d.subdirs, pre));
    assert [Visit(pre, d.files)][1..] == [];
    if rel == [] {
      KeptEntriesMembers(pre, d.files);
      assert pre + rel == pre;
    } else {
      var i :| 0 <= i < |d.subdirs| && d.subdirs[i].name == rel[0] && HasFile(d.subdirs[i].dir, rel[1..], name);
      assert AllKept(rel[1..]) by {
        forall k | 0 <= k < |rel[1..]| ensures KeptDir(rel[1..][k]) {
          assert rel[1..][k] == rel[k + 1];
        }
      }
      assert KeptDir(rel[0]);
      WalkComplete(d.subdirs[i].dir, pre + [rel[0]], rel[1..], name);
      assert pre + [rel[0]] + rel[1..] == pre + rel;
      SubdirIncluded(d.subdirs, i, pre, Entry(pre + rel, name));
    }
  }

  /**
   * `list_files` in terms of the tree: each listed path is, in walk order,
   * the path of a file that passes the filters and lies only under
   * subdirectories the walk may enter; the marker appears, as the 101st
   * line, exactly when 100 such files have been found; and when fewer exist,
   * every such file is listed.
   */
  lemma ListingCharacterized(path: string, d: Dir)
    ensures var es := Entries(Walk(d, []));
      var out := Listing(path, Some(d));
      (forall k | 0 <= k < |out| && k < MaxFilesInContext ::
        out[k] == EntryPath(path, es[k]) && KeptFile(es[k].name) && AllKept(es[k].via) &&
        HasFile(d, es[k].via, es[k].name)) &&
      (|out| > MaxFilesInContext <==> |es| >= MaxFilesInContext) &&
      (|es| < MaxFilesInContext ==> forall rel, name :: HasFile(d, rel, name) && AllKept(rel) && KeptFile(name) ==>
        EntryPath(path, Entry(rel, name)) in out)
  {
    var es := Entries(Walk(d, []));
    var out := Listing(path, Some(d));
    WalkSound(d, []);
    PathsAt(path, es);
    forall k | 0 <= k < |out| && k < MaxFilesInContext
      ensures out[k] == EntryPath(path, es[k]) && KeptFile(es[k].name) && AllKept(es[k].via) &&
        HasFile(d, es[k].via, es[k].name)
    {
      assert es[k] in es;
      assert es[k].via[0..] == es[k].via;
    }
    if |es| < MaxFilesInContext {
      forall rel, name | HasFile(d, rel, name) && AllKept(rel) && KeptFile(name)
        ensures EntryPath(path, Entry(rel, name)) in out
      {
        WalkComplete(d, [], rel, name);
        assert [] + rel == rel;
        var k :| 0 <= k < |es| && es[k] == Entry(rel, name);
        assert out[k] == EntryPath(path, es[k]);
      }
    }
  }

  lemma {:induction false} PathsAt(top: string, es: seq<Entry>)
    ensures forall k | 0 <= k < |es| :: Paths(top, es)[k] == EntryPath(top, es[k])
  {
    if es != [] {
      PathsAt(top, es[1..]);
    }
  }

  /** `list_files`: the walk, the filters and the cap, in the source's loop. */
  method ListFiles(path: string, tree: Option<Dir>) returns (listing: string, files: seq<string>)
    ensures files == Listing(path, tree)
    ensures listing == JoinLines(files)
  {
    files := CollectFiles(path, Visits(tree));
    listing := JoinLines(files);
  }

  /** The loop of `list_files` over the steps of the walk. */
  method CollectFiles(path: string, visits: seq<Visit>) returns (files: seq<string>)
    ensures files == Capped(Paths(path, Entries(visits)))
  {
    files := [];
    ghost var taken: seq<Entry> := [];
    var v := 0;
    while v < |visits|
      invariant 0 <= v <= |visits|
      invariant taken == Entries(visits[..v])
      invariant files == Paths(path, taken) && |files| < MaxFilesInContext
    {
      var via, names := visits[v].via, visits[v].files;
      var root := DirPath(path, via);
      var j := 0;
      while j < |names|
        invariant 0 <= j <= |names|
        invariant taken == Entries(visits[..v]) + KeptEntries(via, names[..j])
        invariant files == Paths(path, taken) && |files| < MaxFilesInContext
      {
        NextName(via, names, j);
        if KeptFile(names[j]) {
          PathsSnoc(path, taken, Entry(via, names[j]));
          taken := taken + [Entry(via, names[j])];
          files := files + [PathJoin(root, names[j])];
          if |files| >= MaxFilesInContext {
            assert taken == Entries(visits[..v]) + KeptEntries(via, names[..j + 1]);
            CapReached(path, visits, v, j + 1);
            files := files + [ListingMarker];
            return;
          }
        }
        j := j + 1;
      }
      assert names[..j] == names;
      NextVisit(visits, v);
      v := v + 1;
    }
    assert visits[..v] == visits;
  }

  lemma NextName(via: seq<string>, names: seq<string>, j: nat)
    requires j < |names|
    ensures KeptEntries(via, names[..j + 1]) ==
      KeptEntries(via, names[..j]) + if KeptFile(names[j]) then [Entry(via, names[j])] else []
  {
    KeptEntriesAppend(via, names[..j], [names[j]]);
    assert names[..j + 1] == names[..j] + [names[j]];
    assert [names[j]][1..] == [];
  }

  lemma NextVisit(visits: seq<Visit>, v: nat)
    requires v < |visits|
    ensures Entries(visits[..v + 1]) == Entries(visits[..v]) + KeptEntries(visits[v].via, visits[v].files)
  {
    EntriesAppend(visits[..v], [visits[v]]);
    assert visits[..v + 1] == visits[..v] + [visits[v]];
    assert [visits[v]][1..] == [];
  }

  lemma PathsSnoc(top: string, es: seq<Entry>, e: Entry)
    ensures Paths(top, es + [e]) == Paths(top, es) + [EntryPath(top, e)]
  {
    PathsAppend(top, es, [e]);
    assert [e][1..] == [];
  }

  lemma CapReached(top: string, visits: seq<Visit>, v: nat, j: nat)
    requires v < |visits| && j <= |visits[v].files|
    requires |Entries(visits[..v]) + KeptEntries(visits[v].via, visits[v].files[..j])| == MaxFilesInContext
    ensures Paths(top, Entries(visits[..v]) + KeptEntries(visits[v].via, visits[v].files[..j])) + [ListingMarker]
      == Capped(Paths(top, Entries(visits)))
  {
    PrefixOfEntries(top, visits, v, j);
  }

  /** What the inner loop has taken so far gives a prefix of all the paths. */
  lemma PrefixOfEntries(top: string, visits: seq<Visit>, v: nat, j: nat)
    requires v < |visits| && j <= |visits[v].files|
    ensures var taken := Entries(visits[..v]) + KeptEntries(visits[v].via, visits[v].files[..j]);
      |taken| <= |Entries(visits)| && Paths(top, Entries(visits))[..|taken|] == Paths(top, taken)
  {
    var names := visits[v].files;
    var taken := Entries(visits[..v]) + KeptEntries(visits[v].via, names[..j]);
    assert visits == visits[..v] + ([visits[v]] + visits[v + 1..]);
    EntriesAppend(visits[..v], [visits[v]] + visits[v + 1..]);
    EntriesAppend([visits[v]], visits[v + 1..]);
    assert names == names[..j] + names[j..];
    KeptEntriesAppend(visits[v].via, names[..j], names[j..]);
    var rest := KeptEntries(visits[v].via, names[j..]) + Entries(visits[v + 1..]);
    assert Entries(visits) == taken + rest;
    PathsAppend(top, taken, rest);
  }

  // ---------------------------------------------------------------------------
  // read_file, write_file, run_shell and the dispatch of a call
  // ---------------------------------------------------------------------------

  /** What reading a file gave: its contents, or the text of the exception. */
  datatype FileRead = Contents(text: string) | ReadFailed(error: string)

  /**
   * What the environment answers when a tool runs: the read, whether the
   * write raised (and with what text), the directory tree at the listed
   * path, and the outcome of the shell command. Only the part for the
   * tool that runs is used.
   */
  datatype World = World(read: FileRead, writeError: Option<string>, tree: Option<Dir>, shell: ShellOutcome)

  /** `read_file`: the contents, or an error text; the build state is not touched. */
  function ReadReply(path: string, answer: FileRead): string {
    match answer
    case Contents(text) => text
    case ReadFailed(e) => "Error reading file " + path + ": " + e
  }

  /** A successful read returns the contents as they are; a failed one names the file and ends with the error. */
  lemma ReadReplyCharacterized(path: string, answer: FileRead)
    ensures var r := ReadReply(path, answer);
      (answer.Contents? ==> r == answer.text) &&
      (answer.ReadFailed? ==>
        StartsWith(r, "Error reading file " + path) && EndsWith(r, ": " + answer.error))
  {
    if answer.ReadFailed? {
      var r := ReadReply(path, answer);
      assert r[..|"Error reading file " + path|] == "Error reading file " + path;
      assert r[|r| - |": " + answer.error|..] == ": " + answer.error;
    }
  }

  function WriteReply(path: string, writeError: Option<string>): string {
    match writeError
    case None => "Successfully wrote to " + path
    case Some(e) => "Error writing to file " + path + ": " + e
  }

  const ShellFailurePrefix := "Command failed with exit code "
  const ShellTimeoutReply := "Error: Command timed out after 600 seconds"

  /** The text `run_shell` returns. */
  function ShellReply(outcome: ShellOutcome): string {
    match outcome
    case Finished(code, _, _) =>
      if code != 0 then ShellFailurePrefix + IntToString(code) + ":\n" + outcome.Output()
      else outcome.Output()
    case TimedOut => ShellTimeoutReply
    case Raised(e) => "Error executing command: " + e
  }

  /**
   * A command that exits with 0 returns its output; a failing one returns
   * it after the exit code message; a timeout and an error say so.
   */
  lemma ShellReplyCharacterized(outcome: ShellOutcome)
    ensures var r := ShellReply(outcome);
      (outcome.Finished? && outcome.exitCode == 0 ==> r == outcome.Output()) &&
      (outcome.Finished? && outcome.exitCode != 0 ==>
        StartsWith(r, ShellFailurePrefix) && EndsWith(r, ":\n" + outcome.Output())) &&
      (outcome.TimedOut? ==> r == ShellTimeoutReply) &&
      (outcome.Raised? ==> StartsWith(r, "Error executing command: "))
  {
    if outcome.Finished? && outcome.exitCode != 0 {
      var r := ShellReply(outcome);
      var head := ShellFailurePrefix + IntToString(outcome.exitCode);
      assert r == head + (":\n" + outcome.Output());
      assert r[..|ShellFailurePrefix|] == ShellFailurePrefix;
      assert r[|r| - |":\n" + outcome.Output()|..] == ":\n" + outcome.Output();
    }
    if outcome.Raised? {
      assert ShellReply(outcome)[..|"Error executing command: "|] == "Error executing command: ";
    }
  }

  /** `write_file`: a write that does not raise invalidates the build. */
  method WriteFile(bs: BuildState, path: string, content: string, writeError: Option<string>)
    returns (reply: string)
    modifies bs
    ensures bs.Snap() == if writeError.None? then Invalidated(old(bs.Snap())) else old(bs.Snap())
    ensures reply == WriteReply(path, writeError)
  {
    match writeError {
      case None =>
        bs.InvalidateBuild();
        reply := "Successfully wrote to " + path;
      case Some(e) =>
        reply := "Error writing to file " + path + ": " + e;
    }
  }

  /** `run_shell`: classify the command and record its exit status. */
  method RunShell(bs: BuildState, command: string, outcome: ShellOutcome) returns (reply: string)
    modifies bs
    ensures bs.Snap() == AfterShell(old(bs.Snap()), command, outcome)
    ensures reply == ShellReply(outcome)
  {
    match outcome {
      case Finished(code, out, err) =>
        var output := out + err;
        var isBuild := IsBuildCommand(command);
        var isTest := IsTestCommand(command);
        if isBuild || isTest {
          bs.RecordCommand(isTest, code, output);
        }
        if code != 0 {
          reply := ShellFailurePrefix + IntToString(code) + ":\n" + output;
          return;
        }
        reply := output;
      case TimedOut =>
        reply := ShellTimeoutReply;
      case Raised(e) =>
        reply := "Error executing command: " + e;
    }
  }

  /** The tools in `available_functions`. */
  datatype Tool = ReadFileTool | WriteFileTool | ListFilesTool | RunShellTool

  function Lookup(name: string): (t: Option<Tool>)
    ensures t.Some? <==> name in {"read_file", "write_file", "list_files", "run_shell"}
  {
    if name == "read_file" then Some(ReadFileTool)
    else if name == "write_file" then Some(WriteFileTool)
    else if name == "list_files" then Some(ListFilesTool)
    else if name == "run_shell" then Some(RunShellTool)
    else None
  }

  /**
   * The decoded arguments bind to the tool's parameters as keyword
   * arguments; otherwise the call raises `TypeError`. Only `list_files`
   * has a parameter with a default.
   */
  predicate Binds(tool: Tool, args: map<string, string>) {
    match tool
    case ReadFileTool => args.Keys == {"path"}
    case WriteFileTool => args.Keys == {"path", "content"}
    case ListFilesTool => args.Keys <= {"path"}
    case RunShellTool => args.Keys == {"command"}
  }

  /** The build state after a tool ran, and the text it returned. */
  datatype Effect = Effect(state: Snapshot, text: string)

  /** Running a bound call: only a successful write and a shell command change the build state. */
  function Execute(s: Snapshot, tool: Tool, args: map<string, string>, w: World): Effect
    requires Binds(tool, args)
  {
    match tool
    case ReadFileTool => Effect(s, ReadReply(args["path"], w.read))
    case WriteFileTool =>
      Effect(if w.writeError.None? then Invalidated(s) else s, WriteReply(args["path"], w.writeError))
    case ListFilesTool =>
      var path := if "path" in args then args["path"] else ".";
      Effect(s, JoinLines(Listing(path, w.tree)))
    case RunShellTool =>
      Effect(AfterShell(s, args["command"], w.shell), ShellReply(w.shell))
  }

  /**
   * Reading and listing leave the build state as it was, a write that does
   * not raise invalidates the build, a shell command updates the state as
   * `run_shell` does, and every tool keeps the state consistent.
   */
  lemma ExecuteEffects(s: Snapshot, tool: Tool, args: map<string, string>, w: World)
    requires Binds(tool, args)
    ensures var r := Execute(s, tool, args, w);
      (s.Consistent() ==> r.state.Consistent()) &&
      (tool == ReadFileTool || tool == ListFilesTool ==> r.state == s) &&
      (tool == WriteFileTool ==> r.state == if w.writeError.None? then Invalidated(s) else s) &&
      (tool == RunShellTool ==> r.state == AfterShell(s, args["command"], w.shell))
  {
    if tool == RunShellTool {
      AfterShellCharacterized(s, args["command"], w.shell);
    }
  }

  /** What a tool call whose arguments bind does to the build state. */
  function ToolEvent(tool: Tool, args: map<string, string>, w: World): Event
    requires Binds(tool, args)
  {
    match tool
    case WriteFileTool => Wrote(w.writeError)
    case RunShellTool => Ran(args["command"], w.shell)
    case _ => Inspected
  }

  /** Executing a tool changes the build state as its event does. */
  lemma ExecuteApplies(s: Snapshot, tool: Tool, args: map<string, string>, w: World)
    requires Binds(tool, args)
    ensures Execute(s, tool, args, w).state == Apply(s, ToolEvent(tool, args, w))
    ensures ToolEvent(tool, args, w).Ran? <==> tool == RunShellTool
    ensures ToolEvent(tool, args, w).Wrote? <==> tool == WriteFileTool
  {
  }

  /** `function_to_call(**function_args)` for a call whose arguments bind. */
  method Invoke(bs: BuildState, tool: Tool, args: map<string, string>, w: World) returns (reply: string)
    requires Binds(tool, args)
    modifies bs
    ensures Effect(bs.Snap(), reply) == Execute(old(bs.Snap()), tool, args, w)
  {
    match tool {
      case ReadFileTool =>
        reply := ReadReply(args["path"], w.read);
      case WriteFileTool =>
        reply := WriteFile(bs, args["path"], args["content"], w.writeError);
      case ListFilesTool =>
        var path := if "path" in args then args["path"] else ".";
        var files;
        reply, files := ListFiles(path, w.tree);
      case RunShellTool =>
        reply := RunShell(bs, args["command"], w.shell);
    }
  }
}
