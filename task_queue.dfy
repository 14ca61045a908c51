/**
 * `main`: the task queue in `tasks.txt`. Each round selects the first
 * pending line, runs `process_task` on its stripped text, and rewrites
 * that line in place with a success or failure marker. The queue is
 * specified by the function `Drain` and the method `RunQueue` is proved to
 * compute it.
 */
module TaskQueue {
  import opened Wrappers
  import opened Text
  import opened BuildVerification
  import opened Tools
  import opened RetryPolicy
  import opened Agent

  const DoneMarker := "[x] "
  const FailedMarker := "[!] "

  /** A line the scan selects: non-blank once stripped, and starting with neither `[x]` nor `#`. */
  predicate Pending(line: string) {
    var t := Strip(line);
    t != [] && !StartsWith(t, "[x]") && !StartsWith(t, "#")
  }

  /** The index of the first pending line, or -1 when there is none. */
  function FirstPending(lines: seq<string>): (r: int)
    ensures -1 <= r < |lines|
  {
    if lines == [] then -1
    else if Pending(lines[0]) then 0
    else
      var k := FirstPending(lines[1..]);
      if k < 0 then -1 else k + 1
  }

  /**
   * `FirstPending` is the least index of a pending line, and -1 exactly
   * when no line is pending.
   */
  lemma {:induction false} FirstPendingCharacterized(lines: seq<string>)
    ensures var r := FirstPending(lines);
      (r == -1 <==> forall k | 0 <= k < |lines| :: !Pending(lines[k])) &&
      (r >= 0 ==> Pending(lines[r]) && forall k | 0 <= k < r :: !Pending(lines[k]))
  {
    if lines != [] && !Pending(lines[0]) {
      FirstPendingCharacterized(lines[1..]);
      var k := FirstPending(lines[1..]);
      if k < 0 {
        forall j | 0 <= j < |lines|
          ensures !Pending(lines[j])
        {
          if j > 0 {
            assert lines[j] == lines[1..][j - 1];
          }
        }
      } else {
        assert lines[k + 1] == lines[1..][k];
        forall j | 0 <= j < k + 1
          ensures !Pending(lines[j])
        {
          if j > 0 {
            assert lines[j] == lines[1..][j - 1];
          }
        }
      }
    }
  }

  /** The scan of `main` for the first unchecked task. */
  method FindPending(lines: seq<string>) returns (taskIndex: int, task: string)
    ensures taskIndex == FirstPending(lines)
    ensures taskIndex == -1 <==> forall k | 0 <= k < |lines| :: !Pending(lines[k])
    ensures taskIndex >= 0 ==>
      taskIndex < |lines| && Pending(lines[taskIndex]) && task == Strip(lines[taskIndex]) &&
      forall k | 0 <= k < taskIndex :: !Pending(lines[k])
    ensures taskIndex == -1 ==> task == ""
  {
    FirstPendingCharacterized(lines);
    taskIndex, task := -1, "";
    var i := 0;
    while i < |lines|
      invariant 0 <= i <= |lines|
      invariant forall k | 0 <= k < i :: !Pending(lines[k])
    {
      var stripped := Strip(lines[i]);
      if stripped != [] && !StartsWith(stripped, "[x]") && !StartsWith(stripped, "#") {
        taskIndex, task := i, stripped;
        return;
      }
      i := i + 1;
    }
  }

  /** The line after its task ran: `"[x] "` or `"[!] "` before the line without its leading whitespace. */
  function MarkLine(line: string, success: bool): string {
    (if success then DoneMarker else FailedMarker) + LStrip(line)
  }

  lemma {:induction false} RStripAppend(a: string, b: string)
    requires RStrip(b) != []
    ensures RStrip(a + b) == a + RStrip(b)
    decreases |b|
  {
    if b != [] && IsSpace(b[|b| - 1]) {
      assert (a + b)[..|a + b| - 1] == a + b[..|b| - 1];
      RStripAppend(a, b[..|b| - 1]);
    } else if b == [] {
    }
  }

  /** A marked line, stripped, is the marker (without its space removed) before the stripped task. */
  lemma MarkedTaskText(line: string, success: bool)
    requires Strip(line) != []
    ensures Strip(MarkLine(line, success)) == (if success then DoneMarker else FailedMarker) + Strip(line)
  {
    var prefix := if success then DoneMarker else FailedMarker;
    var rest := LStrip(line);
    assert !IsSpace(prefix[0]);
    assert LStrip(prefix + rest) == prefix + rest;
    RStripAppend(prefix, rest);
  }

  /** A task marked done is no longer pending; a task marked failed still is. */
  lemma MarkingAndPending(line: string, success: bool)
    requires Pending(line)
    ensures Pending(MarkLine(line, success)) <==> !success
  {
    MarkedTaskText(line, success);
    var t := Strip(MarkLine(line, success));
    if success {
      assert t[..3] == "[x]";
    } else {
      assert t[..3] == "[!]";
      assert t[..1] == "[";
    }
  }

  /** What `process_task` receives and returns in one round of the queue. */
  datatype Round = Round(api: nat -> Attempt<Reply>, world: nat -> World)

  /**
   * How `main` ends: without `tasks.txt`, with no pending line left, on the
   * uncaught error of a task, or (in the model only) when the rounds given
   * run out.
   */
  datatype QueueEnd = NoTaskFile | AllDone | Aborted | OutOfRounds

  datatype Run = Run(end: QueueEnd, lines: seq<string>, processed: nat, succeeded: nat, state: Snapshot)

  /**
   * A line the intended scan selects: a pending line that is not marked as
   * failed either.
   */
  predicate Open(line: string) {
    Pending(line) && !StartsWith(Strip(line), "[!]")
  }

  /** The index of the first open line, or -1 when there is none. */
  function FirstOpen(lines: seq<string>): (r: int)
    ensures -1 <= r < |lines|
    ensures r >= 0 ==> Open(lines[r]) && forall k | 0 <= k < r :: !Open(lines[k])
    ensures r == -1 ==> forall k | 0 <= k < |lines| :: !Open(lines[k])
  {
    if lines == [] then -1
    else if Open(lines[0]) then 0
    else
      var k := FirstOpen(lines[1..]);
      assert forall j | 1 <= j < |lines| :: lines[j] == lines[1..][j - 1];
      if k < 0 then -1 else k + 1
  }

  /** The line a round selects: as written (`skipFailed` false) or as intended. */
  function Select(skipFailed: bool, lines: seq<string>): (r: int)
    ensures -1 <= r < |lines|
  {
    if skipFailed then FirstOpen(lines) else FirstPending(lines)
  }

  /**
   * The `while True` loop of `main` over `lines`, one round per element of
   * `rounds`, counting the tasks processed and succeeded and keeping the
   * build state the last task left.
   */
  function Drain(skipFailed: bool, lines: seq<string>, guide: string, files: string, rounds: seq<Round>,
                 processed: nat, succeeded: nat, state: Snapshot): Run
    decreases |rounds|
  {
    var i := Select(skipFailed, lines);
    if i < 0 then Run(AllDone, lines, processed, succeeded, state)
    else if rounds == [] then Run(OutOfRounds, lines, processed, succeeded, state)
    else
      var f := Converse(rounds[0].api, rounds[0].world, Start(Strip(lines[i]), guide, files));
      if f.outcome == Crashed then Run(Aborted, lines, processed + 1, succeeded, f.session.state)
      else
        var ok := f.outcome == Completed;
        Drain(skipFailed, lines[i := MarkLine(lines[i], ok)], guide, files, rounds[1..], processed + 1,
              if ok then succeeded + 1 else succeeded, f.session.state)
  }

  /** The line a round selects is pending, whichever scan it uses. */
  lemma SelectedIsPending(skipFailed: bool, lines: seq<string>)
    requires Select(skipFailed, lines) >= 0
    ensures Pending(lines[Select(skipFailed, lines)])
  {
    FirstPendingCharacterized(lines);
  }

  /**
   * The queue keeps the number of lines and leaves every line that is not
   * pending as it was: only the selected line is rewritten in a round.
   */
  lemma {:induction false} DrainRewritesOnlyPending(skipFailed: bool, lines: seq<string>, guide: string,
                                                    files: string, rounds: seq<Round>, processed: nat,
                                                    succeeded: nat, state: Snapshot)
    ensures var out := Drain(skipFailed, lines, guide, files, rounds, processed, succeeded, state);
      |out.lines| == |lines| &&
      forall k | 0 <= k < |lines| && !Pending(lines[k]) :: out.lines[k] == lines[k]
    decreases |rounds|
  {
    var i := Select(skipFailed, lines);
    if i >= 0 && rounds != [] {
      var f := Converse(rounds[0].api, rounds[0].world, Start(Strip(lines[i]), guide, files));
      if f.outcome != Crashed {
        var ok := f.outcome == Completed;
        var next := lines[i := MarkLine(lines[i], ok)];
        SelectedIsPending(skipFailed, lines);
        DrainRewritesOnlyPending(skipFailed, next, guide, files, rounds[1..], processed + 1,
                                 if ok then succeeded + 1 else succeeded, f.session.state);
      }
    }
  }

  /**
   * The queue runs at most one task per round, and when it runs out of
   * rounds it has used every one.
   */
  lemma {:induction false} DrainCounts(skipFailed: bool, lines: seq<string>, guide: string, files: string,
                                       rounds: seq<Round>, processed: nat, succeeded: nat, state: Snapshot)
    ensures var out := Drain(skipFailed, lines, guide, files, rounds, processed, succeeded, state);
      processed <= out.processed <= processed + |rounds| &&
      (out.end == OutOfRounds ==> out.processed == processed + |rounds|)
    decreases |rounds|
  {
    DrainProcessedGrows(skipFailed, lines, guide, files, rounds, processed, succeeded, state);
    DrainProcessedBound(skipFailed, lines, guide, files, rounds, processed, succeeded, state);
    DrainOutOfRounds(skipFailed, lines, guide, files, rounds, processed, succeeded, state);
  }

  /** The count of tasks run never decreases. */
  lemma {:induction false} DrainProcessedGrows(skipFailed: bool, lines: seq<string>, guide: string, files: string,
                                rounds: seq<Round>, processed: nat, succeeded: nat, state: Snapshot)
    ensures var out := Drain(skipFailed, lines, guide, files, rounds, processed, succeeded, state);
      processed <= out.processed
    decreases |rounds|
  {
    var i := Select(skipFailed, lines);
    if i >= 0 && rounds != [] {
      var f := Converse(rounds[0].api, rounds[0].world, Start(Strip(lines[i]), guide, files));
      if f.outcome != Crashed {
        var ok := f.outcome == Completed;
        DrainProcessedGrows(skipFailed, lines[i := MarkLine(lines[i], ok)], guide, files, rounds[1..], processed + 1,
             if ok then succeeded + 1 else succeeded, f.session.state);
      }
    }
  }

  /** One task per round at most. */
  lemma {:induction false} DrainProcessedBound(skipFailed: bool, lines: seq<string>, guide: string, files: string,
                                rounds: seq<Round>, processed: nat, succeeded: nat, state: Snapshot)
    ensures var out := Drain(skipFailed, lines, guide, files, rounds, processed, succeeded, state);
      out.processed <= processed + |rounds|
    decreases |rounds|
  {
    var i := Select(skipFailed, lines);
    if i >= 0 && rounds != [] {
      var f := Converse(rounds[0].api, rounds[0].world, Start(Strip(lines[i]), guide, files));
      if f.outcome != Crashed {
        var ok := f.outcome == Completed;
        DrainProcessedBound(skipFailed, lines[i := MarkLine(lines[i], ok)], guide, files, rounds[1..], processed + 1,
             if ok then succeeded + 1 else succeeded, f.session.state);
      }
    }
  }

  /** Running out of rounds means every round ran a task. */
  lemma {:induction false} DrainOutOfRounds(skipFailed: bool, lines: seq<string>, guide: string, files: string,
                                            rounds: seq<Round>, processed: nat, succeeded: nat, state: Snapshot)
    ensures var out := Drain(skipFailed, lines, guide, files, rounds, processed, succeeded, state);
      out.end == OutOfRounds ==> out.processed == processed + |rounds|
    decreases |rounds|
  {
    var i := Select(skipFailed, lines);
    if i >= 0 && rounds != [] {
      var f := Converse(rounds[0].api, rounds[0].world, Start(Strip(lines[i]), guide, files));
      if f.outcome != Crashed {
        var ok := f.outcome == Completed;
        DrainOutOfRounds(skipFailed, lines[i := MarkLine(lines[i], ok)], guide, files, rounds[1..], processed + 1,
                         if ok then succeeded + 1 else succeeded, f.session.state);
      }
    }
  }

  /** The queue counts no more successes than tasks run. */
  lemma {:induction false} DrainSuccesses(skipFailed: bool, lines: seq<string>, guide: string, files: string,
                                          rounds: seq<Round>, processed: nat, succeeded: nat, state: Snapshot)
    ensures var out := Drain(skipFailed, lines, guide, files, rounds, processed, succeeded, state);
      succeeded <= out.succeeded && out.succeeded - succeeded <= out.processed - processed
    decreases |rounds|
  {
    var i := Select(skipFailed, lines);
    if i >= 0 && rounds != [] {
      var f := Converse(rounds[0].api, rounds[0].world, Start(Strip(lines[i]), guide, files));
      if f.outcome != Crashed {
        var ok := f.outcome == Completed;
        DrainSuccesses(skipFailed, lines[i := MarkLine(lines[i], ok)], guide, files, rounds[1..], processed + 1,
                       if ok then succeeded + 1 else succeeded, f.session.state);
      }
    }
  }

  /**
   * The queue ends with all tasks done exactly when its scan finds no line
   * left, and otherwise on a task that raised or with rounds exhausted.
   */
  lemma {:induction false} DrainEnds(skipFailed: bool, lines: seq<string>, guide: string, files: string,
                                     rounds: seq<Round>, processed: nat, succeeded: nat, state: Snapshot)
    ensures var out := Drain(skipFailed, lines, guide, files, rounds, processed, succeeded, state);
      out.end != NoTaskFile &&
      (out.end == AllDone <==> Select(skipFailed, out.lines) == -1)
    decreases |rounds|
  {
    var i := Select(skipFailed, lines);
    if i >= 0 && rounds != [] {
      var f := Converse(rounds[0].api, rounds[0].world, Start(Strip(lines[i]), guide, files));
      if f.outcome != Crashed {
        var ok := f.outcome == Completed;
        DrainEnds(skipFailed, lines[i := MarkLine(lines[i], ok)], guide, files, rounds[1..], processed + 1,
                  if ok then succeeded + 1 else succeeded, f.session.state);
      }
    }
  }

  /**
   * When the queue ends with all tasks done under the scan as written, no
   * line of the task file is pending.
   */
  lemma QueueEndsWithNothingPending(lines: seq<string>, guide: string, files: string, rounds: seq<Round>,
                                    state: Snapshot)
    ensures var out := Drain(false, lines, guide, files, rounds, 0, 0, state);
      out.end == AllDone ==> forall k | 0 <= k < |out.lines| :: !Pending(out.lines[k])
  {
    var out := Drain(false, lines, guide, files, rounds, 0, 0, state);
    DrainEnds(false, lines, guide, files, rounds, 0, 0, state);
    FirstPendingCharacterized(out.lines);
  }

  /** The number of open lines. */
  function OpenCount(lines: seq<string>): nat {
    if lines == [] then 0 else (if Open(lines[0]) then 1 else 0) + OpenCount(lines[1..])
  }

  lemma {:induction false} OpenCountClose(lines: seq<string>, i: nat, line: string)
    requires i < |lines| && Open(lines[i]) && !Open(line)
    ensures OpenCount(lines[i := line]) + 1 == OpenCount(lines)
  {
    if i > 0 {
      assert lines[i := line][1..] == lines[1..][i - 1 := line];
      OpenCountClose(lines[1..], i - 1, line);
    } else {
      assert lines[i := line][1..] == lines[1..];
    }
  }

  /** Marking a task, done or failed, closes it for the intended scan. */
  lemma MarkingCloses(line: string, success: bool)
    requires Pending(line)
    ensures !Open(MarkLine(line, success))
  {
    MarkingAndPending(line, success);
    if !success {
      MarkedTaskText(line, success);
      assert Strip(MarkLine(line, success))[..3] == "[!]";
    }
  }

  /**
   * With the intended scan every round closes one open task, so the queue
   * never runs out of rounds when it is given at least as many rounds as
   * there are open lines.
   */
  lemma {:induction false} IntendedQueueDrains(lines: seq<string>, guide: string, files: string,
                                               rounds: seq<Round>, processed: nat, succeeded: nat,
                                               state: Snapshot)
    requires |rounds| >= OpenCount(lines)
    ensures Drain(true, lines, guide, files, rounds, processed, succeeded, state).end != OutOfRounds
    decreases |rounds|
  {
    var i := FirstOpen(lines);
    if i >= 0 {
      MarkingCloses(lines[i], true);
      OpenCountClose(lines, i, MarkLine(lines[i], true));
      var f := Converse(rounds[0].api, rounds[0].world, Start(Strip(lines[i]), guide, files));
      if f.outcome != Crashed {
        var ok := f.outcome == Completed;
        MarkingCloses(lines[i], ok);
        OpenCountClose(lines, i, MarkLine(lines[i], ok));
        IntendedQueueDrains(lines[i := MarkLine(lines[i], ok)], guide, files, rounds[1..], processed + 1,
                            if ok then succeeded + 1 else succeeded, f.session.state);
      }
    }
  }

  /**
   * As written, a task that fails is marked `[!]` and is still the first
   * pending line, so the next round selects it again.
   */
  lemma FailedTaskReselected(lines: seq<string>)
    requires FirstPending(lines) >= 0
    ensures var i := FirstPending(lines);
      FirstPending(lines[i := MarkLine(lines[i], false)]) == i
  {
    var i := FirstPending(lines);
    var next := lines[i := MarkLine(lines[i], false)];
    FirstPendingCharacterized(lines);
    MarkingAndPending(lines[i], false);
    FirstPendingCharacterized(next);
    assert Pending(next[i]);
    assert forall k | 0 <= k < i :: next[k] == lines[k];
  }

  /** A remote service that is down: every attempt fails. */
  ghost predicate ServiceDown(rounds: seq<Round>) {
    forall j, n | 0 <= j < |rounds| :: rounds[j].api(n).Failure?
  }

  lemma ServiceDownFails(api: nat -> Attempt<Reply>, world: nat -> World, task: string, guide: string, files: string)
    requires forall n :: api(n).Failure?
    ensures Converse(api, world, Start(task, guide, files)).outcome == ApiExhausted
  {
    ThreeFailures(api, 0);
  }

  /**
   * As written, with the service down a single task is retried in every
   * round the queue is given and the queue never finishes: the line gains
   * one more `[!] ` each time.
   */
  lemma {:induction false} FailingTaskNeverDrains(line: string, guide: string, files: string, rounds: seq<Round>,
                                                  processed: nat, succeeded: nat, state: Snapshot)
    requires Pending(line) && ServiceDown(rounds)
    ensures Drain(false, [line], guide, files, rounds, processed, succeeded, state).end == OutOfRounds
    decreases |rounds|
  {
    assert FirstPending([line]) == 0;
    if rounds != [] {
      ServiceDownFails(rounds[0].api, rounds[0].world, Strip(line), guide, files);
      var f := Converse(rounds[0].api, rounds[0].world, Start(Strip(line), guide, files));
      MarkingAndPending(line, false);
      assert [line][0 := MarkLine(line, false)] == [MarkLine(line, false)];
      FailingTaskNeverDrains(MarkLine(line, false), guide, files, rounds[1..], processed + 1, succeeded,
                             f.session.state);
    }
  }

  /** The same task under the intended scan: one failed round, and the queue is done. */
  lemma FailingTaskDrainsWhenIntended(line: string, guide: string, files: string, rounds: seq<Round>,
                                      processed: nat, succeeded: nat, state: Snapshot)
    requires Open(line) && ServiceDown(rounds) && rounds != []
    ensures Drain(true, [line], guide, files, rounds, processed, succeeded, state).end == AllDone
  {
    ServiceDownFails(rounds[0].api, rounds[0].world, Strip(line), guide, files);
    MarkingCloses(line, false);
    assert [line][0 := MarkLine(line, false)] == [MarkLine(line, false)];
  }

  lemma StripLine(t: string)
    requires t != [] && !IsSpace(t[0]) && !IsSpace(t[|t| - 1])
    ensures Strip(t + "\n") == t
  {
    var s := t + "\n";
    assert s[..|s| - 1] == t;
    assert LStrip(s) == s;
    assert RStrip(s) == RStrip(t);
  }

  /** `[x] a` is done, so not pending. */
  lemma DoneLineNotPending()
    ensures !Pending("[x] a\n")
  {
    StripLine("[x] a");
    assert "[x] a"[..3] == "[x]";
  }

  /** `b` is pending, and its task text is `b`. */
  lemma PlainLinePending()
    ensures Pending("b\n") && Strip("b\n") == "b"
  {
    StripLine("b");
  }

  /** `[!] d` is still pending under the scan as written. */
  lemma FailedLinePending()
    ensures Pending("[!] d\n")
  {
    StripLine("[!] d");
    assert "[!] d"[..3][1] != "[x]"[1] && "[!] d"[..1][0] != "#"[0];
  }

  /** The example of the task file format: the selected task is the second line, `b`, and `[!] d` is pending. */
  lemma ScanExample()
    ensures FirstPending(["[x] a\n", "b\n", "# c\n", "[!] d\n", "\n"]) == 1
    ensures Strip(["[x] a\n", "b\n", "# c\n", "[!] d\n", "\n"][1]) == "b"
    ensures Pending("[!] d\n")
  {
    var lines := ["[x] a\n", "b\n", "# c\n", "[!] d\n", "\n"];
    DoneLineNotPending();
    PlainLinePending();
    FailedLinePending();
    assert lines[0] == "[x] a\n" && lines[1..][0] == "b\n";
    assert FirstPending(lines[1..]) == 0;
  }

  /** The architecture guide as `main` loads it: empty when `ARCHITECTURE.md` does not exist. */
  function Guide(architecture: Option<FileRead>): string {
    match architecture
    case None => ""
    case Some(answer) => ReadReply("ARCHITECTURE.md", answer)
  }

  /** One round of the queue when a task is selected and a round is left. */
  lemma DrainUnfolds(skipFailed: bool, lines: seq<string>, guide: string, files: string, rounds: seq<Round>,
                     processed: nat, succeeded: nat, state: Snapshot)
    requires Select(skipFailed, lines) >= 0 && rounds != []
    ensures var i := Select(skipFailed, lines);
      var f := Converse(rounds[0].api, rounds[0].world, Start(Strip(lines[i]), guide, files));
      var ok := f.outcome == Completed;
      Drain(skipFailed, lines, guide, files, rounds, processed, succeeded, state) ==
        if f.outcome == Crashed then Run(Aborted, lines, processed + 1, succeeded, f.session.state)
        else Drain(skipFailed, lines[i := MarkLine(lines[i], ok)], guide, files, rounds[1..], processed + 1,
                   if ok then succeeded + 1 else succeeded, f.session.state)
  {
  }

  /**
   * The `while True` loop of `main`: one task per round, each found by the
   * scan and marked in place after it ran.
   */
  method ServeTasks(bs: BuildState, taskLines: seq<string>, guide: string, files: string, rounds: seq<Round>)
    returns (end: QueueEnd, lines: seq<string>, processed: nat, succeeded: nat)
    modifies bs
    ensures Drain(false, taskLines, guide, files, rounds, 0, 0, old(bs.Snap()))
      == Run(end, lines, processed, succeeded, bs.Snap())
  {
    ghost var spec := Drain(false, taskLines, guide, files, rounds, 0, 0, bs.Snap());
    lines, processed, succeeded := taskLines, 0, 0;
    var r := 0;
    end := AllDone;
    while true
      invariant r <= |rounds|
      invariant spec == Drain(false, lines, guide, files, rounds[r..], processed, succeeded, bs.Snap())
      decreases |rounds| - r
    {
      var taskIndex, task := FindPending(lines);
      if taskIndex == -1 {
        end := AllDone;
        return;
      }
      if r == |rounds| {
        end := OutOfRounds;
        return;
      }
      DrainUnfolds(false, lines, guide, files, rounds[r..], processed, succeeded, bs.Snap());
      assert rounds[r..][0] == rounds[r] && rounds[r..][1..] == rounds[r + 1..];
      processed := processed + 1;
      var outcome, _, _, _ := ProcessTask(bs, task, guide, files, rounds[r].api, rounds[r].world);
      if outcome == Crashed {
        end := Aborted;
        return;
      }
      var ok := outcome == Completed;
      lines := lines[taskIndex := MarkLine(lines[taskIndex], ok)];
      if ok {
        succeeded := succeeded + 1;
      }
      r := r + 1;
    }
  }

  /**
   * `main`: load the guide and the project listing, then, when `tasks.txt`
   * exists, process its pending tasks one per round, marking each in
   * place, until none is pending, a task raises, or the rounds run out.
   */
  method RunQueue(bs: BuildState, taskFile: Option<seq<string>>, architecture: Option<FileRead>,
                  tree: Option<Dir>, rounds: seq<Round>)
    returns (end: QueueEnd, lines: seq<string>, processed: nat, succeeded: nat)
    modifies bs
    ensures taskFile.None? ==>
      end == NoTaskFile && lines == [] && processed == 0 && succeeded == 0 && bs.Snap() == old(bs.Snap())
    ensures taskFile.Some? ==>
      Drain(false, taskFile.value, Guide(architecture), JoinLines(Listing(".", tree)), rounds, 0, 0, old(bs.Snap()))
      == Run(end, lines, processed, succeeded, bs.Snap())
  {
    var guide := "";
    if architecture.Some? {
      guide := ReadReply("ARCHITECTURE.md", architecture.value);
    }
    var projectFiles, _ := ListFiles(".", tree);
    if taskFile.None? {
      end, lines, processed, succeeded := NoTaskFile, [], 0, 0;
      return;
    }
    end, lines, processed, succeeded := ServeTasks(bs, taskFile.value, guide, projectFiles, rounds);
  }
}
