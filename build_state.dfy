/**
 * Build verification state: whether a build or test command has been run by
 * the agent itself and whether it last succeeded. A successful file write
 * invalidates the build flags; a shell command classified as build-like or
 * test-like records its exit status.
 */
module BuildVerification {
  import opened Wrappers
  import opened Text

  /** When false, every state counts as verified. */
  const RequireBuildVerification := true
  /** How many characters of a failing command's output are kept. */
  const ErrorTail: nat := 2000

  const BuildKeywords: seq<string> := ["gradlew", "gradle", "build", "compile", "assemble"]
  const TestKeywords: seq<string> := ["test", "check", "verify"]

  /** The value of the five fields of a build state. */
  datatype Snapshot = Snapshot(
    buildAttempted: bool,
    buildPassed: bool,
    testAttempted: bool,
    testPassed: bool,
    lastError: Option<string>)
  {
    /** The invariant every transition keeps: a build cannot pass unattempted. */
    predicate Consistent() {
      buildPassed ==> buildAttempted
    }

    /** `is_verified`. */
    predicate Verified() {
      !RequireBuildVerification || (buildAttempted && buildPassed)
    }
  }

  /** The state after construction or `reset`. */
  function Initial(): (s: Snapshot)
    ensures s.Consistent() && !s.Verified()
    ensures !s.buildAttempted && !s.buildPassed
    ensures !s.testAttempted && !s.testPassed && s.lastError == None
  {
    Snapshot(false, false, false, false, None)
  }

  /** The effect of a successful `write_file`: the build must be run again. */
  function Invalidated(s: Snapshot): (r: Snapshot)
    ensures r.Consistent() && !r.Verified()
    ensures !r.buildAttempted && !r.buildPassed
    ensures r.testAttempted == s.testAttempted && r.testPassed == s.testPassed
    ensures r.lastError == s.lastError
  {
    s.(buildAttempted := false, buildPassed := false)
  }

  /** Some keyword occurs in the lower-cased command. */
  predicate MentionsAny(command: string, keywords: seq<string>) {
    exists k | 0 <= k < |keywords| :: Contains(Lower(command), keywords[k])
  }

  predicate IsBuildCommand(command: string) {
    MentionsAny(command, BuildKeywords)
  }

  predicate IsTestCommand(command: string) {
    MentionsAny(command, TestKeywords)
  }

  /**
   * What a shell command did: it returned an exit code, timed out, or raised
   * (it could not be started, or its output could not be decoded).
   */
  datatype ShellOutcome =
    | Finished(exitCode: int, stdout: string, stderr: string)
    | TimedOut
    | Raised(error: string)
  {
    /** Combined output as the agent sees it: stdout followed by stderr. */
    function Output(): string
      requires Finished?
    {
      stdout + stderr
    }
  }

  /** The state after `run_shell(command)` with the given outcome. */
  function AfterShell(s: Snapshot, command: string, outcome: ShellOutcome): Snapshot
  {
    match outcome
    case Finished(code, _, _) =>
      if !(IsBuildCommand(command) || IsTestCommand(command)) then s
      else if code != 0 then
        s.(buildAttempted := true, buildPassed := false,
           lastError := Some(Suffix(outcome.Output(), ErrorTail)))
      else if IsTestCommand(command) then
        s.(buildAttempted := true, buildPassed := true, testAttempted := true, testPassed := true)
      else
        s.(buildAttempted := true, buildPassed := true)
    case _ => s
  }

  /**
   * `run_shell` keeps the state consistent; an unclassified command, a
   * timeout or an error changes nothing; a classified command marks the
   * build attempted and passed exactly when it exits with 0, a passing
   * test-like command marks the tests attempted and passed, and a failure
   * records the tail of its output.
   */
  lemma AfterShellCharacterized(s: Snapshot, command: string, outcome: ShellOutcome)
    ensures var r := AfterShell(s, command, outcome);
      var classified := outcome.Finished? && (IsBuildCommand(command) || IsTestCommand(command));
      (s.Consistent() ==> r.Consistent()) &&
      (!classified ==> r == s) &&
      (classified ==> r.buildAttempted && (r.buildPassed <==> outcome.exitCode == 0)) &&
      (outcome.Finished? && outcome.exitCode == 0 ==>
        r.lastError == s.lastError &&
        r.testAttempted == (s.testAttempted || IsTestCommand(command)) &&
        r.testPassed == (s.testPassed || IsTestCommand(command))) &&
      (classified && outcome.exitCode != 0 ==>
        r.lastError == Some(Suffix(outcome.Output(), ErrorTail)) &&
        r.testAttempted == s.testAttempted && r.testPassed == s.testPassed)
  {
  }

  /**
   * A shell command verifies the build exactly when it is classified and
   * exits with 0; otherwise verification is lost on a classified failure and
   * kept as it was on anything else.
   */
  lemma ShellDecidesVerification(s: Snapshot, command: string, outcome: ShellOutcome)
    ensures var classified := outcome.Finished? && (IsBuildCommand(command) || IsTestCommand(command));
      AfterShell(s, command, outcome).Verified() <==>
        (classified && outcome.exitCode == 0) || (!classified && s.Verified())
  {
  }

  /** `./gradlew build` passing sets both build flags; failing records the tail of the output. */
  lemma GradlewBuildIsClassified(s: Snapshot, code: int, out: string, err: string)
    ensures IsBuildCommand("./gradlew build")
    ensures var r := AfterShell(s, "./gradlew build", Finished(code, out, err));
      r.buildAttempted && (r.buildPassed <==> code == 0) &&
      (code != 0 ==> r.lastError == Some(Suffix(out + err, ErrorTail)))
  {
    assert Lower("./gradlew build") == "./gradlew build";
    assert OccursAt("./gradlew build", "gradlew", 2);
    assert Contains(Lower("./gradlew build"), BuildKeywords[0]);
  }

  /** What a tool does to the build state: a write (raising or not), a shell command, or a read or listing. */
  datatype Event = Wrote(writeError: Option<string>) | Ran(command: string, outcome: ShellOutcome) | Inspected

  function Apply(s: Snapshot, e: Event): Snapshot {
    match e
    case Wrote(error) => if error.None? then Invalidated(s) else s
    case Ran(command, outcome) => AfterShell(s, command, outcome)
    case Inspected => s
  }

  /** The state after the events, in order. */
  function Replay(s: Snapshot, events: seq<Event>): Snapshot
    decreases |events|
  {
    if events == [] then s else Apply(Replay(s, events[..|events| - 1]), events[|events| - 1])
  }

  /** An event that settles verification: a write that does not raise, or a classified command that finished. */
  predicate Decisive(e: Event) {
    match e
    case Wrote(error) => error.None?
    case Ran(command, outcome) => outcome.Finished? && (IsBuildCommand(command) || IsTestCommand(command))
    case Inspected => false
  }

  /** A classified command that finished with exit code 0. */
  predicate Passing(e: Event) {
    Decisive(e) && e.Ran? && e.outcome.exitCode == 0
  }

  /** Replaying `e` and then `events` is replaying `events` from the state after `e`. */
  lemma {:induction false} ReplayCons(s: Snapshot, e: Event, events: seq<Event>)
    ensures Replay(s, [e] + events) == Replay(Apply(s, e), events)
    decreases |events|
  {
    if events != [] {
      var m := |events| - 1;
      assert ([e] + events)[..m + 1] == [e] + events[..m];
      assert ([e] + events)[m + 1] == events[m];
      ReplayCons(s, e, events[..m]);
    } else {
      assert ([e] + events)[..0] == [];
    }
  }

  /** One event verifies the build exactly when it passes, and keeps verification as it was when it is not decisive. */
  lemma ApplyVerified(s: Snapshot, e: Event)
    ensures Apply(s, e).Verified() <==> Passing(e) || (!Decisive(e) && s.Verified())
  {
    if e.Ran? {
      ShellDecidesVerification(s, e.command, e.outcome);
    }
  }

  /**
   * After a sequence of tool events the build is verified exactly when the
   * last decisive event is a build- or test-like command that exited with
   * 0: among the commands since the last successful write whose run
   * returned an exit code (a timeout or a raised error changes nothing),
   * the last classified one passed. With no decisive event, verification
   * is as it was before.
   */
  lemma {:induction false} ReplayVerified(s: Snapshot, events: seq<Event>)
    ensures Replay(s, events).Verified() <==>
      (exists k | 0 <= k < |events| :: Passing(events[k]) &&
         forall j | k < j < |events| :: !Decisive(events[j])) ||
      ((forall k | 0 <= k < |events| :: !Decisive(events[k])) && s.Verified())
    decreases |events|
  {
    if events != [] {
      var n := |events| - 1;
      var init := events[..n];
      ReplayVerified(s, init);
      ApplyVerified(Replay(s, init), events[n]);
      assert forall k | 0 <= k < n :: init[k] == events[k];
    }
  }

  /** A successful write followed by a passing command is verified; a later classified failure undoes it. */
  lemma WriteBuildThenFailingTest(s: Snapshot, out: string, err: string)
    ensures IsBuildCommand("./gradlew build") && IsTestCommand("make test")
    ensures Replay(s, [Wrote(None), Ran("./gradlew build", Finished(0, out, err))]).Verified()
    ensures !Replay(s, [Wrote(None), Ran("./gradlew build", Finished(0, out, err)),
                        Ran("make test", Finished(1, out, err))]).Verified()
  {
    GradlewBuildIsClassified(Invalidated(s), 0, out, err);
    assert Lower("make test") == "make test";
    assert OccursAt("make test", "test", 5);
    assert Contains(Lower("make test"), TestKeywords[0]);
    var two := [Wrote(None), Ran("./gradlew build", Finished(0, out, err))];
    var three := two + [Ran("make test", Finished(1, out, err))];
    assert three[..2] == two;
    assert two[..1] == [Wrote(None)];
    assert [Wrote(None)][..0] == [];
  }

  /**
   * A command that times out or raises after a passing build changes
   * nothing, even when it is build-like: the build stays verified.
   */
  lemma BuildThenUnfinishedStaysVerified(s: Snapshot, out: string, err: string, e: string)
    ensures Replay(s, [Wrote(None), Ran("./gradlew build", Finished(0, out, err)), Ran("./gradlew test", TimedOut)]).Verified()
    ensures Replay(s, [Wrote(None), Ran("./gradlew build", Finished(0, out, err)), Ran("./gradlew build", Raised(e))]).Verified()
  {
    var two := [Wrote(None), Ran("./gradlew build", Finished(0, out, err))];
    WriteBuildThenFailingTest(s, out, err);
    assert (two + [Ran("./gradlew test", TimedOut)])[..2] == two;
    assert (two + [Ran("./gradlew build", Raised(e))])[..2] == two;
  }

  /** The mutable build state the agent keeps for the task in progress. */
  class BuildState {
    var buildAttempted: bool
    var buildPassed: bool
    var testAttempted: bool
    var testPassed: bool
    var lastError: Option<string>

    function Snap(): Snapshot
      reads this
    {
      Snapshot(buildAttempted, buildPassed, testAttempted, testPassed, lastError)
    }

    /** `is_verified`. */
    predicate IsVerified()
      reads this
    {
      Snap().Verified()
    }

    constructor ()
      ensures Snap() == Initial()
    {
      buildAttempted, buildPassed := false, false;
      testAttempted, testPassed := false, false;
      lastError := None;
    }

    /** `reset`: back to the initial state. */
    method Reset()
      modifies this
      ensures Snap() == Initial()
    {
      buildAttempted, buildPassed := false, false;
      testAttempted, testPassed := false, false;
      lastError := None;
    }

    /** What `write_file` does to the state after the file was written. */
    method InvalidateBuild()
      modifies this
      ensures Snap() == Invalidated(old(Snap()))
    {
      buildPassed := false;
      buildAttempted := false;
    }

    /** What `run_shell` records for a command classified as build-like or test-like. */
    method RecordCommand(isTest: bool, exitCode: int, output: string)
      modifies this
      ensures buildAttempted && (buildPassed <==> exitCode == 0)
      ensures exitCode == 0 ==>
        testAttempted == (old(testAttempted) || isTest) &&
        testPassed == (old(testPassed) || isTest) && lastError == old(lastError)
      ensures exitCode != 0 ==>
        testAttempted == old(testAttempted) && testPassed == old(testPassed) &&
        lastError == Some(Suffix(output, ErrorTail))
    {
      buildAttempted := true;
      if exitCode == 0 {
        buildPassed := true;
        if isTest {
          testAttempted := true;
          testPassed := true;
        }
      } else {
        buildPassed := false;
        lastError := Some(Suffix(output, ErrorTail));
      }
    }
  }
}
