/**
 * The orchestration job: four operations wired in a line, scrape, load, dbt
 * transformation, YOLO enrichment. Each operation runs one external command
 * and raises when that command exits with a non-zero code; an operation starts
 * only once its predecessor has returned, so the first failure ends the run.
 */
module Pipeline {
  import opened Wrappers

  /** The four operations of the job, in wiring order. */
  datatype Stage = Scrape | Load | Transform | Enrich

  /** The stages as the job wires them. */
  const Stages: seq<Stage> := [Scrape, Load, Transform, Enrich]

  /** What `subprocess.run` reports about a stage's command. */
  datatype Completed = Completed(returnCode: int, stderr: string)

  /** An operation either returns its completion message or raises with an error text. */
  datatype OpResult = Returned(message: string) | Raised(error: string)

  /** The message an operation returns on success. */
  function CompletionMessage(stage: Stage): string {
    match stage
    case Scrape => "Scraping completed"
    case Load => "Loading completed"
    case Transform => "dbt transformation completed"
    case Enrich => "YOLO enrichment completed"
  }

  /** The text an operation's exception starts with, before the captured stderr. */
  function FailurePrefix(stage: Stage): string {
    match stage
    case Scrape => "Scraper failed: "
    case Load => "Loading failed: "
    case Transform => "dbt run failed: "
    case Enrich => "YOLO detection failed: "
  }

  /**
   * One operation: it raises iff its command's return code is non-zero, with the
   * stage's prefix followed by the command's stderr; otherwise it returns the
   * stage's completion message.
   */
  function RunOp(stage: Stage, proc: Completed): (r: OpResult)
    ensures r.Returned? <==> proc.returnCode == 0
    ensures r.Returned? ==> r.message == CompletionMessage(stage)
    ensures r.Raised? ==> FailurePrefix(stage) <= r.error && r.error[|FailurePrefix(stage)|..] == proc.stderr
  {
    if proc.returnCode != 0 then Raised(FailurePrefix(stage) + proc.stderr)
    else Returned(CompletionMessage(stage))
  }

  /** An exception text names the stage that raised it and carries that stage's stderr. */
  lemma FailureIdentifiesStage(s1: Stage, p1: Completed, s2: Stage, p2: Completed)
    requires RunOp(s1, p1).Raised? && RunOp(s1, p1) == RunOp(s2, p2)
    ensures s1 == s2 && p1.stderr == p2.stderr
  {
    var e := RunOp(s1, p1).error;
    assert e[0] == FailurePrefix(s1)[0] && e[0] == FailurePrefix(s2)[0];
  }

  /** A completion message names the stage that returned it. */
  lemma CompletionIdentifiesStage(s1: Stage, p1: Completed, s2: Stage, p2: Completed)
    requires RunOp(s1, p1).Returned? && RunOp(s1, p1) == RunOp(s2, p2)
    ensures s1 == s2
  {
    var m := RunOp(s1, p1).message;
    assert m[0] == CompletionMessage(s1)[0] && m[0] == CompletionMessage(s2)[0];
  }

  /** Where a stage stands at the end of a run. */
  datatype Status = Pending | Succeeded(output: string) | Failed(error: string)

  /** A run: the status of each stage considered so far, and the stages launched, in launch order. */
  datatype JobRun = JobRun(statuses: seq<Status>, launched: seq<Stage>)

  /** The index of the first non-zero return code, or `|procs|` when there is none. */
  function FirstFailure(procs: seq<Completed>): (f: nat)
    ensures f <= |procs|
    ensures forall i :: 0 <= i < f ==> procs[i].returnCode == 0
    ensures f < |procs| ==> procs[f].returnCode != 0
  {
    if |procs| == 0 then 0
    else if procs[0].returnCode != 0 then 0
    else 1 + FirstFailure(procs[1..])
  }

  /**
   * The status stage `i` ends a run with: succeeded before
   * the first failing command, failed with that stage's error at it, pending
   * after it.
   */
  function ExpectedStatus(procs: seq<Completed>, i: nat): Status
    requires i < |procs| && |procs| == |Stages|
  {
    var f := FirstFailure(procs);
    if i < f then Succeeded(CompletionMessage(Stages[i]))
    else if i == f then Failed(FailurePrefix(Stages[i]) + procs[i].stderr)
    else Pending
  }

  /** The smaller of two numbers. */
  function Min(a: nat, b: nat): nat {
    if a <= b then a else b
  }

  /**
   * The job as a fold over its first `k` stages: a stage is launched only when
   * it is the first one or its predecessor succeeded (its output is the
   * stage's input); otherwise it stays pending.
   */
  function RunPrefix(procs: seq<Completed>, k: nat): (run: JobRun)
    requires |procs| == |Stages| && k <= |Stages|
    ensures |run.statuses| == k
    ensures forall i :: 0 <= i < k ==> run.statuses[i] == ExpectedStatus(procs, i)
    ensures run.launched == Stages[..Min(k, FirstFailure(procs) + 1)]
  {
    if k == 0 then JobRun([], [])
    else
      var prev := RunPrefix(procs, k - 1);
      var stage := Stages[k - 1];
      var upstream := if k == 1 then Some("") else
                        match prev.statuses[k - 2]
                        case Succeeded(output) => Some(output)
                        case _ => None;
      var f := FirstFailure(procs);
      assert upstream.Some? <==> k - 1 <= f by {
        if k > 1 {
          assert prev.statuses[k - 2] == ExpectedStatus(procs, k - 2);
        }
      }
      match upstream
      case None =>
        assert Min(k, f + 1) == Min(k - 1, f + 1);
        JobRun(prev.statuses + [Pending], prev.launched)
      case Some(_) =>
        var status := match RunOp(stage, procs[k - 1])
                      case Returned(message) => Succeeded(message)
                      case Raised(error) => Failed(error);
        assert status == ExpectedStatus(procs, k - 1);
        assert Stages[..k] == Stages[..k - 1] + [stage];
        JobRun(prev.statuses + [status], prev.launched + [stage])
  }

  /**
   * `medical_pipeline_job`: all four stages, wired in line. Every stage ends
   * with its expected status, and the launched stages are the wiring order up
   * to and including the first failure.
   */
  function RunJob(procs: seq<Completed>): (run: JobRun)
    requires |procs| == |Stages|
    ensures |run.statuses| == |Stages|
    ensures forall i :: 0 <= i < |Stages| ==> run.statuses[i] == ExpectedStatus(procs, i)
    ensures run.launched == Stages[..Min(|Stages|, FirstFailure(procs) + 1)]
  {
    RunPrefix(procs, |Stages|)
  }

  /** True iff every stage of the run succeeded. */
  predicate RunSucceeded(run: JobRun) {
    forall i :: 0 <= i < |run.statuses| ==> run.statuses[i].Succeeded?
  }

  /** The run succeeds iff every command exits with code 0. */
  lemma RunSucceedsIff(procs: seq<Completed>)
    requires |procs| == |Stages|
    ensures RunSucceeded(RunJob(procs)) <==> forall i :: 0 <= i < |procs| ==> procs[i].returnCode == 0
  {
    var run := RunJob(procs);
    var f := FirstFailure(procs);
    if f < |procs| {
      assert run.statuses[f].Failed?;
    }
  }

  /**
   * Fail-fast: when stage `k`'s command fails, stage `k` is reported failed with
   * its stderr, and no later stage is launched or leaves `Pending`.
   */
  lemma FailFast(procs: seq<Completed>, k: nat)
    requires |procs| == |Stages| && k < |Stages|
    requires procs[k].returnCode != 0
    requires forall i :: 0 <= i < k ==> procs[i].returnCode == 0
    ensures RunJob(procs).statuses[k] == Failed(FailurePrefix(Stages[k]) + procs[k].stderr)
    ensures forall j :: k < j < |Stages| ==> RunJob(procs).statuses[j] == Pending
    ensures forall j :: k < j < |Stages| ==> Stages[j] !in RunJob(procs).launched
  {
    var f := FirstFailure(procs);
    assert f == k;
    var launched := RunJob(procs).launched;
    assert launched == Stages[..k + 1];
    forall j | k < j < |Stages|
      ensures Stages[j] !in launched
    {
      assert forall i :: 0 <= i <= k ==> Stages[i] != Stages[j];
    }
  }

  /**
   * Order and uniqueness: stages are launched in wiring order, each at most once,
   * and every launched stage after the first had a succeeded predecessor.
   */
  lemma LaunchOrder(procs: seq<Completed>)
    requires |procs| == |Stages|
    ensures RunJob(procs).launched <= Stages
    ensures forall i, j :: 0 <= i < j < |RunJob(procs).launched| ==> RunJob(procs).launched[i] != RunJob(procs).launched[j]
    ensures forall i :: 0 <= i && i + 1 < |RunJob(procs).launched| ==> RunJob(procs).statuses[i].Succeeded?
  {
  }

  /** When loading fails, the later stages stay pending. */
  lemma LoadFailureScenario(scrape: Completed, load: Completed, dbt: Completed, yolo: Completed)
    requires scrape.returnCode == 0 && load.returnCode != 0
    ensures RunJob([scrape, load, dbt, yolo]).statuses
            == [Succeeded("Scraping completed"), Failed("Loading failed: " + load.stderr), Pending, Pending]
    ensures RunJob([scrape, load, dbt, yolo]).launched == [Scrape, Load]
  {
    var procs := [scrape, load, dbt, yolo];
    assert FirstFailure(procs) == 1 by {
      assert procs[1..][0] == load;
    }
    var run := RunJob(procs);
    assert run.statuses[0] == ExpectedStatus(procs, 0);
    assert run.statuses[1] == ExpectedStatus(procs, 1);
    assert run.statuses[2] == ExpectedStatus(procs, 2);
    assert run.statuses[3] == ExpectedStatus(procs, 3);
  }

  /**
   * The executor: launches the stages one after another, feeding each the
   * output of its predecessor, and stops launching at the first failure.
   */
  method ExecuteJob(procs: seq<Completed>) returns (statuses: seq<Status>, launched: seq<Stage>)
    requires |procs| == |Stages|
    ensures JobRun(statuses, launched) == RunJob(procs)
    ensures |statuses| == |Stages|
    ensures forall i :: 0 <= i < |Stages| ==> statuses[i] == ExpectedStatus(procs, i)
  {
    statuses := [];
    launched := [];
    var upstream: Option<string> := Some("");
    var k := 0;
    while k < |Stages|
      invariant 0 <= k <= |Stages|
      invariant JobRun(statuses, launched) == RunPrefix(procs, k)
      invariant upstream.Some? <==> k == 0 || statuses[k - 1].Succeeded?
      invariant k > 0 && statuses[k - 1].Succeeded? ==> upstream == Some(statuses[k - 1].output)
    {
      if upstream.Some? {
        var result := RunOp(Stages[k], procs[k]);
        match result {
          case Returned(message) =>
            statuses := statuses + [Succeeded(message)];
            upstream := Some(message);
          case Raised(error) =>
            statuses := statuses + [Failed(error)];
            upstream := None;
        }
        launched := launched + [Stages[k]];
      } else {
        statuses := statuses + [Pending];
      }
      k := k + 1;
    }
  }
}
