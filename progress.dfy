/** Step and item progress reporting (internal/ui/progress.go): the
    `ProgressTracker` counters, the lines it prints, and the stand-alone
    formatting helpers. Styling is dropped; a printed line is returned as
    its plain text. */
module Progress {
  import opened Text
  import opened Manifest

  /** "[current/total]", for positive counts. */
  function Counter(current: int, total: int): string
    requires current > 0 && total > 0
  {
    "[" + NatToString(current) + "/" + NatToString(total) + "]"
  }

  /** The counter is shown only when both counts are positive. */
  predicate ShowsCounter(current: int, total: int) {
    total > 0 && current > 0
  }

  /** `FormatProgress`. */
  function FormatProgress(current: int, total: int, msg: string): string {
    if ShowsCounter(current, total) then Counter(current, total) + " " + msg else msg
  }

  /** `FormatProgressWithIcon`. */
  function FormatProgressWithIcon(icon: string, current: int, total: int, msg: string): string {
    if ShowsCounter(current, total) then icon + " " + Counter(current, total) + " " + msg else icon + " " + msg
  }

  /** The message always ends the text; it is preceded by "[c/t] " exactly
      when both counts are positive, and is the whole text otherwise. */
  lemma FormatProgressShape(current: int, total: int, msg: string)
    ensures var r := FormatProgress(current, total, msg);
            && |r| >= |msg| && r[|r| - |msg|..] == msg
            && (r == msg <==> !ShowsCounter(current, total))
            && (ShowsCounter(current, total) ==> r[0] == '[' && r[..|r| - |msg|] == Counter(current, total) + " ")
  {
    var r := FormatProgress(current, total, msg);
    if ShowsCounter(current, total) {
      assert r == (Counter(current, total) + " ") + msg;
      assert |r| > |msg|;
    }
  }

  /** The icon and a space always come first and the message last; the
      counter sits between them exactly when both counts are positive. */
  lemma FormatProgressWithIconShape(icon: string, current: int, total: int, msg: string)
    ensures var r := FormatProgressWithIcon(icon, current, total, msg);
            && r[..|icon| + 1] == icon + " "
            && |r| >= |msg| && r[|r| - |msg|..] == msg
            && (|r| == |icon| + 1 + |msg| <==> !ShowsCounter(current, total))
            && (ShowsCounter(current, total) ==>
                  r == icon + " " + FormatProgress(current, total, msg))
  {
    var r := FormatProgressWithIcon(icon, current, total, msg);
    if ShowsCounter(current, total) {
      assert r == (icon + " ") + (Counter(current, total) + " " + msg);
    } else {
      assert r == (icon + " ") + msg;
    }
  }

  const SuccessIcon := "\U{2713}"
  const ErrorIcon := "\U{2716}"
  const WarningIcon := "\U{26a0}"
  const SkipIcon := "\U{2298}"

  // ---------------------------------------------------------------------
  // Step summaries

  /** One part of a step summary. */
  datatype Part = Succeeded(n: int) | Failed(n: int) | Skipped(n: int)

  function Rank(p: Part): nat {
    match p
    case Succeeded(_) => 0
    case Failed(_) => 1
    case Skipped(_) => 2
  }

  function RenderPart(p: Part): string
    requires p.n > 0
  {
    match p
    case Succeeded(n) => NatToString(n) + " succeeded"
    case Failed(n) => NatToString(n) + " failed"
    case Skipped(n) => NatToString(n) + " skipped"
  }

  /** The parts `StepSummary` emits. */
  function SummaryParts(success: int, failed: int, skipped: int): seq<Part> {
    (if success > 0 then [Succeeded(success)] else [])
    + (if failed > 0 then [Failed(failed)] else [])
    + (if skipped > 0 then [Skipped(skipped)] else [])
  }

  /** Parts joined with ", ". */
  function JoinParts(parts: seq<Part>): string
    requires forall k :: 0 <= k < |parts| ==> parts[k].n > 0
  {
    if parts == [] then ""
    else if |parts| == 1 then RenderPart(parts[0])
    else RenderPart(parts[0]) + ", " + JoinParts(parts[1..])
  }

  /** A part for each non-zero count only, always in the order succeeded,
      failed, skipped, each with its own count. */
  lemma SummaryPartsOrder(success: int, failed: int, skipped: int)
    ensures var parts := SummaryParts(success, failed, skipped);
            && (forall k :: 0 <= k < |parts| ==> parts[k].n > 0)
            && (forall i, j :: 0 <= i < j < |parts| ==> Rank(parts[i]) < Rank(parts[j]))
            && (Succeeded(success) in parts <==> success > 0)
            && (Failed(failed) in parts <==> failed > 0)
            && (Skipped(skipped) in parts <==> skipped > 0)
            && |parts| <= 3
  {
  }

  // ---------------------------------------------------------------------
  // The tracker

  class ProgressTracker {
    var currentStep: int
    var totalSteps: int
    var steps: seq<string>
    var currentItem: int
    var totalItems: int
    var currentTask: string
    var showProgress: bool

    /** The step count matches the step names and the current step is 0
        (none started) or one of them. */
    predicate Valid()
      reads this
    {
      totalSteps == |steps| && 0 <= currentStep <= totalSteps
    }

    /** `NewProgressTracker`. */
    constructor (steps: seq<string>)
      ensures this.steps == steps && totalSteps == |steps| && showProgress
      ensures currentStep == 0 && currentItem == 0 && totalItems == 0 && currentTask == ""
      ensures Valid()
    {
      this.steps := steps;
      totalSteps := |steps|;
      showProgress := true;
      currentStep := 0;
      currentItem := 0;
      totalItems := 0;
      currentTask := "";
    }

    /** "Step n/t: name" for an in-range step. */
    function Header(stepNum: int): string
      reads this
      requires Valid() && 1 <= stepNum <= totalSteps
    {
      "Step " + NatToString(stepNum) + "/" + NatToString(totalSteps) + ": " + steps[stepNum - 1]
    }

    /** `StartStep`: an out-of-range step number changes nothing and prints
        nothing; otherwise the step becomes current with no items. */
    method StartStep(stepNum: int) returns (header: Option<string>)
      requires Valid()
      modifies this
      ensures Valid()
      ensures stepNum < 1 || stepNum > old(totalSteps) ==>
                header.None? && unchanged(this)
      ensures 1 <= stepNum <= old(totalSteps) ==>
                && currentStep == stepNum && currentItem == 0 && totalItems == 0
                && totalSteps == old(totalSteps) && steps == old(steps)
                && currentTask == old(currentTask) && showProgress == old(showProgress)
                && header == Some(Header(stepNum))
    {
      if stepNum < 1 || stepNum > totalSteps {
        return None;
      }
      currentStep := stepNum;
      currentItem := 0;
      totalItems := 0;
      header := Some(Header(stepNum));
    }

    /** `SetItemCount`: only the item total changes. */
    method SetItemCount(total: int)
      requires Valid()
      modifies this
      ensures Valid()
      ensures totalItems == total
      ensures currentStep == old(currentStep) && totalSteps == old(totalSteps) && steps == old(steps)
      ensures currentItem == old(currentItem) && currentTask == old(currentTask) && showProgress == old(showProgress)
    {
      totalItems := total;
    }

    /** `NextItem`: the item counter moves by one and the task is recorded. */
    method NextItem(taskName: string)
      requires Valid()
      modifies this
      ensures Valid()
      ensures currentItem == old(currentItem) + 1 && currentTask == taskName
      ensures currentStep == old(currentStep) && totalSteps == old(totalSteps) && steps == old(steps)
      ensures totalItems == old(totalItems) && showProgress == old(showProgress)
    {
      currentItem := currentItem + 1;
      currentTask := taskName;
    }

    /** Whether the printed lines carry the item counter. */
    predicate CounterVisible()
      reads this
    {
      ShowsCounter(currentItem, totalItems)
    }

    /** A printed line: two spaces, then the counter when it is visible,
        then the icon if any, then the message. */
    function Line(icon: string, msg: string): string
      reads this
    {
      "  " + (if CounterVisible() then Counter(currentItem, totalItems) + " " else "")
      + (if icon == "" then "" else icon + " ") + msg
    }

    /** `Progress`: nothing when progress is hidden. */
    method ProgressLine(msg: string) returns (line: Option<string>)
      ensures !showProgress ==> line.None?
      ensures showProgress ==> line == Some(Line("", msg))
    {
      if !showProgress {
        return None;
      }
      var output: string;
      if totalItems > 0 && currentItem > 0 {
        output := "  " + Counter(currentItem, totalItems) + " " + msg;
      } else {
        output := "  " + msg;
      }
      assert Line("", msg) == output;
      return Some(output);
    }

    /** `ProgressSuccess`, `ProgressError`, `ProgressWarning` and
        `ProgressSkip`: the same line with their own icon (`SuccessIcon`,
        `ErrorIcon`, `WarningIcon`, `SkipIcon`); unlike `Progress` they print
        whether or not progress is shown. */
    method IconLine(icon: string, msg: string) returns (line: string)
      requires icon != ""
      ensures line == Line(icon, msg)
    {
      if totalItems > 0 && currentItem > 0 {
        line := "  " + Counter(currentItem, totalItems) + " " + icon + " " + msg;
        assert Line(icon, msg) == "  " + (Counter(currentItem, totalItems) + " ") + (icon + " ") + msg;
      } else {
        line := "  " + icon + " " + msg;
        assert Line(icon, msg) == "  " + "" + (icon + " ") + msg;
      }
    }

    /** `StepSummary`: the non-zero parts, or no line at all. */
    method StepSummary(success: int, failed: int, skipped: int) returns (line: Option<string>)
      ensures SummaryParts(success, failed, skipped) == [] ==> line.None?
      ensures SummaryParts(success, failed, skipped) != [] ==>
                line == Some("  " + JoinParts(SummaryParts(success, failed, skipped)))
    {
      var parts: seq<Part> := [];
      if success > 0 {
        parts := parts + [Succeeded(success)];
      }
      if failed > 0 {
        parts := parts + [Failed(failed)];
      }
      if skipped > 0 {
        parts := parts + [Skipped(skipped)];
      }
      assert parts == SummaryParts(success, failed, skipped);
      if |parts| > 0 {
        return Some("  " + JoinParts(parts));
      }
      return None;
    }
  }

  // ---------------------------------------------------------------------
  // Properties of the tracker's lines

  /** The item counter appears exactly when both counts are positive, right
      after the indentation, and the message always ends the line. */
  lemma CounterRule(t: ProgressTracker, icon: string, msg: string)
    ensures var line := t.Line(icon, msg);
            && line[..2] == "  "
            && line[|line| - |msg|..] == msg
            && (t.CounterVisible() <==> t.totalItems > 0 && t.currentItem > 0)
            && (t.CounterVisible() ==> line[2] == '[')
            && (!t.CounterVisible() ==> line == "  " + (if icon == "" then "" else icon + " ") + msg)
  {
  }
}
