/** `components/PipelineMonitor.tsx`: the orchestrator panel. Modelled are the
    icon of each pipeline stage, given the stage the run is in, and the icon
    of each artifact type. Stages are the strings the pipeline sets
    ("PULL" … "DONE", and "ERROR" when a run fails). */
module PipelineMonitor {
  import opened Seqs

  /** `stagesOrder`. */
  const StagesOrder: seq<string> := ["PULL", "RESAMPLE", "QC", "COST", "EXECUTE", "BACKTEST", "PORTFOLIO", "DONE"]

  /** The stages the panel lists, in order: every stage but DONE. */
  const Listed: seq<string> := ["PULL", "RESAMPLE", "QC", "COST", "EXECUTE", "BACKTEST", "PORTFOLIO"]

  /** `xs.indexOf(x)`: the first position of `x`, or −1. */
  function IndexOf(xs: seq<string>, x: string): (r: int)
    ensures -1 <= r < |xs|
    ensures r == -1 <==> x !in xs
    ensures r >= 0 ==> xs[r] == x && x !in xs[..r]
  {
    if xs == [] then -1
    else if xs[0] == x then 0
    else
      var k := IndexOf(xs[1..], x);
      if k == -1 then -1
      else
        assert xs[..k + 1] == [xs[0]] + xs[1..][..k];
        k + 1
  }

  /** In a list without repeats, the element at position `i` is found there. */
  lemma IndexOfDistinct(xs: seq<string>, i: int)
    requires Distinct(xs) && 0 <= i < |xs|
    ensures IndexOf(xs, xs[i]) == i
  {
  }

  lemma StagesOrderDistinct()
    ensures Distinct(StagesOrder)
    ensures Listed == StagesOrder[..7] && StagesOrder[7] == "DONE"
  {
    var o := StagesOrder;
    assert o[0][1] == 'U' && o[1][0] == 'R' && o[2][0] == 'Q' && o[3][0] == 'C';
    assert o[4][0] == 'E' && o[5][0] == 'B' && o[6][1] == 'O' && o[7][0] == 'D';
  }

  datatype StageIcon = ErrorIcon | Complete | Active | Pending

  /** `getStageIcon(target)` while the run is at `stage`. */
  function GetStageIcon(stage: string, target: string): StageIcon
  {
    var current := IndexOf(StagesOrder, stage);
    var t := IndexOf(StagesOrder, target);
    if stage == "ERROR" && t == current then ErrorIcon
    else if target == "DONE" then (if stage == "DONE" then Complete else Pending)
    else if stage == "DONE" || current > t then Complete
    else if current == t then Active
    else Pending
  }

  /** For a stage of the order, a listed stage before it is complete, the
      stage itself is active and the stages after it are pending; at DONE
      every stage is complete; the DONE step is complete exactly at DONE. A
      stage outside the order (ERROR, or none yet) shows every listed stage
      pending, so the error icon never appears in the list. */
  lemma GetStageIconSpec(stage: string, i: int)
    requires 0 <= i < |Listed|
    ensures stage == "DONE" ==> GetStageIcon(stage, Listed[i]) == Complete
    ensures forall c :: 0 <= c < 7 && stage == StagesOrder[c] ==>
      GetStageIcon(stage, Listed[i]) == (if i < c then Complete else if i == c then Active else Pending)
    ensures stage !in StagesOrder ==> GetStageIcon(stage, Listed[i]) == Pending
    ensures GetStageIcon(stage, Listed[i]) != ErrorIcon
    ensures GetStageIcon(stage, "DONE") == Complete <==> stage == "DONE"
  {
    StagesOrderDistinct();
    ErrorIsNoStage();
    IndexOfDistinct(StagesOrder, i);
    IndexOfDistinct(StagesOrder, 7);
    var target := Listed[i];
    assert target == StagesOrder[i] && target != StagesOrder[7];
    assert IndexOf(StagesOrder, target) == i && IndexOf(StagesOrder, "DONE") == 7;
    forall c | 0 <= c < 7 && stage == StagesOrder[c]
      ensures GetStageIcon(stage, Listed[i]) == (if i < c then Complete else if i == c then Active else Pending)
    {
      StageIconWhileRunning(c, i);
    }
  }

  /** ERROR is not a stage of the order. */
  lemma ErrorIsNoStage()
    ensures "ERROR" !in StagesOrder
  {
    var o := StagesOrder;
    assert "ERROR"[0] == 'E' && "ERROR"[1] == 'R';
    assert o[0][0] == 'P' && o[1][0] == 'R' && o[2][0] == 'Q' && o[3][0] == 'C';
    assert o[4][1] == 'X' && o[5][0] == 'B' && o[6][0] == 'P' && o[7][0] == 'D';
  }

  /** While listed stage `c` runs, listed stage `i` is complete before it,
      active at it and pending after it. */
  lemma StageIconWhileRunning(c: int, i: int)
    requires 0 <= c < 7 && 0 <= i < 7
    ensures GetStageIcon(StagesOrder[c], Listed[i]) == (if i < c then Complete else if i == c then Active else Pending)
  {
    StagesOrderDistinct();
    ErrorIsNoStage();
    IndexOfDistinct(StagesOrder, i);
    IndexOfDistinct(StagesOrder, c);
    var stage, target := StagesOrder[c], Listed[i];
    assert target == StagesOrder[i];
    assert IndexOf(StagesOrder, stage) == c && IndexOf(StagesOrder, target) == i;
    assert stage != "ERROR" && stage != StagesOrder[7] && target != StagesOrder[7];
  }

  /** The icons of the listed stages, top to bottom. */
  function StageIcons(stage: string): (icons: seq<StageIcon>)
    ensures |icons| == |Listed|
    ensures forall i :: 0 <= i < |Listed| ==> icons[i] == GetStageIcon(stage, Listed[i])
  {
    seq(|Listed|, i requires 0 <= i < |Listed| => GetStageIcon(stage, Listed[i]))
  }

  /** While a listed stage runs, the list reads complete…, active, pending…:
      exactly one stage is active and every complete stage precedes it. */
  lemma StageIconsProgress(c: int)
    requires 0 <= c < 7
    ensures var icons := StageIcons(StagesOrder[c]);
      icons[c] == Active &&
      (forall i :: 0 <= i < |icons| && icons[i] == Active ==> i == c) &&
      (forall i :: 0 <= i < |icons| && icons[i] == Complete ==> i < c)
  {
    var icons := StageIcons(StagesOrder[c]);
    forall i | 0 <= i < |icons|
      ensures icons[i] == (if i < c then Complete else if i == c then Active else Pending)
    {
      GetStageIconSpec(StagesOrder[c], i);
    }
  }

  datatype FileIcon = DatabaseIcon | ReportIcon | TableIcon | DefaultIcon

  /** `getFileIcon(type)`. */
  function GetFileIcon(kind: string): FileIcon
  {
    if kind == "DB" then DatabaseIcon
    else if kind == "REPORT" then ReportIcon
    else if kind == "FILE" then TableIcon
    else DefaultIcon
  }

  /** DB, REPORT and FILE each have their own icon; every other type gets the
      default one. */
  lemma GetFileIconSpec(kind: string, kind': string)
    ensures GetFileIcon(kind) == DefaultIcon <==> kind !in {"DB", "REPORT", "FILE"}
    ensures GetFileIcon(kind) != DefaultIcon && GetFileIcon(kind) == GetFileIcon(kind') ==> kind == kind'
  {
  }
}
