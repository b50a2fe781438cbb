/**
 * A block of trials: the specification rows read from one CSV file, the trials
 * built from them, the task chosen by the file-name prefix, and the run that
 * presents every trial in order. Instruction screens and pauses are
 * presentation only and are not modelled.
 */
module Blocks {
  import opened Options
  import opened Trial

  /** Python's `str.startswith`. */
  predicate StartsWith(s: string, prefix: string)
  {
    |prefix| <= |s| && s[..|prefix|] == prefix
  }

  /** The block type a file name selects: "ft…" is flanker, "st…" is Stroop, anything else none. */
  function DispatchType(csvFile: string): (t: Option<string>)
    ensures t == Some("flanker") <==> StartsWith(csvFile, "ft")
    ensures t == Some("stroop") <==> StartsWith(csvFile, "st")
    ensures t.None? <==> !StartsWith(csvFile, "ft") && !StartsWith(csvFile, "st")
  {
    if StartsWith(csvFile, "ft") then Some("flanker")
    else if StartsWith(csvFile, "st") then Some("stroop")
    else None
  }

  /** Every specification row unpacks into two values. */
  predicate WellFormed(rows: seq<seq<string>>)
  {
    forall k :: 0 <= k < |rows| ==> |rows[k]| == 2
  }

  function FlankerSpecs(rows: seq<seq<string>>): (specs: seq<TrialSpec>)
    requires WellFormed(rows)
    ensures |specs| == |rows|
  {
    seq(|rows|, k requires 0 <= k < |rows| => FlankerSpec(rows[k][0], rows[k][1]))
  }

  function StroopSpecs(rows: seq<seq<string>>): (specs: seq<TrialSpec>)
    requires WellFormed(rows)
    ensures |specs| == |rows|
  {
    seq(|rows|, k requires 0 <= k < |rows| => StroopSpec(rows[k][0], rows[k][1]))
  }

  /** The trials the task selected by the file name builds from the rows: none when the name selects no task. */
  function TaskSpecs(csvFile: string, rows: seq<seq<string>>): (specs: seq<TrialSpec>)
    requires DispatchType(csvFile).Some? ==> WellFormed(rows)
    ensures |specs| == if DispatchType(csvFile).Some? then |rows| else 0
    ensures forall k :: 0 <= k < |specs| ==>
      specs[k] == if StartsWith(csvFile, "ft") then FlankerSpec(rows[k][0], rows[k][1]) else StroopSpec(rows[k][0], rows[k][1])
  {
    match DispatchType(csvFile)
    case Some("flanker") => FlankerSpecs(rows)
    case Some("stroop") => StroopSpecs(rows)
    case _ => []
  }

  /** The data of trials built from `specs`, trial `k` answered with `rs[k]`. */
  function Records(specs: seq<TrialSpec>, rs: seq<Response>): (ds: seq<TrialData>)
    requires |specs| == |rs| && forall k :: 0 <= k < |rs| ==> |rs[k].keys| > 0
    ensures |ds| == |specs|
  {
    seq(|specs|, k requires 0 <= k < |specs| => Record(specs[k], rs[k]))
  }

  /** The specification each trial of a sequence was built from. */
  function SpecsOf(trials: seq<TrialRef>): (specs: seq<TrialSpec>)
    ensures |specs| == |trials|
  {
    seq(|trials|, k requires 0 <= k < |trials| => trials[k].Spec())
  }

  /** No trial object occurs twice. */
  ghost predicate DistinctTrials(trials: seq<TrialRef>)
  {
    forall i, j :: 0 <= i < j < |trials| ==> trials[i].Obj() != trials[j].Obj()
  }

  /** Swapping two trials swaps their specifications and keeps the trial objects distinct. */
  lemma SwapKeepsTrials(t: seq<TrialRef>, i: nat, j: nat)
    requires i < |t| && j < |t| && DistinctTrials(t)
    ensures DistinctTrials(t[i := t[j]][j := t[i]])
    ensures SpecsOf(t[i := t[j]][j := t[i]]) == SpecsOf(t)[i := SpecsOf(t)[j]][j := SpecsOf(t)[i]]
  {
    var s := t[i := t[j]][j := t[i]];
    forall p, q | 0 <= p < q < |s|
      ensures s[p].Obj() != s[q].Obj()
    {
      var p' := if p == i then j else if p == j then i else p;
      var q' := if q == i then j else if q == j then i else q;
      assert s[p] == t[p'] && s[q] == t[q'];
    }
  }

  /** The trial objects of a list. */
  ghost function Objs(ts: seq<TrialRef>): set<object>
  {
    set k | 0 <= k < |ts| :: ts[k].Obj()
  }

  /** `for trial in self.trials: trial.run()`: trial `k` is answered by `responses[k]`. */
  method RunTrials(ts: seq<TrialRef>, responses: seq<Response>)
    requires |responses| == |ts| && DistinctTrials(ts)
    requires forall k :: 0 <= k < |ts| ==> |responses[k].keys| > 0
    modifies Objs(ts)
    ensures forall k :: 0 <= k < |ts| ==> State(ts[k]) == AfterRun(old(State(ts[k])), responses[k])
  {
    var k := 0;
    while k < |ts|
      invariant 0 <= k <= |ts|
      invariant forall j :: 0 <= j < |ts| ==> State(ts[j]) == if j < k then AfterRun(old(State(ts[j])), responses[j]) else old(State(ts[j]))
    {
      ghost var s := State(ts[k]);
      RunTrial(ts[k], responses[k]);
      assert State(ts[k]) == AfterRun(s, responses[k]);
      k := k + 1;
    }
  }

  /** `[trial.get_data_dict() for trial in self.trials]`. */
  method ReportTrials(ts: seq<TrialRef>) returns (ds: seq<TrialData>)
    requires DistinctTrials(ts) && forall k :: 0 <= k < |ts| ==> Answered(State(ts[k]))
    modifies Objs(ts)
    ensures |ds| == |ts|
    ensures forall k :: 0 <= k < |ts| ==> ds[k] == old(Data(State(ts[k]))) && State(ts[k]) == AfterReport(old(State(ts[k])))
  {
    ds := [];
    var k := 0;
    while k < |ts|
      invariant 0 <= k <= |ts| && |ds| == k
      invariant forall j :: 0 <= j < k ==> ds[j] == Data(old(State(ts[j])))
      invariant forall j :: 0 <= j < |ts| ==> State(ts[j]) == if j < k then AfterReport(old(State(ts[j]))) else old(State(ts[j]))
    {
      ghost var s := State(ts[k]);
      var d := GetTrialData(ts[k]);
      assert d == Data(s) && State(ts[k]) == AfterReport(s);
      ds := ds + [d];
      k := k + 1;
    }
  }

  /** The data dictionary of a block. */
  datatype BlockData = BlockData(
    csvFile: string,
    blockType: Option<string>,
    participantId: string,
    participantType: string,
    trials: seq<TrialData>)

  class Block {
    const csvFile: string
    const participantId: string
    const participantType: string
    /** The instruction text, when the block shows one before its trials. */
    const instruction: Option<string>
    var trialsSpecification: seq<seq<string>>
    var trials: seq<TrialRef>
    var blockType: Option<string>

    ghost predicate Valid()
      reads this
    {
      DistinctTrials(trials)
    }

    /** The trial objects of the block. */
    ghost function Footprint(): set<object>
      reads this
    {
      Objs(trials)
    }

    /** A block is never one of another block's trial objects. */
    lemma BlockNotTrial(other: Block)
      ensures other !in Footprint()
    {
      forall k | 0 <= k < |trials|
        ensures trials[k].Obj() != other
      {
        match trials[k]
        case FlankerRef(f) =>
        case StroopRef(s) =>
      }
    }

    /** The number of trials `Run` adds: one per specification row when the file name selects a task. */
    function Added(): nat
      reads this
    {
      if DispatchType(csvFile).Some? then |trialsSpecification| else 0
    }

    /** What `Run` may be given: a response for every trial the block will hold, each with a key. */
    ghost predicate Runnable(responses: seq<Response>)
      reads this
    {
      && Valid()
      && (DispatchType(csvFile).Some? ==> WellFormed(trialsSpecification))
      && |responses| == |trials| + Added()
      && forall k :: 0 <= k < |responses| ==> |responses[k].keys| > 0
    }

    /**
     * The data the block reports once run on `responses`: the block type its
     * file name selects (or the one it had), and the record of every trial it
     * then holds, those it held before followed by the new ones of its task.
     */
    ghost function Reported(responses: seq<Response>): BlockData
      reads this
      requires Runnable(responses)
    {
      var blockType' := if DispatchType(csvFile).Some? then DispatchType(csvFile) else blockType;
      BlockData(csvFile, blockType', participantId, participantType,
                Records(SpecsOf(trials) + TaskSpecs(csvFile, trialsSpecification), responses))
    }

    /** Reads the data rows of the file (`fileRows` holds every row, header first). */
    constructor (csvFile: string, fileRows: seq<seq<string>>, participantId: string, participantType: string,
                 instructionText: Option<string>)
      requires |fileRows| > 0
      ensures this.csvFile == csvFile && this.participantId == participantId && this.participantType == participantType
      ensures instruction == if instructionText.Some? && instructionText.value != "" then instructionText else None
      ensures trialsSpecification == fileRows[1..] && trials == [] && blockType == None
      ensures Valid()
    {
      this.csvFile := csvFile;
      this.participantId := participantId;
      this.participantType := participantType;
      instruction := if instructionText.Some? && instructionText.value != "" then instructionText else None;
      trialsSpecification := [];
      trials := [];
      blockType := None;
      new;
      ProcessCsv(fileRows);
    }

    /** Skips the header row and appends every other row, in file order. */
    method ProcessCsv(fileRows: seq<seq<string>>)
      requires |fileRows| > 0
      modifies this`trialsSpecification
      ensures trialsSpecification == old(trialsSpecification) + fileRows[1..]
    {
      var k := 1;
      while k < |fileRows|
        invariant 1 <= k <= |fileRows|
        invariant trialsSpecification == old(trialsSpecification) + fileRows[1..k]
      {
        trialsSpecification := trialsSpecification + [fileRows[k]];
        k := k + 1;
      }
    }

    /** Appends one fresh Stroop trial per specification row, in row order. */
    method ProcessStroopTask()
      requires Valid() && WellFormed(trialsSpecification)
      modifies this`trials
      ensures Valid()
      ensures |trials| == old(|trials|) + |trialsSpecification| && trials[..old(|trials|)] == old(trials)
      ensures SpecsOf(trials) == SpecsOf(old(trials)) + StroopSpecs(trialsSpecification)
      ensures forall k :: old(|trials|) <= k < |trials| ==> fresh(trials[k].Obj()) && State(trials[k]) == Initial(trials[k].Spec())
    {
      ghost var n0 := |trials|;
      var k := 0;
      while k < |trialsSpecification|
        invariant 0 <= k <= |trialsSpecification|
        invariant |trials| == n0 + k && trials[..n0] == old(trials)
        invariant forall j :: 0 <= j < k ==> trials[n0 + j].Spec() == StroopSpec(trialsSpecification[j][0], trialsSpecification[j][1])
        invariant forall j :: n0 <= j < |trials| ==> fresh(trials[j].Obj()) && State(trials[j]) == Initial(trials[j].Spec())
        invariant DistinctTrials(trials)
      {
        var row := trialsSpecification[k];
        var t := new StroopTrial(row[0], row[1]);
        trials := trials + [StroopRef(t)];
        k := k + 1;
      }
      assert SpecsOf(trials) == SpecsOf(old(trials)) + StroopSpecs(trialsSpecification) by {
        assert forall j :: 0 <= j < n0 ==> trials[j] == old(trials)[j];
      }
    }

    /** Appends one fresh flanker trial per specification row, in row order. */
    method ProcessFlankerTask()
      requires Valid() && WellFormed(trialsSpecification)
      modifies this`trials
      ensures Valid()
      ensures |trials| == old(|trials|) + |trialsSpecification| && trials[..old(|trials|)] == old(trials)
      ensures SpecsOf(trials) == SpecsOf(old(trials)) + FlankerSpecs(trialsSpecification)
      ensures forall k :: old(|trials|) <= k < |trials| ==> fresh(trials[k].Obj()) && State(trials[k]) == Initial(trials[k].Spec())
    {
      ghost var n0 := |trials|;
      var k := 0;
      while k < |trialsSpecification|
        invariant 0 <= k <= |trialsSpecification|
        invariant |trials| == n0 + k && trials[..n0] == old(trials)
        invariant forall j :: 0 <= j < k ==> trials[n0 + j].Spec() == FlankerSpec(trialsSpecification[j][0], trialsSpecification[j][1])
        invariant forall j :: n0 <= j < |trials| ==> fresh(trials[j].Obj()) && State(trials[j]) == Initial(trials[j].Spec())
        invariant DistinctTrials(trials)
      {
        var row := trialsSpecification[k];
        var t := new FlankerTrial(row[0], row[1]);
        trials := trials + [FlankerRef(t)];
        k := k + 1;
      }
      assert SpecsOf(trials) == SpecsOf(old(trials)) + FlankerSpecs(trialsSpecification) by {
        assert forall j :: 0 <= j < n0 ==> trials[j] == old(trials)[j];
      }
    }

    /**
     * Selects the task by the file-name prefix and appends that task's trials
     * (whatever trials the block already holds stay in front of them), then runs
     * every trial in order, trial `k` answered by `responses[k]`.
     */
    method Run(responses: seq<Response>)
      requires Runnable(responses)
      modifies this, Footprint()
      ensures Valid()
      ensures blockType == if DispatchType(csvFile).Some? then DispatchType(csvFile) else old(blockType)
      ensures trialsSpecification == old(trialsSpecification)
      ensures |trials| == old(|trials|) + old(Added()) && trials[..old(|trials|)] == old(trials)
      ensures SpecsOf(trials) == SpecsOf(old(trials)) + TaskSpecs(csvFile, trialsSpecification)
      ensures forall k :: old(|trials|) <= k < |trials| ==> fresh(trials[k].Obj())
      ensures forall k :: 0 <= k < |trials| ==>
        State(trials[k]) == AfterRun(if k < old(|trials|) then old(State(trials[k])) else Initial(trials[k].Spec()), responses[k])
    {
      if StartsWith(csvFile, "ft") {
        blockType := Some("flanker");
        ProcessFlankerTask();
      } else if StartsWith(csvFile, "st") {
        blockType := Some("stroop");
        ProcessStroopTask();
      }
      BlockNotTrial(this);
      label processed:
      RunTrials(trials, responses);
      forall k | 0 <= k < old(|trials|)
        ensures old@processed(State(trials[k])) == old(State(trials[k]))
      {
      }
    }

    /** Collects the data of every trial, in trial order. */
    method GetDataDict() returns (d: BlockData)
      requires Valid()
      requires forall k :: 0 <= k < |trials| ==> Answered(State(trials[k]))
      modifies Footprint()
      ensures d.csvFile == csvFile && d.blockType == blockType
      ensures d.participantId == participantId && d.participantType == participantType
      ensures trials == old(trials) && |d.trials| == |trials|
      ensures forall k :: 0 <= k < |trials| ==> d.trials[k] == old(Data(State(trials[k])))
      ensures forall k :: 0 <= k < |trials| ==> State(trials[k]) == AfterReport(old(State(trials[k])))
    {
      BlockNotTrial(this);
      var data := ReportTrials(trials);
      d := BlockData(csvFile, blockType, participantId, participantType, data);
    }
  }
}
