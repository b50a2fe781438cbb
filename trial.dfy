/**
 * One trial of the experiment: how a flanker trial lays out its arrows, how the
 * first pressed key is derived, and how flanker and Stroop responses are scored.
 * Drawing, the window flip and the keyboard wait are not modelled: the keys a
 * trial receives and the elapsed time are inputs.
 */
module Trial {
  import opened Options

  /** The scoring label a trial writes into its response list. */
  datatype Label = Correct | Incorrect | Invalid

  function LabelText(l: Label): string
  {
    match l
    case Correct => "correct"
    case Incorrect => "incorrect"
    case Invalid => "invalid"
  }

  /** What the keyboard wait delivers for one trial: the keys pressed and the elapsed seconds. */
  datatype Response = Response(keys: seq<string>, time: real)

  /**
   * `response_key` as `draw_and_flip` derives it: the first pressed key, or
   * None when nothing was pressed.
   */
  function ResponseKey(keys: seq<string>): (k: Option<string>)
    ensures k.None? <==> keys == []
    ensures k.Some? ==> k.value in keys && k.value == keys[0]
  {
    if |keys| > 0 then Some(keys[0]) else None
  }

  // ---------------------------------------------------------------------------
  // Scoring rules

  /** The key that answers a direction: `f` means left and `j` means right. */
  function DirectionKey(direction: string): Option<string>
  {
    if direction == "left" then Some("f")
    else if direction == "right" then Some("j")
    else None
  }

  /**
   * The flanker scoring rule: more than one key is invalid whatever the keys
   * were; a single key is correct exactly when it is the key of the target
   * direction.
   */
  function FlankerLabel(correct: string, keys: seq<string>): (l: Label)
    requires |keys| > 0
    ensures l == Invalid <==> |keys| > 1
    ensures l == Correct <==> |keys| == 1 && DirectionKey(correct) == Some(keys[0])
  {
    if |keys| > 1 then Invalid
    else if (correct == "left" && keys[0] == "f") || (correct == "right" && keys[0] == "j") then Correct
    else Incorrect
  }

  /** The dictionary the Stroop trial looks its expected key up in. */
  const ColorToKey: map<string, string> := map["blue" := "b", "red" := "r", "yellow" := "y", "green" := "g"]

  /** The ink colours the Stroop task knows. */
  const InkColors: set<string> := ColorToKey.Keys

  /**
   * The expected key of an ink colour: the colour's initial letter for the four
   * known colours, and None for any other colour.
   */
  function ColorKey(color: string): (k: Option<string>)
    ensures k.Some? <==> color in InkColors
    ensures k.Some? ==> k.value == color[..1]
  {
    if color in ColorToKey then Some(ColorToKey[color]) else None
  }

  /**
   * The Stroop scoring rule: only the ink colour decides the expected key (the
   * printed word plays no part); more than one key is invalid, and a colour
   * outside the four known ones can never be answered correctly.
   */
  function StroopLabel(color: string, keys: seq<string>): (l: Label)
    requires |keys| > 0
    ensures l == Invalid <==> |keys| > 1
    ensures l == Correct <==> |keys| == 1 && color in InkColors && keys[0] == color[..1]
  {
    if |keys| > 1 then Invalid
    else if Some(keys[0]) == ColorKey(color) then Correct
    else Incorrect
  }

  // ---------------------------------------------------------------------------
  // Flanker layout

  /** A position in normalised window units. */
  datatype Pos = Pos(x: real, y: real)

  /** One arrow image: where it is drawn and its rotation in degrees. */
  datatype Arrow = Arrow(pos: Pos, ori: int)

  /** The centre of the window, which is also the default position of an image. */
  const Centre: Pos := Pos(0.0, 0.0)

  const PositionsLeft: seq<Pos> := [Pos(-0.5, 0.0), Pos(-0.25, 0.0), Pos(0.0, 0.0), Pos(0.25, 0.0), Pos(0.5, 0.0)]
  const PositionsRight: seq<Pos> := [Pos(0.5, 0.0), Pos(0.25, 0.0), Pos(0.0, 0.0), Pos(-0.25, 0.0), Pos(-0.5, 0.0)]

  /** The direction a rotation makes the arrow point, as a rotation in [0, 360). */
  function Heading(ori: int): int
  {
    ori % 360
  }

  /** The heading of a direction: the base image points right, so left is a half turn. */
  function HeadingOf(direction: string): int
  {
    if direction == "left" then 180 else 0
  }

  /** One arrow at each position, all with the same rotation. */
  function ArrowRow(positions: seq<Pos>, ori: int): (row: seq<Arrow>)
    ensures |row| == |positions|
    ensures forall k :: 0 <= k < |row| ==> row[k] == Arrow(positions[k], ori)
  {
    seq(|positions|, k requires 0 <= k < |positions| => Arrow(positions[k], ori))
  }

  predicate IsDirection(d: string)
  {
    d == "left" || d == "right"
  }

  /** The arrows a flanker trial is built with, case by case as the trial lays them out. */
  function InitialArrows(correct: string, trialType: string): seq<Arrow>
  {
    if correct == "left" && trialType == "congruent" then
      ArrowRow(PositionsLeft, 180)
    else if correct == "right" && trialType == "congruent" then
      ArrowRow(PositionsRight, 0)
    else if correct == "left" && trialType == "incongruent" then
      ArrowRow(PositionsRight, 0)[2 := Arrow(PositionsLeft[2], 180)]
    else if correct == "right" && trialType == "incongruent" then
      ArrowRow(PositionsLeft, 180)[2 := Arrow(PositionsRight[2], 360)]
    else if correct == "right" then
      [Arrow(Centre, 0)]
    else
      [Arrow(Centre, 180)]
  }

  /** Five distinct positions on the horizontal midline, the centre in the middle; the right-hand row mirrors the left. */
  lemma PositionsLayout()
    ensures |PositionsLeft| == |PositionsRight| == 5 && PositionsLeft[2] == PositionsRight[2] == Centre
    ensures forall k :: 0 <= k < 5 ==> PositionsRight[k] == PositionsLeft[4 - k] && PositionsLeft[k].y == 0.0
    ensures forall i, j :: 0 <= i < j < 5 ==> PositionsLeft[i].x < PositionsLeft[j].x
  {
  }

  /**
   * A known direction and trial type give five arrows in a row, the target in
   * the middle at the centre: all five point the target direction when
   * congruent, and when incongruent the four flankers share one rotation that
   * points the other way. Any other pair gives one arrow at the centre,
   * pointing right for "right" and left otherwise.
   */
  lemma InitialArrowsLayout(correct: string, trialType: string)
    ensures var arrows := InitialArrows(correct, trialType);
      IsDirection(correct) && (trialType == "congruent" || trialType == "incongruent") ==>
      && |arrows| == 5
      && arrows[2].pos == Centre
      && (forall k :: 0 <= k < 5 ==> arrows[k].pos in PositionsLeft && arrows[k].pos.y == 0.0)
      && (forall i, j :: 0 <= i < j < 5 ==> arrows[i].pos != arrows[j].pos)
      && Heading(arrows[2].ori) == HeadingOf(correct)
      && (forall k :: 0 <= k < 5 && k != 2 ==> arrows[k].ori == arrows[0].ori)
      && (forall k :: 0 <= k < 5 ==> arrows[k].ori == 0 || arrows[k].ori == 180 || arrows[k].ori == 360)
    ensures var arrows := InitialArrows(correct, trialType);
      IsDirection(correct) && trialType == "congruent" ==>
      |arrows| == 5 && forall k :: 0 <= k < 5 ==> arrows[k].ori == HeadingOf(correct)
    ensures var arrows := InitialArrows(correct, trialType);
      IsDirection(correct) && trialType == "incongruent" ==>
      && |arrows| == 5
      && Heading(arrows[0].ori) == (HeadingOf(correct) + 180) % 360
      && Heading(arrows[0].ori) != Heading(arrows[2].ori)
      && arrows[0].ori == (if correct == "left" then 0 else 180)
      && arrows[2].ori == (if correct == "left" then 180 else 360)
    ensures !(IsDirection(correct) && (trialType == "congruent" || trialType == "incongruent")) ==>
      InitialArrows(correct, trialType) == [Arrow(Centre, if correct == "right" then 0 else 180)]
  {
    PositionsLayout();
    var arrows := InitialArrows(correct, trialType);
    if IsDirection(correct) && (trialType == "congruent" || trialType == "incongruent") {
      var positions := if (correct == "left") == (trialType == "congruent") then PositionsLeft else PositionsRight;
      assert forall k :: 0 <= k < 5 ==> arrows[k].pos == positions[k];
      forall i, j | 0 <= i < j < 5
        ensures arrows[i].pos != arrows[j].pos
      {
        if positions == PositionsRight {
          assert positions[i].x > positions[j].x;
        } else {
          assert positions[i].x < positions[j].x;
        }
      }
      forall k | 0 <= k < 5
        ensures arrows[k].pos in PositionsLeft
      {
        if positions == PositionsRight {
          assert arrows[k].pos == PositionsLeft[4 - k];
        } else {
          assert arrows[k].pos == PositionsLeft[k];
        }
      }
    }
  }

  // ---------------------------------------------------------------------------
  // Trials

  /** The data dictionary a trial reports; fields of the other task hold "-". */
  datatype TrialData = TrialData(
    response: Option<string>,
    correct: Option<string>,
    flankerDirection: string,
    flankerType: string,
    stroopWord: string,
    stroopColor: string,
    responseList: seq<string>,
    responseTime: Option<real>)

  /** The placeholder for the fields of the other task. */
  const NotApplicable: string := "-"

  class FlankerTrial {
    const correct: string
    const trialType: string
    var arrows: seq<Arrow>
    /** The keys pressed; empty before the trial is run. */
    var response: seq<string>
    var responseKey: Option<string>
    var isCorrect: bool
    var responseTime: Option<real>
    /** None until the response has been validated. */
    var responseList: Option<seq<string>>
    var dataDict: Option<TrialData>

    constructor (correct: string, trialType: string)
      ensures this.correct == correct && this.trialType == trialType
      ensures arrows == InitialArrows(correct, trialType)
      ensures response == [] && responseKey == None && !isCorrect && responseTime == None
      ensures responseList == None && dataDict == None
    {
      this.correct := correct;
      this.trialType := trialType;
      response := [];
      responseKey := None;
      isCorrect := false;
      responseTime := None;
      responseList := None;
      dataDict := None;
      new;
      if correct == "left" && trialType == "congruent" {
        arrows := ArrowRow(PositionsLeft, 180);
      } else if correct == "right" && trialType == "congruent" {
        arrows := ArrowRow(PositionsRight, 0);
      } else if correct == "left" && trialType == "incongruent" {
        arrows := ArrowRow(PositionsRight, 0);
        arrows := arrows[2 := Arrow(PositionsLeft[2], 180)];
      } else if correct == "right" && trialType == "incongruent" {
        arrows := ArrowRow(PositionsLeft, 180);
        arrows := arrows[2 := Arrow(PositionsRight[2], 360)];
      } else if correct == "right" {
        arrows := [Arrow(Centre, 0)];
      } else {
        arrows := [Arrow(Centre, 180)];
      }
    }

    /** The response has been scored by the flanker rule. */
    ghost predicate Scored()
      reads this
    {
      && |response| > 0
      && responseList == Some([LabelText(FlankerLabel(correct, response))])
      && isCorrect == (FlankerLabel(correct, response) == Correct)
    }

    /** Shows the arrows, records the keys and the time, and scores the response. */
    method Run(keys: seq<string>, time: real)
      requires |keys| > 0
      modifies this
      ensures response == keys && responseKey == ResponseKey(keys) && responseTime == Some(time)
      ensures Scored()
      ensures arrows == old(arrows) && dataDict == old(dataDict)
    {
      response := keys;
      responseKey := ResponseKey(response);
      responseTime := Some(time);
      var _ := ValidateResponse();
    }

    /** Scores the recorded response and returns the one-label response list. */
    method ValidateResponse() returns (labels: seq<string>)
      requires |response| > 0
      modifies this`responseList, this`isCorrect
      ensures Scored()
      ensures responseList == Some(labels)
      ensures |labels| == 1 && labels[0] in {"correct", "incorrect", "invalid"}
      ensures isCorrect <==> labels == ["correct"]
    {
      labels := [];
      if |response| > 1 {
        isCorrect := false;
        labels := labels + ["invalid"];
      } else if (correct == "left" && response[0] == "f") || (correct == "right" && response[0] == "j") {
        isCorrect := true;
        labels := labels + ["correct"];
      } else {
        isCorrect := false;
        labels := labels + ["incorrect"];
      }
      assert labels == [LabelText(FlankerLabel(correct, response))];
      responseList := Some(labels);
    }

    /** The trial's data; the Stroop fields hold the placeholder. */
    method GetDataDict() returns (d: TrialData)
      requires |response| > 0 && responseList.Some?
      modifies this`dataDict
      ensures d == TrialData(responseKey, Some(response[0]), correct, trialType,
                             NotApplicable, NotApplicable, responseList.value, responseTime)
      ensures dataDict == Some(d)
    {
      d := TrialData(responseKey, Some(response[0]), correct, trialType,
                     NotApplicable, NotApplicable, responseList.value, responseTime);
      dataDict := Some(d);
    }
  }

  class StroopTrial {
    const word: string
    const color: string
    var correctKey: Option<string>
    /** The keys pressed; empty before the trial is run. */
    var response: seq<string>
    var responseKey: Option<string>
    var isCorrect: bool
    var responseTime: Option<real>
    /** None until the response has been validated. */
    var responseList: Option<seq<string>>
    var dataDict: Option<TrialData>

    constructor (word: string, color: string)
      ensures this.word == word && this.color == color && correctKey == None
      ensures response == [] && responseKey == None && !isCorrect && responseTime == None
      ensures responseList == None && dataDict == None
    {
      this.word := word;
      this.color := color;
      correctKey := None;
      response := [];
      responseKey := None;
      isCorrect := false;
      responseTime := None;
      responseList := None;
      dataDict := None;
    }

    /** The response has been scored by the Stroop rule. */
    ghost predicate Scored()
      reads this
    {
      && |response| > 0
      && correctKey == ColorKey(color)
      && responseList == Some([LabelText(StroopLabel(color, response))])
      && isCorrect == (StroopLabel(color, response) == Correct)
    }

    /** Shows the word in its ink colour and records the keys and the time; it does not score. */
    method Run(keys: seq<string>, time: real)
      modifies this`response, this`responseKey, this`responseTime
      ensures response == keys && responseKey == ResponseKey(keys) && responseTime == Some(time)
    {
      response := keys;
      responseKey := ResponseKey(response);
      responseTime := Some(time);
    }

    /** Scores the recorded response against the key of the ink colour. */
    method ValidateResponse() returns (labels: seq<string>)
      requires |response| > 0
      modifies this`responseList, this`isCorrect, this`correctKey
      ensures Scored()
      ensures responseList == Some(labels)
      ensures |labels| == 1 && labels[0] in {"correct", "incorrect", "invalid"}
      ensures isCorrect <==> labels == ["correct"]
    {
      labels := [];
      correctKey := ColorKey(color);
      if |response| > 1 {
        isCorrect := false;
        labels := labels + ["invalid"];
      } else if Some(response[0]) == correctKey {
        isCorrect := true;
        labels := labels + ["correct"];
      } else {
        isCorrect := false;
        labels := labels + ["incorrect"];
      }
      assert labels == [LabelText(StroopLabel(color, response))];
      responseList := Some(labels);
    }

    /**
     * Validates again (with the same outcome every time, since the response is
     * not touched) and returns the trial's data; the flanker fields hold the
     * placeholder.
     */
    method GetDataDict() returns (d: TrialData)
      requires |response| > 0
      modifies this`responseList, this`isCorrect, this`correctKey, this`dataDict
      ensures Scored()
      ensures d == TrialData(responseKey, ColorKey(color), NotApplicable, NotApplicable,
                             word, color, [LabelText(StroopLabel(color, response))], responseTime)
      ensures dataDict == Some(d)
    {
      var _ := ValidateResponse();
      d := TrialData(responseKey, correctKey, NotApplicable, NotApplicable,
                     word, color, responseList.value, responseTime);
      dataDict := Some(d);
    }
  }

  // ---------------------------------------------------------------------------
  // A trial of either task, as a block holds it

  /** What a trial was built from: one row of a block's specification. */
  datatype TrialSpec = FlankerSpec(correct: string, trialType: string) | StroopSpec(word: string, color: string)

  datatype TrialRef = FlankerRef(flanker: FlankerTrial) | StroopRef(stroop: StroopTrial)
  {
    function Obj(): object
    {
      match this
      case FlankerRef(f) => f
      case StroopRef(s) => s
    }

    function Spec(): TrialSpec
    {
      match this
      case FlankerRef(f) => FlankerSpec(f.correct, f.trialType)
      case StroopRef(s) => StroopSpec(s.word, s.color)
    }
  }

  // ---------------------------------------------------------------------------
  // A trial's state as a value

  /** Every field of a trial, its constants first, as one value. */
  datatype TrialState =
    | FlankerState(correct: string, trialType: string, arrows: seq<Arrow>, response: seq<string>,
                   responseKey: Option<string>, isCorrect: bool, responseTime: Option<real>,
                   responseList: Option<seq<string>>, dataDict: Option<TrialData>)
    | StroopState(word: string, color: string, correctKey: Option<string>, response: seq<string>,
                  responseKey: Option<string>, isCorrect: bool, responseTime: Option<real>,
                  responseList: Option<seq<string>>, dataDict: Option<TrialData>)

  ghost function State(t: TrialRef): TrialState
    reads t.Obj()
  {
    match t
    case FlankerRef(f) =>
      FlankerState(f.correct, f.trialType, f.arrows, f.response, f.responseKey, f.isCorrect, f.responseTime,
                   f.responseList, f.dataDict)
    case StroopRef(s) =>
      StroopState(s.word, s.color, s.correctKey, s.response, s.responseKey, s.isCorrect, s.responseTime,
                  s.responseList, s.dataDict)
  }

  /** The specification a trial in state `s` was built from. */
  function SpecOf(s: TrialState): TrialSpec
  {
    match s
    case FlankerState(correct, trialType, _, _, _, _, _, _, _) => FlankerSpec(correct, trialType)
    case StroopState(word, color, _, _, _, _, _, _, _) => StroopSpec(word, color)
  }

  /** A trial as its constructor leaves it: laid out, with nothing answered, scored or reported. */
  function Initial(spec: TrialSpec): TrialState
  {
    match spec
    case FlankerSpec(correct, trialType) =>
      FlankerState(correct, trialType, InitialArrows(correct, trialType), [], None, false, None, None, None)
    case StroopSpec(word, color) =>
      StroopState(word, color, None, [], None, false, None, None, None)
  }

  /**
   * `run` answered with `r`: the keys, the first key and the time are
   * recorded, and a flanker trial also scores them; nothing else changes.
   */
  function AfterRun(s: TrialState, r: Response): TrialState
    requires s.FlankerState? ==> |r.keys| > 0
  {
    match s
    case FlankerState(correct, trialType, arrows, _, _, _, _, _, dataDict) =>
      var l := FlankerLabel(correct, r.keys);
      FlankerState(correct, trialType, arrows, r.keys, ResponseKey(r.keys), l == Correct, Some(r.time),
                   Some([LabelText(l)]), dataDict)
    case StroopState(word, color, correctKey, _, _, isCorrect, _, responseList, dataDict) =>
      StroopState(word, color, correctKey, r.keys, ResponseKey(r.keys), isCorrect, Some(r.time),
                  responseList, dataDict)
  }

  /** The trial can report its data: it has a response, and a flanker trial has been scored. */
  predicate Answered(s: TrialState)
  {
    |s.response| > 0 && (s.FlankerState? ==> s.responseList.Some?)
  }

  /** The data `get_data_dict` returns for a trial in state `s`. */
  function Data(s: TrialState): TrialData
    requires Answered(s)
  {
    match s
    case FlankerState(correct, trialType, _, response, responseKey, _, responseTime, responseList, _) =>
      TrialData(responseKey, Some(response[0]), correct, trialType,
                NotApplicable, NotApplicable, responseList.value, responseTime)
    case StroopState(word, color, _, response, responseKey, _, responseTime, _, _) =>
      TrialData(responseKey, ColorKey(color), NotApplicable, NotApplicable,
                word, color, [LabelText(StroopLabel(color, response))], responseTime)
  }

  /**
   * `get_data_dict`: the data is stored on the trial, and a Stroop trial
   * first scores its response again; nothing else changes.
   */
  function AfterReport(s: TrialState): TrialState
    requires Answered(s)
  {
    match s
    case FlankerState(correct, trialType, arrows, response, responseKey, isCorrect, responseTime, responseList, _) =>
      FlankerState(correct, trialType, arrows, response, responseKey, isCorrect, responseTime, responseList,
                   Some(Data(s)))
    case StroopState(word, color, _, response, responseKey, _, responseTime, _, _) =>
      var l := StroopLabel(color, response);
      StroopState(word, color, ColorKey(color), response, responseKey, l == Correct, responseTime,
                  Some([LabelText(l)]), Some(Data(s)))
  }

  /** `trial.run()` on a trial of either kind, answered with `r`. */
  method RunTrial(t: TrialRef, r: Response)
    requires |r.keys| > 0
    modifies t.Obj()
    ensures State(t) == AfterRun(old(State(t)), r)
  {
    match t {
      case FlankerRef(f) => f.Run(r.keys, r.time);
      case StroopRef(s) => s.Run(r.keys, r.time);
    }
  }

  /** `trial.get_data_dict()` on a trial of either kind. */
  method GetTrialData(t: TrialRef) returns (d: TrialData)
    requires Answered(State(t))
    modifies t.Obj()
    ensures d == old(Data(State(t)))
    ensures State(t) == AfterReport(old(State(t)))
  {
    match t {
      case FlankerRef(f) => d := f.GetDataDict();
      case StroopRef(s) => d := s.GetDataDict();
    }
  }

  /**
   * The data a trial built from `spec` reports once it has been answered with
   * `r`: the first key, the response time, one scoring label, and the fields
   * of the other task filled with the placeholder. (The `correct` field of a
   * flanker trial holds the key that was pressed, not the expected one.)
   */
  function Record(spec: TrialSpec, r: Response): (d: TrialData)
    requires |r.keys| > 0
    ensures d.response == Some(r.keys[0]) && d.responseTime == Some(r.time) && |d.responseList| == 1
    ensures spec.FlankerSpec? ==>
      && d.correct == Some(r.keys[0])
      && d.flankerDirection == spec.correct && d.flankerType == spec.trialType
      && d.stroopWord == NotApplicable && d.stroopColor == NotApplicable
      && (d.responseList == ["correct"] <==> |r.keys| == 1 && DirectionKey(spec.correct) == Some(r.keys[0]))
      && (d.responseList == ["invalid"] <==> |r.keys| > 1)
    ensures spec.StroopSpec? ==>
      && d.correct == ColorKey(spec.color)
      && d.flankerDirection == NotApplicable && d.flankerType == NotApplicable
      && d.stroopWord == spec.word && d.stroopColor == spec.color
      && (d.responseList == ["correct"] <==> |r.keys| == 1 && spec.color in InkColors && r.keys[0] == spec.color[..1])
      && (d.responseList == ["invalid"] <==> |r.keys| > 1)
  {
    match spec
    case FlankerSpec(correct, trialType) =>
      TrialData(ResponseKey(r.keys), Some(r.keys[0]), correct, trialType, NotApplicable, NotApplicable,
                [LabelText(FlankerLabel(correct, r.keys))], Some(r.time))
    case StroopSpec(word, color) =>
      TrialData(ResponseKey(r.keys), ColorKey(color), NotApplicable, NotApplicable, word, color,
                [LabelText(StroopLabel(color, r.keys))], Some(r.time))
  }

  /**
   * A trial answered with `r` can report its data, whatever state it was in,
   * and what it reports is the record of its specification and `r`.
   */
  lemma ReportAfterRun(s: TrialState, r: Response)
    requires |r.keys| > 0
    ensures SpecOf(AfterRun(s, r)) == SpecOf(s)
    ensures Answered(AfterRun(s, r)) && Data(AfterRun(s, r)) == Record(SpecOf(s), r)
  {
  }

  /**
   * Reporting keeps a trial able to report, and reports the same data again;
   * a second report changes nothing, and reporting keeps the response.
   */
  lemma ReportAgain(s: TrialState)
    requires Answered(s)
    ensures Answered(AfterReport(s)) && Data(AfterReport(s)) == Data(s)
    ensures AfterReport(AfterReport(s)) == AfterReport(s)
    ensures AfterReport(s).response == s.response && AfterReport(s).dataDict == Some(Data(s))
  {
  }

  /** A new trial has nothing to report until it has been run; a flanker trial keeps its layout when run. */
  lemma RunFromInitial(spec: TrialSpec, r: Response)
    requires |r.keys| > 0
    ensures !Answered(Initial(spec)) && SpecOf(Initial(spec)) == spec
    ensures spec.FlankerSpec? ==> AfterRun(Initial(spec), r).arrows == InitialArrows(spec.correct, spec.trialType)
  {
  }

  /**
   * Only the ink colour decides a Stroop trial's label: two trials in the same
   * colour score every response alike whatever their words, so the word "red"
   * in blue ink answered with `b` is correct.
   */
  lemma StroopWordIgnored(word1: string, word2: string, color: string, r: Response)
    requires |r.keys| > 0
    ensures Record(StroopSpec(word1, color), r).responseList == Record(StroopSpec(word2, color), r).responseList
    ensures Record(StroopSpec("red", "blue"), Response(["b"], r.time)).responseList == ["correct"]
  {
  }

  /** An ink colour outside the four known ones has no key, so a single key is always incorrect. */
  lemma UnknownColour(color: string, key: string)
    requires color !in InkColors
    ensures ColorKey(color) == None && StroopLabel(color, [key]) == Incorrect
  {
  }
}
