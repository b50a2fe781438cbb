/**
 * The results file: a header row, then one row per trial of every block in
 * block order, numbered from 0 across all blocks. Each block is run (which
 * appends the trials of its task and shows every trial) just before its rows
 * are written. The file itself is not modelled: the rows the CSV writer
 * receives are the result, as cells.
 */
module Export {
  import opened Options
  import opened Trial
  import opened Blocks
  import opened Scheduler

  /** One CSV field as the writer receives it: a string, an integer, or seconds. */
  datatype Cell = Text(text: string) | Int(n: int) | Seconds(t: real)

  /** The column names of the header row. */
  const Header: seq<string> := [
    "index", "block_type", "block_csv", "correct", "is_correct", "response", "flanker_type",
    "flanker_correct_direction", "stroop_text", "stroop_color", "response time", "participant id",
    "participant type"]

  function HeaderRow(): (row: seq<Cell>)
    ensures |row| == |Header| && forall c :: 0 <= c < |row| ==> row[c] == Text(Header[c])
  {
    seq(|Header|, c requires 0 <= c < |Header| => Text(Header[c]))
  }

  /** The CSV writer writes None as an empty field. */
  function OptionText(o: Option<string>): Cell
  {
    if o.Some? then Text(o.value) else Text("")
  }

  function OptionSeconds(o: Option<real>): Cell
  {
    if o.Some? then Seconds(o.value) else Text("")
  }

  /** Python's `sep.join(parts)`. */
  function Join(sep: string, parts: seq<string>): string
  {
    if |parts| == 0 then "" else if |parts| == 1 then parts[0] else parts[0] + sep + Join(sep, parts[1..])
  }

  /**
   * The row of one trial: its running index, the block's type and file, the
   * trial's fields, and the participant. The `is_correct` column holds the
   * joined response list, so a scored trial shows its one label there.
   */
  function DataRow(index: int, b: BlockData, t: TrialData): (row: seq<Cell>)
    ensures |row| == |Header| && row[0] == Int(index)
    ensures |t.responseList| == 1 ==> row[4] == Text(t.responseList[0])
  {
    [Int(index), OptionText(b.blockType), Text(b.csvFile), OptionText(t.correct),
     Text(Join(", ", t.responseList)), OptionText(t.response), Text(t.flankerType), Text(t.flankerDirection),
     Text(t.stroopWord), Text(t.stroopColor), OptionSeconds(t.responseTime), Text(b.participantId),
     Text(b.participantType)]
  }

  /** The rows of one block, numbered from `start`. */
  function BlockRows(b: BlockData, start: int): seq<seq<Cell>>
  {
    seq(|b.trials|, k requires 0 <= k < |b.trials| => DataRow(start + k, b, b.trials[k]))
  }

  function TotalTrials(bs: seq<BlockData>): nat
  {
    if bs == [] then 0 else TotalTrials(bs[..|bs| - 1]) + |bs[|bs| - 1].trials|
  }

  /** The rows of every block after the header, numbered on from block to block. */
  function Rows(bs: seq<BlockData>): seq<seq<Cell>>
  {
    if bs == [] then [] else Rows(bs[..|bs| - 1]) + BlockRows(bs[|bs| - 1], TotalTrials(bs[..|bs| - 1]))
  }

  /** Writing one more block appends its rows, numbered on from the trials before it. */
  lemma RowsSnoc(bs: seq<BlockData>, b: BlockData)
    ensures TotalTrials(bs + [b]) == TotalTrials(bs) + |b.trials|
    ensures [HeaderRow()] + Rows(bs + [b]) == [HeaderRow()] + Rows(bs) + BlockRows(b, TotalTrials(bs))
  {
    assert (bs + [b])[..|bs|] == bs;
  }

  /** There is one row per trial. */
  lemma {:induction false} RowsLength(bs: seq<BlockData>)
    ensures |Rows(bs)| == TotalTrials(bs)
  {
    if bs != [] {
      RowsLength(bs[..|bs| - 1]);
    }
  }

  /** Every row is as wide as the header, and the indices run 0, 1, 2, … */
  lemma {:induction false} RowsShape(bs: seq<BlockData>)
    ensures |Rows(bs)| == TotalTrials(bs)
    ensures forall k :: 0 <= k < |Rows(bs)| ==> |Rows(bs)[k]| == |Header| && Rows(bs)[k][0] == Int(k)
  {
    RowsLength(bs);
    if bs != [] {
      var init := bs[..|bs| - 1];
      RowsShape(init);
      var n := TotalTrials(init);
      var last := BlockRows(bs[|bs| - 1], n);
      assert Rows(bs) == Rows(init) + last;
      forall k | 0 <= k < |Rows(bs)|
        ensures |Rows(bs)[k]| == |Header| && Rows(bs)[k][0] == Int(k)
      {
        if k >= n {
          assert Rows(bs)[k] == last[k - n] == DataRow(k, bs[|bs| - 1], bs[|bs| - 1].trials[k - n]);
        } else {
          assert Rows(bs)[k] == Rows(init)[k];
        }
      }
    }
  }

  /** Trial `k` of block `i` is written on the row numbered by the trials of the blocks before it, plus `k`. */
  lemma RowOf(bs: seq<BlockData>, i: nat, k: nat)
    requires i < |bs| && k < |bs[i].trials|
    ensures TotalTrials(bs[..i]) + k < |Rows(bs)|
    ensures Rows(bs)[TotalTrials(bs[..i]) + k] == DataRow(TotalTrials(bs[..i]) + k, bs[i], bs[i].trials[k])
  {
    RowInBlock(bs, i, k);
  }

  lemma {:induction false} RowInBlock(bs: seq<BlockData>, i: nat, k: nat)
    requires i < |bs| && k < |bs[i].trials|
    ensures TotalTrials(bs[..i]) + k < |Rows(bs)|
    ensures Rows(bs)[TotalTrials(bs[..i]) + k] == BlockRows(bs[i], TotalTrials(bs[..i]))[k]
  {
    var init := bs[..|bs| - 1];
    if i == |bs| - 1 {
      assert bs[..i] == init;
      LastRows(bs, k);
    } else {
      RowInBlock(init, i, k);
      assert init[..i] == bs[..i] && init[i] == bs[i];
      RowsLength(init);
      EarlierRows(bs, TotalTrials(bs[..i]) + k);
    }
  }

  lemma LastRows(bs: seq<BlockData>, k: nat)
    requires bs != [] && k < |bs[|bs| - 1].trials|
    ensures var n := TotalTrials(bs[..|bs| - 1]);
      n + k < |Rows(bs)| && Rows(bs)[n + k] == BlockRows(bs[|bs| - 1], n)[k]
  {
    var init := bs[..|bs| - 1];
    var last := BlockRows(bs[|bs| - 1], TotalTrials(init));
    RowsLength(init);
    assert Rows(bs) == Rows(init) + last;
  }

  lemma EarlierRows(bs: seq<BlockData>, x: nat)
    requires bs != [] && x < |Rows(bs[..|bs| - 1])|
    ensures x < |Rows(bs)| && Rows(bs)[x] == Rows(bs[..|bs| - 1])[x]
  {
  }

  /** Writes the rows of one block, counting the index on. */
  method AppendBlockRows(table: seq<seq<Cell>>, index: int, b: BlockData) returns (table': seq<seq<Cell>>, index': int)
    ensures table' == table + BlockRows(b, index) && index' == index + |b.trials|
  {
    table', index' := table, index;
    var k := 0;
    while k < |b.trials|
      invariant 0 <= k <= |b.trials| && index' == index + k
      invariant table' == table + BlockRows(b, index)[..k]
    {
      table' := table' + [DataRow(index', b, b.trials[k])];
      assert BlockRows(b, index)[..k + 1] == BlockRows(b, index)[..k] + [DataRow(index', b, b.trials[k])];
      index' := index' + 1;
      k := k + 1;
    }
    assert BlockRows(b, index)[..k] == BlockRows(b, index);
  }

  /**
   * Runs every block in order, block `i` answered by `responses[i]`, and
   * writes the header and then each block's rows. The block data gathered
   * (`dumps`) holds, for block `i`, the records of the trials it held before
   * the run followed by those of the task its file name selects, each paired
   * with its response.
   */
  method WriteDataToCsv(blocks: seq<Block>, responses: seq<seq<Response>>)
    returns (table: seq<seq<Cell>>, ghost dumps: seq<BlockData>)
    requires |responses| == |blocks| && Distinct(blocks)
    requires forall i :: 0 <= i < |blocks| ==> blocks[i].Runnable(responses[i])
    modifies set i | 0 <= i < |blocks| :: blocks[i]
    modifies set i, o | 0 <= i < |blocks| && o in blocks[i].Footprint() :: o
    ensures |dumps| == |blocks| && table == [HeaderRow()] + Rows(dumps)
    ensures |table| == 1 + TotalTrials(dumps)
    ensures forall k :: 1 <= k < |table| ==> |table[k]| == |Header| && table[k][0] == Int(k - 1)
    ensures forall i :: 0 <= i < |blocks| ==> old(blocks[i].Runnable(responses[i])) && dumps[i] == old(blocks[i].Reported(responses[i]))
    ensures forall i :: 0 <= i < |blocks| ==> Ran(blocks[i], dumps[i])
  {
    table := [HeaderRow()];
    dumps := [];
    var index := 0;
    var i := 0;
    while i < |blocks|
      invariant 0 <= i <= |blocks| && |dumps| == i
      invariant table == [HeaderRow()] + Rows(dumps) && index == TotalTrials(dumps)
      invariant forall j :: i <= j < |blocks| ==> unchanged(blocks[j])
      invariant forall j :: 0 <= j < i ==> dumps[j] == old(blocks[j].Reported(responses[j])) && Ran(blocks[j], dumps[j])
    {
      var d := RunBlock(blocks, responses, i);
      RowsSnoc(dumps, d);
      table, index := AppendBlockRows(table, index, d);
      dumps := dumps + [d];
      i := i + 1;
    }
    RowsShape(dumps);
  }

  /** Runs and reports block `i` of `blocks`, leaving every other block as it was. */
  method RunBlock(blocks: seq<Block>, responses: seq<seq<Response>>, i: nat) returns (d: BlockData)
    requires i < |blocks| == |responses| && Distinct(blocks) && blocks[i].Runnable(responses[i])
    modifies blocks[i], blocks[i].Footprint()
    ensures d == old(blocks[i].Reported(responses[i])) && Ran(blocks[i], d)
    ensures forall j :: 0 <= j < |blocks| && j != i ==> unchanged(blocks[j])
  {
    forall j | 0 <= j < |blocks|
      ensures blocks[j] !in blocks[i].Footprint()
    {
      blocks[i].BlockNotTrial(blocks[j]);
    }
    d := RunAndReport(blocks[i], responses[i]);
  }

  /**
   * What running block `b` leaves in the block itself, `d` being the data it
   * reported: the block type it reported, its specification as before, and its
   * old trials followed by those of the task its file name selects.
   */
  twostate predicate Ran(b: Block, d: BlockData)
    reads b
  {
    && old(DispatchType(b.csvFile).Some? ==> WellFormed(b.trialsSpecification))
    && b.blockType == d.blockType
    && b.trialsSpecification == old(b.trialsSpecification)
    && old(|b.trials|) <= |b.trials| && b.trials[..old(|b.trials|)] == old(b.trials)
    && SpecsOf(b.trials) == old(SpecsOf(b.trials) + TaskSpecs(b.csvFile, b.trialsSpecification))
  }

  /**
   * Runs one block on its responses and collects its data. Afterwards the
   * block holds its old trials followed by the new ones of its task, and
   * every trial has been run on its own response and then reported.
   */
  method RunAndReport(b: Block, responses: seq<Response>) returns (d: BlockData)
    requires b.Runnable(responses)
    modifies b, b.Footprint()
    ensures d == old(b.Reported(responses))
    ensures b.Valid() && Ran(b, d) && |b.trials| == old(|b.trials|) + old(b.Added())
    ensures forall k :: old(|b.trials|) <= k < |b.trials| ==> fresh(b.trials[k].Obj())
    ensures forall k {:trigger State(b.trials[k])} :: 0 <= k < |b.trials| ==>
      State(b.trials[k]) ==
      AfterReport(AfterRun(if k < old(|b.trials|) then old(State(b.trials[k])) else Initial(b.trials[k].Spec()), responses[k]))
  {
    b.Run(responses);
    forall k | 0 <= k < |b.trials|
      ensures Answered(State(b.trials[k])) && Data(State(b.trials[k])) == Record(SpecsOf(b.trials)[k], responses[k])
    {
      var s := if k < old(|b.trials|) then old(State(b.trials[k])) else Initial(b.trials[k].Spec());
      assert SpecOf(s) == b.trials[k].Spec();
      ReportAfterRun(s, responses[k]);
    }
    ghost var specs := SpecsOf(b.trials);
    d := b.GetDataDict();
    assert d.trials == Records(specs, responses);
  }
}
