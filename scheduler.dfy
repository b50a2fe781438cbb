/**
 * Building the session's blocks: one block per specification file, the trials
 * of each block shuffled within the block, and the two task lists merged by
 * the deterministic round-robin. The participant dialog is not modelled: its
 * two answers are parameters.
 */
module Scheduler {
  import opened Options
  import opened Trial
  import opened Blocks

  // ---------------------------------------------------------------------------
  // Round-robin merge

  /** The round-robin merge of two lists, specified recursively: the head of the first, then the rest with the roles swapped. */
  function Interleave<T>(first: seq<T>, second: seq<T>): seq<T>
    decreases |first| + |second|
  {
    if first == [] then second else [first[0]] + Interleave(second, first[1..])
  }

  /** The merge loses and invents nothing: its length is the sum and its multiset the union. */
  lemma {:induction false} InterleaveCount<T>(first: seq<T>, second: seq<T>)
    ensures |Interleave(first, second)| == |first| + |second|
    ensures multiset(Interleave(first, second)) == multiset(first) + multiset(second)
    decreases |first| + |second|
  {
    if first != [] {
      InterleaveCount(second, first[1..]);
      assert first == [first[0]] + first[1..];
    }
  }

  lemma InterleaveEmptySecond<T>(first: seq<T>)
    ensures Interleave(first, []) == first
  {
    if first != [] {
      assert Interleave(first, []) == [first[0]] + first[1..];
    }
  }

  lemma InterleaveTwo<T>(first: seq<T>, second: seq<T>)
    requires first != [] && second != []
    ensures Interleave(first, second) == [first[0], second[0]] + Interleave(first[1..], second[1..])
  {
  }

  function Shorter(a: nat, b: nat): nat
  {
    if a <= b then a else b
  }

  /**
   * The merge alternates: while both lists last, position 2k holds the k-th
   * element of the first list and position 2k+1 that of the second.
   */
  lemma {:induction false} InterleavePairs<T>(first: seq<T>, second: seq<T>, k: nat)
    requires k < |first| && k < |second|
    ensures |Interleave(first, second)| == |first| + |second|
    ensures Interleave(first, second)[2 * k] == first[k] && Interleave(first, second)[2 * k + 1] == second[k]
    decreases k
  {
    InterleaveCount(first, second);
    InterleaveTwo(first, second);
    if k > 0 {
      InterleavePairs(first[1..], second[1..], k - 1);
    }
  }

  /** After `m` pairs, the merge goes on as the merge of what is left of both lists. */
  lemma {:induction false} InterleaveAfterPairs<T>(first: seq<T>, second: seq<T>, m: nat)
    requires m <= |first| && m <= |second|
    ensures |Interleave(first, second)| == |first| + |second|
    ensures Interleave(first, second)[2 * m..] == Interleave(first[m..], second[m..])
  {
    InterleaveCount(first, second);
    if m > 0 {
      var rest := Interleave(first[1..], second[1..]);
      InterleaveTwo(first, second);
      InterleaveAfterPairs(first[1..], second[1..], m - 1);
      assert first[1..][m - 1..] == first[m..] && second[1..][m - 1..] == second[m..];
      DropPrefix([first[0], second[0]], rest, 2 * m);
    }
  }

  /** Once the shorter list is used up, the leftovers of the longer one follow in their original order. */
  lemma InterleaveLeftovers<T>(first: seq<T>, second: seq<T>)
    ensures |Interleave(first, second)| == |first| + |second|
    ensures var m := Shorter(|first|, |second|);
      Interleave(first, second)[2 * m..] == first[m..] + second[m..]
  {
    var m := Shorter(|first|, |second|);
    InterleaveAfterPairs(first, second, m);
    if m == |first| {
      assert first[m..] == [];
    } else {
      assert second[m..] == [];
      InterleaveEmptySecond(first[m..]);
    }
  }

  lemma DropPrefix<T>(x: seq<T>, r: seq<T>, n: nat)
    requires |x| <= n <= |x| + |r|
    ensures (x + r)[n..] == r[n - |x|..]
  {
  }

  lemma InterleaveExample()
    ensures Interleave(["a1", "a2"], ["b1", "b2", "b3"]) == ["a1", "b1", "a2", "b2", "b3"]
  {
  }

  /** Which list the merge takes from next: the `i`-th live iterator, or the first one when a pass is over. */
  ghost function Polled(iterators: seq<nat>, i: nat): nat
  {
    if i < |iterators| then iterators[i] else if iterators == [] then 0 else iterators[0]
  }

  /** What the merge still yields when the first list is at `p0`, the second at `p1`, and iterator `n` is polled next. */
  ghost function Pending<T>(first: seq<T>, second: seq<T>, p0: nat, p1: nat, n: nat): seq<T>
    requires p0 <= |first| && p1 <= |second|
  {
    if n == 0 then Interleave(first[p0..], second[p1..]) else Interleave(second[p1..], first[p0..])
  }

  lemma Yield<T>(a: seq<T>, b: seq<T>, pa: nat, pb: nat)
    requires pa < |a| && pb <= |b|
    ensures Interleave(a[pa..], b[pb..]) == [a[pa]] + Interleave(b[pb..], a[pa + 1..])
  {
    assert a[pa..][1..] == a[pa + 1..];
  }

  ghost predicate Live(iterators: seq<nat>)
  {
    iterators == [0, 1] || iterators == [0] || iterators == [1] || iterators == []
  }

  /** The state of the merge: what is yielded so far, followed by what is still pending, is the whole merge. */
  ghost predicate Consumed<T>(first: seq<T>, second: seq<T>, out: seq<T>, p0: nat, p1: nat, n: nat)
  {
    p0 <= |first| && p1 <= |second| && out + Pending(first, second, p0, p1, n) == Interleave(first, second)
  }

  /** The iterators still in the list are in source order, and a removed one was exhausted. */
  ghost predicate Tracked<T>(first: seq<T>, second: seq<T>, p0: nat, p1: nat, iterators: seq<nat>)
  {
    && p0 <= |first| && p1 <= |second| && Live(iterators)
    && (0 !in iterators ==> p0 == |first|)
    && (1 !in iterators ==> p1 == |second|)
  }

  /** Polling a live iterator that still has an element yields that element. */
  lemma YieldStep<T>(first: seq<T>, second: seq<T>, out: seq<T>, p0: nat, p1: nat, iterators: seq<nat>, i: nat)
    requires Tracked(first, second, p0, p1, iterators) && i < |iterators|
    requires Consumed(first, second, out, p0, p1, Polled(iterators, i))
    requires iterators[i] == 0 ==> p0 < |first|
    requires iterators[i] == 1 ==> p1 < |second|
    ensures iterators[i] == 0 ==> Consumed(first, second, out + [first[p0]], p0 + 1, p1, Polled(iterators, i + 1))
    ensures iterators[i] == 1 ==> Consumed(first, second, out + [second[p1]], p0, p1 + 1, Polled(iterators, i + 1))
  {
    if iterators[i] == 0 {
      YieldFirst(first, second, out, p0, p1, Polled(iterators, i + 1));
    } else {
      YieldSecond(first, second, out, p0, p1, Polled(iterators, i + 1));
    }
  }

  /** Taking from the first list; the next poll goes to the second list unless that one is exhausted. */
  lemma YieldFirst<T>(first: seq<T>, second: seq<T>, out: seq<T>, p0: nat, p1: nat, n: nat)
    requires p0 < |first| && p1 <= |second| && (n == 1 || p1 == |second|)
    requires Consumed(first, second, out, p0, p1, 0)
    ensures Consumed(first, second, out + [first[p0]], p0 + 1, p1, n)
  {
    var rest := Interleave(second[p1..], first[p0 + 1..]);
    Yield(first, second, p0, p1);
    assert Pending(first, second, p0, p1, 0) == [first[p0]] + rest;
    if n != 1 {
      InterleaveEmptySecond(first[p0 + 1..]);
      assert Pending(first, second, p0 + 1, p1, n) == rest;
    }
    assert out + [first[p0]] + rest == out + ([first[p0]] + rest);
  }

  /** Taking from the second list; the next poll goes to the first list unless that one is exhausted. */
  lemma YieldSecond<T>(first: seq<T>, second: seq<T>, out: seq<T>, p0: nat, p1: nat, n: nat)
    requires p0 <= |first| && p1 < |second| && (n == 0 || p0 == |first|)
    requires Consumed(first, second, out, p0, p1, 1)
    ensures Consumed(first, second, out + [second[p1]], p0, p1 + 1, n)
  {
    var rest := Interleave(first[p0..], second[p1 + 1..]);
    Yield(second, first, p1, p0);
    assert Pending(first, second, p0, p1, 1) == [second[p1]] + rest;
    if n != 0 {
      InterleaveEmptySecond(second[p1 + 1..]);
      assert Pending(first, second, p0, p1 + 1, n) == rest;
    }
    assert out + [second[p1]] + rest == out + ([second[p1]] + rest);
  }

  /** `YieldStep` with the state as the merge loop updates it. */
  lemma YieldAt<T>(first: seq<T>, second: seq<T>, out: seq<T>, pos: seq<nat>, iterators: seq<nat>, i: nat)
    requires |pos| == 2 && Tracked(first, second, pos[0], pos[1], iterators) && i < |iterators|
    requires Consumed(first, second, out, pos[0], pos[1], Polled(iterators, i))
    requires pos[iterators[i]] < |[first, second][iterators[i]]|
    ensures var it := iterators[i]; var pos' := pos[it := pos[it] + 1];
      Consumed(first, second, out + [[first, second][it][pos[it]]], pos'[0], pos'[1], Polled(iterators, i + 1))
  {
    YieldStep(first, second, out, pos[0], pos[1], iterators, i);
  }

  /** Removing an exhausted iterator from the list yields nothing and leaves the pending part as it was. */
  lemma RemoveStep<T>(first: seq<T>, second: seq<T>, out: seq<T>, p0: nat, p1: nat, iterators: seq<nat>, i: nat)
    requires Tracked(first, second, p0, p1, iterators) && i < |iterators|
    requires Consumed(first, second, out, p0, p1, Polled(iterators, i))
    requires iterators[i] == 0 ==> p0 == |first|
    requires iterators[i] == 1 ==> p1 == |second|
    ensures Tracked(first, second, p0, p1, iterators[..i] + iterators[i + 1..])
    ensures Consumed(first, second, out, p0, p1, Polled(iterators[..i] + iterators[i + 1..], i + 1))
  {
    InterleaveEmptySecond(first[p0..]);
    InterleaveEmptySecond(second[p1..]);
    var rest := iterators[..i] + iterators[i + 1..];
    if iterators == [0, 1] {
      assert rest == (if i == 0 then [1] else [0]);
    } else {
      assert rest == [];
    }
  }

  /**
   * The round-robin generator over two lists, drained into a list: each pass
   * polls the live iterators in order, yields one element from each, and
   * removes an exhausted iterator from the list it is iterating over (which
   * skips the iterator after it for the rest of that pass).
   */
  method RoundRobin<T>(first: seq<T>, second: seq<T>) returns (out: seq<T>)
    ensures out == Interleave(first, second)
  {
    var sources := [first, second];
    var pos: seq<nat> := [0, 0];
    var iterators: seq<nat> := [0, 1];
    out := [];
    while iterators != []
      invariant |pos| == 2 && Tracked(first, second, pos[0], pos[1], iterators)
      invariant Consumed(first, second, out, pos[0], pos[1], Polled(iterators, 0))
      decreases |first| - pos[0] + |second| - pos[1] + |iterators|
    {
      ghost var m0 := |first| - pos[0] + |second| - pos[1] + |iterators|;
      var i := 0;
      while i < |iterators|
        invariant |pos| == 2 && Tracked(first, second, pos[0], pos[1], iterators)
        invariant 0 <= i <= |iterators| + 1
        invariant Consumed(first, second, out, pos[0], pos[1], Polled(iterators, i))
        invariant |first| - pos[0] + |second| - pos[1] + |iterators| + (if i > 0 then 1 else 0) <= m0
        decreases |iterators| + 1 - i
      {
        var it := iterators[i];
        if pos[it] < |sources[it]| {
          // next(it) yields
          YieldAt(first, second, out, pos, iterators, i);
          out := out + [sources[it][pos[it]]];
          pos := pos[it := pos[it] + 1];
        } else {
          // StopIteration: remove it from the list being iterated over
          RemoveStep(first, second, out, pos[0], pos[1], iterators, i);
          iterators := iterators[..i] + iterators[i + 1..];
        }
        i := i + 1;
      }
    }
    assert Pending(first, second, pos[0], pos[1], 0) == [];
  }

  // ---------------------------------------------------------------------------
  // Shuffling the trials of a block

  /**
   * `random.shuffle` on the block's trial list: the swap loop of the
   * Fisher-Yates shuffle, where `pick(i) % (i + 1)` stands for the random index
   * drawn below `i + 1`. Whatever the draws, the trials are only permuted.
   */
  method ShuffleTrials(block: Block, pick: nat -> nat)
    requires block.Valid()
    modifies block`trials
    ensures block.Valid()
    ensures |block.trials| == old(|block.trials|)
    ensures multiset(block.trials) == multiset(old(block.trials))
    ensures multiset(SpecsOf(block.trials)) == multiset(SpecsOf(old(block.trials)))
  {
    var i := |block.trials| - 1;
    while i > 0
      invariant -1 <= i < |block.trials| == old(|block.trials|)
      invariant multiset(block.trials) == multiset(old(block.trials))
      invariant multiset(SpecsOf(block.trials)) == multiset(SpecsOf(old(block.trials)))
      invariant DistinctTrials(block.trials)
    {
      var j := pick(i) % (i + 1);
      var t := block.trials;
      block.trials := t[i := t[j]][j := t[i]];
      SwapKeepsTrials(t, i, j);
      i := i - 1;
    }
  }

  // ---------------------------------------------------------------------------
  // Loading the session

  predicate Distinct<T(==)>(s: seq<T>)
  {
    forall i, j :: 0 <= i < j < |s| ==> s[i] != s[j]
  }

  lemma DistinctSwap<T>(a: seq<T>, b: seq<T>)
    requires Distinct(a + b)
    ensures Distinct(b + a)
  {
    forall i, j | 0 <= i < j < |b + a|
      ensures (b + a)[i] != (b + a)[j]
    {
      var i' := if i < |b| then |a| + i else i - |b|;
      var j' := if j < |b| then |a| + j else j - |b|;
      assert (b + a)[i] == (a + b)[i'] && (b + a)[j] == (a + b)[j'];
    }
  }

  /** Merging two lists without a common element gives a list without repetitions. */
  lemma {:induction false} InterleaveDistinct<T>(first: seq<T>, second: seq<T>)
    requires Distinct(first + second)
    ensures Distinct(Interleave(first, second))
    decreases |first| + |second|
  {
    if first == [] {
      assert first + second == second;
    } else {
      var tail := first[1..];
      assert first + second == [first[0]] + (tail + second);
      assert Distinct(tail + second) by {
        forall i, j | 0 <= i < j < |tail + second|
          ensures (tail + second)[i] != (tail + second)[j]
        {
          assert (tail + second)[i] == (first + second)[i + 1];
          assert (tail + second)[j] == (first + second)[j + 1];
        }
      }
      DistinctSwap(tail, second);
      InterleaveDistinct(second, tail);
      InterleaveCount(second, tail);
      var rest := Interleave(second, tail);
      assert first[0] !in multiset(second) + multiset(tail) by {
        forall k | 0 <= k < |second|
          ensures second[k] != first[0]
        {
          assert (first + second)[|first| + k] == second[k] && (first + second)[0] == first[0];
          assert (first + second)[0] != (first + second)[|first| + k];
        }
        forall k | 0 <= k < |tail|
          ensures tail[k] != first[0]
        {
          assert (first + second)[k + 1] == tail[k] && (first + second)[0] == first[0];
          assert (first + second)[0] != (first + second)[k + 1];
        }
      }
      assert first[0] !in rest by {
        assert first[0] !in multiset(rest);
      }
    }
  }

  /** One specification file: its name and every row, header first. */
  datatype SpecFile = SpecFile(name: string, rows: seq<seq<string>>)

  /** Every file has a header row, which the block constructor skips. */
  predicate HasHeader(files: seq<SpecFile>)
  {
    forall k :: 0 <= k < |files| ==> |files[k].rows| > 0
  }

  /** Every file has a header row, and every data row has two fields. */
  predicate Readable(files: seq<SpecFile>)
  {
    HasHeader(files) && forall k :: 0 <= k < |files| ==> WellFormed(files[k].rows[1..])
  }

  function FileNames(files: seq<SpecFile>): seq<string>
  {
    seq(|files|, k requires 0 <= k < |files| => files[k].name)
  }

  function CsvFiles(blocks: seq<Block>): seq<string>
  {
    seq(|blocks|, k requires 0 <= k < |blocks| => blocks[k].csvFile)
  }

  lemma {:induction false} CsvFilesInterleave(first: seq<Block>, second: seq<Block>)
    ensures CsvFiles(Interleave(first, second)) == Interleave(CsvFiles(first), CsvFiles(second))
    decreases |first| + |second|
  {
    if first != [] {
      CsvFilesInterleave(second, first[1..]);
      assert CsvFiles(first)[1..] == CsvFiles(first[1..]);
      assert CsvFiles(Interleave(first, second)) == [first[0].csvFile] + CsvFiles(Interleave(second, first[1..]));
    }
  }

  const FlankerInstruction: string := "This is flanker test. Please press key 'f' for left and 'j' for right direction."
  const StroopInstruction: string := "This is stroop test. Please press 'g', 'y', 'r', 'b' key for corresponding color."

  /** A block as its constructor leaves it for `file`. */
  ghost predicate Built(b: Block, file: SpecFile, participantId: string, participantType: string, instruction: string)
    reads b
  {
    && b.Valid()
    && b.csvFile == file.name && b.participantId == participantId && b.participantType == participantType
    && b.instruction == (if instruction != "" then Some(instruction) else None) && b.blockType == None
    && |file.rows| > 0 && b.trialsSpecification == file.rows[1..]
  }

  /** The trial is as its constructor left it: built but not yet run. */
  ghost predicate Unrun(t: TrialRef)
    reads t.Obj()
  {
    State(t) == Initial(t.Spec())
  }

  /** A built block whose trials are those of one task for its rows, in some order. */
  ghost predicate Loaded(b: Block, file: SpecFile, participantId: string, participantType: string, flanker: bool)
    reads b
  {
    && Built(b, file, participantId, participantType, if flanker then FlankerInstruction else StroopInstruction)
    && WellFormed(b.trialsSpecification)
    && |b.trials| == |b.trialsSpecification|
    && multiset(SpecsOf(b.trials)) ==
       multiset(if flanker then FlankerSpecs(b.trialsSpecification) else StroopSpecs(b.trialsSpecification))
  }

  /** The blocks of a list of files, built as the list comprehension builds them. */
  method MakeBlocks(files: seq<SpecFile>, participantId: string, participantType: string, instruction: string)
    returns (blocks: seq<Block>)
    requires HasHeader(files)
    ensures |blocks| == |files| && Distinct(blocks)
    ensures forall j :: 0 <= j < |blocks| ==> fresh(blocks[j])
    ensures forall j :: 0 <= j < |blocks| ==>
      Built(blocks[j], files[j], participantId, participantType, instruction) && blocks[j].trials == []
  {
    blocks := [];
    var k := 0;
    while k < |files|
      invariant 0 <= k <= |files| && |blocks| == k && Distinct(blocks)
      invariant forall j :: 0 <= j < k ==> fresh(blocks[j])
      invariant forall j :: 0 <= j < k ==>
        Built(blocks[j], files[j], participantId, participantType, instruction) && blocks[j].trials == []
    {
      var b := new Block(files[k].name, files[k].rows, participantId, participantType, Some(instruction));
      blocks := blocks + [b];
      k := k + 1;
    }
  }

  /**
   * Builds the trials of one task for a fresh block and shuffles them. The
   * trials of the blocks prepared before (`others`) are left as they were.
   */
  method PrepareBlock(b: Block, file: SpecFile, participantId: string, participantType: string,
                      flanker: bool, pick: nat -> nat, ghost others: seq<seq<TrialRef>>)
    requires Built(b, file, participantId, participantType, if flanker then FlankerInstruction else StroopInstruction)
    requires b.trials == [] && WellFormed(file.rows[1..])
    modifies b`trials
    ensures Loaded(b, file, participantId, participantType, flanker)
    ensures forall k :: 0 <= k < |b.trials| ==> fresh(b.trials[k].Obj()) && Unrun(b.trials[k])
    ensures forall j, i :: 0 <= j < |others| && 0 <= i < |others[j]| ==> old(Unrun(others[j][i])) ==> Unrun(others[j][i])
  {
    BuildTask(b, file, participantId, participantType, flanker);
    ghost var built := b.trials;
    b.BlockNotTrial(b);
    label built:
    ShuffleTrials(b, pick);
    forall k | 0 <= k < |built|
      ensures Unrun(built[k])
    {
      TrialNotBlock(built[k], b);
      UnrunKept@built(built[k]);
    }
    PermutedTrials(built, b.trials);
    forall j, i | 0 <= j < |others| && 0 <= i < |others[j]| && old(Unrun(others[j][i]))
      ensures Unrun(others[j][i])
    {
      TrialNotBlock(others[j][i], b);
      UnrunKept(others[j][i]);
    }
  }

  /** The task's trials, one fresh unrun trial per row, in row order. */
  method BuildTask(b: Block, file: SpecFile, participantId: string, participantType: string, flanker: bool)
    requires Built(b, file, participantId, participantType, if flanker then FlankerInstruction else StroopInstruction)
    requires b.trials == [] && WellFormed(file.rows[1..])
    modifies b`trials
    ensures b.Valid() && b.trialsSpecification == old(b.trialsSpecification)
    ensures SpecsOf(b.trials) == if flanker then FlankerSpecs(b.trialsSpecification) else StroopSpecs(b.trialsSpecification)
    ensures forall k :: 0 <= k < |b.trials| ==> fresh(b.trials[k].Obj()) && Unrun(b.trials[k])
  {
    if flanker {
      b.ProcessFlankerTask();
    } else {
      b.ProcessStroopTask();
    }
  }

  /** A trial object is never a block. */
  lemma TrialNotBlock(t: TrialRef, b: Block)
    ensures t.Obj() != b
  {
    match t
    case FlankerRef(f) =>
    case StroopRef(s) =>
  }

  /** A trial whose object is unchanged is still unrun. */
  twostate lemma UnrunKept(t: TrialRef)
    requires old(Unrun(t)) && unchanged(t.Obj())
    ensures Unrun(t)
  {
  }

  /** A permutation of fresh unrun trials holds only trials of the original list, so it is fresh and unrun too. */
  twostate lemma PermutedTrials(new built: seq<TrialRef>, new now: seq<TrialRef>)
    requires multiset(now) == multiset(built)
    requires forall k :: 0 <= k < |built| ==> fresh(built[k].Obj()) && Unrun(built[k])
    ensures forall k :: 0 <= k < |now| ==> fresh(now[k].Obj()) && Unrun(now[k])
  {
    forall k | 0 <= k < |now|
      ensures now[k] in built
    {
      assert now[k] in multiset(built);
    }
  }

  /** Builds each block's trials of one task and shuffles them, block `k` drawing from `pick(firstShuffle + k, _)`. */
  method PrepareBlocks(blocks: seq<Block>, files: seq<SpecFile>, participantId: string, participantType: string,
                       flanker: bool, pick: (nat, nat) -> nat, firstShuffle: nat)
    requires |blocks| == |files| && Distinct(blocks) && Readable(files)
    requires forall j :: 0 <= j < |blocks| ==>
      Built(blocks[j], files[j], participantId, participantType, if flanker then FlankerInstruction else StroopInstruction)
      && blocks[j].trials == []
    modifies set b | b in blocks
    ensures forall j :: 0 <= j < |blocks| ==> Loaded(blocks[j], files[j], participantId, participantType, flanker)
    ensures forall j, k :: 0 <= j < |blocks| && 0 <= k < |blocks[j].trials| ==>
      fresh(blocks[j].trials[k].Obj()) && Unrun(blocks[j].trials[k])
  {
    var k := 0;
    ghost var loaded: seq<seq<TrialRef>> := [];
    while k < |blocks|
      invariant 0 <= k <= |blocks| && |loaded| == k
      invariant forall j :: 0 <= j < |blocks| ==>
        if j < k then Loaded(blocks[j], files[j], participantId, participantType, flanker) && blocks[j].trials == loaded[j]
        else (Built(blocks[j], files[j], participantId, participantType, if flanker then FlankerInstruction else StroopInstruction)
              && blocks[j].trials == [])
      invariant forall j, i :: 0 <= j < k && 0 <= i < |loaded[j]| ==> fresh(loaded[j][i].Obj()) && Unrun(loaded[j][i])
    {
      PrepareNext(blocks, blocks[k], files, participantId, participantType, flanker, (x: nat) => pick(firstShuffle + k, x),
                  k, loaded);
      loaded := loaded + [blocks[k].trials];
      k := k + 1;
    }
  }

  /** Block `k` of `blocks` is prepared; the blocks before it keep their trials, which stay unrun. */
  method PrepareNext(blocks: seq<Block>, b: Block, files: seq<SpecFile>, participantId: string, participantType: string,
                     flanker: bool, pick: nat -> nat, k: nat, ghost loaded: seq<seq<TrialRef>>)
    requires k < |blocks| == |files| && blocks[k] == b && Distinct(blocks)
    requires Built(b, files[k], participantId, participantType, if flanker then FlankerInstruction else StroopInstruction)
    requires b.trials == [] && WellFormed(files[k].rows[1..])
    modifies b`trials
    ensures Loaded(blocks[k], files[k], participantId, participantType, flanker)
    ensures forall i :: 0 <= i < |blocks[k].trials| ==> fresh(blocks[k].trials[i].Obj()) && Unrun(blocks[k].trials[i])
    ensures forall j, i :: 0 <= j < |loaded| && 0 <= i < |loaded[j]| ==>
      old(Unrun(loaded[j][i])) ==> Unrun(loaded[j][i])
  {
    PrepareBlock(b, files[k], participantId, participantType, flanker, pick, loaded);
  }

  /** The merge of two distinct lists of blocks is distinct, holds only their blocks, and lists their files merged. */
  lemma MergedBlocks(first: seq<Block>, second: seq<Block>)
    requires Distinct(first + second)
    ensures Distinct(Interleave(first, second))
    ensures forall b :: b in Interleave(first, second) ==> b in first || b in second
    ensures CsvFiles(Interleave(first, second)) == Interleave(CsvFiles(first), CsvFiles(second))
  {
    InterleaveDistinct(first, second);
    InterleaveCount(first, second);
    CsvFilesInterleave(first, second);
    forall b | b in Interleave(first, second)
      ensures b in first || b in second
    {
      assert b in multiset(first) + multiset(second);
    }
  }

  /** The blocks of one task, each with its trials built and shuffled; shuffle `firstShuffle + k` is block `k`'s. */
  method PrepareTask(files: seq<SpecFile>, participantId: string, participantType: string, flanker: bool,
                     pick: (nat, nat) -> nat, firstShuffle: nat)
    returns (blocks: seq<Block>)
    requires Readable(files)
    ensures |blocks| == |files| && Distinct(blocks)
    ensures forall j :: 0 <= j < |blocks| ==> fresh(blocks[j])
    ensures forall j :: 0 <= j < |blocks| ==> Loaded(blocks[j], files[j], participantId, participantType, flanker)
    ensures forall j, k :: 0 <= j < |blocks| && 0 <= k < |blocks[j].trials| ==>
      fresh(blocks[j].trials[k].Obj()) && Unrun(blocks[j].trials[k])
  {
    blocks := MakeBlocks(files, participantId, participantType,
                         if flanker then FlankerInstruction else StroopInstruction);
    PrepareBlocks(blocks, files, participantId, participantType, flanker, pick, firstShuffle);
  }

  /**
   * The blocks of both tasks, the flanker blocks prepared first: shuffle
   * number `n` draws from `pick(n, _)`, the flanker blocks taking the first
   * numbers and the Stroop blocks the next ones.
   */
  method PrepareTasks(stroopFiles: seq<SpecFile>, flankerFiles: seq<SpecFile>, participantId: string,
                      participantType: string, pick: (nat, nat) -> nat)
    returns (sb: seq<Block>, fb: seq<Block>)
    requires Readable(stroopFiles) && Readable(flankerFiles)
    ensures |sb| == |stroopFiles| && |fb| == |flankerFiles|
    ensures Distinct(fb + sb) && forall b :: b in fb + sb ==> fresh(b)
    ensures forall b, k :: b in fb + sb && 0 <= k < |b.trials| ==> fresh(b.trials[k].Obj()) && Unrun(b.trials[k])
    ensures forall k :: 0 <= k < |stroopFiles| ==> Loaded(sb[k], stroopFiles[k], participantId, participantType, false)
    ensures forall k :: 0 <= k < |flankerFiles| ==> Loaded(fb[k], flankerFiles[k], participantId, participantType, true)
  {
    fb := PrepareTask(flankerFiles, participantId, participantType, true, pick, 0);
    label flanker:
    sb := PrepareTask(stroopFiles, participantId, participantType, false, pick, |fb|);
    forall j, k | 0 <= j < |fb| && 0 <= k < |fb[j].trials|
      ensures fresh(fb[j].trials[k].Obj()) && Unrun(fb[j].trials[k])
    {
      UnrunKept@flanker(fb[j].trials[k]);
    }
    assert Distinct(fb + sb) by {
      forall i, j | 0 <= i < j < |fb + sb|
        ensures (fb + sb)[i] != (fb + sb)[j]
      {
        if i < |fb| && j >= |fb| {
          assert (fb + sb)[i] == fb[i] && (fb + sb)[j] == sb[j - |fb|];
        }
      }
    }
    forall b, k | b in fb + sb && 0 <= k < |b.trials|
      ensures fresh(b.trials[k].Obj()) && Unrun(b.trials[k])
    {
      if b in fb {
        var j :| 0 <= j < |fb| && fb[j] == b;
      } else {
        var j :| 0 <= j < |sb| && sb[j] == b;
      }
    }
  }

  /**
   * One block per file, sharing the participant's answers; every block's
   * trials built once and shuffled within the block (the flanker blocks first,
   * shuffle number `n` drawing from `pick(n, _)`); then the two lists merged by
   * the round-robin, the Stroop list first when `stroopFirst`.
   */
  method LoadBlocks(stroopFiles: seq<SpecFile>, flankerFiles: seq<SpecFile>, participantId: string,
                    participantType: string, stroopFirst: bool, pick: (nat, nat) -> nat)
    returns (blocks: seq<Block>, ghost stroopBlocks: seq<Block>, ghost flankerBlocks: seq<Block>)
    requires Readable(stroopFiles) && Readable(flankerFiles)
    ensures blocks == if stroopFirst then Interleave(stroopBlocks, flankerBlocks) else Interleave(flankerBlocks, stroopBlocks)
    ensures CsvFiles(blocks) == if stroopFirst then Interleave(FileNames(stroopFiles), FileNames(flankerFiles))
                                else Interleave(FileNames(flankerFiles), FileNames(stroopFiles))
    ensures Distinct(blocks) && forall b :: b in blocks ==> fresh(b)
    ensures forall b, k :: b in blocks && 0 <= k < |b.trials| ==> fresh(b.trials[k].Obj()) && Unrun(b.trials[k])
    ensures |stroopBlocks| == |stroopFiles| && |flankerBlocks| == |flankerFiles|
    ensures forall k :: 0 <= k < |stroopFiles| ==> Loaded(stroopBlocks[k], stroopFiles[k], participantId, participantType, false)
    ensures forall k :: 0 <= k < |flankerFiles| ==> Loaded(flankerBlocks[k], flankerFiles[k], participantId, participantType, true)
  {
    var sb, fb := PrepareTasks(stroopFiles, flankerFiles, participantId, participantType, pick);
    stroopBlocks, flankerBlocks := sb, fb;
    assert CsvFiles(sb) == FileNames(stroopFiles);
    assert CsvFiles(fb) == FileNames(flankerFiles);
    label merged:
    if stroopFirst {
      DistinctSwap(fb, sb);
      MergedBlocks(sb, fb);
      blocks := RoundRobin(sb, fb);
    } else {
      MergedBlocks(fb, sb);
      blocks := RoundRobin(fb, sb);
    }
    forall b | b in blocks
      ensures fresh(b)
    {
      assert b in fb + sb;
    }
    forall b, k | b in blocks && 0 <= k < |b.trials|
      ensures fresh(b.trials[k].Obj()) && Unrun(b.trials[k])
    {
      assert b in fb + sb;
      assert b.trials == old@merged(b.trials);
      assert old@merged(Unrun(b.trials[k]));
      assert unchanged@merged(b.trials[k].Obj());
      UnrunKept@merged(b.trials[k]);
    }
  }

  /**
   * Running a loaded block builds its task's trials a second time: when the
   * file name selects the same task, the block then reports twice as many
   * trials as its file has rows, the shuffled ones first and the same ones
   * again in file order after them.
   */
  lemma RunAfterLoad(b: Block, file: SpecFile, participantId: string, participantType: string, flanker: bool,
                     responses: seq<Response>)
    requires Loaded(b, file, participantId, participantType, flanker) && b.Runnable(responses)
    requires DispatchType(b.csvFile) == Some(if flanker then "flanker" else "stroop")
    ensures var n := |b.trialsSpecification|;
      var specs := SpecsOf(b.trials) + TaskSpecs(b.csvFile, b.trialsSpecification);
      var inOrder := if flanker then FlankerSpecs(b.trialsSpecification) else StroopSpecs(b.trialsSpecification);
      && |b.Reported(responses).trials| == |specs| == 2 * n
      && specs[n..] == inOrder
      && multiset(specs[..n]) == multiset(inOrder)
  {
    var n := |b.trialsSpecification|;
    var specs := SpecsOf(b.trials) + TaskSpecs(b.csvFile, b.trialsSpecification);
    assert specs[..n] == SpecsOf(b.trials);
    if flanker {
      assert StartsWith(b.csvFile, "ft");
      assert TaskSpecs(b.csvFile, b.trialsSpecification) == FlankerSpecs(b.trialsSpecification);
    } else {
      assert !StartsWith(b.csvFile, "ft");
      assert TaskSpecs(b.csvFile, b.trialsSpecification) == StroopSpecs(b.trialsSpecification);
    }
    assert specs[n..] == TaskSpecs(b.csvFile, b.trialsSpecification);
  }
}
