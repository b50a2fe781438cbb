# Flanker / Stroop session, modelled in Dafny

This project models the core of a small psychology experiment written for
PsychoPy. A session is divided into blocks. Each block reads a CSV file of
trial specifications.

- A file whose name starts with `ft` holds flanker trials. Each row gives a
  target direction and a congruence.
- A file whose name starts with `st` holds Stroop trials. Each row gives a
  word and an ink colour.

Loading a session does four things:

- builds one block per file;
- makes each block's trials;
- shuffles them;
- interleaves the Stroop and flanker blocks round-robin.

Writing the data processes each block in order. Running a block makes the
trials of its task again. So when a block's file name selects the task it was
loaded with, it then holds its shuffled trials followed by new trial objects
built from the same rows, in file order. Each trial is shown and answered and
then scored. One CSV row is written per trial, numbered across the whole session.

The model keeps the program's structure:

- `trial.dfy` (module `Trial`) covers `Trial.py`:
  - the scoring rules as functions;
  - the initial flanker arrow layout;
  - `FlankerTrial` and `StroopTrial` as classes whose methods update their
    fields, as the Python methods do;
  - `TrialState`, a snapshot of a trial object's fields, with `Initial`,
    `AfterRun` and `AfterReport` giving the snapshot a trial has when built,
    after `run` and after `get_data_dict`;
  - `Record`, the pure description of the data a trial reports once it has
    been run on a response.
- `blocks.dfy` (module `Blocks`) covers `Block` from `main.py`:
  - a class over its trial list;
  - the dispatch on the file-name prefix in `run`;
  - `Reported`, the pure description of what `get_data_dict` returns after a
    run.
- `scheduler.dfy` (module `Scheduler`) covers `load_blocks`:
  - building the blocks;
  - the Fisher–Yates swap loop standing for `random.shuffle`;
  - the generator `roundrobin` as a loop over a list of live iterators,
    proved equal to the recursive interleaving `Interleave`.
- `export.dfy` (module `Export`) covers `write_data_to_csv`:
  - the rows it hands to the CSV writer, built by a loop;
  - the loop proved equal to the pure `Rows` of the gathered block data.
- `options.dfy` holds the `Option` type standing for Python's `None`.

Where a method changes a trial or a block, its `ensures` gives the new
state of that object in terms of the pure functions above. Loading leaves
every block and every trial a fresh object, and every trial as its
constructor left it (`Unrun`). The one gap is the trials' final fields after
`WriteDataToCsv`, listed under "Left out". The lemmas then prove what those
functions promise:

- the scoring is an if-and-only-if over the keys;
- interleaving keeps every element and puts them in alternating order;
- shuffling only permutes;
- every row lines up with the header and the indices run consecutively.

## Model

| member | source | states |
|---|---|---|
| Trial.ResponseKey | Trial.py:24 | The response key is None exactly when no key was pressed; otherwise it is the first key pressed. |
| Trial.FlankerLabel | Trial.py:64-77 | A flanker response is "invalid" iff more than one key was pressed. It is "correct" iff exactly one key was pressed and that key is `f` for left or `j` for right. Otherwise it is "incorrect". |
| Trial.ColorKey | Trial.py:110-111 | A colour has an expected key iff it is one of blue, red, yellow and green. That key is the colour's initial letter. |
| Trial.StroopLabel | Trial.py:108-122 | A Stroop response is "invalid" iff more than one key was pressed. It is "correct" iff exactly one key was pressed, the ink colour is a known one, and the key is the colour's initial. |
| Trial.StroopWordIgnored | Trial.py:108-122 | The printed word never changes a Stroop label. Example: the word "red" in blue ink answered with `b` is correct. |
| Trial.UnknownColour | Trial.py:110-120 | An ink colour outside the four known ones has no expected key, so a single key is always "incorrect". |
| Trial.PositionsLayout | Trial.py:34-35 | There are five arrow positions on the horizontal midline, strictly left to right. The centre is the origin. The right-hand list is the left-hand list reversed. |
| Trial.InitialArrows | Trial.py:45-58 | The constructor's case split on direction and congruence: five arrows over the left-to-right or right-to-left positions with the source's rotations, the centre replaced for an incongruent pair, and a single centre arrow otherwise. `InitialArrowsLayout` states what the layout promises. |
| Trial.InitialArrowsLayout | Trial.py:45-58 | For a known direction and congruence there are five arrows at distinct midline positions, with the centre arrow at the origin. The centre arrow points the target direction and all four flankers point alike. Congruent: the flankers point the target direction too. Incongruent: they point the opposite way, with flankers at 0 and the centre at 180 for left, and flankers at 180 and the centre at 360 for right. Every rotation is 0, 180 or 360. Otherwise there is a single arrow at the centre, at 0 for "right" and at 180 for anything else. |
| Trial.FlankerTrial.constructor | Trial.py:39-58 | It records the direction and congruence and lays out the initial arrows. It starts with no response, no time, no label and no data. |
| Trial.FlankerTrial.Run | Trial.py:60-62 | Through `draw_and_flip` (lines 18-26), it stores the keys, the first key and the elapsed time, then scores the response (`Scored`). It leaves the arrows alone. |
| Trial.FlankerTrial.ValidateResponse | Trial.py:64-77 | The label list holds exactly one label, the one `FlankerLabel` gives. `is_correct` holds iff that label is "correct". The list is stored on the trial and returned. |
| Trial.FlankerTrial.GetDataDict | Trial.py:79-91 | The data holds the response key, the first pressed key as `correct`, the direction and congruence, "-" for both Stroop fields, the stored labels and the time. |
| Trial.StroopTrial.constructor | Trial.py:94-99 | It records the word and colour. It starts with no expected key and no response. |
| Trial.StroopTrial.Run | Trial.py:101-103 | Through `draw_and_flip`, it stores the keys, the first key and the time. It does not score. |
| Trial.StroopTrial.ValidateResponse | Trial.py:108-122 | It stores the expected key of the colour. The label list is the single `StroopLabel` label, and `is_correct` holds iff that label is "correct". |
| Trial.StroopTrial.GetDataDict | Trial.py:124-137 | It scores the response again, then reports the response key, the colour's expected key as `correct`, the word and colour, "-" for both flanker fields, the labels and the time. |
| Trial.Initial | Trial.py:39-58 | The fields of a trial as its constructor leaves them. A flanker trial has the initial arrow layout of its direction and congruence. Both kinds have no response, no key, no time, no labels and no data, and `is_correct` is false. |
| Trial.AfterRun | Trial.py:60-77 | The fields after `run`: the keys, the first key and the time are stored. A flanker trial is also scored (one `FlankerLabel` label, `is_correct` iff it is "correct"). A Stroop trial keeps its expected key, labels, `is_correct` and data. Both keep their specification, and a flanker trial also keeps its arrows and data. |
| Trial.AfterReport | Trial.py:124-137 | The fields after `get_data_dict`: the data is stored on the trial. A Stroop trial is first scored again, which sets its expected key, `is_correct` and labels. Nothing else changes. |
| Trial.Data | Trial.py:79-91 | The data `get_data_dict` returns from answered fields. Both report the stored key and time. A flanker trial also reports its first key, direction, congruence and stored labels. A Stroop trial reports its colour's key and the label its scoring gives at that moment. |
| Trial.RunTrial | main.py:52-53 | Running either kind of trial on a response leaves every field as `AfterRun` gives it from the fields before, so the fields the run does not touch keep their values. |
| Trial.GetTrialData | main.py:66 | The data returned is `Data` of the trial's fields before the call. The fields afterwards are `AfterReport` of those before: the data is stored, the response is kept and a Stroop trial is scored. |
| Trial.Record | Trial.py:79-137 | The record, as the two `get_data_dict` methods (lines 79-91 and 124-137) build it. The record of a trial run on a response always has response = the first key, time = the response time and exactly one label. A flanker trial's record has `correct` = the first key pressed and "-" Stroop fields. A Stroop trial's record has `correct` = the colour's key and "-" flanker fields. In both, the label is "correct" iff there is one key and it is the right one, and "invalid" iff there are several keys. |
| Trial.ReportAfterRun | Trial.py:60-62 | A run keeps a trial's specification and leaves it answered. The data it then reports is `Record` of its specification and that response, whatever its fields were before. |
| Trial.ReportAgain | Trial.py:124-137 | Reporting leaves a trial answered and reporting the same data again. A second report changes nothing more. The response is kept and the data stored is the data returned. |
| Trial.RunFromInitial | Trial.py:39-62 | A newly built trial is not yet answered and has the specification it was built from. A run leaves a flanker trial's arrows in the initial layout. |
| Blocks.DispatchType | main.py:43-50 | The block type is "flanker" iff the file name starts with `ft`, "stroop" iff it starts with `st`, and None otherwise. |
| Blocks.TaskSpecs | main.py:30-50 | There is one trial per specification row when the name selects a task, and none otherwise. Each trial is a flanker trial for an `ft` file and a Stroop trial otherwise. |
| Blocks.RunTrials | main.py:52-53 | Running a list of distinct trials, trial k on response k, leaves each trial's fields as `AfterRun` of its own fields before. |
| Blocks.ReportTrials | main.py:66 | Reporting a list of distinct trials returns, in order, the `Data` of each trial's fields before. It leaves each trial's fields as `AfterReport` of those before. |
| Blocks.SwapKeepsTrials | main.py:91 | Swapping two trials of a list keeps the trial objects distinct and swaps their specifications. |
| Blocks.Block.constructor | main.py:12-21 | It records the file, participant and (non-empty) instruction. The specification is the file's rows after the header. It starts with no trials and no block type. |
| Blocks.Block.ProcessCsv | main.py:23-28 | It appends every row after the header to the specification. |
| Blocks.Block.ProcessStroopTask | main.py:30-32 | It appends one new Stroop trial per specification row, in row order, after the existing trials. Each new trial is fresh, with the fields `Initial` gives for its row. |
| Blocks.Block.ProcessFlankerTask | main.py:34-36 | It appends one new flanker trial per specification row, in row order, after the existing trials. Each new trial is fresh, with the fields `Initial` gives for its row, including the initial arrow layout. |
| Blocks.Block.Reported | main.py:38-68 | The data the block reports once run: its file and participant, the block type its file name selects (or the old one for an unknown name), and the `Record` of every trial it then holds, the old trials first and then the new ones of its task, each on its own response. `RunAndReport` proves it is what running and reporting return. |
| Blocks.Block.Run | main.py:38-54 | It sets the block type from the file name, or keeps the old one for an unknown name. The specification is kept. The trials of the selected task, fresh objects, follow the existing ones. Every trial is then run on its own response. Its fields become `AfterRun` of its fields before, or of `Initial` for a new trial. |
| Blocks.Block.GetDataDict | main.py:60-68 | It reports the file, block type and participant, and the `Data` of every trial in the same order. The trial list is kept, and each trial's fields become `AfterReport` of those before. |
| Scheduler.Interleave | main.py:97-104 | The reference merge: the head of the first list, then the merge of the second list with the rest of the first. The lemmas below state what it promises, and `RoundRobin` is proved equal to it. |
| Scheduler.InterleaveCount | main.py:97-104 | Interleaving two lists keeps every element and adds none (length and multiset). |
| Scheduler.InterleavePairs | main.py:97-104 | While both lists last, the interleaving alternates: position 2k holds the k-th of the first list and 2k+1 the k-th of the second. |
| Scheduler.InterleaveAfterPairs | main.py:97-104 | After the first m pairs, the rest of the interleaving is the interleaving of the two remainders. |
| Scheduler.InterleaveLeftovers | main.py:99-104 | Once the shorter list is used up, the rest of the longer list follows in order. |
| Scheduler.InterleaveEmptySecond | main.py:97-104 | Interleaving with an empty list gives the other list unchanged. |
| Scheduler.InterleaveTwo | main.py:99-102 | With both lists non-empty, one round yields the head of the first list and then the head of the second. |
| Scheduler.InterleaveExample | main.py:97-104 | Example: ["a1","a2"] with ["b1","b2","b3"] gives ["a1","b1","a2","b2","b3"]. |
| Scheduler.RoundRobin | main.py:97-104 | The generator loop yields exactly `Interleave(first, second)`. |
| Scheduler.InterleaveDistinct | main.py:106-109 | Interleaving two lists without shared or repeated elements gives a list without repeats. |
| Scheduler.ShuffleTrials | main.py:91 | Whatever the random draws, shuffling keeps the number of trials, the multiset of trials and the multiset of their specifications, and keeps the trials distinct. |
| Scheduler.MakeBlocks | main.py:87-88 | It builds one fresh, distinct block per file, in file order, as the constructor leaves it. |
| Scheduler.BuildTask | main.py:89-95 | Processing a fresh block's task gives it one trial per row of its task, in row order. Each trial is a fresh object, as its constructor left it. |
| Scheduler.PrepareBlock | main.py:89-95 | Processing a block's task and shuffling it leaves the block holding one trial per row of its task, in some order. Each trial is a fresh object, as its constructor left it. Trials already built for other blocks stay as they were. |
| Scheduler.PermutedTrials | main.py:91 | A reordering of fresh, unrun trials holds only those trials, so every trial it holds is fresh and unrun. |
| Scheduler.PrepareBlocks | main.py:89-95 | The same holds for every block of a list: each holds its task's trials in some order, all fresh and unrun. |
| Scheduler.PrepareNext | main.py:89-95 | One step of that loop: block k is loaded with fresh, unrun trials, and the trials of the blocks before it stay unrun. |
| Scheduler.CsvFilesInterleave | main.py:106-109 | The file names of interleaved blocks are the interleaving of their file names. |
| Scheduler.MergedBlocks | main.py:106-109 | The merged block list has no repeats and holds only blocks of the two lists, and its file names interleave. |
| Scheduler.PrepareTask | main.py:87-95 | The blocks of one task are fresh and distinct, and each is loaded from its file. Every trial they hold is fresh and unrun. |
| Scheduler.PrepareTasks | main.py:87-95 | The flanker blocks and then the Stroop blocks are prepared. Together they are fresh and distinct, each is loaded from its file, and every trial of either list is fresh and unrun. |
| Scheduler.LoadBlocks | main.py:71-111 | The session's blocks are the round-robin of the Stroop and flanker blocks, in the order `stroop_first` asks for. Their file names interleave accordingly. All are fresh and distinct. Every block is loaded from its own file with the flanker or Stroop task. Every trial of every block is a fresh object, as its constructor left it. |
| Scheduler.RunAfterLoad | main.py:89-95 | Since `run` processes the task again (lines 43-48), a loaded block whose file name selects the same task reports twice as many trials as its file has rows. The first half is the rows' trials in some order; the second half is those trials again in file order. |
| Export.HeaderRow | main.py:116 | The header row is the 13 column names in order. |
| Export.DataRow | main.py:122-136 | A trial's row is as wide as the header and starts with its index. Its `is_correct` cell holds the trial's single label. |
| Export.Rows | main.py:118-137 | The rows of every block's data in block order, numbered on from block to block. The lemmas below state their length, width and numbering, and `WriteDataToCsv` is proved to write them. |
| Export.RowsSnoc | main.py:119-137 | Writing one more block appends exactly its rows, numbered on from the trials before it. |
| Export.RowsLength | main.py:119-137 | There is one row per trial. |
| Export.RowsShape | main.py:118-137 | Every row is as wide as the header, and row k carries index k. |
| Export.RowOf | main.py:118-137 | Trial k of block i is on row (trials of blocks before i) + k, holding exactly that trial's data. |
| Export.AppendBlockRows | main.py:121-137 | It appends exactly the block's rows, numbered from the running index, and the index advances by the number of trials. |
| Export.RunAndReport | main.py:120-121 | Running a block and collecting its data gives `Reported` of the block as it was before the run. Afterwards the block type is the reported one and the specification is kept. The old trials are followed by fresh trials of its task. Every trial has the fields `AfterReport(AfterRun(...))` gives from its fields before, or from `Initial` for a new trial. |
| Export.RunBlock | main.py:120-121 | Running block i of a list of distinct blocks gives its `Reported` data, leaves it as `RunAndReport` describes (type, specification and trial list), and leaves every other block unchanged. |
| Export.WriteDataToCsv | main.py:113-137 | The table is the header then the rows of every block's data in order. It has one row per trial. Every row is 13 wide and row k+1 carries index k. Block i's data is `Reported` of block i before the call, on its own responses. Afterwards each block has its reported type, its old specification, and its old trials followed by those of its task. |

## Left out

- Drawing, window flips and the inter-trial waits are left out. These are PsychoPy display calls with no effect on the data.
- `InstructionTrial.run` is left out: it only draws text and waits for a key. `Block.wait` is left out: it clears the window and sleeps for a fixed time. The model keeps only whether a block has an instruction.
- Key waiting is not modelled. Each trial's keys and elapsed time are parameters (`Response`). The restriction to the task's key list (`f`/`j`, or `b`/`r`/`y`/`g`) is not imposed because the keys come from outside.
- The clock is replaced by the response time, given as a real number.
- `Trial.RunTrial`: requires at least one key. The key wait has no time limit, so it returns at least one key. If it returned None, `len(self.response)` in `validate_response` (Trial.py:66, Trial.py:112) would raise. An empty list would make `self.response[0]` (Trial.py:69, Trial.py:115) raise. These crash paths are excluded rather than modelled.
- `Trial.FlankerTrial.GetDataDict`: requires that the trial has been scored. In the source, calling `get_data_dict` on a flanker trial before `validate_response` raises AttributeError, because `self.response_list` (Trial.py:88) does not exist yet. That crash path is excluded rather than modelled. `Block.run` always scores a flanker trial before `get_data_dict` is called.
- The participant dialog and its cancel path (`return None, None`) are left out. The participant id and type are parameters.
- File reading is modelled without I/O: a file is its name and its rows, header first (`SpecFile`). A file without a header row, or a row without exactly two fields, would make the source raise. `HasHeader` (all that building the blocks needs), `Readable` and `WellFormed` require these away.
- `print` output is left out: the response time, "Unknown file type." and the closing message.
- `Scheduler.ShuffleTrials`: the random source is the parameter `pick`. `random.shuffle` is modelled as the Fisher–Yates swap loop it performs. The contract promises a permutation, not a uniform distribution.
- `Export.WriteDataToCsv`: cells are values (`Cell`) rather than the text the CSV writer would format. Quoting and number formatting are not modelled. None becomes an empty field. Real numbers are kept as `Seconds`.
- `Export.WriteDataToCsv`: states each block's final type, specification and trial list, but not the final fields of the trial objects. Its contract does not rule out two blocks sharing a trial object, and a later block's run would change such a trial again. `LoadBlocks` proves every trial fresh, but not that different blocks hold different trial objects. `RunAndReport` states the trials' fields block by block.
- `Export.WriteDataToCsv`: requires the blocks to be distinct objects. The session only ever passes freshly built distinct blocks (`LoadBlocks` proves this), so a list naming one block twice is not modelled.
- The module-level driver is left out. It creates the window, fixes the file names and the output name, calls `load_blocks` with `stroop_first=True`, writes the data and closes the window. Its own calls are modelled by `LoadBlocks` and `WriteDataToCsv`. Because `LoadBlocks` leaves every block and trial fresh, the blocks it returns may be passed on to `WriteDataToCsv`. The driver's own answers come from the keyboard, so no member models the session end to end.
- The `__main__` demonstration in `Trial.py` is left out.
- `Trial.FlankerTrial.GetDataDict`: the column `correct` holds the first key pressed, as the code has it, not the expected key. The model keeps this behaviour.
