/** The MRIQC metrics extractor: for every subject of the roster and every
    task, in a fixed task order, it globs the subject's session-01 MRIQC
    JSON files of that task, takes the run label out of each file name,
    reads `tsnr` and `fd_mean` (each `missing` when absent or when the file
    cannot be read), and writes one comma-separated line per file under a
    fixed header. */
module Metrics {
  import opened Text
  import Order

  const Tasks: seq<string> := ["ugr", "doors", "socialdoors", "trust", "sharedreward"]
  const MriqcDir := "/gpfs/scratch/tug87422/smithlab-shared/rf1-sra-linux2/derivatives/mriqc/"
  const Columns: seq<string> := ["sub", "task", "run", "tsnr", "fd_mean"]
  const Header := "sub,task,run,tsnr,fd_mean"
  const Missing := "missing"

  /** The file name after the run wildcard. */
  const Suffix := "_echo-2_part-mag_bold.json"

  /** What the script sees: the paths each glob pattern returns, in the order
      `glob.glob` returns them, and for each JSON file its top-level fields as
      `str()` renders them, or None where opening or parsing it fails. */
  datatype Disk = Disk(globs: map<string, seq<string>>, json: map<string, Option<map<string, string>>>)

  /** `sublist_file` read whole and cut with `str.splitlines()`: blank lines
      stay, as empty subject IDs. */
  function Roster(text: string): seq<string>
  {
    Lines(text, false)
  }

  /** The pattern up to the run wildcard. */
  function Prefix(sub: string, task: string): string
  {
    MriqcDir + "sub-" + sub + "/ses-01/func/sub-" + sub + "_ses-01_task-" + task + "_run-"
  }

  /** The glob pattern for one subject and task. */
  function Pattern(sub: string, task: string): string
  {
    Prefix(sub, task) + "*" + Suffix
  }

  /** `glob.glob(pattern)`: what the disk lists for it, nothing otherwise. */
  function Glob(d: Disk, pattern: string): seq<string>
  {
    if pattern in d.globs then d.globs[pattern] else []
  }

  /** `json_file.split('_run-')[-1].split('_')[0]` */
  function RunOf(path: string): string
  {
    Before(LastPiece(path, "_run-"), "_")
  }

  /** What reading the JSON file gives: None where `open` or `json.load`
      raises. */
  function Data(d: Disk, path: string): Option<map<string, string>>
  {
    if path in d.json then d.json[path] else None
  }

  /** `str(data.get(key, 'missing'))`, or the `missing` default kept when the
      file could not be read. */
  function Field(data: Option<map<string, string>>, key: string): string
  {
    if data.Some? && key in data.value then data.value[key] else Missing
  }

  /** `[sub, task, run, tsnr, fd_mean]` for one JSON file. */
  function Row(d: Disk, sub: string, task: string, path: string): seq<string>
  {
    [sub, task, RunOf(path), Field(Data(d, path), "tsnr"), Field(Data(d, path), "fd_mean")]
  }

  /** The innermost loop's contribution for one file. */
  function FileRows(d: Disk, sub: string, task: string): string -> seq<seq<string>>
  {
    path => [Row(d, sub, task, path)]
  }

  /** The rows of one subject and task, in glob order. */
  function TaskRows(d: Disk, sub: string, task: string): seq<seq<string>>
  {
    Order.FlatMap(FileRows(d, sub, task), Glob(d, Pattern(sub, task)))
  }

  /** The rows of one subject, task by task in the fixed order. */
  function SubjectRows(d: Disk, sub: string): seq<seq<string>>
  {
    Order.FlatMap(task => TaskRows(d, sub, task), Tasks)
  }

  /** `results` after the loops over the given subjects. */
  function Results(d: Disk, subs: seq<string>): seq<seq<string>>
  {
    Order.FlatMap(sub => SubjectRows(d, sub), subs)
  }

  /** Each row joined with commas. */
  function CsvLines(rows: seq<seq<string>>): (r: seq<string>)
    ensures |r| == |rows| && forall k :: 0 <= k < |rows| ==> r[k] == JoinWith(rows[k], ",")
  {
    seq(|rows|, k requires 0 <= k < |rows| => JoinWith(rows[k], ","))
  }

  /** The file written: the header, then each row joined with commas, every
      line ended by `\n`. */
  function Csv(rows: seq<seq<string>>): string
  {
    NewlineTerminated([Header] + CsvLines(rows))
  }

  // ---------------------------------------------------------------------------
  // The script
  // ---------------------------------------------------------------------------

  /** The loop over the subjects. */
  method CollectResults(d: Disk, rosterText: string) returns (results: seq<seq<string>>)
    ensures results == Results(d, Roster(rosterText))
  {
    var subjects := Roster(rosterText);
    results := [];
    for i := 0 to |subjects|
      invariant results == Results(d, subjects[..i])
    {
      var rows := SubjectResults(d, subjects[i]);
      Order.FlatMapSnoc(sub => SubjectRows(d, sub), subjects, i);
      results := results + rows;
    }
    assert subjects[..|subjects|] == subjects;
  }

  /** The loop over the tasks, for one subject. */
  method SubjectResults(d: Disk, sub: string) returns (rows: seq<seq<string>>)
    ensures rows == SubjectRows(d, sub)
  {
    rows := [];
    for j := 0 to |Tasks|
      invariant rows == Order.FlatMap(task => TaskRows(d, sub, task), Tasks[..j])
    {
      var done := TaskResults(d, sub, Tasks[j]);
      Order.FlatMapSnoc(task => TaskRows(d, sub, task), Tasks, j);
      rows := rows + done;
    }
    assert Tasks[..|Tasks|] == Tasks;
  }

  /** The loop over the files the glob returns, for one subject and task. */
  method TaskResults(d: Disk, sub: string, task: string) returns (rows: seq<seq<string>>)
    ensures rows == TaskRows(d, sub, task)
  {
    var files := Glob(d, Pattern(sub, task));
    rows := [];
    for k := 0 to |files|
      invariant rows == Order.FlatMap(FileRows(d, sub, task), files[..k])
    {
      var row := FileResult(d, sub, task, files[k]);
      Order.FlatMapSnoc(FileRows(d, sub, task), files, k);
      rows := rows + [row];
    }
    assert files[..|files|] == files;
  }

  /** The body of the innermost loop: both metrics start as `missing` and are
      replaced only when the file can be read. */
  method FileResult(d: Disk, sub: string, task: string, path: string) returns (row: seq<string>)
    ensures row == Row(d, sub, task, path)
  {
    var run := RunOf(path);
    var tsnr, fdMean := Missing, Missing;
    var data := Data(d, path);
    if data.Some? {
      tsnr := Field(data, "tsnr");
      fdMean := Field(data, "fd_mean");
    }
    row := [sub, task, run, tsnr, fdMean];
  }

  /** The writing loop. */
  method WriteCsv(results: seq<seq<string>>) returns (text: string)
    ensures text == Csv(results)
  {
    var lines := CsvLines(results);
    text := Header + "\n";
    for i := 0 to |results|
      invariant text == Header + "\n" + NewlineTerminated(lines[..i])
    {
      TerminatedSnoc(lines[..i], lines[i]);
      assert lines[i] == JoinWith(results[i], ",");
      assert lines[..i + 1] == lines[..i] + [lines[i]];
      text := text + JoinWith(results[i], ",") + "\n";
    }
    assert lines[..|results|] == lines;
    assert ([Header] + lines)[1..] == lines;
  }

  lemma {:induction false} TerminatedSnoc(ls: seq<string>, x: string)
    ensures NewlineTerminated(ls + [x]) == NewlineTerminated(ls) + x + "\n"
    decreases |ls|
  {
    if ls == [] {
      assert NewlineTerminated([x]) == x + "\n" + NewlineTerminated([]);
    } else {
      assert (ls + [x])[1..] == ls[1..] + [x];
      TerminatedSnoc(ls[1..], x);
    }
  }

  // ---------------------------------------------------------------------------
  // Properties
  // ---------------------------------------------------------------------------

  /** A roster written one ID per line reads back with every line, blank
      ones included, as a subject. */
  lemma RosterKeepsEveryLine(ids: seq<string>)
    requires forall k :: 0 <= k < |ids| ==> forall j :: 0 <= j < |ids[k]| ==> !IsLineBreak(ids[k][j], false)
    ensures Roster(NewlineTerminated(ids)) == ids
  {
    LinesOfNewlineJoined(ids, false);
  }

  /** The only `_` of the suffix that is followed by anything is never
      followed by `r`. */
  lemma SuffixPairs()
    ensures forall m :: 0 <= m < |Suffix| - 1 && Suffix[m] == '_' ==> Suffix[m + 1] != 'r'
  {
  }

  /** No `_run-` after a wildcard match without `_`. */
  lemma NoRunInTail(star: string)
    requires '_' !in star
    ensures !Contains(star + Suffix, "_run-")
  {
    var t := star + Suffix;
    SuffixPairs();
    forall j | 0 <= j <= |t| - 5 ensures !OccursAt(t, "_run-", j) {
      assert t[j..j + 5][0] == t[j] && t[j..j + 5][1] == t[j + 1];
      assert j < |star| ==> t[j] == star[j];
      assert j >= |star| ==> t[j] == Suffix[j - |star|] && t[j + 1] == Suffix[j - |star| + 1];
    }
  }

  /** `s.split('_')[0]` of a text that starts with a word without `_`
      followed by `_`. */
  lemma BeforeUnderscore(star: string, rest: string)
    requires '_' !in star && rest != [] && rest[0] == '_'
    ensures Before(star + rest, "_") == star
  {
    var s := star + rest;
    assert s[..|star|] == star;
    BeforeChar(s, '_', |star|);
  }

  /** A file the glob returns has the pattern's text around what the
      wildcard matched; when that holds no `_`, it is the run label. */
  lemma RunOfMatch(sub: string, task: string, star: string)
    requires '_' !in star
    ensures RunOf(Prefix(sub, task) + star + Suffix) == star
  {
    var pre := MriqcDir + "sub-" + sub + "/ses-01/func/sub-" + sub + "_ses-01_task-" + task;
    var tail := star + Suffix;
    assert Prefix(sub, task) + star + Suffix == pre + "_run-" + tail;
    NoRunInTail(star);
    LastPieceAfter(pre, "_run-", tail);
    BeforeUnderscore(star, Suffix);
  }

  /** Rows come subject by subject: the rows of a roster are those of its
      first part followed by those of the rest. */
  lemma ResultsAppend(d: Disk, a: seq<string>, b: seq<string>)
    ensures Results(d, a + b) == Results(d, a) + Results(d, b)
  {
    Order.FlatMapSplit(sub => SubjectRows(d, sub), a, b);
  }

  /** Within a subject the tasks come in the fixed order. */
  lemma SubjectRowsOrder(d: Disk, sub: string)
    ensures SubjectRows(d, sub) ==
            TaskRows(d, sub, "ugr") + TaskRows(d, sub, "doors") + TaskRows(d, sub, "socialdoors") +
            TaskRows(d, sub, "trust") + TaskRows(d, sub, "sharedreward")
  {
    Order.FlatMapFive(task => TaskRows(d, sub, task), "ugr", "doors", "socialdoors", "trust", "sharedreward");
  }

  /** The rows of one subject and task are one per file the glob returns. */
  lemma TaskMembers(d: Disk, sub: string, task: string, row: seq<string>)
    ensures row in TaskRows(d, sub, task) <==>
            exists k :: 0 <= k < |Glob(d, Pattern(sub, task))| && row == Row(d, sub, task, Glob(d, Pattern(sub, task))[k])
  {
    Order.FlatMapMembers(FileRows(d, sub, task), Glob(d, Pattern(sub, task)), row);
  }

  /** The rows of one subject are one per task and file the glob returns. */
  lemma SubjectMembers(d: Disk, sub: string, row: seq<string>)
    ensures row in SubjectRows(d, sub) <==>
            exists j, k :: 0 <= j < |Tasks| && 0 <= k < |Glob(d, Pattern(sub, Tasks[j]))| &&
                           row == Row(d, sub, Tasks[j], Glob(d, Pattern(sub, Tasks[j]))[k])
  {
    Order.FlatMapMembers(task => TaskRows(d, sub, task), Tasks, row);
    forall j | 0 <= j < |Tasks|
      ensures row in TaskRows(d, sub, Tasks[j]) <==>
              exists k :: 0 <= k < |Glob(d, Pattern(sub, Tasks[j]))| && row == Row(d, sub, Tasks[j], Glob(d, Pattern(sub, Tasks[j]))[k])
    {
      TaskMembers(d, sub, Tasks[j], row);
    }
  }

  /** A row exists exactly for each subject of the roster, each task and each
      file the glob returns for them. */
  lemma ResultsMembers(d: Disk, subs: seq<string>, row: seq<string>)
    ensures row in Results(d, subs) <==>
            exists i, j, k :: 0 <= i < |subs| && 0 <= j < |Tasks| && 0 <= k < |Glob(d, Pattern(subs[i], Tasks[j]))| &&
                              row == Row(d, subs[i], Tasks[j], Glob(d, Pattern(subs[i], Tasks[j]))[k])
  {
    Order.FlatMapMembers(sub => SubjectRows(d, sub), subs, row);
    forall i | 0 <= i < |subs|
      ensures row in SubjectRows(d, subs[i]) <==>
              exists j, k :: 0 <= j < |Tasks| && 0 <= k < |Glob(d, Pattern(subs[i], Tasks[j]))| &&
                             row == Row(d, subs[i], Tasks[j], Glob(d, Pattern(subs[i], Tasks[j]))[k])
    {
      SubjectMembers(d, subs[i], row);
    }
  }

  /** A file that cannot be read gives `missing` for both metrics; a file
      that can be read gives each metric it has and `missing` for the other. */
  lemma MissingFields(d: Disk, sub: string, task: string, path: string)
    ensures Data(d, path).None? ==> Row(d, sub, task, path)[3] == Missing && Row(d, sub, task, path)[4] == Missing
    ensures var data := Data(d, path);
            data.Some? ==> (Row(d, sub, task, path)[3] == if "tsnr" in data.value then data.value["tsnr"] else Missing)
    ensures var data := Data(d, path);
            data.Some? ==> (Row(d, sub, task, path)[4] == if "fd_mean" in data.value then data.value["fd_mean"] else Missing)
  {
  }

  /** Reading the CSV back: its lines, and each line's comma-separated
      fields. */
  function ReadCsv(text: string): seq<seq<string>>
  {
    ReadLines(Lines(text, true))
  }

  function ReadLines(ls: seq<string>): seq<seq<string>>
  {
    seq(|ls|, k requires 0 <= k < |ls| => Split(ls[k], ","))
  }

  /** No comma or line break in any field. */
  predicate PlainFields(rows: seq<seq<string>>) {
    forall k :: 0 <= k < |rows| ==> forall m :: 0 <= m < |rows[k]| ==> PlainField(rows[k][m])
  }

  predicate PlainField(f: string) {
    forall j :: 0 <= j < |f| ==> f[j] != ',' && !IsLineBreak(f[j], true)
  }

  /** The joined rows hold no line break. */
  lemma CsvLinesUnbroken(rows: seq<seq<string>>)
    requires PlainFields(rows)
    ensures forall k, j :: 0 <= k < |rows| && 0 <= j < |CsvLines(rows)[k]| ==> !IsLineBreak(CsvLines(rows)[k][j], true)
  {
    forall k | 0 <= k < |rows|
      ensures forall j :: 0 <= j < |CsvLines(rows)[k]| ==> !IsLineBreak(CsvLines(rows)[k][j], true)
    {
      assert forall m :: 0 <= m < |rows[k]| ==> PlainField(rows[k][m]);
      JoinWithChars(rows[k], ",", c => !IsLineBreak(c, true));
    }
  }

  /** The written text reads back as its lines. */
  lemma CsvTextLines(rows: seq<seq<string>>)
    requires PlainFields(rows)
    ensures Lines(Csv(rows), true) == [Header] + CsvLines(rows)
  {
    var ls := [Header] + CsvLines(rows);
    CsvLinesUnbroken(rows);
    forall k, j | 0 <= k < |ls| && 0 <= j < |ls[k]| ensures !IsLineBreak(ls[k][j], true) {
      if k > 0 {
        assert ls[k] == CsvLines(rows)[k - 1];
      }
    }
    LinesOfNewlineJoined(ls, true);
  }

  /** The header reads back as the column names. */
  lemma HeaderFields()
    ensures Split(Header, ",") == Columns
  {
    var j4 := JoinWith(["fd_mean"], ",");
    assert ["tsnr", "fd_mean"][1..] == ["fd_mean"];
    assert ["run", "tsnr", "fd_mean"][1..] == ["tsnr", "fd_mean"];
    assert ["task", "run", "tsnr", "fd_mean"][1..] == ["run", "tsnr", "fd_mean"];
    assert Columns[1..] == ["task", "run", "tsnr", "fd_mean"];
    assert JoinWith(Columns, ",") == "sub" + "," + ("task" + "," + ("run" + "," + ("tsnr" + "," + j4)));
    assert JoinWith(Columns, ",") == Header;
    SplitJoinChar(Columns, ',');
  }

  /** The file reads back as the header and the rows, when every row has
      fields and none holds a comma or a line break. */
  lemma CsvRoundTrip(rows: seq<seq<string>>)
    requires PlainFields(rows)
    requires forall k :: 0 <= k < |rows| ==> |rows[k]| >= 1
    ensures ReadCsv(Csv(rows)) == [Columns] + rows
  {
    CsvTextLines(rows);
    HeaderFields();
    forall k | 0 <= k < |rows| ensures Split(CsvLines(rows)[k], ",") == rows[k] {
      RowReadsBack(rows, k);
    }
    SplitLines(Header, CsvLines(rows), Columns, rows);
  }

  /** Splitting each line gives the expected rows when it does line by
      line. */
  lemma SplitLines(h: string, ls: seq<string>, eh: seq<string>, expected: seq<seq<string>>)
    requires Split(h, ",") == eh
    requires |ls| == |expected| && forall k :: 0 <= k < |ls| ==> Split(ls[k], ",") == expected[k]
    ensures ReadLines([h] + ls) == [eh] + expected
  {
    assert forall k :: 1 <= k <= |ls| ==> ([h] + ls)[k] == ls[k - 1];
  }

  /** One row reads back from its joined line. */
  lemma RowReadsBack(rows: seq<seq<string>>, k: nat)
    requires PlainFields(rows) && k < |rows| && |rows[k]| >= 1
    ensures Split(CsvLines(rows)[k], ",") == rows[k]
  {
    var row := rows[k];
    forall m | 0 <= m < |row| ensures ',' !in row[m] {
      assert PlainField(row[m]);
    }
    SplitJoinChar(row, ',');
  }
}
