/** The three views of the site that change records (easyml/mainsite/views.py:22-114):
    `upload_csv` checks the extension and the size, names the new file after its raw name with a
    ` (k)` suffix for the owner's duplicates, and flattens the table into one cell record per
    present cell; `rename_file` and `delete_file` act on one file, guarded by its owner (and, for
    a rename, by the owner's other display names). */
module Views {
  import opened Results
  import opened PyValues
  import opened Store
  import Text

  // ---------------------------------------------------------------------------------------------
  // Counting records, as `objects.filter(...).count()` does.

  /** The number of elements of `s` that satisfy `p`. */
  function Count<T>(s: seq<T>, p: T -> bool): (n: nat)
    ensures n <= |s|
    ensures n > 0 <==> exists i :: 0 <= i < |s| && p(s[i])
    decreases |s|
  {
    if |s| == 0 then 0
    else
      var init := s[..|s| - 1];
      assert forall i :: 0 <= i < |init| ==> init[i] == s[i];
      Count(init, p) + (if p(s[|s| - 1]) then 1 else 0)
  }

  /** The owner's files uploaded under this raw name (line 40). */
  function SameRawCount(files: seq<CsvFile>, rawName: string, owner: UserId): nat {
    Count(files, (f: CsvFile) => f.rawName == rawName && f.owner == owner)
  }

  /** The owner's files shown under this display name (line 105). */
  function SameDisplayCount(files: seq<CsvFile>, owner: UserId, displayName: string): nat {
    Count(files, (f: CsvFile) => f.owner == owner && f.displayName == displayName)
  }

  // ---------------------------------------------------------------------------------------------
  // The display name of an upload (lines 30 and 38-43).

  /** `name[:-4]`: the name without its last four characters (the slice is empty for a shorter name). */
  function Stem(name: string): (s: string)
    ensures s <= name
    ensures |s| == if |name| >= 4 then |name| - 4 else 0
  {
    if |name| >= 4 then name[..|name| - 4] else ""
  }

  /** Removing the extension of `<s>.csv` gives `s` back. */
  lemma StemOfCsvName(s: string)
    ensures Text.EndsWith(s + ".csv", ".csv")
    ensures Stem(s + ".csv") == s
  {
    assert (s + ".csv")[..|s|] == s;
    assert (s + ".csv")[|s|..] == ".csv";
  }

  /** A name that passed the extension check is its stem followed by `.csv`. */
  lemma CsvNameIsStemAndExtension(name: string)
    requires Text.EndsWith(name, ".csv")
    ensures name == Stem(name) + ".csv"
  {
    assert name == name[..|name| - 4] + name[|name| - 4..];
  }

  /** The display name of the owner's `count`+1-th upload of a raw name. */
  function CsvDisplayName(rawName: string, count: nat): (r: string)
    ensures count == 0 ==> r == Stem(rawName)
    ensures count > 0 ==>
      var stem := Stem(rawName);
      && |r| > |stem| + 2
      && r[..|stem|] == stem
      && r[|stem|..|stem| + 2] == " ("
      && r[|r| - 1] == ')'
      && r[|stem| + 2..|r| - 1] == Text.NatToString(count)
      && Text.ParseNat(r[|stem| + 2..|r| - 1]) == Some(count)
  {
    if count > 0 then
      Text.CountSuffixReadsBack(Stem(rawName), count);
      Text.WithCountSuffix(Stem(rawName), count)
    else
      Text.WithCountSuffix(Stem(rawName), count)
  }

  /** Line 41 as written: the suffix is added by `%`-formatting the name itself, so a `%` in the
      name is read as a directive. */
  function AsWrittenCsvDisplayName(rawName: string, count: nat): Result<string, PyError> {
    if count > 0 then PercentFormat(Stem(rawName) + " (%s)", Text.NatToString(count), false)
    else Success(Stem(rawName))
  }

  /** The suffix template of line 41 renders its one argument between ` (` and `)`. */
  lemma SuffixTemplateRenders(arg: string)
    ensures PercentFormat(" (%s)", arg, false) == Success(" (" + arg + ")")
  {
    assert " (%s)" == " (" + "%s)";
    PercentFormatLiteral(" (", "%s)", arg, false);
    assert "%s)"[2..] == ")";
    PercentFormatLiteral(")", "", arg, true);
    assert ")" + "" == ")";
    assert " (" + (arg + ")") == " (" + arg + ")";
  }

  /** For a name without `%` the line as written gives the intended display name. */
  lemma PercentFreeNamesAgree(rawName: string, count: nat)
    requires '%' !in Stem(rawName)
    ensures AsWrittenCsvDisplayName(rawName, count) == Success(CsvDisplayName(rawName, count))
  {
    if count > 0 {
      var stem, digits := Stem(rawName), Text.NatToString(count);
      PercentFormatLiteral(stem, " (%s)", digits, false);
      SuffixTemplateRenders(digits);
      assert stem + (" (" + digits + ")") == stem + " (" + digits + ")";
    }
  }

  /** A duplicate upload of `50%.csv` raises instead of being named `50% (1)`, so the upload is
      lost: no file record is saved. */
  lemma PercentInNameFails()
    ensures SameRawCount([CsvFile(1, "50%.csv", "50%", 7)], "50%.csv", 7) == 1
    ensures AsWrittenCsvDisplayName("50%.csv", 1) == Failure(ValueError)
    ensures CsvDisplayName("50%.csv", 1) == "50% (1)"
    ensures UploadOutcomeOf([CsvFile(1, "50%.csv", "50%", 7)], 7, Some(UploadedFile("50%.csv", false, None)), 2) ==
      NameFailed(ValueError)
  {
    assert "50%.csv"[|"50%.csv"| - 4..] == ".csv";
    assert [CsvFile(1, "50%.csv", "50%", 7)][..0] == [];
    assert Stem("50%.csv") == "50%";
    assert Text.NatToString(1) == "1";
    assert "50%" + " (%s)" == "50" + "% (%s)";
    assert '%' !in "50";
    PercentFormatLiteral("50", "% (%s)", "1", false);
    assert PercentFormat("% (%s)", "1", false) == Failure(ValueError);
  }

  /** A duplicate upload of `a%%.csv` is silently named `a% (1)`. */
  lemma EscapedPercentCollapses()
    ensures SameRawCount([CsvFile(1, "a%%.csv", "a%%", 7)], "a%%.csv", 7) == 1
    ensures AsWrittenCsvDisplayName("a%%.csv", 1) == Success("a% (1)")
    ensures CsvDisplayName("a%%.csv", 1) == "a%% (1)"
    ensures UploadedRecord([CsvFile(1, "a%%.csv", "a%%", 7)], 7, "a%%.csv", 2) == Success(CsvFile(2, "a%%.csv", "a% (1)", 7))
  {
    assert [CsvFile(1, "a%%.csv", "a%%", 7)][..0] == [];
    assert Stem("a%%.csv") == "a%%";
    assert Text.NatToString(1) == "1";
    assert "a%%" + " (%s)" == "a" + "%% (%s)";
    assert '%' !in "a";
    PercentFormatLiteral("a", "%% (%s)", "1", false);
    assert "%% (%s)"[2..] == " (%s)";
    SuffixTemplateRenders("1");
    assert " (" + "1" + ")" == " (1)" && "%" + " (1)" == "% (1)" && "a" + "% (1)" == "a% (1)";
    assert PercentFormat("%% (%s)", "1", false) == Prepend("%", PercentFormat(" (%s)", "1", false));
  }

  // ---------------------------------------------------------------------------------------------
  // Flattening the table into cell records (lines 46-62).

  /** A table as `pd.read_csv` returns it: the column headers and, for each row, one cell per
      column; `None` is a missing (NaN) cell. Rows are numbered from 0, the default index. */
  datatype RawTable = RawTable(columns: seq<string>, rows: seq<seq<Option<Value>>>)

  predicate Rectangular(t: RawTable) {
    forall r :: 0 <= r < |t.rows| ==> |t.rows[r]| == |t.columns|
  }

  type Table = t: RawTable | Rectangular(t) witness RawTable([], [])

  /** The record line 55-59 builds for cell `k` of row `r`. */
  function CellOf(fileId: FileId, column: string, data: Value, r: nat, k: nat, role: ColumnRole): CellRecord {
    CellRecord(fileId, data, r, k, column, role)
  }

  /** The records of the first `k` cells of row `r`: one per present cell, in column order. */
  function RowRecords(fileId: FileId, columns: seq<string>, row: seq<Option<Value>>, r: nat, role: ColumnRole, k: nat):
    seq<CellRecord>
    requires k <= |columns| && |row| == |columns|
    decreases k
  {
    if k == 0 then []
    else
      RowRecords(fileId, columns, row, r, role, k - 1) +
      (if row[k - 1].Some? then [CellOf(fileId, columns[k - 1], row[k - 1].value, r, k - 1, role)] else [])
  }

  /** The records of the first `n` rows, row after row. */
  function TableRecords(fileId: FileId, t: Table, role: ColumnRole, n: nat): seq<CellRecord>
    requires n <= |t.rows|
    decreases n
  {
    if n == 0 then []
    else TableRecords(fileId, t, role, n - 1) + RowRecords(fileId, t.columns, t.rows[n - 1], n - 1, role, |t.columns|)
  }

  /** The nested loop of lines 50-60. */
  method FlattenTable(fileId: FileId, t: Table, role: ColumnRole) returns (cells: seq<CellRecord>)
    ensures cells == TableRecords(fileId, t, role, |t.rows|)
  {
    cells := [];
    var r := 0;
    while r < |t.rows|
      invariant 0 <= r <= |t.rows|
      invariant cells == TableRecords(fileId, t, role, r)
    {
      var row := t.rows[r];
      var i := 0;
      while i < |t.columns|
        invariant 0 <= i <= |t.columns|
        invariant cells == TableRecords(fileId, t, role, r) + RowRecords(fileId, t.columns, row, r, role, i)
      {
        if row[i].Some? {
          cells := cells + [CellOf(fileId, t.columns[i], row[i].value, r, i, role)];
        }
        i := i + 1;
      }
      r := r + 1;
    }
  }

  /** Cell `k` of row `r` is present. */
  predicate Present(t: Table, r: int, k: int) {
    0 <= r < |t.rows| && 0 <= k < |t.columns| && t.rows[r][k].Some?
  }

  /** Every record of a row is the record of a present cell before `k`, in that row. */
  lemma {:induction false} RowRecordsSound(fileId: FileId, columns: seq<string>, row: seq<Option<Value>>, r: nat,
                                           role: ColumnRole, k: nat)
    requires k <= |columns| && |row| == |columns|
    ensures forall c :: c in RowRecords(fileId, columns, row, r, role, k) ==>
      && c.rowNum == r && c.columnNum < k && row[c.columnNum].Some?
      && c == CellOf(fileId, columns[c.columnNum], row[c.columnNum].value, r, c.columnNum, role)
    decreases k
  {
    if k > 0 {
      RowRecordsSound(fileId, columns, row, r, role, k - 1);
    }
  }

  /** Within a row the records follow the column order. */
  lemma {:induction false} RowRecordsOrdered(fileId: FileId, columns: seq<string>, row: seq<Option<Value>>, r: nat,
                                             role: ColumnRole, k: nat)
    requires k <= |columns| && |row| == |columns|
    ensures forall a, b :: 0 <= a < b < |RowRecords(fileId, columns, row, r, role, k)| ==>
      RowRecords(fileId, columns, row, r, role, k)[a].columnNum < RowRecords(fileId, columns, row, r, role, k)[b].columnNum
    decreases k
  {
    if k > 0 {
      var init := RowRecords(fileId, columns, row, r, role, k - 1);
      RowRecordsOrdered(fileId, columns, row, r, role, k - 1);
      RowRecordsSound(fileId, columns, row, r, role, k - 1);
      if row[k - 1].Some? {
        var c := CellOf(fileId, columns[k - 1], row[k - 1].value, r, k - 1, role);
        var rs := init + [c];
        assert RowRecords(fileId, columns, row, r, role, k) == rs;
        forall a, b | 0 <= a < b < |rs| ensures rs[a].columnNum < rs[b].columnNum {
          if b < |init| {
            assert rs[a] == init[a] && rs[b] == init[b];
          } else {
            assert rs[b] == c;
            assert rs[a] == init[a] && init[a] in init;
          }
        }
      } else {
        assert RowRecords(fileId, columns, row, r, role, k) == init;
      }
    }
  }

  /** Every present cell before `k` has its record in the row's records. */
  lemma {:induction false} RowRecordsComplete(fileId: FileId, columns: seq<string>, row: seq<Option<Value>>, r: nat,
                                              role: ColumnRole, k: nat)
    requires k <= |columns| && |row| == |columns|
    ensures forall j :: 0 <= j < k && row[j].Some? ==>
      CellOf(fileId, columns[j], row[j].value, r, j, role) in RowRecords(fileId, columns, row, r, role, k)
    decreases k
  {
    if k > 0 {
      RowRecordsComplete(fileId, columns, row, r, role, k - 1);
    }
  }

  /** Soundness: every record is the record of a present cell, at that cell's row and column, under
      that column's header. */
  lemma {:induction false} TableRecordsSound(fileId: FileId, t: Table, role: ColumnRole, n: nat)
    requires n <= |t.rows|
    ensures forall c :: c in TableRecords(fileId, t, role, n) ==>
      && c.rowNum < n && Present(t, c.rowNum, c.columnNum)
      && c == CellOf(fileId, t.columns[c.columnNum], t.rows[c.rowNum][c.columnNum].value, c.rowNum, c.columnNum, role)
    decreases n
  {
    if n > 0 {
      TableRecordsSound(fileId, t, role, n - 1);
      RowRecordsSound(fileId, t.columns, t.rows[n - 1], n - 1, role, |t.columns|);
    }
  }

  /** Completeness: every present cell of the first `n` rows has its record. */
  lemma {:induction false} TableRecordsComplete(fileId: FileId, t: Table, role: ColumnRole, n: nat)
    requires n <= |t.rows|
    ensures forall r, k :: Present(t, r, k) && r < n ==>
      CellOf(fileId, t.columns[k], t.rows[r][k].value, r, k, role) in TableRecords(fileId, t, role, n)
    decreases n
  {
    if n > 0 {
      TableRecordsComplete(fileId, t, role, n - 1);
      RowRecordsComplete(fileId, t.columns, t.rows[n - 1], n - 1, role, |t.columns|);
    }
  }

  /** Record `a` is emitted before record `b` in row-major order. */
  predicate RowMajorBefore(a: CellRecord, b: CellRecord) {
    a.rowNum < b.rowNum || (a.rowNum == b.rowNum && a.columnNum < b.columnNum)
  }

  /** Order: rows in order, and within a row columns in ascending position. */
  lemma {:induction false} TableRecordsRowMajor(fileId: FileId, t: Table, role: ColumnRole, n: nat)
    requires n <= |t.rows|
    ensures forall a, b :: 0 <= a < b < |TableRecords(fileId, t, role, n)| ==>
      RowMajorBefore(TableRecords(fileId, t, role, n)[a], TableRecords(fileId, t, role, n)[b])
    decreases n
  {
    if n > 0 {
      var init := TableRecords(fileId, t, role, n - 1);
      var last := RowRecords(fileId, t.columns, t.rows[n - 1], n - 1, role, |t.columns|);
      TableRecordsRowMajor(fileId, t, role, n - 1);
      TableRecordsSound(fileId, t, role, n - 1);
      RowRecordsSound(fileId, t.columns, t.rows[n - 1], n - 1, role, |t.columns|);
      RowRecordsOrdered(fileId, t.columns, t.rows[n - 1], n - 1, role, |t.columns|);
      var cs := init + last;
      assert TableRecords(fileId, t, role, n) == cs;
      forall a, b | 0 <= a < b < |cs| ensures RowMajorBefore(cs[a], cs[b]) {
        if b < |init| {
          assert cs[a] == init[a] && cs[b] == init[b];
        } else if a < |init| {
          assert cs[a] == init[a] && cs[a] in init;
          assert cs[b] == last[b - |init|] && cs[b] in last;
        } else {
          assert cs[a] == last[a - |init|] && cs[b] == last[b - |init|];
          assert cs[a] in last && cs[b] in last;
        }
      }
    }
  }

  /** The positions of the present cells. */
  function PresentCells(t: Table): set<(nat, nat)> {
    set r: nat, k: nat | r < |t.rows| && k < |t.columns| && t.rows[r][k].Some? :: (r, k)
  }

  /** The position each record was made for. */
  function Positions(cs: seq<CellRecord>): (ps: seq<(nat, nat)>)
    ensures |ps| == |cs|
    ensures forall i :: 0 <= i < |cs| ==> ps[i] == (cs[i].rowNum, cs[i].columnNum)
  {
    seq(|cs|, i requires 0 <= i < |cs| => (cs[i].rowNum, cs[i].columnNum))
  }

  /** A sequence without repetitions has as many distinct elements as positions. */
  lemma {:induction false} DistinctElements<T>(s: seq<T>)
    requires forall a, b :: 0 <= a < b < |s| ==> s[a] != s[b]
    ensures |set x | x in s| == |s|
    decreases |s|
  {
    if |s| > 0 {
      var init := s[..|s| - 1];
      DistinctElements(init);
      assert (set x | x in s) == (set x | x in init) + {s[|s| - 1]};
      assert s[|s| - 1] !in init;
    }
  }

  /** Count: one record per present cell; no record for a missing one. */
  lemma TableRecordsCount(fileId: FileId, t: Table, role: ColumnRole)
    ensures |TableRecords(fileId, t, role, |t.rows|)| == |PresentCells(t)|
  {
    var cs := TableRecords(fileId, t, role, |t.rows|);
    var ps := Positions(cs);
    TableRecordsSound(fileId, t, role, |t.rows|);
    TableRecordsComplete(fileId, t, role, |t.rows|);
    TableRecordsRowMajor(fileId, t, role, |t.rows|);
    forall a, b | 0 <= a < b < |ps| ensures ps[a] != ps[b] {
      assert RowMajorBefore(cs[a], cs[b]);
    }
    DistinctElements(ps);
    forall p | p in PresentCells(t) ensures p in ps {
      var c := CellOf(fileId, t.columns[p.1], t.rows[p.0][p.1].value, p.0, p.1, role);
      assert Present(t, p.0, p.1);
      assert c in cs;
      var i :| 0 <= i < |cs| && cs[i] == c;
      assert ps[i] == p;
    }
    forall p | p in ps ensures p in PresentCells(t) {
      var i :| 0 <= i < |ps| && ps[i] == p;
      assert cs[i] in cs;
    }
    assert (set x | x in ps) == PresentCells(t);
  }

  // ---------------------------------------------------------------------------------------------
  // upload_csv (lines 22-69).

  /** What the request carries: the file's name, whether it arrives in more than one chunk (the
      size test of line 34), and the table `pd.read_csv` makes of it, or `None` when reading fails. */
  datatype UploadedFile = UploadedFile(name: string, multipleChunks: bool, table: Option<Table>)

  datatype UploadOutcome =
    | NoFile                    // `request.FILES["csv_file"]` raised
    | NotCsv                    // the name does not end in `.csv`
    | TooBig                    // the file came in several chunks
    | NameFailed(error: PyError) // line 41 raised while naming a duplicate, before anything was saved
    | Unreadable(id: FileId)    // the file record was saved, then reading the table raised
    | Uploaded(id: FileId)      // the file record and its cells were saved

  /** The file record line 43 creates, named as line 41 is written; the error line 41 raises
      instead when the name is read as a faulty format. */
  function UploadedRecord(files: seq<CsvFile>, owner: UserId, rawName: string, id: FileId): Result<CsvFile, PyError> {
    var displayName :- AsWrittenCsvDisplayName(rawName, SameRawCount(files, rawName, owner));
    Success(CsvFile(id, rawName, displayName, owner))
  }

  /** Which way the view goes, given the owner's earlier files and the id the store hands out next. */
  function UploadOutcomeOf(files: seq<CsvFile>, owner: UserId, upload: Option<UploadedFile>, nextId: FileId): (o: UploadOutcome)
    ensures o == NoFile <==> upload.None?
    ensures o == NotCsv <==> upload.Some? && !Text.EndsWith(upload.value.name, ".csv")
    ensures o == TooBig <==> upload.Some? && Text.EndsWith(upload.value.name, ".csv") && upload.value.multipleChunks
    ensures o.NameFailed? <==>
      && upload.Some? && Text.EndsWith(upload.value.name, ".csv") && !upload.value.multipleChunks
      && UploadedRecord(files, owner, upload.value.name, nextId).Failure?
    ensures o.NameFailed? ==> o.error == UploadedRecord(files, owner, upload.value.name, nextId).error
    ensures o.Unreadable? || o.Uploaded? <==>
      && upload.Some? && Text.EndsWith(upload.value.name, ".csv") && !upload.value.multipleChunks
      && UploadedRecord(files, owner, upload.value.name, nextId).Success?
    ensures o.Unreadable? || o.Uploaded? ==> o.id == nextId
    ensures o.Uploaded? <==> (o.Unreadable? || o.Uploaded?) && upload.value.table.Some?
  {
    match upload
    case None => NoFile
    case Some(u) =>
      if !Text.EndsWith(u.name, ".csv") then NotCsv
      else if u.multipleChunks then TooBig
      else
        match UploadedRecord(files, owner, u.name, nextId)
        case Failure(e) => NameFailed(e)
        case Success(_) => if u.table.None? then Unreadable(nextId) else Uploaded(nextId)
  }

  /** The new file's name: the stem of the raw name for the owner's first upload under that raw
      name; for a later one whose stem has no `%`, the stem followed by a suffix that reads back as
      the number of the owner's earlier uploads under that raw name, written in decimal. */
  lemma UploadedNameCountsDuplicates(files: seq<CsvFile>, owner: UserId, rawName: string, id: FileId)
    requires Text.EndsWith(rawName, ".csv")
    ensures var r := UploadedRecord(files, owner, rawName, id);
      var stem := Stem(rawName);
      && rawName == stem + ".csv"
      && ((forall i :: 0 <= i < |files| ==> !(files[i].rawName == rawName && files[i].owner == owner)) ==>
            r == Success(CsvFile(id, rawName, stem, owner)))
      && ('%' !in stem ==> r.Success?)
      && ('%' !in stem && (exists i :: 0 <= i < |files| && files[i].rawName == rawName && files[i].owner == owner) ==>
            && r.value.displayName == stem + " (" + Text.NatToString(SameRawCount(files, rawName, owner)) + ")"
            && |r.value.displayName| > |stem| + 2
            && Text.ParseNat(r.value.displayName[|stem| + 2..|r.value.displayName| - 1]) ==
                 Some(SameRawCount(files, rawName, owner)))
  {
    CsvNameIsStemAndExtension(rawName);
    var p := (g: CsvFile) => g.rawName == rawName && g.owner == owner;
    assert forall i :: 0 <= i < |files| ==> p(files[i]) == (files[i].rawName == rawName && files[i].owner == owner);
    if '%' !in Stem(rawName) {
      PercentFreeNamesAgree(rawName, SameRawCount(files, rawName, owner));
    }
  }

  /** Appending a record under the next id keeps the ids distinct and below the new next id. */
  lemma AppendingKeepsIdsUnique(files: seq<CsvFile>, nextId: FileId, f: CsvFile)
    requires UniqueIds(files, nextId) && f.id == nextId
    ensures UniqueIds(files + [f], nextId + 1)
  {
    var after := files + [f];
    assert forall i :: 0 <= i < |files| ==> after[i] == files[i];
  }

  method UploadCsv(db: Database, owner: UserId, upload: Option<UploadedFile>, role: ColumnRole)
    returns (outcome: UploadOutcome)
    requires db.Valid()
    modifies db
    ensures db.Valid()
    ensures outcome == UploadOutcomeOf(old(db.files), owner, upload, old(db.nextFileId))
    ensures outcome.Unreadable? || outcome.Uploaded? ==>
      && db.files == old(db.files) + [UploadedRecord(old(db.files), owner, upload.value.name, old(db.nextFileId)).value]
      && db.nextFileId == old(db.nextFileId) + 1
    ensures !(outcome.Unreadable? || outcome.Uploaded?) ==> db.files == old(db.files) && db.nextFileId == old(db.nextFileId)
    ensures outcome.Uploaded? ==>
      db.cells == old(db.cells) + TableRecords(old(db.nextFileId), upload.value.table.value, role, |upload.value.table.value.rows|)
    ensures !outcome.Uploaded? ==> db.cells == old(db.cells)
    ensures db.models == old(db.models)
  {
    if upload.None? {
      return NoFile;
    }
    var file := upload.value;
    if !Text.EndsWith(file.name, ".csv") {
      return NotCsv;
    }
    if file.multipleChunks {
      return TooBig;
    }
    var displayName := Stem(file.name);
    var count := SameRawCount(db.files, file.name, owner);
    if count > 0 {
      var formatted := PercentFormat(displayName + " (%s)", Text.NatToString(count), false);
      if formatted.Failure? {
        return NameFailed(formatted.error);
      }
      displayName := formatted.value;
    }
    var id := db.nextFileId;
    assert UploadedRecord(db.files, owner, file.name, id) == Success(CsvFile(id, file.name, displayName, owner));
    AppendingKeepsIdsUnique(db.files, id, CsvFile(id, file.name, displayName, owner));
    db.files := db.files + [CsvFile(id, file.name, displayName, owner)];
    db.nextFileId := id + 1;
    if file.table.None? {
      return Unreadable(id);
    }
    var cells := FlattenTable(id, file.table.value, role);
    db.cells := db.cells + cells;
    outcome := Uploaded(id);
  }

  // ---------------------------------------------------------------------------------------------
  // rename_file (lines 98-114).

  datatype RenameOutcome =
    | RenameFailed(error: PyError)  // `CsvFile.objects.get(id=file_id)` raised
    | RenameRefused                 // the caller does not own the file
    | NameTaken                     // the owner already has a file of that display name
    | Renamed

  /** The guards of lines 102-107. */
  function RenameCheck(files: seq<CsvFile>, user: UserId, fileId: FileId, newName: string): (r: RenameOutcome)
    ensures r == RenameFailed(DoesNotExist) <==> FindFile(files, fileId).None?
    ensures r == RenameRefused <==> FindFile(files, fileId).Some? && files[FindFile(files, fileId).value].owner != user
    ensures r == NameTaken <==>
      && FindFile(files, fileId).Some? && files[FindFile(files, fileId).value].owner == user
      && exists i :: 0 <= i < |files| && files[i].owner == user && files[i].displayName == newName
    ensures r == Renamed <==>
      && FindFile(files, fileId).Some? && files[FindFile(files, fileId).value].owner == user
      && forall i :: 0 <= i < |files| ==> !(files[i].owner == user && files[i].displayName == newName)
  {
    var p := (f: CsvFile) => f.owner == user && f.displayName == newName;
    assert forall i :: 0 <= i < |files| ==> p(files[i]) == (files[i].owner == user && files[i].displayName == newName);
    match FindFile(files, fileId)
    case None => RenameFailed(DoesNotExist)
    case Some(i) =>
      if files[i].owner != user then RenameRefused
      else if SameDisplayCount(files, user, newName) > 0 then NameTaken
      else Renamed
  }

  /** The file at position `i` under its new display name; every other record as it was. */
  function WithDisplayName(files: seq<CsvFile>, i: nat, newName: string): seq<CsvFile>
    requires i < |files|
  {
    files[i := files[i].(displayName := newName)]
  }

  /** Each owner's display names are distinct. */
  ghost predicate DistinctDisplayNames(files: seq<CsvFile>) {
    forall i, j :: 0 <= i < j < |files| && files[i].owner == files[j].owner ==> files[i].displayName != files[j].displayName
  }

  /** A rename that passes the guards keeps each owner's display names distinct, when they were
      distinct before. This is conditional: distinct display names are not an invariant of the
      store, since uploads can repeat a display name: after the owner deletes an earlier upload of
      the same raw name the count drops and a suffix is reused, and a raw name such as
      `a (1).csv` already has the name a second `a.csv` is given. */
  lemma RenameKeepsNamesDistinct(files: seq<CsvFile>, user: UserId, fileId: FileId, newName: string)
    requires DistinctDisplayNames(files)
    requires RenameCheck(files, user, fileId, newName) == Renamed
    ensures DistinctDisplayNames(WithDisplayName(files, FindFile(files, fileId).value, newName))
  {
    var k := FindFile(files, fileId).value;
    var after := WithDisplayName(files, k, newName);
    forall i, j | 0 <= i < j < |after| && after[i].owner == after[j].owner
      ensures after[i].displayName != after[j].displayName
    {
      if i == k {
        assert after[j] == files[j] && after[i].owner == user;
      } else if j == k {
        assert after[i] == files[i] && after[j].owner == user;
      } else {
        assert after[i] == files[i] && after[j] == files[j];
      }
    }
  }

  /** Renaming a file to the name it already has is refused as taken. */
  lemma RenameToOwnNameRefused(files: seq<CsvFile>, user: UserId, fileId: FileId)
    requires FindFile(files, fileId).Some? && files[FindFile(files, fileId).value].owner == user
    ensures RenameCheck(files, user, fileId, files[FindFile(files, fileId).value].displayName) == NameTaken
  {
    var k := FindFile(files, fileId).value;
    assert files[k].owner == user && files[k].displayName == files[k].displayName;
  }

  method RenameFile(db: Database, user: UserId, fileId: FileId, newName: string) returns (outcome: RenameOutcome)
    requires db.Valid()
    modifies db
    ensures db.Valid()
    ensures outcome == RenameCheck(old(db.files), user, fileId, newName)
    ensures db.files == if outcome == Renamed then WithDisplayName(old(db.files), FindFile(old(db.files), fileId).value, newName)
                        else old(db.files)
    ensures db.cells == old(db.cells) && db.models == old(db.models) && db.nextFileId == old(db.nextFileId)
  {
    var found := FindFile(db.files, fileId);
    if found.None? {
      return RenameFailed(DoesNotExist);
    }
    if db.files[found.value].owner != user {
      return RenameRefused;
    }
    if SameDisplayCount(db.files, user, newName) > 0 {
      return NameTaken;
    }
    var i := found.value;
    db.files := db.files[i := db.files[i].(displayName := newName)];
    outcome := Renamed;
  }

  // ---------------------------------------------------------------------------------------------
  // delete_file (lines 81-95).

  datatype DeleteOutcome =
    | InvalidId                     // no id, or an id Python reads as false
    | DeleteFailed(error: PyError)  // `int(file_id)` or `CsvFile.objects.get(id=...)` raised
    | DeleteRefused                 // the caller does not own the file
    | Deleted(id: FileId)

  /** The guards of lines 82-91. */
  function DeleteCheck(files: seq<CsvFile>, user: UserId, fileId: Value): (r: DeleteOutcome)
    ensures r == InvalidId <==> !Truthy(fileId)
    ensures r.Deleted? ==>
      && Truthy(fileId) && ToInt(fileId) == Success(r.id as int)
      && FindFile(files, r.id).Some? && files[FindFile(files, r.id).value].owner == user
    ensures Truthy(fileId) && ToInt(fileId).Success? && ToInt(fileId).value >= 0 ==>
      var id := ToInt(fileId).value as nat;
      && (FindFile(files, id).None? ==> r == DeleteFailed(DoesNotExist))
      && (FindFile(files, id).Some? && files[FindFile(files, id).value].owner != user ==> r == DeleteRefused)
      && (FindFile(files, id).Some? && files[FindFile(files, id).value].owner == user ==> r == Deleted(id))
  {
    if !Truthy(fileId) then InvalidId
    else
      match ToInt(fileId)
      case Failure(e) => DeleteFailed(e)
      case Success(n) =>
        if n < 0 then DeleteFailed(DoesNotExist)
        else
          match FindFile(files, n)
          case None => DeleteFailed(DoesNotExist)
          case Some(i) => if files[i].owner != user then DeleteRefused else Deleted(n)
  }

  /** The records without the one at position `i`. */
  function WithoutFile(files: seq<CsvFile>, i: nat): seq<CsvFile>
    requires i < |files|
  {
    files[..i] + files[i + 1..]
  }

  /** Removing position `k` shifts the later records down by one. */
  lemma WithoutFileShifts(files: seq<CsvFile>, k: nat)
    requires k < |files|
    ensures |WithoutFile(files, k)| == |files| - 1
    ensures forall j :: 0 <= j < k ==> WithoutFile(files, k)[j] == files[j]
    ensures forall j :: k <= j < |files| - 1 ==> WithoutFile(files, k)[j] == files[j + 1]
  {
  }

  /** Removing the record at position `k` keeps every record with another id, and adds none. */
  lemma RemovingKeepsTheOthers(files: seq<CsvFile>, k: nat)
    requires k < |files|
    ensures forall f :: f in WithoutFile(files, k) ==> f in files
    ensures forall f :: f in files && f.id != files[k].id ==> f in WithoutFile(files, k)
  {
    var after := WithoutFile(files, k);
    WithoutFileShifts(files, k);
    forall f | f in after ensures f in files {
      var j :| 0 <= j < |after| && after[j] == f;
      var j' := if j < k then j else j + 1;
      assert f == files[j'];
    }
    forall f | f in files && f.id != files[k].id ensures f in after {
      var j :| 0 <= j < |files| && files[j] == f;
      var j' := if j < k then j else j - 1;
      assert after[j'] == f;
    }
  }

  /** With distinct ids, no record left carries the removed record's id. */
  lemma RemovedIdIsGone(files: seq<CsvFile>, nextId: FileId, k: nat)
    requires UniqueIds(files, nextId) && k < |files|
    ensures forall j :: 0 <= j < |WithoutFile(files, k)| ==> WithoutFile(files, k)[j].id != files[k].id
  {
    WithoutFileShifts(files, k);
  }

  /** Removing a record keeps the ids distinct. */
  lemma RemovingKeepsIdsUnique(files: seq<CsvFile>, nextId: FileId, k: nat)
    requires UniqueIds(files, nextId) && k < |files|
    ensures UniqueIds(WithoutFile(files, k), nextId)
  {
    var after := WithoutFile(files, k);
    WithoutFileShifts(files, k);
    forall i | 0 <= i < |after| ensures 0 < after[i].id < nextId {
      var i' := if i < k then i else i + 1;
      assert after[i] == files[i'];
    }
    forall i, j | 0 <= i < j < |after| ensures after[i].id != after[j].id {
      var i', j' := if i < k then i else i + 1, if j < k then j else j + 1;
      assert after[i] == files[i'] && after[j] == files[j'];
    }
  }

  /** A delete that passes the guards removes that file and only that file. */
  lemma DeleteRemovesExactlyThatFile(files: seq<CsvFile>, nextId: FileId, user: UserId, fileId: Value)
    requires UniqueIds(files, nextId)
    requires DeleteCheck(files, user, fileId).Deleted?
    ensures var id := DeleteCheck(files, user, fileId).id;
      var after := WithoutFile(files, FindFile(files, id).value);
      && |after| == |files| - 1
      && (forall f :: f in after ==> f in files && f.id != id)
      && (forall f :: f in files && f.id != id ==> f in after)
      && UniqueIds(after, nextId)
  {
    var id := DeleteCheck(files, user, fileId).id;
    WithoutFileShifts(files, FindFile(files, id).value);
    var k := FindFile(files, id).value;
    RemovingKeepsTheOthers(files, k);
    RemovedIdIsGone(files, nextId, k);
    RemovingKeepsIdsUnique(files, nextId, k);
    var after := WithoutFile(files, k);
    forall f | f in after ensures f.id != id {
      var j :| 0 <= j < |after| && after[j] == f;
    }
  }

  method DeleteFile(db: Database, user: UserId, fileId: Value) returns (outcome: DeleteOutcome)
    requires db.Valid()
    modifies db
    ensures db.Valid()
    ensures outcome == DeleteCheck(old(db.files), user, fileId)
    ensures db.files == if outcome.Deleted? then WithoutFile(old(db.files), FindFile(old(db.files), outcome.id).value)
                        else old(db.files)
    ensures db.cells == old(db.cells) && db.models == old(db.models) && db.nextFileId == old(db.nextFileId)
  {
    if !Truthy(fileId) {
      return InvalidId;
    }
    var n := ToInt(fileId);
    if n.Failure? {
      return DeleteFailed(n.error);
    }
    if n.value < 0 {
      return DeleteFailed(DoesNotExist);
    }
    var found := FindFile(db.files, n.value);
    if found.None? {
      return DeleteFailed(DoesNotExist);
    }
    if db.files[found.value].owner != user {
      return DeleteRefused;
    }
    RemovingKeepsIdsUnique(db.files, db.nextFileId, found.value);
    db.files := WithoutFile(db.files, found.value);
    outcome := Deleted(n.value);
  }
}
