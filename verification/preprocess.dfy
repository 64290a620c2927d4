/** The offline preprocessing script: it reads the exercise catalogue table, turns every row
    into a text chunk of "label: value" lines, removes rows whose chunk repeats an earlier one,
    and exports one JSON record per remaining row. */
module Preprocess {
  import opened Wrappers
  import Strings
  import Tally

  /** A table row: column name to cell text. */
  type Row = map<string, string>

  /** The columns whose text can appear in a chunk. */
  const TextFields: seq<string> := [
    "title", "standard_title", "training_name", "body_part", "exercise_tool",
    "fitness_factor_name", "fitness_level_name", "target_group", "training_aim_name",
    "training_place_name", "training_section_name", "training_step_name", "description",
    "image_url", "video_url", "muscles"
  ]

  /** The columns that only go to the exported metadata. */
  const MetadataOnlyFields: seq<string> := ["exercise_id", "video_length_seconds", "image_file_name"]

  const AllFields: seq<string> := TextFields + MetadataOnlyFields

  // -------------------------------------------------------------- loading

  /** No white space at either end. */
  predicate Trimmed(s: string) {
    |s| > 0 ==> !Strings.IsSpace(s[0]) && !Strings.IsSpace(s[|s| - 1])
  }

  /** One cell as loaded: a text cell is stripped, a missing one (`None`) becomes empty. The
      result is a trimmed piece of the cell, and it is empty exactly for missing and blank cells. */
  function LoadCell(c: Option<string>): (r: string)
    ensures Trimmed(r)
    ensures r == "" <==> c.None? || Strings.IsBlank(c.value)
    ensures c.Some? ==> exists a, b :: 0 <= a <= b <= |c.value| && r == c.value[a..b]
  {
    match c
    case None => ""
    case Some(v) =>
      Strings.StripEmptyIffBlank(v);
      var l := Strings.LStrip(v);
      var r := Strings.RStrip(l);
      assert r == v[|v| - |l|..|v| - |l| + |r|];
      r
  }

  /** A row as loaded: the same columns, every cell passed through `LoadCell`. */
  function LoadRow(raw: map<string, Option<string>>): (row: Row)
    ensures row.Keys == raw.Keys
    ensures forall k :: k in row ==> Trimmed(row[k])
    ensures forall k :: k in row ==> (row[k] == "" <==> raw[k].None? || Strings.IsBlank(raw[k].value))
  {
    map k | k in raw :: LoadCell(raw[k])
  }

  // ----------------------------------------------------------- text chunk

  const TitleLabel := "운동명: "
  const TitleFallback := "알 수 없는 운동"

  /** The optional lines of a chunk, in the order they are written: the column each one shows
      and the label put before the value. */
  const ChunkFields: seq<(string, string)> := [
    ("standard_title", "표준 제목: "),
    ("training_name", "훈련 프로그램: "),
    ("body_part", "운동 부위: "),
    ("exercise_tool", "운동 도구: "),
    ("fitness_level_name", "운동 수준: "),
    ("fitness_factor_name", "운동 요소: "),
    ("target_group", "대상자: "),
    ("training_aim_name", "훈련 목적: "),
    ("training_place_name", "훈련 장소: "),
    ("training_section_name", "훈련 구간: "),
    ("training_step_name", "훈련 단계: "),
    ("description", "설명: "),
    ("muscles", "타겟 근육: "),
    ("video_url", "영상 링크: ")
  ]

  /** `row.get(k)` is truthy: the column exists and its cell is not empty. */
  predicate Present(row: Row, k: string) { k in row && row[k] != "" }

  /** The exercise name of the first line: the title, else the standard title, else a fixed
      placeholder; it is never empty. */
  function Title(row: Row): (t: string)
    ensures t != ""
    ensures Present(row, "title") ==> t == row["title"]
    ensures !Present(row, "title") && Present(row, "standard_title") ==> t == row["standard_title"]
    ensures !Present(row, "title") && !Present(row, "standard_title") ==> t == TitleFallback
  {
    if Present(row, "title") then row["title"]
    else if Present(row, "standard_title") then row["standard_title"]
    else TitleFallback
  }

  function LineOf(row: Row, f: (string, string)): string
    requires f.0 in row
  {
    f.1 + row[f.0]
  }

  /** The lines that `fields` contribute: one per column that is present and non-empty. */
  function OptionalLines(row: Row, fields: seq<(string, string)>): seq<string> {
    if |fields| == 0 then []
    else
      var f := fields[|fields| - 1];
      OptionalLines(row, fields[..|fields| - 1]) + (if Present(row, f.0) then [LineOf(row, f)] else [])
  }

  function ChunkLines(row: Row): seq<string> {
    [TitleLabel + Title(row)] + OptionalLines(row, ChunkFields)
  }

  /** The chunk text: its lines joined by line breaks. */
  function Chunk(row: Row): string {
    Strings.Join(ChunkLines(row), '\n')
  }

  /** `build_chunk`: the title line first, then one line per non-empty optional column. */
  method BuildChunk(row: Row) returns (chunk: string)
    ensures chunk == Chunk(row)
  {
    var title := if Present(row, "title") then row["title"]
      else if Present(row, "standard_title") then row["standard_title"]
      else TitleFallback;
    var lines := [TitleLabel + title];
    for i := 0 to |ChunkFields|
      invariant lines == [TitleLabel + title] + OptionalLines(row, ChunkFields[..i])
    {
      var f := ChunkFields[i];
      assert ChunkFields[..i + 1][..i] == ChunkFields[..i];
      if Present(row, f.0) {
        lines := lines + [f.1 + row[f.0]];
      }
    }
    assert ChunkFields[..|ChunkFields|] == ChunkFields;
    chunk := Strings.Join(lines, '\n');
  }

  /** Each field contributes exactly one line when its column is present and non-empty and none
      otherwise, and the lines keep the order of the fields: `shown` lists, in increasing order,
      the positions of the fields that produced the lines. */
  lemma {:induction false} OptionalLinesShape(row: Row, fields: seq<(string, string)>) returns (shown: seq<nat>)
    ensures |shown| == |OptionalLines(row, fields)|
    ensures forall j :: 0 <= j < |shown| ==>
      shown[j] < |fields| && fields[shown[j]].0 in row && OptionalLines(row, fields)[j] == LineOf(row, fields[shown[j]])
    ensures forall j, l :: 0 <= j < l < |shown| ==> shown[j] < shown[l]
    ensures forall i :: 0 <= i < |fields| ==> (i in shown <==> Present(row, fields[i].0))
  {
    if |fields| == 0 {
      shown := [];
    } else {
      var n := |fields| - 1;
      var pre := fields[..n];
      var ps := OptionalLinesShape(row, pre);
      assert forall i :: 0 <= i < n ==> pre[i] == fields[i];
      if Present(row, fields[n].0) {
        shown := ps + [n];
      } else {
        shown := ps;
      }
    }
  }

  /** The chunk has one line for the title and one per non-empty optional column. */
  lemma ChunkLineCount(row: Row) returns (shown: seq<nat>)
    ensures |ChunkLines(row)| == 1 + |shown|
    ensures forall i :: 0 <= i < |ChunkFields| ==> (i in shown <==> Present(row, ChunkFields[i].0))
    ensures forall j, l :: 0 <= j < l < |shown| ==> shown[j] < shown[l]
  {
    shown := OptionalLinesShape(row, ChunkFields);
  }

  lemma {:induction false} OptionalLinesSingle(row: Row, fields: seq<(string, string)>)
    requires forall f :: f in fields ==> '\n' !in f.1
    requires forall k :: k in row ==> '\n' !in row[k]
    ensures forall j :: 0 <= j < |OptionalLines(row, fields)| ==> '\n' !in OptionalLines(row, fields)[j]
  {
    if |fields| > 0 {
      var n := |fields| - 1;
      assert forall f :: f in fields[..n] ==> f in fields;
      OptionalLinesSingle(row, fields[..n]);
    }
  }

  /** When no cell holds a line break, splitting the chunk at line breaks gives back its lines,
      so the number of lines is one plus the number of non-empty optional columns. */
  lemma ChunkSplitsIntoLines(row: Row)
    requires forall k :: k in row ==> '\n' !in row[k]
    ensures Strings.Split(Chunk(row), '\n') == ChunkLines(row)
  {
    LabelsSingleLine();
    OptionalLinesSingle(row, ChunkFields);
    var lines := ChunkLines(row);
    var t := Title(row);
    assert t == TitleFallback || t in row.Values;
    assert '\n' !in TitleLabel + t;
    forall i | 0 <= i < |lines| ensures '\n' !in lines[i] {
      if i > 0 {
        assert lines[i] == OptionalLines(row, ChunkFields)[i - 1];
      }
    }
    Strings.SplitJoin(lines, '\n');
  }

  /** No label and not the placeholder title holds a line break. */
  lemma LabelsSingleLine()
    ensures forall f :: f in ChunkFields ==> '\n' !in f.1
    ensures '\n' !in TitleLabel && '\n' !in TitleFallback
  {
    forall i | 0 <= i < |ChunkFields| ensures '\n' !in ChunkFields[i].1 {
      var tag := ChunkFields[i].1;
      assert forall j :: 0 <= j < |tag| ==> tag[j] != '\n';
    }
  }

  /** The joined text ends with the last part. */
  lemma {:induction false} JoinEndsWithLast(parts: seq<string>, c: char)
    requires |parts| >= 1
    ensures var j := Strings.Join(parts, c); |j| >= |parts[|parts| - 1]| && j[|j| - |parts[|parts| - 1]|..] == parts[|parts| - 1]
  {
    if |parts| > 1 {
      JoinEndsWithLast(parts[1..], c);
      var rest := Strings.Join(parts[1..], c);
      var last := parts[|parts| - 1];
      assert parts[1..][|parts[1..]| - 1] == last;
      var j := parts[0] + [c] + rest;
      assert j[|j| - |last|..] == rest[|rest| - |last|..];
    }
  }

  /** A chunk of a loaded row is never empty and does not end with a line break. */
  lemma ChunkEndsWithoutBreak(row: Row)
    requires forall k :: k in row ==> Trimmed(row[k])
    ensures |Chunk(row)| > 0 && Chunk(row)[|Chunk(row)| - 1] != '\n'
  {
    var lines := ChunkLines(row);
    var last := lines[|lines| - 1];
    JoinEndsWithLast(lines, '\n');
    LastLineEnd(row);
    var j := Chunk(row);
    assert j[|j| - 1] == j[|j| - |last|..][|last| - 1];
  }

  lemma LastLineEnd(row: Row)
    requires forall k :: k in row ==> Trimmed(row[k])
    ensures var lines := ChunkLines(row); |lines[|lines| - 1]| > 0 && lines[|lines| - 1][|lines[|lines| - 1]| - 1] != '\n'
  {
    var opt := OptionalLines(row, ChunkFields);
    if |opt| == 0 {
      var t := Title(row);
      assert (TitleLabel + t)[|TitleLabel + t| - 1] == t[|t| - 1];
      assert t == TitleFallback || Trimmed(t);
    } else {
      var shown := OptionalLinesShape(row, ChunkFields);
      var f := ChunkFields[shown[|opt| - 1]];
      var v := row[f.0];
      assert opt[|opt| - 1] == f.1 + v;
      assert (f.1 + v)[|f.1 + v| - 1] == v[|v| - 1];
    }
  }

  // ------------------------------------------------ columns and duplicates

  /** The known columns the table has, in the order of `AllFields`. */
  function AvailableColumns(columns: seq<string>): (avail: seq<string>)
    ensures forall c :: c in avail <==> c in AllFields && c in columns
    ensures Tally.IsSubsequence(avail, AllFields)
  {
    Tally.FilterSubsequence(AllFields, c => c in columns);
    Tally.Filter(AllFields, c => c in columns)
  }

  /** A row restricted to the given columns. */
  function Subset(row: Row, cols: seq<string>): Row {
    map k | k in row && k in cols :: row[k]
  }

  /** A row of the processed table: the kept cells and the chunk built from them. */
  datatype Processed = Processed(row: Row, chunkText: string)

  function ChunkKey(p: Processed): string { p.chunkText }

  function ProcessRow(row: Row, cols: seq<string>): Processed {
    var kept := Subset(row, cols);
    Processed(kept, Chunk(kept))
  }

  /** The known columns of each row and the chunk built from them: one processed row per input
      row, in order. */
  function WithChunks(rows: seq<Row>, cols: seq<string>): (r: seq<Processed>)
    ensures |r| == |rows|
    ensures forall i :: 0 <= i < |rows| ==> r[i] == ProcessRow(rows[i], cols)
  {
    if |rows| == 0 then [] else WithChunks(rows[..|rows| - 1], cols) + [ProcessRow(rows[|rows| - 1], cols)]
  }

  /** `preprocess_dataframe`: keep the known columns, add the chunk, and drop every row whose
      chunk repeats an earlier row's. */
  function PreprocessTable(columns: seq<string>, rows: seq<Row>): seq<Processed> {
    Tally.DedupBy(WithChunks(rows, AvailableColumns(columns)), ChunkKey)
  }

  /** Every kept row holds only known columns of the table, and its chunk is built from those
      cells. */
  lemma PreprocessKeepsKnownColumns(columns: seq<string>, rows: seq<Row>)
    ensures forall p :: p in PreprocessTable(columns, rows) ==>
      (forall k :: k in p.row ==> k in AllFields && k in columns) && p.chunkText == Chunk(p.row)
  {
    var cols := AvailableColumns(columns);
    var w := WithChunks(rows, cols);
    Tally.DedupBySubset(w, ChunkKey);
    forall p | p in PreprocessTable(columns, rows)
      ensures (forall k :: k in p.row ==> k in AllFields && k in columns) && p.chunkText == Chunk(p.row)
    {
      var i :| 0 <= i < |w| && w[i] == p;
      assert p == ProcessRow(rows[i], cols);
    }
  }

  /** Duplicate removal on the chunk: the kept chunks are distinct and every input row's chunk
      is among them. */
  lemma PreprocessChunksDistinct(columns: seq<string>, rows: seq<Row>)
    ensures Tally.Distinct(Tally.MapSeq(PreprocessTable(columns, rows), ChunkKey))
    ensures forall i :: 0 <= i < |rows| ==>
      Chunk(Subset(rows[i], AvailableColumns(columns))) in Tally.MapSeq(PreprocessTable(columns, rows), ChunkKey)
  {
    var w := WithChunks(rows, AvailableColumns(columns));
    Tally.DedupByDistinct(w, ChunkKey);
    Tally.DedupByCovers(w, ChunkKey);
  }

  /** The first row with a given chunk is the one kept, and the kept rows are processed input
      rows in their original order. */
  lemma PreprocessKeepsFirst(columns: seq<string>, rows: seq<Row>)
    ensures var w := WithChunks(rows, AvailableColumns(columns));
      forall j :: 0 <= j < |rows| && Tally.FirstWithKey(w, j, ChunkKey) ==> ProcessRow(rows[j], AvailableColumns(columns)) in PreprocessTable(columns, rows)
    ensures Tally.IsSubsequence(PreprocessTable(columns, rows), WithChunks(rows, AvailableColumns(columns)))
  {
    var w := WithChunks(rows, AvailableColumns(columns));
    Tally.DedupByKeepsFirst(w, ChunkKey);
    Tally.DedupBySubsequence(w, ChunkKey);
  }

  // ---------------------------------------------------------------- export

  /** `value and str(value).strip()`. */
  predicate Keep(v: string) { v != "" && Strings.Strip(v) != "" }

  /** The metadata of a row: the listed columns it has whose cells are not blank. */
  function MetadataFor(row: Row, fields: seq<string>): map<string, string> {
    map k | k in fields && k in row && Keep(row[k]) :: row[k]
  }

  lemma MetadataStep(row: Row, fields: seq<string>, i: nat)
    requires i < |fields|
    ensures MetadataFor(row, fields[..i + 1]) ==
      if fields[i] in row && Keep(row[fields[i]]) then MetadataFor(row, fields[..i])[fields[i] := row[fields[i]]]
      else MetadataFor(row, fields[..i])
  {
    assert fields[..i + 1] == fields[..i] + [fields[i]];
  }

  /** The metadata dictionary of one exported row. */
  method ExportMetadata(row: Row) returns (metadata: map<string, string>)
    ensures metadata == MetadataFor(row, AllFields)
  {
    metadata := map[];
    for i := 0 to |AllFields|
      invariant metadata == MetadataFor(row, AllFields[..i])
    {
      var key := AllFields[i];
      MetadataStep(row, AllFields, i);
      if key in row {
        var value := row[key];
        if value != "" && Strings.Strip(value) != "" {
          metadata := metadata[key := value];
        }
      }
    }
    assert AllFields[..|AllFields|] == AllFields;
  }

  /** A key is in the metadata exactly when it is a known column of the row whose cell is not
      blank, and it then carries the cell unchanged. */
  lemma MetadataRule(row: Row, k: string)
    ensures k in MetadataFor(row, AllFields) <==> k in AllFields && k in row && !Strings.IsBlank(row[k])
    ensures k in MetadataFor(row, AllFields) ==> MetadataFor(row, AllFields)[k] == row[k]
  {
    if k in row {
      Strings.StripEmptyIffBlank(row[k]);
    }
  }

  /** One line of the JSON-lines export. */
  datatype JsonRecord = JsonRecord(id: nat, text: string, metadata: map<string, string>)

  /** `export_jsonl`: one record per processed row, numbered from 0, whose text is the chunk
      and whose metadata comes from the row's cells (the chunk column included, as pandas
      exposes it, though it is never a known column). */
  method ExportJsonl(table: seq<Processed>) returns (out: seq<JsonRecord>)
    ensures |out| == |table|
    ensures forall i :: 0 <= i < |out| ==>
      out[i] == JsonRecord(i, table[i].chunkText, MetadataFor(table[i].row["chunk_text" := table[i].chunkText], AllFields))
  {
    out := [];
    for idx := 0 to |table|
      invariant |out| == idx
      invariant forall i :: 0 <= i < idx ==>
        out[i] == JsonRecord(i, table[i].chunkText, MetadataFor(table[i].row["chunk_text" := table[i].chunkText], AllFields))
    {
      var p := table[idx];
      var metadata := ExportMetadata(p.row["chunk_text" := p.chunkText]);
      out := out + [JsonRecord(idx, p.chunkText, metadata)];
    }
  }

  /** The exported metadata never holds the chunk column: it is exactly the row's own non-blank
      known cells. */
  lemma ExportedMetadata(p: Processed)
    ensures MetadataFor(p.row["chunk_text" := p.chunkText], AllFields) == MetadataFor(p.row, AllFields)
  {
    assert "chunk_text" !in AllFields;
  }
}
