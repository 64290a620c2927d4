/** The offline index builder: it reads the exported JSON lines, embeds the record texts in
    batches, and writes the metadata list that lines up with the vectors of the index. */
module IndexBuild {
  import opened Wrappers
  import Strings
  import Tally

  // ---------------------------------------------------------------- batches

  function Min(a: int, b: int): int { if a <= b then a else b }

  /** The slices `data[i:i+size]` for `i` = `start`, `start + size`, … below `|data|`. */
  function SlicesFrom<T>(data: seq<T>, size: nat, start: nat): seq<seq<T>>
    requires size > 0
    decreases |data| - start
  {
    if start >= |data| then []
    else [data[start..Min(start + size, |data|)]] + SlicesFrom(data, size, start + size)
  }

  /** `chunk_iter(data, size)`. Python's `range` refuses a zero step and yields nothing for a
      negative one. */
  function ChunkIter<T>(data: seq<T>, size: int): Result<seq<seq<T>>, string> {
    if size == 0 then Err("range() arg 3 must not be zero")
    else if size < 0 then Ok([])
    else Ok(SlicesFrom(data, size, 0))
  }

  /** The concatenation of a list of lists. */
  function Flatten<T>(s: seq<seq<T>>): seq<T> {
    if |s| == 0 then [] else Flatten(s[..|s| - 1]) + s[|s| - 1]
  }

  lemma {:induction false} FlattenCons<T>(a: seq<T>, s: seq<seq<T>>)
    ensures Flatten([a] + s) == a + Flatten(s)
    decreases |s|
  {
    if |s| == 0 {
      assert [a] + s == [a];
      assert Flatten([a][..0]) == [];
    } else {
      var n := |s| - 1;
      FlattenCons(a, s[..n]);
      assert ([a] + s)[..|[a] + s| - 1] == [a] + s[..n];
    }
  }

  /** The slices from `start` give back `data[start..]` when joined. */
  lemma {:induction false} SlicesJoin<T>(data: seq<T>, size: nat, start: nat)
    requires size > 0 && start <= |data|
    ensures Flatten(SlicesFrom(data, size, start)) == data[start..]
    decreases |data| - start
  {
    if start < |data| {
      var head := data[start..Min(start + size, |data|)];
      var rest := SlicesFrom(data, size, start + size);
      FlattenCons(head, rest);
      if start + size >= |data| {
        assert rest == [];
        assert head == data[start..];
      } else {
        SlicesJoin(data, size, start + size);
        assert data[start..] == head + data[start + size..];
      }
    }
  }

  /** Every slice but the last holds `size` items, and the last one is not empty. */
  lemma {:induction false} SlicesSizes<T>(data: seq<T>, size: nat, start: nat)
    requires size > 0
    ensures var r := SlicesFrom(data, size, start);
      && (forall j :: 0 <= j < |r| - 1 ==> |r[j]| == size)
      && (|r| > 0 ==> 0 < |r[|r| - 1]| <= size)
    decreases |data| - start
  {
    if start < |data| {
      var r := SlicesFrom(data, size, start);
      var rest := SlicesFrom(data, size, start + size);
      SlicesSizes(data, size, start + size);
      assert forall j :: 1 <= j < |r| ==> r[j] == rest[j - 1];
    }
  }

  /** The number `m` of slices from `start` is the least with `m * size` covering what is
      left, and it is zero only when nothing is left. */
  lemma {:induction false} SlicesCount<T>(data: seq<T>, size: nat, start: nat)
    requires size > 0 && start <= |data|
    ensures var m := |SlicesFrom(data, size, start)|;
      && (m == 0 <==> start == |data|)
      && (m > 0 ==> (m - 1) * size < |data| - start <= m * size)
    decreases |data| - start
  {
    if start < |data| && start + size < |data| {
      var m := |SlicesFrom(data, size, start + size)|;
      SlicesCount(data, size, start + size);
      assert (m + 1) * size == m * size + size;
      assert (m - 1) * size + size == m * size;
    }
  }

  /** The only whole number `m` with `(m - 1) * d < n <= m * d` is the rounded-up quotient. */
  lemma CeilDivUnique(n: nat, d: nat, m: nat)
    requires d > 0 && m > 0 && (m - 1) * d < n <= m * d
    ensures (n + d - 1) / d == m
  {
    var x := n + d - 1;
    assert (m - 1) * d + d == m * d == d * m;
    assert d * m <= x < d * m + d;
    Tally.DivBracket(x, d);
    var q := x / d;
    if q < m {
      Tally.MulMonotone(d, q + 1, m);
    } else if q > m {
      Tally.MulMonotone(d, m + 1, q);
    }
  }

  /** `chunk_iter` with a positive size: joining the batches gives back the data, every batch
      but the last holds `size` items, the last is not empty, there are ceil(len/size) of them,
      and empty data gives none. */
  lemma ChunkIterFacts<T>(data: seq<T>, size: int)
    requires size > 0
    ensures ChunkIter(data, size).Ok?
    ensures var r := ChunkIter(data, size).value;
      && Flatten(r) == data
      && (forall j :: 0 <= j < |r| - 1 ==> |r[j]| == size)
      && (|r| > 0 ==> 0 < |r[|r| - 1]| <= size)
      && |r| == (|data| + size - 1) / size
      && (|r| == 0 <==> |data| == 0)
  {
    var r := SlicesFrom(data, size, 0);
    SlicesJoin(data, size, 0);
    SlicesSizes(data, size, 0);
    SlicesCount(data, size, 0);
    assert data[0..] == data;
    if |r| > 0 {
      CeilDivUnique(|data|, size, |r|);
    }
  }

  // ------------------------------------------------------------- embeddings

  /** What `build_embeddings` produces: the vectors of every batch, batch after batch. */
  function EmbeddingsOf<V>(texts: seq<string>, batchSize: int, embed: seq<string> -> seq<V>): Result<seq<V>, string> {
    match ChunkIter(texts, batchSize)
    case Err(e) => Err(e)
    case Ok(batches) => Ok(Flatten(Tally.MapSeq(batches, embed)))
  }

  /** `build_embeddings`: ask for the vectors of each batch and append them one by one. The
      embedding service is the parameter `embed`. */
  method BuildEmbeddings<V>(texts: seq<string>, batchSize: int, embed: seq<string> -> seq<V>) returns (r: Result<seq<V>, string>)
    ensures r == EmbeddingsOf(texts, batchSize, embed)
  {
    var batches := ChunkIter(texts, batchSize);
    if batches.Err? {
      return Err(batches.error);
    }
    var embeddings: seq<V> := [];
    for b := 0 to |batches.value|
      invariant embeddings == Flatten(Tally.MapSeq(batches.value[..b], embed))
    {
      var response := embed(batches.value[b]);
      var before := embeddings;
      for j := 0 to |response|
        invariant embeddings == before + response[..j]
      {
        embeddings := embeddings + [response[j]];
      }
      assert response[..|response|] == response;
      assert batches.value[..b + 1][..b] == batches.value[..b];
    }
    assert batches.value[..|batches.value|] == batches.value;
    return Ok(embeddings);
  }

  lemma {:induction false} FlattenMapLength<V>(batches: seq<seq<string>>, embed: seq<string> -> seq<V>)
    requires forall b :: |embed(b)| == |b|
    ensures |Flatten(Tally.MapSeq(batches, embed))| == |Flatten(batches)|
  {
    if |batches| > 0 {
      var n := |batches| - 1;
      FlattenMapLength(batches[..n], embed);
      assert Tally.MapSeq(batches, embed)[..n] == Tally.MapSeq(batches[..n], embed);
    }
  }

  /** With a positive batch size and a service that returns one vector per text, there is one
      vector per text. */
  lemma EmbeddingsCount<V>(texts: seq<string>, batchSize: int, embed: seq<string> -> seq<V>)
    requires batchSize > 0
    requires forall b :: |embed(b)| == |b|
    ensures EmbeddingsOf(texts, batchSize, embed).Ok?
    ensures |EmbeddingsOf(texts, batchSize, embed).value| == |texts|
  {
    ChunkIterFacts(texts, batchSize);
    FlattenMapLength(ChunkIter(texts, batchSize).value, embed);
  }

  // ---------------------------------------------------------------- records

  /** A record of the JSON-lines file: its number, its text and its metadata (a missing
      `"id"` is `None`, a missing `"metadata"` the empty map). */
  datatype StoredRecord = StoredRecord(id: Option<int>, text: string, metadata: map<string, string>)

  datatype LoadError = FileMissing | InvalidJson(line: nat) | NoRecords

  /** The stripped lines that are not blank, in file order. */
  function NonBlankLines(lines: seq<string>): (r: seq<string>)
    ensures forall j :: 0 <= j < |r| ==> r[j] != ""
  {
    if |lines| == 0 then []
    else
      var line := Strings.Strip(lines[|lines| - 1]);
      NonBlankLines(lines[..|lines| - 1]) + (if line == "" then [] else [line])
  }

  /** The records of the lines read so far, or the first line that does not parse. The JSON
      parser is the parameter `parse`. */
  function Parsed(lines: seq<string>, parse: string -> Option<StoredRecord>): Result<seq<StoredRecord>, LoadError> {
    if |lines| == 0 then Ok([])
    else
      match Parsed(lines[..|lines| - 1], parse)
      case Err(e) => Err(e)
      case Ok(records) =>
        var line := Strings.Strip(lines[|lines| - 1]);
        if line == "" then Ok(records)
        else match parse(line)
          case None => Err(InvalidJson(|lines| - 1))
          case Some(rec) => Ok(records + [rec])
  }

  /** `load_records` on a file that exists. */
  function LoadOf(lines: seq<string>, parse: string -> Option<StoredRecord>): Result<seq<StoredRecord>, LoadError> {
    match Parsed(lines, parse)
    case Err(e) => Err(e)
    case Ok(records) => if |records| == 0 then Err(NoRecords) else Ok(records)
  }

  lemma {:induction false} ParsedErrStays(lines: seq<string>, parse: string -> Option<StoredRecord>, i: nat)
    requires i <= |lines| && Parsed(lines[..i], parse).Err?
    ensures Parsed(lines, parse) == Parsed(lines[..i], parse)
    decreases |lines| - i
  {
    if i < |lines| {
      assert lines[..i + 1][..i] == lines[..i];
      ParsedErrStays(lines, parse, i + 1);
    } else {
      assert lines[..i] == lines;
    }
  }

  lemma ParsedStep(lines: seq<string>, parse: string -> Option<StoredRecord>, i: nat)
    requires i < |lines| && Parsed(lines[..i], parse).Ok?
    ensures var line := Strings.Strip(lines[i]);
      Parsed(lines[..i + 1], parse) ==
        if line == "" then Parsed(lines[..i], parse)
        else if parse(line).None? then Err(InvalidJson(i))
        else Ok(Parsed(lines[..i], parse).value + [parse(line).value])
  {
    assert lines[..i + 1][..i] == lines[..i];
  }

  /** `load_records`: strip each line, skip the blank ones, parse the others; fail when the
      file is missing, when a line does not parse, or when no record remains. */
  method LoadRecords(fileExists: bool, lines: seq<string>, parse: string -> Option<StoredRecord>)
    returns (r: Result<seq<StoredRecord>, LoadError>)
    ensures !fileExists ==> r == Err(FileMissing)
    ensures fileExists ==> r == LoadOf(lines, parse)
  {
    if !fileExists {
      return Err(FileMissing);
    }
    var records: seq<StoredRecord> := [];
    for i := 0 to |lines|
      invariant Parsed(lines[..i], parse) == Ok(records)
    {
      ParsedStep(lines, parse, i);
      var line := Strings.Strip(lines[i]);
      if line == "" {
        continue;
      }
      var rec := parse(line);
      if rec.None? {
        ParsedErrStays(lines, parse, i + 1);
        return Err(InvalidJson(i));
      }
      records := records + [rec.value];
    }
    assert lines[..|lines|] == lines;
    if |records| == 0 {
      return Err(NoRecords);
    }
    return Ok(records);
  }

  predicate AllParse(ls: seq<string>, parse: string -> Option<StoredRecord>) {
    forall j :: 0 <= j < |ls| ==> parse(ls[j]).Some?
  }

  /** Loading succeeds exactly when every non-blank line parses; the only failure is a line
      that does not parse. */
  lemma {:induction false} ParsedOk(lines: seq<string>, parse: string -> Option<StoredRecord>)
    ensures Parsed(lines, parse).Ok? <==> AllParse(NonBlankLines(lines), parse)
    ensures Parsed(lines, parse).Err? ==> Parsed(lines, parse).error.InvalidJson?
  {
    if |lines| > 0 {
      var n := |lines| - 1;
      var pre := lines[..n];
      ParsedOk(pre, parse);
      var nb := NonBlankLines(pre);
      var line := Strings.Strip(lines[n]);
      var all := NonBlankLines(lines);
      assert all == nb + (if line == "" then [] else [line]);
      if Parsed(pre, parse).Err? {
        var j :| 0 <= j < |nb| && parse(nb[j]).None?;
        assert all[j] == nb[j];
      } else if line != "" && parse(line).None? {
        assert all[|nb|] == line;
      }
    }
  }

  /** When loading succeeds, the records are the parsed non-blank lines, in file order. */
  lemma {:induction false} ParsedRecords(lines: seq<string>, parse: string -> Option<StoredRecord>)
    ensures var nb := NonBlankLines(lines);
      Parsed(lines, parse).Ok? ==>
        |Parsed(lines, parse).value| == |nb| &&
        forall j :: 0 <= j < |nb| ==> parse(nb[j]) == Some(Parsed(lines, parse).value[j])
  {
    if |lines| > 0 && Parsed(lines, parse).Ok? {
      var n := |lines| - 1;
      var pre := lines[..n];
      ParsedRecords(pre, parse);
      var nb := NonBlankLines(pre);
      var line := Strings.Strip(lines[n]);
      var all := NonBlankLines(lines);
      assert all == nb + (if line == "" then [] else [line]);
      var recs := Parsed(pre, parse).value;
      if line != "" {
        var out := recs + [parse(line).value];
        assert Parsed(lines, parse) == Ok(out);
        forall j | 0 <= j < |all| ensures parse(all[j]) == Some(out[j]) {
          if j < |nb| {
            assert all[j] == nb[j] && out[j] == recs[j];
          }
        }
      }
    }
  }

  /** With the file present, loading reports that there is no data exactly when every line is
      blank. */
  lemma {:induction false} NoRecordsRule(lines: seq<string>, parse: string -> Option<StoredRecord>)
    ensures LoadOf(lines, parse) == Err(NoRecords) <==> forall i :: 0 <= i < |lines| ==> Strings.IsBlank(lines[i])
  {
    AllBlankLines(lines);
    ParsedOk(lines, parse);
    ParsedRecords(lines, parse);
  }

  lemma {:induction false} AllBlankLines(lines: seq<string>)
    ensures NonBlankLines(lines) == [] <==> forall i :: 0 <= i < |lines| ==> Strings.IsBlank(lines[i])
  {
    if |lines| > 0 {
      var n := |lines| - 1;
      var init := lines[..n];
      AllBlankLines(init);
      Strings.StripEmptyIffBlank(lines[n]);
      var last := Strings.Strip(lines[n]);
      assert NonBlankLines(lines) == NonBlankLines(init) + (if last == "" then [] else [last]);
      if NonBlankLines(lines) == [] {
        forall i | 0 <= i < |lines| ensures Strings.IsBlank(lines[i]) {
          if i < n {
            assert init[i] == lines[i];
          }
        }
      } else if NonBlankLines(init) != [] {
        var k :| 0 <= k < n && !Strings.IsBlank(init[k]);
        assert init[k] == lines[k];
      }
    }
  }

  // --------------------------------------------------------------- metadata

  datatype JsonValue = JNull | JInt(n: int) | JStr(s: string)

  function IdValue(id: Option<int>): JsonValue {
    match id
    case None => JNull
    case Some(n) => JInt(n)
  }

  /** `{"id": record.get("id"), **record.get("metadata", {})}`: later keys win. */
  function MetadataEntry(rec: StoredRecord): (m: map<string, JsonValue>)
    ensures m.Keys == {"id"} + rec.metadata.Keys
    ensures "id" !in rec.metadata ==> m["id"] == IdValue(rec.id)
    ensures forall k :: k in rec.metadata ==> m[k] == JStr(rec.metadata[k])
  {
    map["id" := IdValue(rec.id)] + map k | k in rec.metadata :: JStr(rec.metadata[k])
  }

  /** The metadata list written beside the index: entry `i` belongs to record `i`, carries its
      number (unless its metadata has its own `"id"`) and all its metadata. */
  function MetadataList(records: seq<StoredRecord>): (r: seq<map<string, JsonValue>>)
    ensures |r| == |records|
    ensures forall i :: 0 <= i < |r| ==>
      && r[i].Keys == {"id"} + records[i].metadata.Keys
      && ("id" !in records[i].metadata ==> r[i]["id"] == IdValue(records[i].id))
      && (forall k :: k in records[i].metadata ==> r[i][k] == JStr(records[i].metadata[k]))
  {
    seq(|records|, i requires 0 <= i < |records| => MetadataEntry(records[i]))
  }

  function TextOf(rec: StoredRecord): string { rec.text }

  /** With a positive batch size and a service that returns one vector per text, the vectors
      and the metadata list both have one element per record: the length agreement the index
      relies on when it reads them side by side. */
  lemma IndexLinesUp<V>(records: seq<StoredRecord>, batchSize: int, embed: seq<string> -> seq<V>)
    requires batchSize > 0
    requires forall b :: |embed(b)| == |b|
    ensures var v := EmbeddingsOf(Tally.MapSeq(records, TextOf), batchSize, embed);
      v.Ok? && |v.value| == |MetadataList(records)| == |records|
  {
    EmbeddingsCount(Tally.MapSeq(records, TextOf), batchSize, embed);
  }
}
