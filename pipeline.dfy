/**
 * The aggregation core of `pipeline.py`: `generate_json` reduces the lines of
 * one transaction log to a record `{name, total_sent}` in a single ordered
 * pass, fed either by the whole file read at once (`load_sample`) or by a
 * generator that yields one line at a time (`load_sample_generator`).
 *
 * A transaction line holds at least three whitespace-separated fields:
 * emitter name, date and amount. The amount may carry a euro sign, or the
 * three code points a UTF-8 euro sign becomes when it is decoded as
 * Windows-1252.
 */
module Pipeline {

  import opened Wrappers
  import opened PyStr
  import opened PyInt
  import opened PyPath

  /** "€", U+20AC. */
  const EURO: string := "\U{20AC}"

  /** "â‚¬": the bytes E2 82 AC of a UTF-8 euro sign read as Windows-1252. */
  const MISDECODED_EURO: string := "\U{E2}\U{201A}\U{AC}"

  /** The aggregate record that is saved as JSON. */
  datatype Record = Record(name: string, totalSent: int)

  /** A console notice; `text` is the stripped line it is about. */
  datatype Diagnostic =
    | MalformedLine(text: string)   // fewer than three fields
    | InvalidAmount(text: string)   // the amount is not an integer

  /** The amount field with "€" removed, then "â‚¬" removed. */
  function CleanAmount(token: string): string {
    RemoveAll(RemoveAll(token, EURO), MISDECODED_EURO)
  }

  /** How one line is treated by the pass; `text` is the stripped line a notice quotes. */
  datatype LineKind =
    | Blank
    | Malformed(text: string)
    | BadAmount(emitter: string, text: string)
    | Entry(emitter: string, amount: int)

  /** A line with at least three fields: it names the emitter, whatever its amount. */
  predicate NamesEmitter(line: string) {
    |Split(line)| >= 3
  }

  /**
   * The branch the loop body takes on `line`. The source splits
   * `line.strip()`; splitting `line` itself gives the same fields
   * (`SplitIgnoresStrip`).
   */
  function Classify(line: string): LineKind {
    var fields := Split(line);
    if |fields| == 0 then Blank
    else if |fields| < 3 then Malformed(Strip(line))
    else
      match ParseInt(CleanAmount(fields[2]))
      case None => BadAmount(fields[0], Strip(line))
      case Some(n) => Entry(fields[0], n)
  }

  /** What a line of kind `k` adds to `total_sent`. */
  function Share(k: LineKind): int {
    if k.Entry? then k.amount else 0
  }

  /** The notice a line of kind `k` prints, if any. */
  function Notices(k: LineKind): seq<Diagnostic> {
    match k
    case Malformed(text) => [MalformedLine(text)]
    case BadAmount(_, text) => [InvalidAmount(text)]
    case _ => []
  }

  /** Each line classified on its own. */
  function Kinds(lines: seq<string>): seq<LineKind> {
    seq(|lines|, i requires 0 <= i < |lines| => Classify(lines[i]))
  }

  /** `total_sent` after a pass over lines of kinds `ks`. */
  function TotalOf(ks: seq<LineKind>): int {
    if ks == [] then 0 else TotalOf(ks[..|ks| - 1]) + Share(ks[|ks| - 1])
  }

  /** `name` after a pass over lines of kinds `ks`: the emitter of the last line naming one, else "". */
  function LastOf(ks: seq<LineKind>): string {
    if ks == [] then ""
    else if ks[|ks| - 1].BadAmount? || ks[|ks| - 1].Entry? then ks[|ks| - 1].emitter
    else LastOf(ks[..|ks| - 1])
  }

  /** The notices printed during a pass over lines of kinds `ks`, in order. */
  function NoticesOf(ks: seq<LineKind>): seq<Diagnostic> {
    if ks == [] then [] else NoticesOf(ks[..|ks| - 1]) + Notices(ks[|ks| - 1])
  }

  /** `total_sent` after the pass over `lines`. */
  function TotalSent(lines: seq<string>): int {
    TotalOf(Kinds(lines))
  }

  /** `name` after the pass over `lines`. */
  function LastEmitter(lines: seq<string>): string {
    LastOf(Kinds(lines))
  }

  /** The notices printed during the pass over `lines`. */
  function Diagnostics(lines: seq<string>): seq<Diagnostic> {
    NoticesOf(Kinds(lines))
  }

  /** The record `generate_json` returns for `lines`. */
  function Aggregate(lines: seq<string>): Record {
    Record(LastEmitter(lines), TotalSent(lines))
  }

  /** Only all-whitespace lines are blank; exactly the lines with three fields or more name an emitter. */
  lemma ClassifySpec(line: string)
    ensures Classify(line).Blank? <==> AllSpace(line)
    ensures Classify(line).BadAmount? || Classify(line).Entry? <==> NamesEmitter(line)
  {
    SplitSpec(line);
  }

  /** One more line extends each result of the pass by that line's share. */
  lemma FoldStep(ks: seq<LineKind>, k: LineKind)
    ensures TotalOf(ks + [k]) == TotalOf(ks) + Share(k)
    ensures LastOf(ks + [k]) == if k.BadAmount? || k.Entry? then k.emitter else LastOf(ks)
    ensures NoticesOf(ks + [k]) == NoticesOf(ks) + Notices(k)
  {
    assert (ks + [k])[..|ks|] == ks;
  }

  /** Reading one more line classifies it and appends its kind. */
  lemma KindsStep(lines: seq<string>, i: nat, j: nat)
    requires i <= j < |lines|
    ensures Kinds(lines[i..j + 1]) == Kinds(lines[i..j]) + [Classify(lines[j])]
  {
  }

  /** A line that strips to nothing is skipped without a notice. */
  lemma BlankLineKind(line: string)
    requires Strip(line) == []
    ensures Classify(line) == Blank
  {
    StripSpec(line);
    SplitSpec(line);
  }

  /** A non-blank line with fewer than three fields is skipped with a notice. */
  lemma ShortLineKind(line: string)
    requires Strip(line) != [] && |Split(Strip(line))| < 3
    ensures Classify(line) == Malformed(Strip(line))
  {
    StripSpec(line);
    SplitSpec(line);
    SplitIgnoresStrip(line);
  }

  /** A line with three or more fields names the emitter; its amount counts only if it parses. */
  lemma FullLineKind(line: string)
    requires |Split(Strip(line))| >= 3
    ensures var fields := Split(Strip(line));
      var amount := ParseInt(CleanAmount(fields[2]));
      Classify(line) == if amount.Some? then Entry(fields[0], amount.value) else BadAmount(fields[0], Strip(line))
  {
    SplitIgnoresStrip(line);
  }

  /**
   * What a Python `for` loop iterates over: a list iterator over the lines
   * `readlines()` returned, or the generator that reads the file line by
   * line. Either one yields `lines` in order, once.
   */
  class LineStream {
    const lines: seq<string>
    var pos: nat

    ghost predicate Valid()
      reads this
    {
      pos <= |lines|
    }

    constructor (lines: seq<string>)
      ensures Valid() && this.lines == lines && pos == 0
    {
      this.lines := lines;
      pos := 0;
    }

    /** `next()`: the next line, or `None` once the stream is exhausted. */
    method Next() returns (line: Option<string>)
      requires Valid()
      modifies this
      ensures Valid()
      ensures old(pos) < |lines| ==> line == Some(lines[old(pos)]) && pos == old(pos) + 1
      ensures old(pos) == |lines| ==> line == None && pos == old(pos)
    {
      if pos < |lines| {
        line := Some(lines[pos]);
        pos := pos + 1;
      } else {
        line := None;
      }
    }
  }

  /**
   * One iteration of the body of `generate_json`'s `for` loop, on
   * `line == lines[j]`: the loop's variables after the lines `lines[i..j]`
   * become those after `lines[i..j + 1]`.
   */
  method AbsorbLine(ghost lines: seq<string>, ghost i: nat, ghost j: nat, line: string,
                    name: string, totalSent: int, log: seq<Diagnostic>)
    returns (name': string, totalSent': int, log': seq<Diagnostic>)
    requires i <= j < |lines| && line == lines[j]
    requires name == LastEmitter(lines[i..j]) && totalSent == TotalSent(lines[i..j]) && log == Diagnostics(lines[i..j])
    ensures name' == LastEmitter(lines[i..j + 1])
    ensures totalSent' == TotalSent(lines[i..j + 1])
    ensures log' == Diagnostics(lines[i..j + 1])
  {
    KindsStep(lines, i, j);
    FoldStep(Kinds(lines[i..j]), Classify(line));
    name', totalSent', log' := name, totalSent, log;
    var stripped := Strip(line);
    if stripped == [] {
      BlankLineKind(line);
      return;
    }
    var parts := Split(stripped);
    if |parts| < 3 {
      ShortLineKind(line);
      log' := log + [MalformedLine(stripped)];
      return;
    }
    FullLineKind(line);
    name' := parts[0];
    var amount := ParseInt(CleanAmount(parts[2]));
    if amount.None? {
      log' := log + [InvalidAmount(stripped)];
      return;
    }
    totalSent' := totalSent + amount.value;
  }

  /**
   * `generate_json`: consumes the rest of `source` and returns the record for
   * the lines it read, with the notices it printed. Blank lines are skipped
   * silently; a line with fewer than three fields is reported and skipped; any
   * other line sets `name`, and its amount is added when it parses and
   * reported otherwise.
   */
  method GenerateJson(source: LineStream) returns (result: Record, log: seq<Diagnostic>)
    requires source.Valid()
    modifies source
    ensures source.Valid() && source.pos == |source.lines|
    ensures result == Aggregate(source.lines[old(source.pos)..])
    ensures log == Diagnostics(source.lines[old(source.pos)..])
  {
    ghost var start := source.pos;
    var totalSent := 0;
    var name := "";
    log := [];
    while true
      invariant source.Valid() && start <= source.pos
      invariant name == LastEmitter(source.lines[start..source.pos])
      invariant totalSent == TotalSent(source.lines[start..source.pos])
      invariant log == Diagnostics(source.lines[start..source.pos])
      decreases |source.lines| - source.pos
    {
      ghost var before := source.pos;
      var next := source.Next();
      if next.None? {
        break;
      }
      var line := next.value;
      assert source.pos == before + 1 && line == source.lines[before];
      name, totalSent, log := AbsorbLine(source.lines, start, before, line, name, totalSent, log);
    }
    assert source.lines[start..source.pos] == source.lines[start..];
    result := Record(name, totalSent);
  }

  /** `load_sample_generator`: a fresh, single-pass stream over the file's lines. */
  method LoadSampleGenerator(file: seq<string>) returns (lines: LineStream)
    ensures fresh(lines) && lines.Valid() && lines.lines == file && lines.pos == 0
  {
    lines := new LineStream(file);
  }

  /**
   * `process_file` without its saving and archiving: `load_sample` reads all
   * the lines into a list, and `generate_json` iterates over that list.
   */
  method ProcessFile(file: seq<string>) returns (result: Record, log: seq<Diagnostic>)
    ensures result == Aggregate(file) && log == Diagnostics(file)
  {
    var lines := file;
    var listIterator := new LineStream(lines);
    result, log := GenerateJson(listIterator);
    assert file[0..] == file;
  }

  /**
   * `process_file_with_generator` without its saving and archiving:
   * `generate_json` pulls the lines from `load_sample_generator`.
   */
  method ProcessFileWithGenerator(file: seq<string>) returns (result: Record, log: seq<Diagnostic>)
    ensures result == Aggregate(file) && log == Diagnostics(file)
  {
    var generator := LoadSampleGenerator(file);
    result, log := GenerateJson(generator);
    assert file[0..] == file;
  }

  /**
   * The name `save_result` gives the JSON file: "result_", the base name of
   * the source path with every ".txt" removed, "_", the timestamp
   * (`YYYYMMDD_HHMMSS`, taken from the clock by the caller) and ".json".
   */
  function ResultFileName(filePath: string, timestamp: string): string {
    "result_" + RemoveAll(Basename(filePath), ".txt") + "_" + timestamp + ".json"
  }
}
