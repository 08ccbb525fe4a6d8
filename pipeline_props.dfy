/**
 * What `generate_json` promises about the record and the notices it
 * produces: how the pass splits over concatenated inputs, which lines leave
 * it unchanged, where `name` comes from, what `total_sent` sums, and that
 * both ways of reading a file give the same result.
 */
module PipelineProperties {

  import opened Wrappers
  import opened PyStr
  import opened PyInt
  import opened PyPath
  import opened Pipeline

  /** Some line of kind in `ks` names an emitter. */
  predicate AnyNames(ks: seq<LineKind>) {
    exists i | 0 <= i < |ks| :: ks[i].BadAmount? || ks[i].Entry?
  }

  /** Some line of `lines` has three fields or more. */
  predicate HasNamingLine(lines: seq<string>) {
    exists i | 0 <= i < |lines| :: NamesEmitter(lines[i])
  }

  lemma KindsConcat(a: seq<string>, b: seq<string>)
    ensures Kinds(a + b) == Kinds(a) + Kinds(b)
  {
    assert forall i | 0 <= i < |a + b| :: (a + b)[i] == if i < |a| then a[i] else b[i - |a|];
  }

  lemma AnyNamesOfKinds(lines: seq<string>)
    ensures AnyNames(Kinds(lines)) <==> HasNamingLine(lines)
  {
    if HasNamingLine(lines) {
      var i :| 0 <= i < |lines| && NamesEmitter(lines[i]);
      ClassifySpec(lines[i]);
      assert Kinds(lines)[i] == Classify(lines[i]);
    }
    if AnyNames(Kinds(lines)) {
      var i :| 0 <= i < |Kinds(lines)| && (Kinds(lines)[i].BadAmount? || Kinds(lines)[i].Entry?);
      ClassifySpec(lines[i]);
    }
  }

  /** The total of a pass is additive: the loop carries nothing but the running sum. */
  lemma {:induction false} TotalOfConcat(xs: seq<LineKind>, ys: seq<LineKind>)
    ensures TotalOf(xs + ys) == TotalOf(xs) + TotalOf(ys)
    decreases |ys|
  {
    if ys == [] {
      assert xs + ys == xs;
    } else {
      var init, k := ys[..|ys| - 1], ys[|ys| - 1];
      assert ys == init + [k];
      assert xs + ys == (xs + init) + [k];
      FoldStep(xs + init, k);
      FoldStep(init, k);
      TotalOfConcat(xs, init);
    }
  }

  /** Appending a kind names an emitter exactly when it or an earlier kind does. */
  lemma AnyNamesSnoc(ks: seq<LineKind>, k: LineKind)
    ensures AnyNames(ks + [k]) <==> AnyNames(ks) || k.BadAmount? || k.Entry?
  {
    var all := ks + [k];
    assert all[|ks|] == k;
    if AnyNames(all) && !(k.BadAmount? || k.Entry?) {
      var i :| 0 <= i < |all| && (all[i].BadAmount? || all[i].Entry?);
      assert ks[i] == all[i];
    }
    if AnyNames(ks) {
      var i :| 0 <= i < |ks| && (ks[i].BadAmount? || ks[i].Entry?);
      assert all[i] == ks[i];
    }
  }

  /** The emitter after `xs + ys` is the one `ys` names, if it names any. */
  lemma {:induction false} LastOfConcat(xs: seq<LineKind>, ys: seq<LineKind>)
    ensures LastOf(xs + ys) == if AnyNames(ys) then LastOf(ys) else LastOf(xs)
    decreases |ys|
  {
    if ys == [] {
      assert xs + ys == xs;
    } else {
      var init, k := ys[..|ys| - 1], ys[|ys| - 1];
      assert ys == init + [k];
      assert xs + ys == (xs + init) + [k];
      FoldStep(xs + init, k);
      FoldStep(init, k);
      LastOfConcat(xs, init);
      AnyNamesSnoc(init, k);
    }
  }

  /** The notices of a pass are those of its parts, in order. */
  lemma {:induction false} NoticesOfConcat(xs: seq<LineKind>, ys: seq<LineKind>)
    ensures NoticesOf(xs + ys) == NoticesOf(xs) + NoticesOf(ys)
    decreases |ys|
  {
    if ys == [] {
      assert xs + ys == xs;
    } else {
      var init, k := ys[..|ys| - 1], ys[|ys| - 1];
      assert ys == init + [k];
      assert xs + ys == (xs + init) + [k];
      FoldStep(xs + init, k);
      FoldStep(init, k);
      NoticesOfConcat(xs, init);
    }
  }

  /** `total(a ++ b) == total(a) + total(b)`. */
  lemma TotalSentConcat(a: seq<string>, b: seq<string>)
    ensures TotalSent(a + b) == TotalSent(a) + TotalSent(b)
  {
    KindsConcat(a, b);
    TotalOfConcat(Kinds(a), Kinds(b));
  }

  /** `name(a ++ b)` is `name(b)` when `b` has a line with three fields or more, else `name(a)`. */
  lemma LastEmitterConcat(a: seq<string>, b: seq<string>)
    ensures LastEmitter(a + b) == if HasNamingLine(b) then LastEmitter(b) else LastEmitter(a)
  {
    KindsConcat(a, b);
    LastOfConcat(Kinds(a), Kinds(b));
    AnyNamesOfKinds(b);
  }

  /** The notices for `a ++ b` are those for `a`, then those for `b`. */
  lemma DiagnosticsConcat(a: seq<string>, b: seq<string>)
    ensures Diagnostics(a + b) == Diagnostics(a) + Diagnostics(b)
  {
    KindsConcat(a, b);
    NoticesOfConcat(Kinds(a), Kinds(b));
  }

  /** The pass over a single line. */
  lemma OneLine(line: string)
    ensures TotalSent([line]) == Share(Classify(line))
    ensures LastEmitter([line]) == if NamesEmitter(line) then Classify(line).emitter else ""
    ensures Diagnostics([line]) == Notices(Classify(line))
  {
    assert Kinds([line]) == [] + [Classify(line)];
    FoldStep([], Classify(line));
    ClassifySpec(line);
  }

  /** A line `generate_json` skips (blank, or fewer than three fields) can be dropped from anywhere. */
  lemma SkippedLineChangesNothing(a: seq<string>, line: string, b: seq<string>)
    requires |Split(Strip(line))| < 3
    ensures Aggregate(a + [line] + b) == Aggregate(a + b)
  {
    SplitIgnoresStrip(line);
    OneLine(line);
    assert Share(Classify(line)) == 0;
    assert !HasNamingLine([line]);
    TotalSentConcat(a + [line], b);
    TotalSentConcat(a, [line]);
    TotalSentConcat(a, b);
    LastEmitterConcat(a + [line], b);
    LastEmitterConcat(a, [line]);
    LastEmitterConcat(a, b);
  }

  /** A blank line prints nothing. */
  lemma BlankLineIsSilent(a: seq<string>, line: string, b: seq<string>)
    requires Strip(line) == []
    ensures Diagnostics(a + [line] + b) == Diagnostics(a + b)
  {
    BlankLineKind(line);
    OneLine(line);
    DiagnosticsConcat(a + [line], b);
    DiagnosticsConcat(a, [line]);
    DiagnosticsConcat(a, b);
  }

  /** A non-blank line with one or two fields prints one notice quoting the stripped line. */
  lemma ShortLineIsReported(a: seq<string>, line: string, b: seq<string>)
    requires Strip(line) != [] && |Split(Strip(line))| < 3
    ensures Diagnostics(a + [line] + b) == Diagnostics(a) + [MalformedLine(Strip(line))] + Diagnostics(b)
  {
    ShortLineKind(line);
    OneLine(line);
    DiagnosticsConcat(a + [line], b);
    DiagnosticsConcat(a, [line]);
  }

  /**
   * A line whose amount does not parse does not stop the pass: the lines
   * after it are still counted, it adds nothing, it still names the
   * emitter (unless a later line does), and it prints one notice.
   */
  lemma BadAmountDoesNotAbort(a: seq<string>, line: string, b: seq<string>)
    requires |Split(Strip(line))| >= 3
    requires ParseInt(CleanAmount(Split(Strip(line))[2])).None?
    ensures TotalSent(a + [line] + b) == TotalSent(a) + TotalSent(b)
    ensures LastEmitter(a + [line] + b) == if HasNamingLine(b) then LastEmitter(b) else Split(Strip(line))[0]
    ensures Diagnostics(a + [line] + b) == Diagnostics(a) + [InvalidAmount(Strip(line))] + Diagnostics(b)
  {
    FullLineKind(line);
    SplitIgnoresStrip(line);
    OneLine(line);
    assert HasNamingLine([line]) by {
      assert NamesEmitter([line][0]);
    }
    TotalSentConcat(a + [line], b);
    TotalSentConcat(a, [line]);
    LastEmitterConcat(a + [line], b);
    LastEmitterConcat(a, [line]);
    DiagnosticsConcat(a + [line], b);
    DiagnosticsConcat(a, [line]);
  }

  /**
   * `name` is field 0 of the last line with three fields or more, whether
   * or not that line's amount parses.
   */
  lemma NameIsFromLastNamingLine(lines: seq<string>, i: nat)
    requires i < |lines| && |Split(Strip(lines[i]))| >= 3
    requires forall j | i < j < |lines| :: |Split(Strip(lines[j]))| < 3
    ensures LastEmitter(lines) == Split(Strip(lines[i]))[0]
  {
    var a, b := lines[..i], lines[i + 1..];
    assert lines == a + [lines[i]] + b;
    SplitIgnoresStrip(lines[i]);
    assert !HasNamingLine(b) by {
      forall j | 0 <= j < |b| ensures !NamesEmitter(b[j]) {
        assert b[j] == lines[i + 1 + j];
        SplitIgnoresStrip(b[j]);
      }
    }
    LastEmitterConcat(a + [lines[i]], b);
    LastEmitterConcat(a, [lines[i]]);
    OneLine(lines[i]);
    assert HasNamingLine([lines[i]]) by {
      assert NamesEmitter([lines[i]][0]);
    }
    FullLineKind(lines[i]);
  }

  /** With no line of three fields or more, the kinds hold no emitter and no amount. */
  lemma {:induction false} QuietKinds(ks: seq<LineKind>)
    requires forall i | 0 <= i < |ks| :: ks[i].Blank? || ks[i].Malformed?
    ensures LastOf(ks) == "" && TotalOf(ks) == 0
    decreases |ks|
  {
    if ks != [] {
      QuietKinds(ks[..|ks| - 1]);
    }
  }

  /**
   * Empty input, or input whose every line is blank or has fewer than three
   * fields, gives `{"name": "", "total_sent": 0}`.
   */
  lemma NoNamingLineGivesEmptyRecord(lines: seq<string>)
    requires forall j | 0 <= j < |lines| :: |Split(Strip(lines[j]))| < 3
    ensures Aggregate(lines) == Record("", 0)
  {
    forall j | 0 <= j < |lines| ensures Kinds(lines)[j].Blank? || Kinds(lines)[j].Malformed? {
      SplitIgnoresStrip(lines[j]);
      ClassifySpec(lines[j]);
    }
    QuietKinds(Kinds(lines));
  }

  /**
   * What one line adds, read directly off the source: `int` of field 2 of
   * `line.strip().split()` with "€" then "â‚¬" removed, when there are three
   * fields and it parses; 0 otherwise.
   */
  function Amount(line: string): int {
    var parts := Split(Strip(line));
    if |parts| < 3 then 0
    else
      match ParseInt(CleanAmount(parts[2]))
      case Some(n) => n
      case None => 0
  }

  /** The sum of `Amount` over the lines, first to last. */
  function SumOfAmounts(lines: seq<string>): int {
    if lines == [] then 0 else Amount(lines[0]) + SumOfAmounts(lines[1..])
  }

  /** The pass over one line adds exactly that line's `Amount`. */
  lemma LineAmount(line: string)
    ensures TotalSent([line]) == Amount(line)
  {
    OneLine(line);
    if Strip(line) == [] {
      BlankLineKind(line);
      SplitSpec(Strip(line));
    } else if |Split(Strip(line))| < 3 {
      ShortLineKind(line);
    } else {
      FullLineKind(line);
    }
  }

  /** `total_sent` is the sum of the parsed amounts of the lines with three fields or more. */
  lemma {:induction false} TotalSentIsSumOfAmounts(lines: seq<string>)
    ensures TotalSent(lines) == SumOfAmounts(lines)
    decreases |lines|
  {
    if lines != [] {
      assert lines == [lines[0]] + lines[1..];
      TotalSentConcat([lines[0]], lines[1..]);
      LineAmount(lines[0]);
      TotalSentIsSumOfAmounts(lines[1..]);
    }
  }

  /** `name` is `""` or a whole field: non-empty and free of whitespace. */
  lemma {:induction false} NameIsAField(lines: seq<string>)
    ensures LastEmitter(lines) == "" || IsWord(LastEmitter(lines))
    decreases |lines|
  {
    if lines != [] {
      var init, line := lines[..|lines| - 1], lines[|lines| - 1];
      assert lines == init + [line];
      LastEmitterConcat(init, [line]);
      OneLine(line);
      if NamesEmitter(line) {
        assert HasNamingLine([line]) by {
          assert NamesEmitter([line][0]);
        }
        SplitSpec(line);
        assert IsWord(Split(line)[0]);
      } else {
        assert !HasNamingLine([line]);
        NameIsAField(init);
      }
    }
  }

  /**
   * `process_file` (all lines read first) and `process_file_with_generator`
   * (lines pulled one at a time) give the same record and the same notices
   * for the same file.
   */
  method BothPathsAgree(file: seq<string>) returns (eager: Record, lazy: Record, eagerLog: seq<Diagnostic>, lazyLog: seq<Diagnostic>)
    ensures eager == lazy && eager == Aggregate(file)
    ensures eagerLog == lazyLog && eagerLog == Diagnostics(file)
  {
    eager, eagerLog := ProcessFile(file);
    lazy, lazyLog := ProcessFileWithGenerator(file);
  }

  /** No "€" survives the cleaning of an amount. */
  lemma CleanAmountDropsEuro(token: string)
    ensures '\U{20AC}' !in CleanAmount(token)
  {
    assert EURO == ['\U{20AC}'];
    RemoveAllOneChar(token, '\U{20AC}');
    var once := RemoveAll(token, EURO);
    assert multiset(once)['\U{20AC}'] == 0;
    RemoveAllKeeps(once, MISDECODED_EURO);
  }

  /** A token with neither a euro sign nor an "â" reaches `int` unchanged. */
  lemma CleanAmountOfPlainToken(token: string)
    requires '\U{20AC}' !in token && '\U{E2}' !in token
    ensures CleanAmount(token) == token
  {
    RemoveAllAbsent(token, EURO);
    RemoveAllAbsent(token, MISDECODED_EURO);
  }

  /** "5", then "â‚" and "¬" with a "€" between them. */
  const SPLIT_SIGN_AMOUNT: string := "5\U{E2}\U{201A}\U{20AC}\U{AC}"

  /** "5â‚¬": an amount ending in a mis-decoded euro sign. */
  const MISDECODED_AMOUNT: string := "5\U{E2}\U{201A}\U{AC}"

  /** Removing the "€" from the middle of "â‚€¬" closes up a "â‚¬". */
  lemma DropEuroOfSplitSign()
    ensures RemoveAll(SPLIT_SIGN_AMOUNT, EURO) == MISDECODED_AMOUNT
  {
    assert EURO == ['\U{20AC}'];
    RemoveAllOneChar(SPLIT_SIGN_AMOUNT, '\U{20AC}');
    assert SPLIT_SIGN_AMOUNT == "5\U{E2}\U{201A}" + ['\U{20AC}'] + ['\U{AC}'];
  }

  /** Before the "€" is gone, the token holds no "â‚¬" to remove. */
  lemma DropMisdecodedOfSplitSign()
    ensures RemoveAll(SPLIT_SIGN_AMOUNT, MISDECODED_EURO) == SPLIT_SIGN_AMOUNT
  {
    var token := SPLIT_SIGN_AMOUNT;
    assert token[..3][0] != MISDECODED_EURO[0];
    assert token[1..][..3][2] != MISDECODED_EURO[2];
    assert token[2..][..3][0] != MISDECODED_EURO[0];
    assert token[1..][1..] == token[2..] && token[2..][1..] == token[3..];
  }

  /**
   * The two removals run in order, "€" first: removing it can close up a
   * "â‚¬" that the second removal then takes out.
   */
  lemma EuroFirstClosesUpMisdecodedSign()
    ensures CleanAmount(SPLIT_SIGN_AMOUNT) == "5"
    ensures ParseInt(CleanAmount(SPLIT_SIGN_AMOUNT)) == Some(5)
  {
    DropEuroOfSplitSign();
    assert MISDECODED_AMOUNT[1..][..3] == MISDECODED_EURO;
  }

  /** Removing "â‚¬" first would leave the same amount unparsed. */
  lemma MisdecodedFirstLeavesSign()
    ensures RemoveAll(RemoveAll(SPLIT_SIGN_AMOUNT, MISDECODED_EURO), EURO) == MISDECODED_AMOUNT
    ensures ParseInt(MISDECODED_AMOUNT).None?
  {
    DropMisdecodedOfSplitSign();
    DropEuroOfSplitSign();
  }

  /** `str(n)` holds only ASCII digits and a leading `-`: no whitespace, no "€", no "â". */
  lemma ShowIntChars(n: int)
    ensures forall i | 0 <= i < |ShowInt(n)| :: IsAsciiDigit(ShowInt(n)[i]) || ShowInt(n)[i] == '-'
    ensures ShowInt(n) != []
  {
    if n < 0 {
      assert forall i | 1 <= i < |ShowInt(n)| :: ShowInt(n)[i] == ShowNat(-n)[i - 1];
    }
  }

  /** `str(n)` is within the digit limit of `int`. */
  predicate Readable(n: int) {
    DigitCount(ShowInt(n)) <= MAX_STR_DIGITS
  }

  /** What an amount `str(n)` adds: `n`, or nothing when `int` refuses it for its length. */
  function Counted(n: int): int {
    if Readable(n) then n else 0
  }

  /** An amount written `str(n)` then "€" cleans to `str(n)`, which `int` reads as `n` within the limit. */
  lemma AmountWithEuro(n: int)
    ensures CleanAmount(ShowInt(n) + EURO) == ShowInt(n)
    ensures ParseInt(CleanAmount(ShowInt(n) + EURO)) == if Readable(n) then Some(n) else None
  {
    var digits := ShowInt(n);
    ShowIntChars(n);
    assert EURO[0] !in digits;
    RemoveAllTrailing(digits, EURO);
    assert MISDECODED_EURO[0] !in digits;
    RemoveAllAbsent(digits, MISDECODED_EURO);
    ParseShowInt(n);
  }

  /** An amount written `str(n)` then "â‚¬" cleans to `str(n)` too. */
  lemma AmountWithMisdecodedEuro(n: int)
    ensures CleanAmount(ShowInt(n) + MISDECODED_EURO) == ShowInt(n)
    ensures ParseInt(CleanAmount(ShowInt(n) + MISDECODED_EURO)) == if Readable(n) then Some(n) else None
  {
    var digits := ShowInt(n);
    ShowIntChars(n);
    var token := digits + MISDECODED_EURO;
    assert EURO[0] !in token by {
      assert forall i | 0 <= i < |token| :: token[i] == if i < |digits| then digits[i] else MISDECODED_EURO[i - |digits|];
    }
    RemoveAllAbsent(token, EURO);
    assert MISDECODED_EURO[0] !in digits;
    RemoveAllTrailing(digits, MISDECODED_EURO);
    ParseShowInt(n);
  }

  /** A transaction line "emitter date amount" whose amount parses is an entry for that emitter. */
  lemma EntryLine(emitter: string, date: string, amount: string, n: int)
    requires IsWord(emitter) && IsWord(date) && IsWord(amount)
    requires ParseInt(CleanAmount(amount)) == Some(n)
    ensures Classify(Join([emitter, date, amount])) == Entry(emitter, n)
  {
    SplitJoin([emitter, date, amount]);
  }

  /** A transaction line "emitter date amount" whose amount does not parse still names the emitter. */
  lemma BadAmountLine(emitter: string, date: string, amount: string)
    requires IsWord(emitter) && IsWord(date) && IsWord(amount)
    requires ParseInt(CleanAmount(amount)).None?
    ensures Classify(Join([emitter, date, amount])) == BadAmount(emitter, Strip(Join([emitter, date, amount])))
  {
    SplitJoin([emitter, date, amount]);
  }

  /**
   * A line "emitter date d…d" whose amount has more digits than `int`
   * accepts names the emitter, adds nothing and prints an invalid-amount
   * notice.
   */
  lemma OverlongAmountIsInvalid(emitter: string, date: string, digits: string)
    requires IsWord(emitter) && IsWord(date)
    requires |digits| > MAX_STR_DIGITS && forall i | 0 <= i < |digits| :: IsAsciiDigit(digits[i])
    ensures var line := Join([emitter, date, digits]);
      Aggregate([line]) == Record(emitter, 0) && Diagnostics([line]) == [InvalidAmount(Strip(line))]
  {
    var line := Join([emitter, date, digits]);
    assert IsWord(digits);
    CleanAmountOfPlainToken(digits);
    DigitCountOfDigits(digits);
    BadAmountLine(emitter, date, digits);
    SplitJoin([emitter, date, digits]);
    OneLine(line);
  }

  /** A line "emitter date str(n)€" is an entry of `n` for the emitter, or a bad amount past the limit. */
  lemma EuroAmountLine(emitter: string, date: string, n: int)
    requires IsWord(emitter) && IsWord(date)
    ensures var line := Join([emitter, date, ShowInt(n) + EURO]);
      Classify(line) == if Readable(n) then Entry(emitter, n) else BadAmount(emitter, Strip(line))
  {
    var digits, amount := ShowInt(n), ShowInt(n) + EURO;
    ShowIntChars(n);
    assert IsWord(amount) by {
      assert forall i | 0 <= i < |amount| :: amount[i] == if i < |digits| then digits[i] else EURO[0];
    }
    AmountWithEuro(n);
    if Readable(n) {
      EntryLine(emitter, date, amount, n);
    } else {
      BadAmountLine(emitter, date, amount);
    }
  }

  /** A line "emitter date str(n)â‚¬" is an entry of `n` for the emitter, or a bad amount past the limit. */
  lemma MisdecodedAmountLine(emitter: string, date: string, n: int)
    requires IsWord(emitter) && IsWord(date)
    ensures var line := Join([emitter, date, ShowInt(n) + MISDECODED_EURO]);
      Classify(line) == if Readable(n) then Entry(emitter, n) else BadAmount(emitter, Strip(line))
  {
    var digits, amount := ShowInt(n), ShowInt(n) + MISDECODED_EURO;
    ShowIntChars(n);
    assert IsWord(amount) by {
      assert forall i | 0 <= i < |amount| :: amount[i] == if i < |digits| then digits[i] else MISDECODED_EURO[i - |digits|];
    }
    AmountWithMisdecodedEuro(n);
    if Readable(n) {
      EntryLine(emitter, date, amount, n);
    } else {
      BadAmountLine(emitter, date, amount);
    }
  }

  /**
   * Two transactions, the second with a mis-decoded euro sign: the record
   * names the second emitter and sums both amounts that `int` reads.
   */
  lemma TwoTransactions(e1: string, d1: string, n1: int, e2: string, d2: string, n2: int)
    requires IsWord(e1) && IsWord(d1) && IsWord(e2) && IsWord(d2)
    ensures Aggregate([Join([e1, d1, ShowInt(n1) + EURO]), Join([e2, d2, ShowInt(n2) + MISDECODED_EURO])])
      == Record(e2, Counted(n1) + Counted(n2))
  {
    var l1, l2 := Join([e1, d1, ShowInt(n1) + EURO]), Join([e2, d2, ShowInt(n2) + MISDECODED_EURO]);
    EuroAmountLine(e1, d1, n1);
    MisdecodedAmountLine(e2, d2, n2);
    var k1, k2 := Classify(l1), Classify(l2);
    assert Kinds([l1, l2]) == [k1] + [k2];
    FoldStep([k1], k2);
    FoldStep([], k1);
    assert [] + [k1] == [k1];
  }

  /** `int` accepts a sign in front and single underscores between digits. */
  lemma IntAcceptsExamples()
    ensures ParseInt("1_000") == Some(1000)
    ensures ParseInt("-12") == Some(-12) && ParseInt("+7") == Some(7)
  {
    assert "1_0"[..2] == "1_" && "1_"[..1] == "1" && ParseDigits("1_0") == Some(10);
    assert "1_00"[..3] == "1_0" && ParseDigits("1_00") == Some(100);
    assert "1_000"[..4] == "1_00";
    assert "-12"[1..] == "12" && "12"[..1] == "1";
    assert ParseDigits("12") == Some(12);
    assert "+7"[1..] == "7";
  }

  /** `int` raises on an empty token, a bare sign, a letter, and misplaced underscores. */
  lemma IntRejectsExamples()
    ensures ParseInt("").None? && ParseInt("-").None? && ParseInt("12a").None?
    ensures ParseInt("1__0").None? && ParseInt("_1").None? && ParseInt("1_").None?
  {
    assert "1__0"[..3] == "1__" && "1__"[..2] == "1_";
    assert "_1"[..1] == "_";
  }

  /** `int` reads 4300 ones, and refuses 4301. */
  lemma IntDigitLimit()
    ensures ParseInt(seq(MAX_STR_DIGITS, _ => '1')).Some?
    ensures ParseInt(seq(MAX_STR_DIGITS + 1, _ => '1')).None?
  {
    ParseIntSpec(seq(MAX_STR_DIGITS, _ => '1'));
    DigitCountOfDigits(seq(MAX_STR_DIGITS + 1, _ => '1'));
  }

  /**
   * The JSON file for `dir/stem.txt` is `result_stem_<timestamp>.json` when
   * the stem has no "/" and no ".".
   */
  lemma ResultFileNameOfTxt(dir: string, stem: string, timestamp: string)
    requires '/' !in stem && '.' !in stem
    ensures ResultFileName(dir + "/" + stem + ".txt", timestamp) == "result_" + stem + "_" + timestamp + ".json"
  {
    assert dir + "/" + stem + ".txt" == dir + "/" + (stem + ".txt");
    BasenameOfJoin(dir, stem + ".txt");
    RemoveAllTrailing(stem, ".txt");
  }

  /** `replace(".txt", "")` removes every occurrence, left to right. */
  lemma DropEveryTxt()
    ensures RemoveAll("a.txt.txt", ".txt") == "a"
  {
    var name := "a.txt.txt";
    assert name[..4][0] != ".txt"[0];
    assert name[1..] == [] + ".txt" + ".txt";
    RemoveAllTrailing([], ".txt");
    assert (".txt" + ".txt")[..4] == ".txt" && (".txt" + ".txt")[4..] == ".txt";
  }

  /** Every ".txt" of the base name goes, not only the extension. */
  lemma ResultFileNameDropsEveryTxt(dir: string, timestamp: string)
    ensures ResultFileName(dir + "/" + "a.txt.txt", timestamp) == "result_" + "a" + "_" + timestamp + ".json"
  {
    BasenameOfJoin(dir, "a.txt.txt");
    DropEveryTxt();
  }
}
