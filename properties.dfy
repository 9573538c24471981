/**
 * What ParserService.parse guarantees about the rules and blocks it returns,
 * proved about the line-by-line fold `Run` that the imperative `Parse` is
 * proved equal to.
 */
module ParserProperties {
  import opened Wrappers
  import opened JavaText
  import opened Models
  import opened ParserService

  // ---------------------------------------------------------------------------
  // The fold over lines

  /** Parsing a file in two parts: the second part starts from the state the first part ends in. */
  lemma {:induction false} RunAppend(acc: Acc, xs: seq<string>, ys: seq<string>, cols: int, rows: int)
    requires CurrentInside(acc, cols)
    ensures Run(acc, xs + ys, cols, rows) ==
              match Run(acc, xs, cols, rows)
              case Err(e) => Err(e)
              case Ok(mid) => Run(mid, ys, cols, rows)
    decreases |xs|
  {
    if xs != [] {
      assert (xs + ys)[0] == xs[0] && (xs + ys)[1..] == xs[1..] + ys;
      match Step(acc, xs[0], cols, rows)
      case Err(e) =>
      case Ok(next) => RunAppend(next, xs[1..], ys, cols, rows);
    } else {
      assert xs + ys == ys;
    }
  }

  // ---------------------------------------------------------------------------
  // Rules

  /** A line that sets the rules: `#N` or `#R`. */
  predicate IsRuleLine(line: string) {
    Classify(line) == StandardRule || Classify(line) == CustomRule
  }

  /** Lines that are neither `#N` nor `#R` leave the rules as they are. */
  lemma {:induction false} RunKeepsRules(acc: Acc, lines: seq<string>, cols: int, rows: int)
    requires CurrentInside(acc, cols)
    requires forall i :: 0 <= i < |lines| ==> !IsRuleLine(lines[i])
    ensures Run(acc, lines, cols, rows).Ok? ==> Run(acc, lines, cols, rows).value.rules == acc.rules
    decreases |lines|
  {
    if lines != [] {
      assert !IsRuleLine(lines[0]);
      match Step(acc, lines[0], cols, rows)
      case Err(e) =>
      case Ok(next) =>
        assert next.rules == acc.rules;
        RunKeepsRules(next, lines[1..], cols, rows);
    }
  }

  /** A file without `#N` and `#R` lines is given Conway's rule B3/S23. */
  lemma DefaultRules(lines: seq<string>, cols: int, rows: int)
    requires forall i :: 0 <= i < |lines| ==> !IsRuleLine(lines[i])
    ensures ParseLines(lines, cols, rows).Ok? ==>
              ParseLines(lines, cols, rows).value.rules == Rules([2, 3], [3])
  {
    RunKeepsRules(Acc(None, []), lines, cols, rows);
  }

  /**
   * Of several `#N` and `#R` directives the last one wins: when no rule line
   * follows it, the rules it sets (Conway's for `#N`, the parsed ones for
   * `#R`) are the rules of the result.
   */
  lemma LastRuleWins(xs: seq<string>, line: string, ys: seq<string>, cols: int, rows: int, rules: Rules)
    requires IsRuleLine(line)
    requires Classify(line) == StandardRule ==> rules == StandardConwayRules()
    requires Classify(line) == CustomRule ==> ParseRuleDirective(line) == Ok(rules)
    requires forall i :: 0 <= i < |ys| ==> !IsRuleLine(ys[i])
    ensures ParseLines(xs + [line] + ys, cols, rows).Ok? ==>
              ParseLines(xs + [line] + ys, cols, rows).value.rules == rules
  {
    var start := Acc(None, []);
    RunAppend(start, xs + [line], ys, cols, rows);
    RunAppend(start, xs, [line], cols, rows);
    match Run(start, xs, cols, rows)
    case Err(e) =>
    case Ok(mid) =>
      assert Run(mid, [line], cols, rows) == Ok(mid.(rules := Some(rules)));
      RunKeepsRules(mid.(rules := Some(rules)), ys, cols, rows);
  }

  // ---------------------------------------------------------------------------
  // Blocks stay inside the universe

  /** One line keeps every block inside the universe. */
  lemma StepPreservesFit(acc: Acc, line: string, cols: int, rows: int)
    requires CurrentInside(acc, cols) && AllFit(acc.blocks, cols, rows)
    ensures Step(acc, line, cols, rows).Ok? ==> AllFit(Step(acc, line, cols, rows).value.blocks, cols, rows)
  {
    if Classify(line) == Data && acc.blocks != [] {
      var last := |acc.blocks| - 1;
      assert BlockFits(acc.blocks[last], cols, rows);
      match AppendRow(acc.blocks[last], line, cols, rows)
      case Err(e) =>
      case Ok(b) =>
        forall blk | blk in acc.blocks[..last] + [b] ensures BlockFits(blk, cols, rows) {
          if blk in acc.blocks[..last] {
            assert blk in acc.blocks;
          }
        }
    }
  }

  /** Every block the parse returns starts inside the universe, and its rows neither run past the bottom nor past the right edge; every cell is 0 or 1. */
  lemma {:induction false} RunPreservesFit(acc: Acc, lines: seq<string>, cols: int, rows: int)
    requires CurrentInside(acc, cols) && AllFit(acc.blocks, cols, rows)
    ensures Run(acc, lines, cols, rows).Ok? ==> AllFit(Run(acc, lines, cols, rows).value.blocks, cols, rows)
    decreases |lines|
  {
    if lines != [] {
      StepPreservesFit(acc, lines[0], cols, rows);
      match Step(acc, lines[0], cols, rows)
      case Err(e) =>
      case Ok(next) => RunPreservesFit(next, lines[1..], cols, rows);
    }
  }

  lemma ParsedBlocksFit(lines: seq<string>, cols: int, rows: int)
    ensures ParseLines(lines, cols, rows).Ok? ==> AllFit(ParseLines(lines, cols, rows).value.blocks, cols, rows)
  {
    RunPreservesFit(Acc(None, []), lines, cols, rows);
  }

  // ---------------------------------------------------------------------------
  // How the block list grows

  /**
   * `bs'` is a later state of the block list `bs`: blocks are only appended,
   * no block moves, and only the current (last) block of `bs` may have gained
   * rows, at its end.
   */
  predicate Extends(bs: seq<Block>, bs': seq<Block>) {
    && |bs| <= |bs'|
    && (forall i :: 0 <= i < |bs| ==> bs'[i].start == bs[i].start && bs[i].cells <= bs'[i].cells)
    && (forall i :: 0 <= i < |bs| - 1 ==> bs'[i] == bs[i])
  }

  lemma StepExtends(acc: Acc, line: string, cols: int, rows: int)
    requires CurrentInside(acc, cols)
    ensures Step(acc, line, cols, rows).Ok? ==> Extends(acc.blocks, Step(acc, line, cols, rows).value.blocks)
  {
  }

  /** Over any run of lines the block list only grows: earlier blocks never change once a later one is placed. */
  lemma {:induction false} RunExtends(acc: Acc, lines: seq<string>, cols: int, rows: int)
    requires CurrentInside(acc, cols)
    ensures Run(acc, lines, cols, rows).Ok? ==> Extends(acc.blocks, Run(acc, lines, cols, rows).value.blocks)
    decreases |lines|
  {
    if lines != [] {
      StepExtends(acc, lines[0], cols, rows);
      match Step(acc, lines[0], cols, rows)
      case Err(e) =>
      case Ok(next) =>
        RunExtends(next, lines[1..], cols, rows);
        match Run(next, lines[1..], cols, rows)
        case Err(e) =>
        case Ok(fin) =>
          forall i | 0 <= i < |acc.blocks|
            ensures fin.blocks[i].start == acc.blocks[i].start && acc.blocks[i].cells <= fin.blocks[i].cells
          {
            assert next.blocks[i].start == acc.blocks[i].start;
          }
    }
  }

  /** A `#P` line that parses to a position inside the universe. */
  predicate OpensBlock(line: string, cols: int, rows: int) {
    && Classify(line) == Placement
    && ParsePlacement(line, cols, rows).Ok?
    && var c := ParsePlacement(line, cols, rows).value;
       ValidCoords(c.x, c.y, cols, rows)
  }

  /** The number of lines that open a block. */
  function Placements(lines: seq<string>, cols: int, rows: int): nat {
    if lines == [] then 0
    else (if OpensBlock(lines[0], cols, rows) then 1 else 0) + Placements(lines[1..], cols, rows)
  }

  /** A successful run adds exactly one block per `#P` line inside the universe; the others are skipped. */
  lemma {:induction false} RunCountsBlocks(acc: Acc, lines: seq<string>, cols: int, rows: int)
    requires CurrentInside(acc, cols)
    ensures Run(acc, lines, cols, rows).Ok? ==>
              |Run(acc, lines, cols, rows).value.blocks| == |acc.blocks| + Placements(lines, cols, rows)
    decreases |lines|
  {
    if lines != [] {
      match Step(acc, lines[0], cols, rows)
      case Err(e) =>
      case Ok(next) =>
        assert |next.blocks| == |acc.blocks| + (if OpensBlock(lines[0], cols, rows) then 1 else 0);
        RunCountsBlocks(next, lines[1..], cols, rows);
    }
  }

  lemma ParsedBlockCount(lines: seq<string>, cols: int, rows: int)
    ensures ParseLines(lines, cols, rows).Ok? ==>
              |ParseLines(lines, cols, rows).value.blocks| == Placements(lines, cols, rows)
  {
    RunCountsBlocks(Acc(None, []), lines, cols, rows);
  }

  // ---------------------------------------------------------------------------
  // Directives

  /** Every line that starts with `#Life` or `#D` is a header or comment. */
  lemma ClassifyComment(line: string)
    requires (|line| >= 5 && line[..5] == "#Life") || (|line| >= 2 && line[..2] == "#D")
    ensures Classify(line) == Comment
  {
    StartsWithPrefix(line, "#Life");
    StartsWithPrefix(line, "#D");
  }

  /** A header or comment line changes neither the rules nor the blocks. */
  lemma CommentStep(acc: Acc, line: string, cols: int, rows: int)
    requires (|line| >= 5 && line[..5] == "#Life") || (|line| >= 2 && line[..2] == "#D")
    requires CurrentInside(acc, cols)
    ensures Step(acc, line, cols, rows) == Ok(acc)
  {
    ClassifyComment(line);
  }

  /** Every line that starts with `#N`, followed by anything, selects Conway's rule. */
  lemma ClassifyStandardRule(rest: string)
    ensures Classify("#N" + rest) == StandardRule
  {
    var line := "#N" + rest;
    StartsWithPrefix(line, "#Life");
    StartsWithPrefix(line, "#D");
    StartsWithPrefix(line, "#N");
    assert line[..2] == "#N";
  }

  /** `#N`, followed by anything, sets the rules to B3/S23 and leaves the blocks alone. */
  lemma StandardRuleStep(acc: Acc, rest: string, cols: int, rows: int)
    requires CurrentInside(acc, cols)
    ensures Step(acc, "#N" + rest, cols, rows) == Ok(acc.(rules := Some(Rules([2, 3], [3]))))
  {
    ClassifyStandardRule(rest);
  }

  /** Every line that starts with `#R`, followed by anything, is a custom rule directive. */
  lemma ClassifyRule(rest: string)
    ensures Classify("#R" + rest) == CustomRule
  {
    var line := "#R" + rest;
    StartsWithPrefix(line, "#Life");
    StartsWithPrefix(line, "#D");
    StartsWithPrefix(line, "#N");
    StartsWithPrefix(line, "#R");
    assert line[..2] == "#R";
  }

  /** Every line that starts with `#P`, followed by anything, is a placement. */
  lemma ClassifyPlacement(rest: string)
    ensures Classify("#P" + rest) == Placement
  {
    var line := "#P" + rest;
    StartsWithPrefix(line, "#Life");
    StartsWithPrefix(line, "#D");
    StartsWithPrefix(line, "#N");
    StartsWithPrefix(line, "#R");
    StartsWithPrefix(line, "#P");
    assert line[..2] == "#P";
  }

  /** A line that does not start with '#' is block data. */
  lemma ClassifyData(line: string)
    requires line == [] || line[0] != '#'
    ensures Classify(line) == Data
  {
    StartsWithPrefix(line, "#Life");
    StartsWithPrefix(line, "#D");
    StartsWithPrefix(line, "#N");
    StartsWithPrefix(line, "#R");
    StartsWithPrefix(line, "#P");
  }

  /**
   * `#R` followed by one separator character and `a/b` of decimal digits:
   * the survive counts are the digits of a and the birth counts those of b,
   * in order.
   */
  lemma RuleDirectiveDigits(c: char, a: string, b: string)
    requires AllDigits(a) && AllDigits(b) && b != []
    ensures var r := ParseRuleDirective("#R" + [c] + a + "/" + b);
            && r.Ok?
            && |r.value.toSurvive| == |a| && |r.value.toComeAlive| == |b|
            && (forall i :: 0 <= i < |a| ==> r.value.toSurvive[i] == a[i] as int - '0' as int)
            && (forall i :: 0 <= i < |b| ==> r.value.toComeAlive[i] == b[i] as int - '0' as int)
  {
    var line := "#R" + [c] + a + "/" + b;
    assert '/' !in a by { assert forall i :: 0 <= i < |a| ==> a[i] != '/'; }
    assert '/' !in b by { assert forall i :: 0 <= i < |b| ==> b[i] != '/'; }
    assert line[3..] == a + ['/'] + b;
    SplitTwo(a, b, '/');
  }

  /**
   * An `#R` directive needs a '/' with birth counts after it: with no '/' at
   * all, or nothing after the only '/', `splits[1]` is out of bounds; a line
   * of two characters already fails in `substring(3)`.
   */
  lemma RuleDirectiveNeedsBirthCounts(c: char, a: string)
    requires '/' !in a
    ensures ParseRuleDirective("#R") == Err(IndexOutOfBounds)
    ensures ParseRuleDirective("#R" + [c] + a) == Err(IndexOutOfBounds)
    ensures ParseRuleDirective("#R" + [c] + a + "/") == Err(IndexOutOfBounds)
  {
    assert ("#R" + [c] + a)[3..] == a;
    assert ("#R" + [c] + a + "/")[3..] == a + ['/'];
    SplitTrailingSeparator(a, '/');
  }

  /**
   * `#P x y` with 32-bit integers written as Java writes them: the block is
   * placed at column x + cols/2 and row -y + rows/2, both divisions
   * truncating, so the file's origin is the universe's centre and its y axis
   * points up.
   */
  lemma PlacementTransform(c: char, px: int, py: int, cols: int, rows: int)
    requires MinInt <= px <= MaxInt && MinInt <= py <= MaxInt
    ensures ParsePlacement("#P" + [c] + ShowInt(px) + " " + ShowInt(py), cols, rows) ==
              Ok(Coord(px + Half(cols), -py + Half(rows)))
  {
    var a, b := ShowInt(px), ShowInt(py);
    var line := "#P" + [c] + a + " " + b;
    assert line[3..] == a + [' '] + b;
    PlacementArguments(line, a + [' '] + b, cols, rows);
    SplitTwo(a, b, ' ');
    ParseIntShowInt(px);
    ParseIntShowInt(py);
    PlacementFromTwo([a, b], px, py, cols, rows);
  }

  /** A `#P` line of at least three characters is decided by the words after its third character. */
  lemma PlacementArguments(line: string, args: string, cols: int, rows: int)
    requires |line| >= 3 && line[3..] == args
    ensures ParsePlacement(line, cols, rows) == PlacementFromSplits(Split(args, ' '), cols, rows)
  {
  }

  /** Two first words that parse as integers give the block's grid position; any further words are ignored. */
  lemma PlacementFromTwo(splits: seq<string>, px: int, py: int, cols: int, rows: int)
    requires |splits| >= 2 && ParseInt(splits[0]) == Some(px) && ParseInt(splits[1]) == Some(py)
    ensures PlacementFromSplits(splits, cols, rows) == Ok(Coord(px + Half(cols), -py + Half(rows)))
  {
  }

  /** `#P x` without a y coordinate: x is read first, then `splits[1]` is out of bounds. */
  lemma PlacementMissingY(c: char, px: int, cols: int, rows: int)
    requires MinInt <= px <= MaxInt
    ensures ParsePlacement("#P" + [c] + ShowInt(px), cols, rows) == Err(IndexOutOfBounds)
  {
    var line := "#P" + [c] + ShowInt(px);
    assert line[3..] == ShowInt(px);
    PlacementArguments(line, ShowInt(px), cols, rows);
    ParseIntShowInt(px);
    assert PlacementFromSplits([ShowInt(px)], cols, rows) == Err(IndexOutOfBounds);
  }

  /** A coordinate that is not a decimal integer is a NumberFormatException, whichever of the two it is. */
  lemma PlacementNotANumber(c: char, a: string, b: string, cols: int, rows: int)
    requires ' ' !in a && ' ' !in b && b != []
    requires ParseInt(a).None? || ParseInt(b).None?
    ensures ParsePlacement("#P" + [c] + a + " " + b, cols, rows) == Err(NumberFormat)
  {
    var line := "#P" + [c] + a + " " + b;
    assert line[3..] == a + [' '] + b;
    PlacementArguments(line, a + [' '] + b, cols, rows);
    SplitTwo(a, b, ' ');
  }

  /** parseInt rejects a positive decimal number beyond 32 bits. */
  lemma ParseIntOverflow(n: nat)
    requires n > MaxInt
    ensures ParseInt(ShowNat(n)) == None
  {
    DecimalValueShowNat(n);
    var s := ShowNat(n);
    assert IsDigit(s[0]);
  }

  /** parseInt rejects a negative decimal number beyond 32 bits. */
  lemma ParseIntUnderflow(n: nat)
    requires n > -MinInt
    ensures ParseInt("-" + ShowNat(n)) == None
  {
    DecimalValueShowNat(n);
    assert ("-" + ShowNat(n))[1..] == ShowNat(n);
  }

  /** `#P` alone fails in `substring(3)`. */
  lemma PlacementTooShort(cols: int, rows: int)
    ensures ParsePlacement("#P", cols, rows) == Err(IndexOutOfBounds)
  {
  }

  // ---------------------------------------------------------------------------
  // One line at a time

  /** A placement opens a new, empty block, which becomes the current one, exactly when it lands inside the universe; otherwise nothing changes. */
  lemma PlacementStep(acc: Acc, line: string, cols: int, rows: int, c: Coord)
    requires CurrentInside(acc, cols)
    requires Classify(line) == Placement && ParsePlacement(line, cols, rows) == Ok(c)
    ensures Step(acc, line, cols, rows) ==
              Ok(if ValidCoords(c.x, c.y, cols, rows) then acc.(blocks := acc.blocks + [Block(c, [])]) else acc)
  {
  }

  /** Block data before any placement is ignored, whatever its characters. */
  lemma DataBeforePlacementIgnored(acc: Acc, line: string, cols: int, rows: int)
    requires Classify(line) == Data && acc.blocks == []
    ensures Step(acc, line, cols, rows) == Ok(acc)
  {
  }

  /** Once the current block reaches the bottom of the universe its further rows are skipped without being decoded. */
  lemma FullBlockSkipsData(acc: Acc, line: string, cols: int, rows: int)
    requires Classify(line) == Data && acc.blocks != [] && CurrentInside(acc, cols)
    requires var b := acc.blocks[|acc.blocks| - 1]; b.start.y + |b.cells| >= rows
    ensures Step(acc, line, cols, rows) == Ok(acc)
  {
    var last := |acc.blocks| - 1;
    assert acc.blocks[..last] + [acc.blocks[last]] == acc.blocks;
  }

  /** A row the current block has room for is decoded; an illegal character in it is an InvalidLifFileException. */
  lemma InvalidCharacterFails(acc: Acc, line: string, cols: int, rows: int, i: int)
    requires Classify(line) == Data && acc.blocks != [] && CurrentInside(acc, cols)
    requires var b := acc.blocks[|acc.blocks| - 1]; b.start.y + |b.cells| < rows
    requires 0 <= i < |line| && line[i] != '.' && line[i] != '*'
    ensures Step(acc, line, cols, rows) == Err(InvalidLifFile)
  {
  }

  /** A well-formed row the current block has room for is appended to it, cropped at the right edge; no other block changes. */
  lemma DataRowAppended(acc: Acc, line: string, cols: int, rows: int)
    requires Classify(line) == Data && acc.blocks != [] && CurrentInside(acc, cols)
    requires var b := acc.blocks[|acc.blocks| - 1]; b.start.y + |b.cells| < rows
    requires forall i :: 0 <= i < |line| ==> line[i] == '.' || line[i] == '*'
    ensures var last := |acc.blocks| - 1;
            var b := acc.blocks[last];
            var width := if |line| <= cols - b.start.x then |line| else cols - b.start.x;
            && Step(acc, line, cols, rows).Ok?
            && var next := Step(acc, line, cols, rows).value;
            && next.rules == acc.rules
            && next.blocks[..last] == acc.blocks[..last]
            && |next.blocks| == |acc.blocks|
            && next.blocks[last].start == b.start
            && next.blocks[last].cells[..|b.cells|] == b.cells
            && |next.blocks[last].cells| == |b.cells| + 1
            && |next.blocks[last].cells[|b.cells|]| == width
            && forall j :: 0 <= j < width ==>
                 next.blocks[last].cells[|b.cells|][j] == if line[j] == '*' then 1 else 0
  {
    var last := |acc.blocks| - 1;
    var b := acc.blocks[last];
    var row := DecodeRow(line).value;
    var cropped := CropRow(row, b.start.x, cols);
    assert (b.cells + [cropped])[..|b.cells|] == b.cells;
    forall j | 0 <= j < |cropped| ensures cropped[j] == if line[j] == '*' then 1 else 0 {
      assert cropped[j] == row[j];
    }
  }

  /** An illegal character in a row the current block has room for ends the whole parse with InvalidLifFileException, whatever follows. */
  lemma InvalidCharacterFailsParse(xs: seq<string>, line: string, ys: seq<string>, cols: int, rows: int, i: int)
    requires Run(Acc(None, []), xs, cols, rows).Ok?
    requires var acc := Run(Acc(None, []), xs, cols, rows).value;
             && acc.blocks != []
             && var b := acc.blocks[|acc.blocks| - 1]; b.start.y + |b.cells| < rows
    requires Classify(line) == Data && 0 <= i < |line| && line[i] != '.' && line[i] != '*'
    ensures ParseLines(xs + [line] + ys, cols, rows) == Err(InvalidLifFile)
  {
    var start := Acc(None, []);
    var mid := Run(start, xs, cols, rows).value;
    RunAppend(start, xs + [line], ys, cols, rows);
    RunAppend(start, xs, [line], cols, rows);
    InvalidCharacterFails(mid, line, cols, rows, i);
    assert Run(mid, [line], cols, rows) == Err(InvalidLifFile);
  }

  /**
   * A `#P` outside the universe does not change currentBlock: the data lines
   * after it go on filling the block placed before it, exactly as if the
   * `#P` line were absent.
   */
  lemma SkippedPlacementKeepsCurrentBlock(acc: Acc, line: string, rest: seq<string>, cols: int, rows: int, c: Coord)
    requires CurrentInside(acc, cols)
    requires Classify(line) == Placement && ParsePlacement(line, cols, rows) == Ok(c)
    requires !ValidCoords(c.x, c.y, cols, rows)
    ensures Run(acc, [line] + rest, cols, rows) == Run(acc, rest, cols, rows)
  {
    PlacementStep(acc, line, cols, rows, c);
    assert ([line] + rest)[0] == line && ([line] + rest)[1..] == rest;
  }

  // ---------------------------------------------------------------------------
  // 32-bit arithmetic

  /** A Java int operation's result: the mathematical one taken modulo 2^32 into [MinInt, MaxInt]. */
  function Wrap32(n: int): (w: int)
    ensures MinInt <= w <= MaxInt
    ensures MinInt <= n <= MaxInt ==> w == n
  {
    (n - MinInt) % 0x1_0000_0000 + MinInt
  }

  /**
   * The model computes a placement's grid position with unbounded integers;
   * Java computes `parseInt(x) + cols / 2` and `-parseInt(y) + rows / 2` in
   * 32 bits, where the negation of MinInt and both additions can wrap. For
   * every 32-bit input the two agree on whether the block is inside the
   * universe, and where it is inside they compute the same position.
   */
  lemma JavaArithmeticAgrees(px: int, py: int, cols: int, rows: int)
    requires MinInt <= px <= MaxInt && MinInt <= py <= MaxInt
    requires MinInt <= cols <= MaxInt && MinInt <= rows <= MaxInt
    ensures var x, y := px + Half(cols), -py + Half(rows);
            var jx, jy := Wrap32(px + Half(cols)), Wrap32(Wrap32(-py) + Half(rows));
            && (ValidCoords(jx, jy, cols, rows) <==> ValidCoords(x, y, cols, rows))
            && (ValidCoords(x, y, cols, rows) ==> jx == x && jy == y)
  {
    var x, y := px + Half(cols), -py + Half(rows);
    var jx, jy := Wrap32(x), Wrap32(Wrap32(-py) + Half(rows));
    if x > MaxInt {
      assert jx == x - 0x1_0000_0000;
    } else if x < MinInt {
      assert jx == x + 0x1_0000_0000;
    }
    if py == MinInt {
      assert Wrap32(-py) == MinInt;
    }
    var ny := Wrap32(-py) + Half(rows);
    if ny > MaxInt {
      assert jy == ny - 0x1_0000_0000;
    } else if ny < MinInt {
      assert jy == ny + 0x1_0000_0000;
    }
  }
}
