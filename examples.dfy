/**
 * The acorn pattern of the parser's unit tests, read into an 80 x 60
 * universe: with Conway's rule named, with no rule line, with the custom rule
 * S125/B36, and with an illegal character in its block data.
 *
 * The lines are parameters fixed by a `requires`, so that the proofs work on
 * them one step at a time.
 */
module ParserExamples {
  import opened Wrappers
  import opened JavaText
  import opened Models
  import opened ParserService
  import opened ParserProperties

  /** A row of '.' and '*' decodes to the matching 0s and 1s. */
  lemma DecodeRowIs(line: string, cells: seq<int>)
    requires |cells| == |line|
    requires forall i :: 0 <= i < |line| ==>
               (line[i] == '.' && cells[i] == 0) || (line[i] == '*' && cells[i] == 1)
    ensures DecodeRow(line) == Ok(cells)
  {
    var r := DecodeRow(line);
    assert r.Ok?;
    assert |r.value| == |cells|;
    assert forall i :: 0 <= i < |line| ==> r.value[i] == cells[i];
    assert r.value == cells;
  }

  /** A data row that fits an 80 x 60 universe goes to the one block at (37, 31) whole. */
  lemma AcornRowStep(rules: Option<Rules>, cells: seq<seq<int>>, line: string, row: seq<int>)
    requires line != [] && line[0] != '#' && DecodeRow(line) == Ok(row)
    requires |row| <= 43 && 31 + |cells| < 60
    ensures Step(Acc(rules, [Block(Coord(37, 31), cells)]), line, 80, 60) ==
              Ok(Acc(rules, [Block(Coord(37, 31), cells + [row])]))
  {
    ClassifyData(line);
    var b := Block(Coord(37, 31), cells);
    var acc := Acc(rules, [b]);
    assert Step(acc, line, 80, 60) == AddData(acc, line, 80, 60);
    assert acc.blocks[..0] == [] && acc.blocks[0] == b;
    assert CropRow(row, 37, 80) == row;
    var b' := Block(Coord(37, 31), cells + [row]);
    assert AppendRow(b, line, 80, 60) == Ok(b');
    assert acc.blocks[..0] + [b'] == [b'];
  }

  /** The block the unit tests expect for the acorn: grid position (37, 31) and its three rows. */
  const AcornBlock: Block := Block(Coord(37, 31), [[0, 1], [0, 0, 0, 1], [1, 1, 0, 0, 1, 1, 1]])

  /** The acorn's rows fill the empty block placed at (37, 31), one row each. */
  lemma AcornData(rules: Option<Rules>, lines: seq<string>)
    requires lines == [".*", "...*", "**..***"]
    ensures Run(Acc(rules, [Block(Coord(37, 31), [])]), lines, 80, 60) == Ok(Acc(rules, [AcornBlock]))
  {
    var rows := AcornBlock.cells;
    var b0 := Block(Coord(37, 31), []);
    var b1 := Block(Coord(37, 31), rows[..1]);
    var b2 := Block(Coord(37, 31), rows[..2]);
    AcornRowsDecode(lines);
    AcornRowStep(rules, [], lines[0], rows[0]);
    AcornRowStep(rules, rows[..1], lines[1], rows[1]);
    AcornRowStep(rules, rows[..2], lines[2], rows[2]);
    assert [] + [rows[0]] == rows[..1] && rows[..1] + [rows[1]] == rows[..2] && rows[..2] + [rows[2]] == rows;
    assert lines[0..] == lines && lines[3..] == [];
    RunFrom(Acc(rules, [b0]), lines, 0, 80, 60);
    RunFrom(Acc(rules, [b1]), lines, 1, 80, 60);
    RunFrom(Acc(rules, [b2]), lines, 2, 80, 60);
  }

  /** The acorn's rows decode to the block's cells. */
  lemma AcornRowsDecode(lines: seq<string>)
    requires lines == [".*", "...*", "**..***"]
    ensures forall k :: 0 <= k < 3 ==> lines[k] != [] && lines[k][0] != '#' && DecodeRow(lines[k]) == Ok(AcornBlock.cells[k])
  {
    DecodeRowIs(lines[0], [0, 1]);
    DecodeRowIs(lines[1], [0, 0, 0, 1]);
    DecodeRowIs(lines[2], [1, 1, 0, 0, 1, 1, 1]);
  }

  /** `#P -3 -1` is a placement at grid position (37, 31) of an 80 x 60 universe. */
  lemma AcornCoord(line: string)
    requires line == "#P -3 -1"
    ensures Classify(line) == Placement && ParsePlacement(line, 80, 60) == Ok(Coord(37, 31))
  {
    StartsWithPrefix(line, "#Life");
    StartsWithPrefix(line, "#D");
    StartsWithPrefix(line, "#N");
    StartsWithPrefix(line, "#R");
    StartsWithPrefix(line, "#P");
    assert line[..2] == "#P";
    assert line[3..] == "-3" + [' '] + "-1";
    SplitTwo("-3", "-1", ' ');
    assert "-3"[1..] == "3" && "-1"[1..] == "1";
    assert "3"[..0] == [] && "1"[..0] == [];
    assert DecimalValue("3") == 3 && DecimalValue("1") == 1;
    assert ParseInt("-3") == Some(-3) && ParseInt("-1") == Some(-1);
  }

  /** `#P -3 -1` opens the acorn's block. */
  lemma AcornPlacement(rules: Option<Rules>, line: string)
    requires line == "#P -3 -1"
    ensures Step(Acc(rules, []), line, 80, 60) == Ok(Acc(rules, [Block(Coord(37, 31), [])]))
  {
    var start := Coord(37, 31);
    AcornCoord(line);
    PlacementStep(Acc(rules, []), line, 80, 60, start);
    assert ValidCoords(start.x, start.y, 80, 60);
    assert [] + [Block(start, [])] == [Block(start, [])];
  }

  /** The `#Life 1.06` header changes nothing. */
  lemma HeaderStep(acc: Acc, line: string)
    requires line == "#Life 1.06" && CurrentInside(acc, 80)
    ensures Step(acc, line, 80, 60) == Ok(acc)
  {
    assert line[..5] == "#Life";
    CommentStep(acc, line, 80, 60);
  }

  /** `#N` selects Conway's rule. */
  lemma ConwayStep(acc: Acc, line: string)
    requires line == "#N" && CurrentInside(acc, 80)
    ensures Step(acc, line, 80, 60) == Ok(acc.(rules := Some(Rules([2, 3], [3]))))
  {
    assert line == "#N" + [];
    StandardRuleStep(acc, [], 80, 60);
  }

  /** The acorn with Conway's rule named by `#N`. */
  lemma AcornConway(lines: seq<string>)
    requires lines == ["#Life 1.06", "#N", "#P -3 -1", ".*", "...*", "**..***"]
    ensures ParseLines(lines, 80, 60) == Ok(State(Rules([2, 3], [3]), [AcornBlock]))
  {
    var conway := Some(StandardConwayRules());
    assert lines[0..] == lines;
    HeaderStep(Acc(None, []), lines[0]);
    RunFrom(Acc(None, []), lines, 0, 80, 60);
    ConwayStep(Acc(None, []), lines[1]);
    RunFrom(Acc(None, []), lines, 1, 80, 60);
    AcornPlacement(conway, lines[2]);
    RunFrom(Acc(conway, []), lines, 2, 80, 60);
    AcornData(conway, lines[3..]);
  }

  /** The acorn with no rule line gets Conway's rule all the same. */
  lemma AcornNoRule(lines: seq<string>)
    requires lines == ["#Life 1.06", "#P -3 -1", ".*", "...*", "**..***"]
    ensures ParseLines(lines, 80, 60) == Ok(State(Rules([2, 3], [3]), [AcornBlock]))
  {
    assert lines[0..] == lines;
    HeaderStep(Acc(None, []), lines[0]);
    RunFrom(Acc(None, []), lines, 0, 80, 60);
    AcornPlacement(None, lines[1]);
    RunFrom(Acc(None, []), lines, 1, 80, 60);
    AcornData(None, lines[2..]);
  }

  /** `#R 125/36` gives survive counts 1, 2, 5 and birth counts 3, 6. */
  lemma CustomRuleStep(acc: Acc, line: string)
    requires line == "#R 125/36" && CurrentInside(acc, 80)
    ensures Step(acc, line, 80, 60) == Ok(acc.(rules := Some(Rules([1, 2, 5], [3, 6]))))
  {
    StartsWithPrefix(line, "#Life");
    StartsWithPrefix(line, "#D");
    StartsWithPrefix(line, "#N");
    StartsWithPrefix(line, "#R");
    assert line[..2] == "#R";
    assert line[3..] == "125" + ['/'] + "36";
    SplitTwo("125", "36", '/');
    assert NumericValues("125") == [1, 2, 5] && NumericValues("36") == [3, 6];
  }

  /** The acorn under the custom rule S125/B36. */
  lemma AcornCustomRule(lines: seq<string>)
    requires lines == ["#Life 1.06", "#R 125/36", "#P -3 -1", ".*", "...*", "**..***"]
    ensures ParseLines(lines, 80, 60) == Ok(State(Rules([1, 2, 5], [3, 6]), [AcornBlock]))
  {
    var custom := Some(Rules([1, 2, 5], [3, 6]));
    assert lines[0..] == lines;
    HeaderStep(Acc(None, []), lines[0]);
    RunFrom(Acc(None, []), lines, 0, 80, 60);
    CustomRuleStep(Acc(None, []), lines[1]);
    RunFrom(Acc(None, []), lines, 1, 80, 60);
    AcornPlacement(custom, lines[2]);
    RunFrom(Acc(custom, []), lines, 2, 80, 60);
    AcornData(custom, lines[3..]);
  }

  /** An 'o' in the acorn's first row is an InvalidLifFileException. */
  lemma AcornInvalidCharacter(lines: seq<string>)
    requires lines == ["#Life 1.06", "#P -3 -1", ".o", "...*", "**..***"]
    ensures ParseLines(lines, 80, 60) == Err(InvalidLifFile)
  {
    var placed := Acc(None, [Block(Coord(37, 31), [])]);
    assert lines[0..] == lines;
    HeaderStep(Acc(None, []), lines[0]);
    RunFrom(Acc(None, []), lines, 0, 80, 60);
    AcornPlacement(None, lines[1]);
    RunFrom(Acc(None, []), lines, 1, 80, 60);
    var bad := lines[2];
    assert bad[0] == '.' && bad[1] == 'o';
    ClassifyData(bad);
    InvalidCharacterFails(placed, bad, 80, 60, 1);
    RunFrom(placed, lines, 2, 80, 60);
  }

  // ---------------------------------------------------------------------------
  // Malformed and unusual placements

  /** A letter where x belongs is a NumberFormatException. */
  lemma PlacementLetterX(line: string)
    requires line == "#P a 1"
    ensures ParsePlacement(line, 80, 60) == Err(NumberFormat)
  {
    assert line == "#P" + [' '] + "a" + " " + "1";
    assert !IsDigit("a"[0]);
    PlacementNotANumber(' ', "a", "1", 80, 60);
  }

  /** A sign without digits where y belongs is a NumberFormatException, raised after x is read. */
  lemma PlacementBareSignY(line: string)
    requires line == "#P 1 -"
    ensures ParsePlacement(line, 80, 60) == Err(NumberFormat)
  {
    assert line == "#P" + [' '] + "1" + " " + "-";
    assert "-"[1..] == [];
    PlacementNotANumber(' ', "1", "-", 80, 60);
  }

  /** x alone: it is read, then `splits[1]` is out of bounds. */
  lemma PlacementOnlyX(line: string)
    requires line == "#P 7"
    ensures ParsePlacement(line, 80, 60) == Err(IndexOutOfBounds)
  {
    assert ShowInt(7) == "7";
    assert line == "#P" + [' '] + ShowInt(7);
    PlacementMissingY(' ', 7, 80, 60);
  }

  /** Words after the second coordinate are ignored. */
  lemma PlacementExtraWords(line: string)
    requires line == "#P 0 1 2"
    ensures ParsePlacement(line, 80, 60) == Ok(Coord(40, 29))
  {
    var args := "0" + [' '] + ("1" + [' '] + "2");
    assert line[3..] == args;
    PlacementArguments(line, args, 80, 60);
    SplitThreeWords(args);
    assert "0"[..0] == [] && "1"[..0] == [];
    assert DecimalValue("0") == 0 && DecimalValue("1") == 1;
    PlacementFromTwo(["0", "1", "2"], 0, 1, 80, 60);
  }

  lemma SplitThreeWords(args: string)
    requires args == "0" + [' '] + ("1" + [' '] + "2")
    ensures Split(args, ' ') == ["0", "1", "2"]
  {
    PiecesOfPlain("2", ' ');
    PiecesOfPrefixed("1", "2", ' ');
    PiecesOfPrefixed("0", "1" + [' '] + "2", ' ');
    assert args[1] == ' ';
  }

  // ---------------------------------------------------------------------------
  // Where the code is stricter or looser than a reader might expect

  /** The character after `#R` is skipped whatever it is: in `#R2/3` it is the 2, so no survive count is left. */
  lemma RuleWithoutSpace(line: string)
    requires line == "#R2/3"
    ensures ParseRuleDirective(line) == Ok(Rules([], [3]))
  {
    var args := [] + ['/'] + "3";
    assert line[3..] == args;
    assert Substring(line, 3) == Some(args);
    SplitTwo([], "3", '/');
    assert NumericValues([]) == [] && NumericValues("3") == [3];
  }

  /** The integers of the two corner placements. */
  lemma CornerIntegers()
    ensures ParseInt("-40") == Some(-40) && ParseInt("30") == Some(30) && ParseInt("-30") == Some(-30)
  {
    assert "40"[..1] == "4" && "4"[..0] == [] && "30"[..1] == "3" && "3"[..0] == [];
    assert DecimalValue("40") == 40 && DecimalValue("30") == 30;
    assert "-40"[1..] == "40" && "-30"[1..] == "30";
  }

  /** `#P -40 30` is the top-left corner of an 80 x 60 universe. */
  lemma TopLeftPlacement(line: string)
    requires line == "#P -40 30"
    ensures ParsePlacement(line, 80, 60) == Ok(Coord(0, 0))
  {
    CornerIntegers();
    assert line[3..] == "-40" + [' '] + "30";
    PlacementArguments(line, "-40" + [' '] + "30", 80, 60);
    SplitTwo("-40", "30", ' ');
    PlacementFromTwo(["-40", "30"], -40, 30, 80, 60);
  }

  /** `#P -40 -30` lands on row 60, just below an 80 x 60 universe, so no block is opened. */
  lemma BelowPlacement(line: string)
    requires line == "#P -40 -30"
    ensures ParsePlacement(line, 80, 60) == Ok(Coord(0, 60)) && !ValidCoords(0, 60, 80, 60)
  {
    CornerIntegers();
    assert line[3..] == "-40" + [' '] + "-30";
    PlacementArguments(line, "-40" + [' '] + "-30", 80, 60);
    SplitTwo("-40", "-30", ' ');
    PlacementFromTwo(["-40", "-30"], -40, -30, 80, 60);
  }
}
