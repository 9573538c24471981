/**
 * ParserService: reads a Life 1.06 file, given as its lines, into the rules
 * and the blocks placed on a universe of `universeCols` columns and
 * `universeRows` rows.
 *
 * The pure steps of the parse (rule digits, placement coordinates, decoding
 * and cropping a data row) are functions. `Run` folds one line at a time over
 * an `Acc` of the running rules and blocks; it is the reference the imperative
 * `Parse` method is proved against. `Parse` keeps the source's own running
 * state: the rules, a list of mutable block objects and `currentBlock`, an
 * alias of the last of them through which rows are appended.
 */
module ParserService {
  import opened Wrappers
  import opened JavaText
  import opened Models

  /** Conway's rule B3/S23: survive with 2 or 3 neighbours, come alive with 3. */
  function StandardConwayRules(): Rules {
    Rules([2, 3], [3])
  }

  /** A grid coordinate lies inside the universe. */
  predicate ValidCoords(x: int, y: int, cols: int, rows: int) {
    0 <= x < cols && 0 <= y < rows
  }

  /** One character of block data: '.' is a dead cell, '*' a live one, anything else is rejected. */
  function DecodeCell(c: char): (r: Result<int, Failure>)
    ensures r.Ok? <==> c == '.' || c == '*'
    ensures r.Ok? ==> r.value == (if c == '*' then 1 else 0)
    ensures r.Err? ==> r.error == InvalidLifFile
  {
    match c
    case '.' => Ok(0)
    case '*' => Ok(1)
    case _ => Err(InvalidLifFile)
  }

  /** A whole data row, character by character; the first illegal character fails the row. */
  function DecodeRow(line: string): (r: Result<seq<int>, Failure>)
    ensures r.Ok? <==> forall i :: 0 <= i < |line| ==> line[i] == '.' || line[i] == '*'
    ensures r.Err? ==> r.error == InvalidLifFile
    ensures r.Ok? ==> |r.value| == |line|
    ensures r.Ok? ==> forall i :: 0 <= i < |line| ==> r.value[i] == (if line[i] == '*' then 1 else 0)
  {
    if line == [] then Ok([])
    else
      match DecodeCell(line[0])
      case Err(e) => Err(e)
      case Ok(cell) =>
        match DecodeRow(line[1..])
        case Err(e) => Err(e)
        case Ok(rest) => Ok([cell] + rest)
  }

  /** The horizontal crop of a row for a block whose left edge is column x. */
  function CropRow(row: seq<int>, x: int, cols: int): (r: seq<int>)
    requires x <= cols
    ensures r <= row
    ensures |r| == if |row| <= cols - x then |row| else cols - x
  {
    if x + |row| > cols then Limit(row, cols - x) else row
  }

  /** Character.getNumericValue of every character, in order. */
  function NumericValues(s: string): seq<int> {
    seq(|s|, i requires 0 <= i < |s| => NumericValue(s[i]))
  }

  /**
   * The `#R` branch: the arguments start at the fourth character and are split
   * at '/'; the first piece gives the survive counts, the second the birth
   * counts. A missing piece is an out-of-bounds array access.
   */
  function ParseRuleDirective(line: string): (r: Result<Rules, Failure>)
    ensures r.Ok? ==> |line| >= 3
    ensures r.Err? ==> r.error == IndexOutOfBounds
  {
    match Substring(line, 3)
    case None => Err(IndexOutOfBounds)
    case Some(args) =>
      var splits := Split(args, '/');
      if |splits| < 2 then Err(IndexOutOfBounds)
      else Ok(Rules(NumericValues(splits[0]), NumericValues(splits[1])))
  }

  /**
   * The `#P` branch: the arguments start at the fourth character and are split
   * at ' '.
   */
  function ParsePlacement(line: string, cols: int, rows: int): (r: Result<Coord, Failure>)
    ensures r.Ok? ==> |line| >= 3
    ensures r.Err? ==> r.error != InvalidLifFile
    ensures |line| < 3 ==> r == Err(IndexOutOfBounds)
  {
    match Substring(line, 3)
    case None => Err(IndexOutOfBounds)
    case Some(args) => PlacementFromSplits(Split(args, ' '), cols, rows)
  }

  /**
   * The two integers of a `#P` directive are file coordinates (centred, y up)
   * and are moved to grid coordinates (top left, y down). Java evaluates
   * splits[0], its parseInt, splits[1] and its parseInt in that order, so the
   * first failure among them decides the exception.
   */
  function PlacementFromSplits(splits: seq<string>, cols: int, rows: int): (r: Result<Coord, Failure>)
    ensures r.Err? ==> r.error != InvalidLifFile
    ensures r.Ok? ==> |splits| >= 2 && ParseInt(splits[0]).Some? && ParseInt(splits[1]).Some?
  {
    if |splits| < 1 then Err(IndexOutOfBounds)
    else
      match ParseInt(splits[0])
      case None => Err(NumberFormat)
      case Some(px) =>
        if |splits| < 2 then Err(IndexOutOfBounds)
        else
          match ParseInt(splits[1])
          case None => Err(NumberFormat)
          case Some(py) => Ok(Coord(px + Half(cols), -py + Half(rows)))
  }

  /** The kinds of line, told apart by prefix in the order the source tests them. */
  datatype LineKind = Comment | StandardRule | CustomRule | Placement | Data

  function Classify(line: string): LineKind {
    if StartsWith(line, "#Life") || StartsWith(line, "#D") then Comment
    else if StartsWith(line, "#N") then StandardRule
    else if StartsWith(line, "#R") then CustomRule
    else if StartsWith(line, "#P") then Placement
    else Data
  }

  /** What every block stays within: origin in the universe, rows that fit, cells 0 or 1. */
  predicate BlockFits(b: Block, cols: int, rows: int) {
    && ValidCoords(b.start.x, b.start.y, cols, rows)
    && b.start.y + |b.cells| <= rows
    && forall row :: row in b.cells ==>
         |row| <= cols - b.start.x && forall cell :: cell in row ==> cell == 0 || cell == 1
  }

  predicate AllFit(blocks: seq<Block>, cols: int, rows: int) {
    forall b :: b in blocks ==> BlockFits(b, cols, rows)
  }

  /**
   * The running state of a parse: the rules seen so far (None while the rules
   * map is empty) and the blocks placed so far. The block `currentBlock`
   * refers to is the last one, if any.
   */
  datatype Acc = Acc(rules: Option<Rules>, blocks: seq<Block>)

  /** The current block, if any, does not start right of the universe, so cropping to its edge is defined. */
  predicate CurrentInside(acc: Acc, cols: int) {
    acc.blocks != [] ==> acc.blocks[|acc.blocks| - 1].start.x <= cols
  }

  /**
   * The block-data branch for the current block: a row is admitted only while
   * the block has not reached the bottom of the universe, and only an admitted
   * row is decoded; it is then cropped to the universe's right edge.
   */
  function AppendRow(b: Block, line: string, cols: int, rows: int): (r: Result<Block, Failure>)
    requires b.start.x <= cols
    ensures r.Ok? ==> r.value.start == b.start
    ensures r.Ok? && BlockFits(b, cols, rows) ==> BlockFits(r.value, cols, rows)
  {
    if b.start.y + |b.cells| >= rows then Ok(b)
    else
      match DecodeRow(line)
      case Err(e) => Err(e)
      case Ok(row) => Ok(b.(cells := b.cells + [CropRow(row, b.start.x, cols)]))
  }

  /** One iteration of the parse loop. */
  function Step(acc: Acc, line: string, cols: int, rows: int): (r: Result<Acc, Failure>)
    requires CurrentInside(acc, cols)
    ensures r.Ok? ==> CurrentInside(r.value, cols)
  {
    match Classify(line)
    case Comment => Ok(acc)
    case StandardRule => Ok(acc.(rules := Some(StandardConwayRules())))
    case CustomRule => SetRules(acc, ParseRuleDirective(line))
    case Placement => Place(acc, ParsePlacement(line, cols, rows), cols, rows)
    case Data => AddData(acc, line, cols, rows)
  }

  /** A parsed `#R` directive replaces the rules; a failed one ends the parse. */
  function SetRules(acc: Acc, parsed: Result<Rules, Failure>): (r: Result<Acc, Failure>)
    ensures r.Ok? <==> parsed.Ok?
    ensures r.Ok? ==> r.value.blocks == acc.blocks && r.value.rules == Some(parsed.value)
  {
    match parsed
    case Err(e) => Err(e)
    case Ok(rules) => Ok(acc.(rules := Some(rules)))
  }

  /** A parsed `#P` directive opens a new block when it lands in the universe and is skipped otherwise. */
  function Place(acc: Acc, placed: Result<Coord, Failure>, cols: int, rows: int): (r: Result<Acc, Failure>)
    ensures r.Ok? <==> placed.Ok?
    ensures r.Ok? ==> r.value.rules == acc.rules && acc.blocks <= r.value.blocks
    ensures r.Ok? ==> |r.value.blocks| == |acc.blocks| + (if ValidCoords(placed.value.x, placed.value.y, cols, rows) then 1 else 0)
  {
    match placed
    case Err(e) => Err(e)
    case Ok(start) =>
      if ValidCoords(start.x, start.y, cols, rows) then Ok(acc.(blocks := acc.blocks + [Block(start, [])]))
      else Ok(acc)
  }

  /** A data line goes to the current (last) block; with no block yet it is ignored. */
  function AddData(acc: Acc, line: string, cols: int, rows: int): (r: Result<Acc, Failure>)
    requires CurrentInside(acc, cols)
    ensures r.Ok? ==> r.value.rules == acc.rules && |r.value.blocks| == |acc.blocks|
    ensures r.Ok? ==> forall i :: 0 <= i < |acc.blocks| - 1 ==> r.value.blocks[i] == acc.blocks[i]
    ensures r.Err? ==> r.error == InvalidLifFile
  {
    if acc.blocks == [] then Ok(acc)
    else
      var last := |acc.blocks| - 1;
      match AppendRow(acc.blocks[last], line, cols, rows)
      case Err(e) => Err(e)
      case Ok(b) => Ok(acc.(blocks := acc.blocks[..last] + [b]))
  }

  /** The loop over all remaining lines; the first failure ends it. */
  function Run(acc: Acc, lines: seq<string>, cols: int, rows: int): (r: Result<Acc, Failure>)
    requires CurrentInside(acc, cols)
    ensures r.Ok? ==> CurrentInside(r.value, cols)
    decreases |lines|
  {
    if lines == [] then Ok(acc)
    else
      match Step(acc, lines[0], cols, rows)
      case Err(e) => Err(e)
      case Ok(next) => Run(next, lines[1..], cols, rows)
  }

  /** The whole parse: the loop from an empty state, then Conway's rule if no rule was given. */
  function ParseLines(lines: seq<string>, cols: int, rows: int): (r: Result<State, Failure>)
    ensures r.Ok? <==> Run(Acc(None, []), lines, cols, rows).Ok?
    ensures r.Ok? ==> r.value.blocks == Run(Acc(None, []), lines, cols, rows).value.blocks
  {
    match Run(Acc(None, []), lines, cols, rows)
    case Err(e) => Err(e)
    case Ok(acc) => Ok(State(acc.rules.GetOr(StandardConwayRules()), acc.blocks))
  }

  /** A Block object while the parse is still filling it; its rows list grows in place. */
  class MutableBlock {
    const start: Coord
    var cells: seq<seq<int>>

    constructor (start: Coord)
      ensures this.start == start && cells == []
    {
      this.start := start;
      cells := [];
    }

    /** The block's current value. */
    function Value(): Block
      reads this
    {
      Block(start, cells)
    }

    /**
     * One data line for this block: rows from the bottom of the universe
     * on are skipped undecoded, other rows are decoded, cropped to the
     * right edge and added.
     */
    method AddRow(line: string, cols: int, rows: int) returns (failure: Option<Failure>)
      requires start.x <= cols
      modifies this
      ensures AppendRow(old(Value()), line, cols, rows) ==
                if failure.Some? then Err(failure.value) else Ok(Value())
      ensures failure.Some? ==> cells == old(cells)
    {
      failure := None;
      if start.y + |cells| < rows {
        var decoded := DecodeRow(line);
        if decoded.Err? {
          return Some(decoded.error);
        }
        cells := cells + [CropRow(decoded.value, start.x, cols)];
      }
    }
  }

  /** The values of the block objects, in list order. */
  function Snapshot(bs: seq<MutableBlock>): (r: seq<Block>)
    reads bs
    ensures |r| == |bs|
  {
    if bs == [] then []
    else Snapshot(bs[..|bs| - 1]) + [bs[|bs| - 1].Value()]
  }

  /** One more line of the loop: Run over lines[i..] is Step on lines[i], then Run over the rest. */
  lemma RunFrom(acc: Acc, lines: seq<string>, i: nat, cols: int, rows: int)
    requires i < |lines| && CurrentInside(acc, cols)
    ensures Run(acc, lines[i..], cols, rows) ==
              match Step(acc, lines[i], cols, rows)
              case Err(e) => Err(e)
              case Ok(next) => Run(next, lines[i + 1..], cols, rows)
  {
    assert lines[i..][0] == lines[i] && lines[i..][1..] == lines[i + 1..];
  }

  /** The snapshot of a non-empty list is the snapshot of all but its last block, then that block's value. */
  lemma SnapshotLast(bs: seq<MutableBlock>)
    requires bs != []
    ensures Snapshot(bs) == Snapshot(bs[..|bs| - 1]) + [bs[|bs| - 1].Value()]
  {
  }

  /** A new block with the given start and no rows, appended to the list of blocks. */
  method OpenBlock(blocks: seq<MutableBlock>, start: Coord) returns (blocks': seq<MutableBlock>, block: MutableBlock)
    ensures fresh(block) && blocks' == blocks + [block]
    ensures Snapshot(blocks') == old(Snapshot(blocks)) + [Block(start, [])]
  {
    block := new MutableBlock(start);
    blocks' := blocks + [block];
    assert blocks'[..|blocks'| - 1] == blocks;
    SnapshotLast(blocks');
  }

  /** currentBlock is the last block of the list and occurs in it once; there is none while the list is empty. */
  predicate Linked(blocks: seq<MutableBlock>, currentBlock: MutableBlock?) {
    && (currentBlock == null <==> blocks == [])
    && (currentBlock != null ==>
          currentBlock == blocks[|blocks| - 1] && currentBlock !in blocks[..|blocks| - 1])
  }

  /**
   * One pass of the parse loop: the line is classified and applied to the
   * rules, the block list and the current block, exactly as Step applies it
   * to their values, or the exception the line raises is returned.
   */
  method ParseLine(line: string, universeCols: int, universeRows: int,
                   rules: Option<Rules>, blocks: seq<MutableBlock>, currentBlock: MutableBlock?)
    returns (failure: Option<Failure>, rules': Option<Rules>, blocks': seq<MutableBlock>, currentBlock': MutableBlock?)
    requires Linked(blocks, currentBlock)
    requires CurrentInside(Acc(rules, Snapshot(blocks)), universeCols)
    modifies currentBlock
    ensures Linked(blocks', currentBlock')
    ensures currentBlock' == currentBlock || fresh(currentBlock')
    ensures Step(Acc(rules, old(Snapshot(blocks))), line, universeCols, universeRows) ==
              if failure.Some? then Err(failure.value) else Ok(Acc(rules', Snapshot(blocks')))
  {
    ghost var acc := Acc(rules, Snapshot(blocks));
    failure, rules', blocks', currentBlock' := None, rules, blocks, currentBlock;
    var kind := Classify(line);
    if kind == Comment {
      // header or comment
      assert Step(acc, line, universeCols, universeRows) == Ok(acc);
    } else if kind == StandardRule {
      rules' := Some(StandardConwayRules());
    } else if kind == CustomRule {
      var parsed := ParseRuleDirective(line);
      assert Step(acc, line, universeCols, universeRows) == SetRules(acc, parsed);
      if parsed.Err? {
        return Some(parsed.error), rules, blocks, currentBlock;
      }
      rules' := Some(parsed.value);
    } else if kind == Placement {
      assert Step(acc, line, universeCols, universeRows) ==
             Place(acc, ParsePlacement(line, universeCols, universeRows), universeCols, universeRows);
      failure, blocks', currentBlock' := PlaceLine(line, universeCols, universeRows, rules, blocks, currentBlock);
    } else {
      assert Step(acc, line, universeCols, universeRows) == AddData(acc, line, universeCols, universeRows);
      failure := DataLine(line, universeCols, universeRows, rules, blocks, currentBlock);
    }
  }

  /**
   * The `#P` branch of the loop: a block inside the universe is created,
   * appended and made the current block; one outside it is skipped and the
   * current block stays as it was.
   */
  method PlaceLine(line: string, universeCols: int, universeRows: int,
                   ghost rules: Option<Rules>, blocks: seq<MutableBlock>, currentBlock: MutableBlock?)
    returns (failure: Option<Failure>, blocks': seq<MutableBlock>, currentBlock': MutableBlock?)
    requires Linked(blocks, currentBlock)
    ensures Linked(blocks', currentBlock')
    ensures currentBlock' == currentBlock || fresh(currentBlock')
    ensures Place(Acc(rules, old(Snapshot(blocks))), ParsePlacement(line, universeCols, universeRows), universeCols, universeRows) ==
              if failure.Some? then Err(failure.value) else Ok(Acc(rules, Snapshot(blocks')))
  {
    failure, blocks', currentBlock' := None, blocks, currentBlock;
    var placed := ParsePlacement(line, universeCols, universeRows);
    if placed.Err? {
      return Some(placed.error), blocks, currentBlock;
    }
    var x, y := placed.value.x, placed.value.y;
    // blocks outside the universe are skipped, and currentBlock keeps its block
    if ValidCoords(x, y, universeCols, universeRows) {
      blocks', currentBlock' := OpenBlock(blocks, Coord(x, y));
    }
  }

  /**
   * The block-data branch of the loop: the line goes to the current block;
   * with no current block it is ignored.
   */
  method DataLine(line: string, universeCols: int, universeRows: int,
                  ghost rules: Option<Rules>, blocks: seq<MutableBlock>, currentBlock: MutableBlock?)
    returns (failure: Option<Failure>)
    requires Linked(blocks, currentBlock)
    requires CurrentInside(Acc(rules, Snapshot(blocks)), universeCols)
    modifies currentBlock
    ensures AddData(Acc(rules, old(Snapshot(blocks))), line, universeCols, universeRows) ==
              if failure.Some? then Err(failure.value) else Ok(Acc(rules, Snapshot(blocks)))
  {
    failure := None;
    if currentBlock != null {
      ghost var last := |blocks| - 1;
      ghost var earlier := Snapshot(blocks[..last]);
      SnapshotLast(blocks);
      failure := currentBlock.AddRow(line, universeCols, universeRows);
      assert Snapshot(blocks[..last]) == earlier;
      SnapshotLast(blocks);
    }
  }

  /**
   * ParserService.parse over the lines of a file: the rules and blocks it
   * returns, or the exception it throws.
   */
  method Parse(lines: seq<string>, universeCols: int, universeRows: int) returns (r: Result<State, Failure>)
    ensures r == ParseLines(lines, universeCols, universeRows)
  {
    var blocks: seq<MutableBlock> := [];
    var rules: Option<Rules> := None;
    var currentBlock: MutableBlock? := null;
    var i := 0;
    while i < |lines|
      invariant 0 <= i <= |lines|
      invariant Linked(blocks, currentBlock)
      invariant currentBlock != null ==> fresh(currentBlock)
      invariant CurrentInside(Acc(rules, Snapshot(blocks)), universeCols)
      invariant Run(Acc(rules, Snapshot(blocks)), lines[i..], universeCols, universeRows)
             == Run(Acc(None, []), lines, universeCols, universeRows)
    {
      RunFrom(Acc(rules, Snapshot(blocks)), lines, i, universeCols, universeRows);
      var failure;
      failure, rules, blocks, currentBlock := ParseLine(lines[i], universeCols, universeRows, rules, blocks, currentBlock);
      if failure.Some? {
        return Err(failure.value);
      }
      i := i + 1;
    }
    if rules.None? {
      rules := Some(StandardConwayRules());
    }
    r := Ok(State(rules.value, Snapshot(blocks)));
  }
}
