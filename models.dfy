/**
 * The values the parser produces: the Block and State holders of
 * com.github.life.models, with their string-keyed maps turned into record
 * fields, and the exceptions a parse can end with.
 */
module Models {

  /** The "x"/"y" start map of a block: grid coordinates, (0, 0) top left, y growing downwards. */
  datatype Coord = Coord(x: int, y: int)

  /** A placed pattern: its top-left corner and its rows of cells (0 dead, 1 alive). */
  datatype Block = Block(start: Coord, cells: seq<seq<int>>)

  /** The "toSurvive"/"toComeAlive" rule map: neighbour counts that keep a cell alive or bring it to life. */
  datatype Rules = Rules(toSurvive: seq<int>, toComeAlive: seq<int>)

  /** The result of a parse: the rules in force and the blocks in the order they were placed. */
  datatype State = State(rules: Rules, blocks: seq<Block>)

  /**
   * The exceptions that end a parse. InvalidLifFile is the parser's own
   * InvalidLifFileException (an illegal character in block data); the other
   * two are the Java runtime exceptions a malformed directive raises:
   * StringIndexOutOfBoundsException from `substring(3)` or
   * ArrayIndexOutOfBoundsException from `splits[0]` or `splits[1]`, and
   * NumberFormatException.
   */
  datatype Failure = InvalidLifFile | IndexOutOfBounds | NumberFormat
}
