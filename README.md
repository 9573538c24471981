# Life 1.06 parser — a Dafny model

The Game of Life backend reads an uploaded Life 1.06 file into a `State`:
the rules (`toSurvive` and `toComeAlive` neighbour counts) and the blocks of
cells placed on a universe of `universeCols` × `universeRows` cells.
`ParserService.parse` does this in one pass over the lines of the file:

- `#Life …` and `#D …` lines are skipped;
- `#N` selects Conway's rule B3/S23;
- `#R` followed by one separator character and `survive/birth` reads one
  count per character with `Character.getNumericValue`;
- `#P x y` moves the file's coordinates (origin in the centre, y up) to grid
  coordinates (origin top left, y down) by `x + cols/2` and `-y + rows/2`;
  a position inside the universe opens a new empty block, which becomes
  `currentBlock`, and a position outside it is skipped;
- every other line is block data for `currentBlock`: ignored while there is
  no block, skipped once the block reaches the bottom of the universe,
  otherwise decoded (`.` is 0, `*` is 1, any other character throws
  `InvalidLifFileException`), cropped at the right edge and appended;
- at the end, a file that set no rule gets Conway's rule.

The model is in six files:

- `wrappers.dfy` — `Option` and `Result`.
- `models.dfy` — the values `Coord`, `Block`, `Rules`, `State`, and
  `Failure`: `InvalidLifFile`, and the two Java runtime exceptions the parser
  lets escape, `IndexOutOfBounds` (from `substring(3)`, or from `splits[0]`
  or `splits[1]` when `split` returns fewer pieces) and
  `NumberFormat` (from `Integer.parseInt`).
- `javatext.dfy` — the Java library behaviour the parser's branches turn on:
  `startsWith`, `substring`, `split` with a one-character separator (trailing
  empty pieces dropped, a string without the separator kept whole),
  `Integer.parseInt` with its 32-bit range, `/` truncating toward zero,
  `Character.getNumericValue` and `Stream.limit`.
- `parser.dfy` — the parser. The pure steps are functions (`DecodeRow`,
  `CropRow`, `ParseRuleDirective`, `ParsePlacement`, `Classify`), and
  `Run` folds `Step` over the lines as a reference definition.
  `Parse` is the loop itself, over the source's own mutable state: the rules,
  a list of `MutableBlock` objects and `currentBlock`, an alias of the last
  of them whose rows list `AddRow` extends in place. The loop body is split
  into `ParseLine` and its `#P` and data branches `PlaceLine` and `DataLine`;
  each is proved to change the state exactly as `Step` changes its value, so
  `Parse` returns `ParseLines(lines, …)`.
- `properties.dfy` — what the parse guarantees, proved about `Run`.
- `examples.dfy` — the acorn of the unit tests on an 80 × 60 universe, and
  the edge cases of the directive syntax.

Some behaviour of the code is worth knowing, because a reader of the file
format would expect otherwise; the model follows the code:

- The character after `#R`/`#P` is dropped whatever it is: `#R2/3` gives no
  survive counts and birth count 3 (`RuleWithoutSpace`).
- Any character is accepted as a rule count: `getNumericValue` maps letters
  to 10–35 and other characters to -1 (`JavaText.NumericValue`).
- With an even number of rows, y = −rows/2 lands one row below the
  universe: `#P -40 -30` in an 80 × 60 universe is row 60, and no block is
  opened (`BelowPlacement`); y = rows/2 is row 0, so `#P -40 30` is the
  top-left corner (`TopLeftPlacement`).
- A `#P` outside the universe does not reset `currentBlock`: the data lines
  after it go on filling the previous block (`SkippedPlacementKeepsCurrentBlock`).
- Malformed directives are not reported as `InvalidLifFileException` but as
  the Java runtime exception they raise; the only failure that carries the
  parser's own exception is an illegal character in an admitted data row.
  Such a character in a row below the universe is not seen
  (`FullBlockSkipsData`).

## Model

| member | source | states |
|---|---|---|
| ParserService.Parse | src/main/java/com/github/life/services/ParserService.java:15-121 | the loop over the rules, the mutable block list and `currentBlock` returns exactly the reference fold `ParseLines`: the same rules and block values, or the same exception |
| ParserService.ParseLine | src/main/java/com/github/life/services/ParserService.java:22-108 | one loop iteration changes the rules and the block objects as `Step` changes their values, keeps `currentBlock` the last block of the list, and reports the exception `Step` reports |
| ParserService.PlaceLine | src/main/java/com/github/life/services/ParserService.java:52-78 | a `#P` line appends one fresh empty block at the parsed grid position and makes it current when the position is inside the universe, leaves list and current block alone otherwise, and reports the parse failure of the coordinates |
| ParserService.DataLine | src/main/java/com/github/life/services/ParserService.java:80-108 | a data line changes only the current block, as `AddData` says, and is ignored without a current block |
| ParserService.OpenBlock | src/main/java/com/github/life/services/ParserService.java:64-75 | the new block is fresh, is appended at the end of the list, and has the given start and no rows |
| ParserService.MutableBlock.constructor | src/main/java/com/github/life/services/ParserService.java:68-71 | a new block has the given start and an empty list of rows |
| ParserService.MutableBlock.AddRow | src/main/java/com/github/life/services/ParserService.java:83-107 | the block's new value is `AppendRow` of its old value: the row is skipped when the block reaches the bottom, otherwise decoded, cropped and added; when `AppendRow` fails, its failure is returned and the rows are unchanged |
| ParserService.StandardConwayRules | src/main/java/com/github/life/services/ParserService.java:123-126 | Conway's B3/S23: survive with 2 or 3 neighbours, come alive with 3; `StandardRuleStep` and `DefaultRules` prove it is what `#N` and a file without rule lines give |
| ParserService.ValidCoords | src/main/java/com/github/life/services/ParserService.java:128-130 | 0 ≤ x < cols and 0 ≤ y < rows; `PlacementStep` proves a `#P` opens a block exactly when it holds |
| ParserService.DecodeCell | src/main/java/com/github/life/services/ParserService.java:89-98 | a character decodes exactly when it is '.' or '*', to 0 and 1 respectively; any other character is InvalidLifFile |
| ParserService.NumericValues | src/main/java/com/github/life/services/ParserService.java:41-44 | one count per character, by `getNumericValue`; `RuleDirectiveDigits` states the counts of digit strings |
| ParserService.ParseRuleDirective | src/main/java/com/github/life/services/ParserService.java:35-47 | succeeds only on lines of at least 3 characters, and its only failure is index out of bounds (any character is a count); `RuleDirectiveDigits` and `RuleDirectiveNeedsBirthCounts` state its results |
| ParserService.ParsePlacement | src/main/java/com/github/life/services/ParserService.java:52-57 | a line shorter than 3 characters is index out of bounds, a success needs at least 3, and it never fails with InvalidLifFile; `PlacementTransform`, `PlacementMissingY` and `PlacementNotANumber` state its results |
| ParserService.PlacementFromSplits | src/main/java/com/github/life/services/ParserService.java:56-57 | succeeds only when there are two words and both parse as 32-bit integers, and never fails with InvalidLifFile; `PlacementFromTwo` gives the position |
| ParserService.Classify | src/main/java/com/github/life/services/ParserService.java:25-81 | the prefix tests in the source's order; `ClassifyComment`, `ClassifyStandardRule`, `ClassifyRule`, `ClassifyPlacement` and `ClassifyData` state which lines go to which branch |
| ParserService.SetRules | src/main/java/com/github/life/services/ParserService.java:46-47 | the rules are replaced by the parsed ones exactly when the directive parsed; the blocks are unchanged |
| ParserService.Place | src/main/java/com/github/life/services/ParserService.java:59-75 | succeeds exactly when the coordinates parsed; rules unchanged, the block list only extended, by one block exactly when the position is inside the universe |
| ParserService.AddData | src/main/java/com/github/life/services/ParserService.java:81-107 | rules and block count unchanged, every block but the last unchanged, and the only failure is InvalidLifFile |
| ParserService.ParseLines | src/main/java/com/github/life/services/ParserService.java:112-120 | succeeds exactly when the loop does and returns the loop's blocks; `DefaultRules` and `LastRuleWins` state its rules |
| ParserService.DecodeRow | src/main/java/com/github/life/services/ParserService.java:89-98 | a row decodes exactly when every character is '.' or '*'; the result has one cell per character, 1 for '*' and 0 for '.'; any other character is InvalidLifFile |
| ParserService.CropRow | src/main/java/com/github/life/services/ParserService.java:100-105 | the cropped row is a prefix of the row, of length min(row length, cols − x) |
| ParserService.AppendRow | src/main/java/com/github/life/services/ParserService.java:83-107 | appending a row keeps the block's start and keeps a block that fits the universe fitting |
| ParserService.Step | src/main/java/com/github/life/services/ParserService.java:24-108 | after any line the current block still does not start right of the universe |
| ParserService.Run | src/main/java/com/github/life/services/ParserService.java:21-109 | the same for every run of lines |
| JavaText.StartsWith | src/main/java/com/github/life/services/ParserService.java:25-52 | `startsWith`, character by character; `StartsWithPrefix` states what it means |
| JavaText.Split | src/main/java/com/github/life/services/ParserService.java:36-53 | a string without the separator is the one piece; no piece contains the separator; when the separator occurs, the last piece kept is not empty |
| JavaText.ParseInt | src/main/java/com/github/life/services/ParserService.java:56-57 | every result is a 32-bit integer; `ParseIntShowInt`, `ParseIntOverflow` and `ParseIntUnderflow` state what it accepts |
| JavaText.StartsWithPrefix | src/main/java/com/github/life/services/ParserService.java:25-52 | `startsWith` holds exactly when the prefix is the line's first characters |
| JavaText.Substring | src/main/java/com/github/life/services/ParserService.java:36-36 | `substring(3)` succeeds exactly on lines of at least 3 characters and returns their rest |
| JavaText.PiecesJoin | src/main/java/com/github/life/services/ParserService.java:36-36 | cutting a join of separator-free pieces at the separator gives the pieces back |
| JavaText.JoinPieces | src/main/java/com/github/life/services/ParserService.java:53-53 | joining the pieces of a string at the separator gives the string back |
| JavaText.DropTrailingEmpty | src/main/java/com/github/life/services/ParserService.java:36-36 | the pieces `split` keeps are a prefix of all pieces, end in a non-empty piece, and every dropped piece is empty |
| JavaText.SplitTwo | src/main/java/com/github/life/services/ParserService.java:53-53 | a separator-free word, the separator and a non-empty separator-free word split into exactly those two words |
| JavaText.SplitTrailingSeparator | src/main/java/com/github/life/services/ParserService.java:36-39 | a word followed by the separator alone splits into that word only, or into nothing when the word is empty |
| JavaText.ParseIntShowInt | src/main/java/com/github/life/services/ParserService.java:56-57 | `parseInt` reads back every 32-bit integer written in decimal |
| JavaText.Half | src/main/java/com/github/life/services/ParserService.java:56-57 | `n / 2` truncates toward zero: the remainder has the sign of n and is less than 2 in size |
| JavaText.NumericValue | src/main/java/com/github/life/services/ParserService.java:41-44 | a decimal digit gives its value; every value is between -1 and 35 |
| JavaText.Limit | src/main/java/com/github/life/services/ParserService.java:103-104 | `limit(n)` keeps a prefix of min(n, length) elements |
| ParserProperties.RunAppend | src/main/java/com/github/life/services/ParserService.java:21-109 | parsing a file in two parts: the second part continues from the state the first ends in, and a failure in the first part ends the parse |
| ParserProperties.RunKeepsRules | src/main/java/com/github/life/services/ParserService.java:29-48 | lines other than `#N` and `#R` never change the rules |
| ParserProperties.DefaultRules | src/main/java/com/github/life/services/ParserService.java:114-126 | a file without `#N` and `#R` lines gets survive counts [2, 3] and birth count [3] |
| ParserProperties.LastRuleWins | src/main/java/com/github/life/services/ParserService.java:30-48 | the last `#N` or `#R` line decides the rules (Conway's for `#N`, the parsed ones for `#R`): no later line changes them |
| ParserProperties.StepPreservesFit | src/main/java/com/github/life/services/ParserService.java:52-107 | one line keeps every block inside the universe |
| ParserProperties.RunPreservesFit | src/main/java/com/github/life/services/ParserService.java:21-109 | every run of lines keeps every block inside the universe |
| ParserProperties.ParsedBlocksFit | src/main/java/com/github/life/services/ParserService.java:15-121 | every returned block starts inside the universe, has no row below its bottom edge and no cell right of its right edge, and holds only 0s and 1s |
| ParserProperties.StepExtends | src/main/java/com/github/life/services/ParserService.java:52-107 | one line only appends blocks or rows of the current block |
| ParserProperties.RunExtends | src/main/java/com/github/life/services/ParserService.java:21-109 | over any run of lines, blocks are only appended, keep their starts and rows, and only the last block of the earlier state can grow |
| ParserProperties.RunCountsBlocks | src/main/java/com/github/life/services/ParserService.java:52-78 | a run of lines adds one block per `#P` line inside the universe and no other |
| ParserProperties.ParsedBlockCount | src/main/java/com/github/life/services/ParserService.java:15-121 | the returned block count is the number of `#P` lines inside the universe |
| ParserProperties.ClassifyComment | src/main/java/com/github/life/services/ParserService.java:25-27 | every line starting with `#Life` or `#D` is a header or comment |
| ParserProperties.CommentStep | src/main/java/com/github/life/services/ParserService.java:25-27 | a header or comment line changes neither rules nor blocks |
| ParserProperties.ClassifyStandardRule | src/main/java/com/github/life/services/ParserService.java:25-30 | every line starting with `#N` selects Conway's rule |
| ParserProperties.StandardRuleStep | src/main/java/com/github/life/services/ParserService.java:30-33 | `#N`, followed by anything, sets the rules to [2, 3] / [3] and leaves the blocks alone |
| ParserProperties.ClassifyRule | src/main/java/com/github/life/services/ParserService.java:25-35 | every line starting with `#R` is a custom rule directive |
| ParserProperties.ClassifyPlacement | src/main/java/com/github/life/services/ParserService.java:25-52 | every line starting with `#P` is a placement |
| ParserProperties.ClassifyData | src/main/java/com/github/life/services/ParserService.java:25-81 | every line not starting with '#' is block data |
| ParserProperties.RuleDirectiveDigits | src/main/java/com/github/life/services/ParserService.java:35-47 | `#R` + separator + `a/b` in decimal digits gives the digits of a as survive counts and of b as birth counts, in order |
| ParserProperties.RuleDirectiveNeedsBirthCounts | src/main/java/com/github/life/services/ParserService.java:36-39 | `#R` alone, `#R` without '/', and `#R` with nothing after '/' are index-out-of-bounds failures |
| ParserProperties.PlacementTransform | src/main/java/com/github/life/services/ParserService.java:53-57 | `#P x y` with 32-bit integers is the grid position (x + cols/2, −y + rows/2) with truncating halves |
| ParserProperties.PlacementArguments | src/main/java/com/github/life/services/ParserService.java:53-53 | a placement is decided by the words after its third character |
| ParserProperties.PlacementFromTwo | src/main/java/com/github/life/services/ParserService.java:56-57 | two first words that parse as integers give the transformed grid position, whatever words follow |
| ParserProperties.PlacementMissingY | src/main/java/com/github/life/services/ParserService.java:53-57 | `#P x` without y is an index-out-of-bounds failure |
| ParserProperties.PlacementNotANumber | src/main/java/com/github/life/services/ParserService.java:56-57 | a coordinate that is not a decimal integer is a NumberFormatException |
| ParserProperties.ParseIntOverflow | src/main/java/com/github/life/services/ParserService.java:56-57 | a coordinate above 2^31 − 1 is rejected |
| ParserProperties.ParseIntUnderflow | src/main/java/com/github/life/services/ParserService.java:56-57 | a coordinate below −2^31 is rejected |
| ParserProperties.PlacementTooShort | src/main/java/com/github/life/services/ParserService.java:53-53 | `#P` alone fails in `substring(3)` |
| ParserProperties.PlacementStep | src/main/java/com/github/life/services/ParserService.java:59-77 | a parsed placement opens a new empty last block exactly when it is inside the universe, and changes nothing otherwise |
| ParserProperties.DataBeforePlacementIgnored | src/main/java/com/github/life/services/ParserService.java:81-81 | block data before any placement changes nothing, whatever its characters |
| ParserProperties.FullBlockSkipsData | src/main/java/com/github/life/services/ParserService.java:83-87 | a row for a block that reaches the bottom of the universe changes nothing and is not decoded |
| ParserProperties.InvalidCharacterFails | src/main/java/com/github/life/services/ParserService.java:89-98 | an illegal character in an admitted row is InvalidLifFile |
| ParserProperties.DataRowAppended | src/main/java/com/github/life/services/ParserService.java:89-107 | a well-formed admitted row is decoded, cropped to the right edge and appended to the current block; rules and every other block are unchanged |
| ParserProperties.InvalidCharacterFailsParse | src/main/java/com/github/life/services/ParserService.java:89-98 | an illegal character in an admitted row fails the whole parse with InvalidLifFile, whatever follows |
| ParserProperties.SkippedPlacementKeepsCurrentBlock | src/main/java/com/github/life/services/ParserService.java:59-62 | a `#P` outside the universe is as if absent: the lines after it go on filling the previous block |
| ParserProperties.JavaArithmeticAgrees | src/main/java/com/github/life/services/ParserService.java:56-60 | for all 32-bit inputs, Java's wrapping arithmetic and the unbounded model agree on whether a block is inside the universe, and on its position when it is |
| ParserExamples.AcornConway | src/test/java/com/github/life/services/ParserServiceTest.java:35-43 | the acorn with `#N` parses to Conway's rule and the one block at (37, 31) with rows .* / ...* / **..*** |
| ParserExamples.AcornCustomRule | src/test/java/com/github/life/services/ParserServiceTest.java:50-64 | the acorn with `#R 125/36` parses to survive counts [1, 2, 5], birth counts [3, 6] and the acorn block |
| ParserExamples.AcornNoRule | src/test/java/com/github/life/services/ParserServiceTest.java:72-80 | the acorn without a rule line parses to Conway's rule and the acorn block |
| ParserExamples.AcornInvalidCharacter | src/test/java/com/github/life/services/ParserServiceTest.java:88-96 | the acorn with an 'o' in its first row fails with InvalidLifFile |
| ParserExamples.AcornData | src/test/java/com/github/life/services/ParserServiceTest.java:143-146 | the acorn's three data lines fill the block at (37, 31) with the expected rows |
| ParserExamples.AcornCoord | src/test/java/com/github/life/services/ParserServiceTest.java:139-141 | `#P -3 -1` is the grid position (37, 31) of an 80 × 60 universe |
| ParserExamples.HeaderStep | src/main/java/com/github/life/services/ParserService.java:25-27 | the `#Life 1.06` header changes nothing |
| ParserExamples.ConwayStep | src/main/java/com/github/life/services/ParserService.java:30-33 | `#N` sets Conway's rule |
| ParserExamples.CustomRuleStep | src/main/java/com/github/life/services/ParserService.java:35-48 | `#R 125/36` sets survive counts [1, 2, 5] and birth counts [3, 6] |
| ParserExamples.PlacementLetterX | src/main/java/com/github/life/services/ParserService.java:56-56 | `#P a 1` is a NumberFormatException |
| ParserExamples.PlacementBareSignY | src/main/java/com/github/life/services/ParserService.java:57-57 | `#P 1 -` is a NumberFormatException |
| ParserExamples.PlacementOnlyX | src/main/java/com/github/life/services/ParserService.java:53-57 | `#P 7` is an index-out-of-bounds failure |
| ParserExamples.PlacementExtraWords | src/main/java/com/github/life/services/ParserService.java:53-57 | words after y are ignored: `#P 0 1 2` is (40, 29) |
| ParserExamples.RuleWithoutSpace | src/main/java/com/github/life/services/ParserService.java:36-44 | `#R2/3` gives no survive counts and birth count 3 |
| ParserExamples.TopLeftPlacement | src/main/java/com/github/life/services/ParserService.java:53-57 | `#P -40 30` is the top-left corner (0, 0) of an 80 × 60 universe |
| ParserExamples.BelowPlacement | src/main/java/com/github/life/services/ParserService.java:53-60 | `#P -40 -30` is (0, 60), just below an 80 × 60 universe, and is skipped |

## Left out

- Reading the `InputStream` with a `Scanner`: the file is given as its
  sequence of lines, so line terminators and character decoding are not
  modelled.
- `FileService`, `FileController`, `ExceptionHandlerControllerAdvice` and
  `LifeBackendApplication` (upload handling and HTTP mapping) are not part of
  this model.
- The resource files `acorn*.lif` the unit tests read are not part of this
  model; the examples use a Life 1.06 acorn whose lines give the block the
  tests expect.
- `Block.start` and `State.rules` are string-keyed maps in the source; the
  model uses records with the same two fields each.
- Exceptions carry no message, and `StringIndexOutOfBoundsException` and
  `ArrayIndexOutOfBoundsException` are both `IndexOutOfBounds`.
- `Parse` returns the values of its block objects; in the source the returned
  `State` holds the same `Block` objects, which nothing changes after `parse`
  returns.
- Strings are sequences of Unicode scalar values, while `substring(3)`,
  `split` and `chars()` in Java count UTF-16 code units: a character outside
  the Basic Multilingual Plane is one character here and two in Java, so
  `#R😀1/2` gives survive counts [1] here and [-1, 1] in Java.
- JavaText.NumericValue: ASCII only; `Character.getNumericValue` also gives
  values for non-ASCII digits, letters and numerals, which the model maps
  to -1.
- JavaText.ParseInt: ASCII digits only; `Integer.parseInt` also accepts other
  Unicode decimal digits.
- ParserService.CropRow: `x + row length` is unbounded; in Java it could wrap
  only for a line longer than 2^31 − 1 − x characters.
- ParserService.Step and ParserService.Run: their own contracts state only
  that the current block stays addressable; what a line does is stated by the
  `ParserProperties` lemmas about them.
- ParserService.PlaceLine: coordinates are unbounded integers;
  `ParserProperties.JavaArithmeticAgrees` shows this changes no result for
  32-bit inputs.
