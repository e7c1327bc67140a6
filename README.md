# Catan board generator — a verified model of its generation logic

This project models the board-generation logic of a Catan board generator web page
(`script.js`). It covers:

- the tile tables (classic and expansion terrains and number tokens);
- the Fisher–Yates `shuffle`;
- the pairing of shuffled terrains with shuffled numbers, where a cursor walks the numbers
  and deserts get `null`;
- the bounded retry loop that re-deals the numbers in place while `isValidBoard` rejects
  the board;
- `isValidBoard` exactly as written;
- `getProbabilityDots`;
- the part of `displayBoard` that decides which tiles go on which hex row and which hexes
  show a number element.

Modules:

- `Tiles` (`tiles.dfy`): the terrain keys, number tokens, the four tables, and the facts
  that make the pairing exact.
- `Shuffling` (`shuffle.dfy`): the shuffle, as a swap loop on a fresh array. `Math.random()`
  is an arbitrary draw in [0, 1).
- `Display` (`display.dfy`): the row layouts, the row-placing loops (`PlaceRows` is the
  `layout.forEach` and `FillRow` its callback's `for` loop), the dot table, and the number
  element of a hex.
- `Generator` (`generator.dfy`): the pairing loop, the in-place re-deal, the retry loop,
  `isValidBoard` and `generateBoard`.

Each loop is a method with invariants. It is proved against a reference function:

- `Assigned` for the first pairing;
- `Reassigned` for a re-deal;
- `Partition` for the rows.

The lemmas about those functions carry what the source promises: permutation, exact
pairing, terrains kept, one row per layout entry, and every tile placed once and in order.

Two readings of the code that it does not follow:

- **Retry count.** A cap of 100 could be read as 100 deals in all. The code deals once and
  then re-deals up to 100 times: `attempts < maxAttempts` is checked before each re-deal
  (script.js:98-110). `RetryLoop` bounds the re-deals by `MaxAttempts` = 100.
- **`isValidBoard`.** The comments at script.js:116-117 describe a check that high-value
  numbers are "not too clustered", which suggests rejecting boards with more than four tiles
  numbered 6 or 8. The code returns `true` on that branch too (script.js:120).
  `IsValidBoard` returns `true` on every path, so `GenerateBoard` proves `attempts == 0`.
  `HighTilesOnEveryBoard` shows what such a check would do: every classic board has exactly
  4 such tiles and every expansion board 6. It would therefore accept every classic board
  and reject every expansion board.

## Model

| member | source | states |
|---|---|---|
| Tiles.TablesPair | script.js:12-33 | the terrain table has 19 entries (classic) or 30 (expansion), with 1 or 2 deserts; the number table has 18 or 28 entries; in both, the non-desert count equals the number count |
| Tiles.ClassicTablesPair | script.js:12-21 | classic: 19 terrains, one desert, 18 non-deserts, 18 numbers |
| Tiles.ExpansionTablesPair | script.js:23-33 | expansion: 30 terrains, two deserts, 28 non-deserts, 28 numbers |
| Tiles.ClassicTerrainComposition | script.js:12-19 | for every terrain kind, its count in the classic table: 4 forests, pastures and fields, 3 hills and mountains, 1 desert |
| Tiles.ExpansionTerrainComposition | script.js:23-31 | for every terrain kind, its count in the expansion table is the classic count plus 2 (producing terrains) or 1 (desert) |
| Tiles.ClassicNumberComposition | script.js:21 | for every integer, its count in the classic numbers: one 2, one 12, two of every other pip value, none of 7 or of anything outside 2..12 |
| Tiles.ExpansionNumberComposition | script.js:33 | for every integer, its count in the expansion numbers is its classic count plus one if it is a pip value |
| Tiles.ClassicDeserts | script.js:12-19 | any arrangement of the classic terrains has 19 tiles, 1 desert and 18 tiles needing a number |
| Tiles.ExtraDeserts | script.js:25-30 | any arrangement of the expansion's extra terrains has 11 tiles, 1 desert |
| Tiles.NonDesertCountIsAllButDeserts | script.js:91-94 | the number of tiles that take a number is the length minus the deserts, so it depends only on the multiset of terrains |
| Tiles.NumbersArePips | script.js:21 | every number in either table is a dice sum from 2 to 12 other than 7 |
| Tiles.HighNumberCounts | script.js:21-33 | 6 and 8 each occur twice in the classic numbers and three times in the expansion numbers |
| Shuffling.RandomIndex | script.js:77 | `Math.floor(x * (i + 1))` for any draw `x` in [0, 1) is a valid partner index `j <= i` |
| Shuffling.RandomIndexReaches | script.js:77 | every partner index in [0, i] is produced by some draw |
| Shuffling.Shuffle | script.js:74-81 | the result has the input's length and its multiset, so it is a permutation; the input is a value and is left unchanged |
| Display.Partition | script.js:154-163 | reference for the row loop: it yields exactly one row per layout entry |
| Display.LayoutTotals | script.js:132-149 | the layouts 3-4-5-4-3 and 4-5-6-5-6-4 hold 19 and 30 tiles, the sizes of the two terrain tables |
| Display.PartitionFlattens | script.js:163-164 | reading the rows back in order gives the tiles up to the layout's capacity: none skipped, repeated or reordered |
| Display.PartitionRowsFull | script.js:163 | with at least as many tiles as the layout holds, every row holds exactly its count |
| Display.BoardFillsLayout | script.js:151-164 | a board of its type's size fills the layout exactly: one row per layout entry, each row full, and the rows read back as the board |
| Display.PlaceRows | script.js:152-164 | the row loop with its one cursor builds exactly `Partition(tiles, layout)` |
| Display.FillRow | script.js:163-164 | one row takes the tiles from the cursor while the row has room and tiles remain; the cursor advances by min(count, tiles left) and never passes the end |
| Display.DisplayBoard | script.js:151-164 | the rows for the board type; when the tile count matches the layout total, they read back as the tiles and every row is full |
| Display.GetProbabilityDots | script.js:215-221 | a number n from 2 to 12 other than 7 gets `6 - abs(7 - n)` dots; every other token (7, other numbers, `null`, `undefined`) gets the empty string |
| Display.TileLabel | script.js:179-193 | a hex shows a number element exactly when its number is truthy (not `null`, `undefined` or 0); the element shows that number; a pip value gets 1 to 5 dots; any other value gets no dots and no highlight. Its facts on dealt boards are in `Generator.PairedBoardLabels` |
| Display.DotsSymmetric | script.js:216-219 | n and 14 - n get the same dots |
| Generator.IsExpansion | script.js:84 | only the exact board type `"expansion"` selects the expansion tables and layout; any other value is classic |
| Generator.NumberAt | script.js:94 | reading the shuffled numbers at the cursor never gives `null`; it gives a number from the list exactly when the cursor is inside the list, and `undefined` past its end (also script.js:106) |
| Generator.AssignedTerrains | script.js:90-95 | the pairing yields one tile per terrain, in the same order |
| Generator.AssignedNumbers | script.js:89-95 | with enough numbers, the board's numbers in tile order are the first `NonDesertCount` numbers, each used once and in order |
| Generator.AssignedDefined | script.js:94 | with enough numbers, no tile reads past the end of the numbers |
| Generator.AssignedRunsOut | script.js:94 | some tile gets `undefined` exactly when there are fewer numbers than non-desert terrains |
| Generator.AssignedIsPaired | script.js:89-95 | with exactly one number per non-desert terrain, deserts hold `null`, every other tile a number, and the board's numbers are the numbers list itself |
| Generator.AssignNumbers | script.js:89-95 | the cursor loop fills a new tile array equal to `Assigned(terrains, numbers)`; the final cursor is the non-desert count |
| Generator.ShuffledTablesPair | script.js:84-95 | pairing any shuffles of a board type's tables gives a finished board: right size, terrains a permutation of the table, numbers a permutation of the number table, deserts `null` |
| Generator.DealBoard | script.js:84-95 | the first deal produces a fresh tile array holding a finished board |
| Generator.NumberListed | script.js:94 | the number on any numbered tile is one of the board's numbers |
| Generator.DealtNumberCount | script.js:104-108 | on a dealt board there is one number per non-desert tile |
| Generator.HighNumbers | script.js:119 | the filter keeps exactly the board's tiles numbered 6 or 8 |
| Generator.HighNumbersCount | script.js:119 | the filter's length is the number of sixes plus the number of eights on the board |
| Generator.IsValidBoard | script.js:115-123 | the predicate as written accepts every board under every setting |
| Generator.HighTilesOnEveryBoard | script.js:118-120 | on any board dealt from a board type's number table, the filter at line 119 finds exactly 4 tiles (classic) or 6 (expansion) |
| Generator.ReassignedTerrains | script.js:104-108 | a re-deal keeps the tile count, every terrain and every desert tile; only the numbers of non-desert tiles change |
| Generator.ReassignedIsAssigned | script.js:103-108 | on a dealt board a re-deal equals the first pairing run afresh on the same terrains |
| Generator.ReassignedKeepsPaired | script.js:102-108 | re-dealing a permutation of the number table keeps the board dealt, with its numbers a permutation of the table |
| Generator.Reassign | script.js:103-108 | the in-place pass over the tile array leaves exactly `Reassigned(old tiles, numbers)` |
| Generator.FinishedKept | script.js:101-110 | a re-dealt board with the same terrains and a permutation of the numbers is still a finished board of its type |
| Generator.RetryLoop | script.js:98-110 | the loop ends within 100 re-deals; unless the cap was reached, the board is accepted; an accepted first deal is left untouched with 0 attempts; terrains stay in place and the board stays paired with the number table |
| Generator.PairedBoardLabels | script.js:179-193 | on a board dealt from pip values, exactly the non-desert hexes show a number element, each with 1 to 5 dots, highlighted exactly when the number is 6 or 8 |
| Generator.GenerateBoard | script.js:83-113 | the generated board is finished for its type, `attempts` is 0, and the rows are the partition of the board by the type's layout |

## Left out

- DOM and event wiring (script.js:44-72) and the global `currentSettings` (script.js:35-41). The settings are a parameter of `GenerateBoard`.
- Element creation, class names, inline CSS and the pixel offsets `rowData.offset * 45` (script.js:125-212), which are floating point. The rows and the number element's content are modelled; their rendering is not.
- Smooth-scroll navigation (script.js:224-235).
- The distribution of `Math.random()` (script.js:77). A draw is any real in [0, 1), chosen nondeterministically. Uniformity of the shuffle is not modelled.
- The names, colours and resource strings of `TERRAIN_TYPES` (script.js:3-10). Only the six keys are modelled.
- The flags `prevent_2_12`, `prevent_same_number` and `prevent_same_resource`. They are stored but never read, so `Settings` carries them and nothing uses them.
- Tile objects are JavaScript objects shared by reference. The model holds them as values in array slots; `Reassign` writes a new value into the slot where the source mutates `tile.number` through the reference. Nothing else holds a tile reference, so no aliasing is lost.
- Generator.RetryLoop: takes the acceptance test as a parameter (the generator passes `IsValidBoard`), because with the test as written the loop body is dead code.
- Display.TileLabel: the number element's text is the number itself. JavaScript's number-to-string conversion is not modelled.
