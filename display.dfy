/** What the board display computes before it builds any element: which tiles go
    on which hex row, and the probability dots shown under a number. */
module Display {
  import opened Tiles

  /** Tiles per row of the classic board, top to bottom. */
  const ClassicLayout: seq<nat> := [3, 4, 5, 4, 3]

  /** Tiles per row of the expansion board, top to bottom. */
  const ExpansionLayout: seq<nat> := [4, 5, 6, 5, 6, 4]

  function Layout(isExpansion: bool): seq<nat>
  {
    if isExpansion then ExpansionLayout else ClassicLayout
  }

  function Sum(counts: seq<nat>): nat
  {
    if counts == [] then 0 else counts[0] + Sum(counts[1..])
  }

  function Min(a: int, b: int): int
  {
    if a <= b then a else b
  }

  /** Concatenation of the rows, in order. */
  function Flatten<T>(rows: seq<seq<T>>): seq<T>
  {
    if rows == [] then [] else rows[0] + Flatten(rows[1..])
  }

  /** Reference definition of the rows: each row takes the next `count` tiles,
      or what is left when fewer remain. */
  function Partition<T>(tiles: seq<T>, counts: seq<nat>): (rows: seq<seq<T>>)
    ensures |rows| == |counts|
  {
    if counts == [] then []
    else
      var m := Min(counts[0], |tiles|);
      [tiles[..m]] + Partition(tiles[m..], counts[1..])
  }

  /** The row layouts hold 19 and 30 tiles, the sizes of the two terrain tables. */
  lemma LayoutTotals(isExpansion: bool)
    ensures Sum(Layout(isExpansion)) == |TerrainTable(isExpansion)| == (if isExpansion then 30 else 19)
  {
    TablesPair(isExpansion);
  }

  /** Reading the rows back in order gives the tiles, cut off after as many as the layout holds:
      no tile is skipped, repeated or reordered. */
  lemma {:induction false} PartitionFlattens<T>(tiles: seq<T>, counts: seq<nat>)
    ensures Flatten(Partition(tiles, counts)) == tiles[..Min(|tiles|, Sum(counts))]
  {
    if counts != [] {
      var m := Min(counts[0], |tiles|);
      PartitionFlattens(tiles[m..], counts[1..]);
      var rows := Partition(tiles, counts);
      assert rows[1..] == Partition(tiles[m..], counts[1..]);
      assert tiles[..Min(|tiles|, Sum(counts))] == tiles[..m] + tiles[m..][..Min(|tiles[m..]|, Sum(counts[1..]))];
    }
  }

  /** When there are at least as many tiles as the layout holds, every row is full. */
  lemma {:induction false} PartitionRowsFull<T>(tiles: seq<T>, counts: seq<nat>)
    requires Sum(counts) <= |tiles|
    ensures forall r :: 0 <= r < |counts| ==> |Partition(tiles, counts)[r]| == counts[r]
  {
    if counts != [] {
      var m := Min(counts[0], |tiles|);
      PartitionRowsFull(tiles[m..], counts[1..]);
      var rows := Partition(tiles, counts);
      assert rows[1..] == Partition(tiles[m..], counts[1..]);
      forall r | 0 < r < |counts| ensures |rows[r]| == counts[r] {
        assert rows[r] == rows[1..][r - 1];
      }
    }
  }

  /** One row of the partition: it takes the tiles from `start` up to `stop`, and the rest
      of the layout partitions what follows. */
  lemma PartitionStep<T>(tiles: seq<T>, counts: seq<nat>, r: nat, start: nat, stop: nat)
    requires r < |counts| && start <= stop <= |tiles|
    requires stop - start == Min(counts[r], |tiles| - start)
    ensures Partition(tiles[start..], counts[r..]) == [tiles[start..stop]] + Partition(tiles[stop..], counts[r + 1..])
  {
    assert counts[r..][0] == counts[r] && counts[r..][1..] == counts[r + 1..];
    assert tiles[start..][..stop - start] == tiles[start..stop];
    assert tiles[start..][stop - start..] == tiles[stop..];
  }

  /** A board of the size of its type (as every finished board is) fills the layout exactly:
      the rows read back as the board, there is one row per layout entry, and every row holds
      as many tiles as the layout says. */
  lemma BoardFillsLayout(board: seq<Tile>, isExpansion: bool)
    requires |board| == (if isExpansion then 30 else 19)
    ensures var rows := Partition(board, Layout(isExpansion));
            && Flatten(rows) == board
            && |rows| == |Layout(isExpansion)|
            && forall r :: 0 <= r < |rows| ==> |rows[r]| == Layout(isExpansion)[r]
  {
    LayoutTotals(isExpansion);
    PartitionFlattens(board, Layout(isExpansion));
    assert board[..Min(|board|, Sum(Layout(isExpansion)))] == board;
    PartitionRowsFull(board, Layout(isExpansion));
  }

  lemma SliceGrows<T>(s: seq<T>, i: nat, j: nat)
    requires i <= j < |s|
    ensures s[i..j + 1] == s[i..j] + [s[j]]
  {
  }

  /** Placing one more row keeps the rows placed so far a prefix of the partition. */
  lemma RowPlaced<T>(tiles: seq<T>, layout: seq<nat>, rows: seq<seq<T>>, r: nat, start: nat, stop: nat)
    requires r < |layout| && start <= stop <= |tiles|
    requires stop - start == Min(layout[r], |tiles| - start)
    requires rows + Partition(tiles[start..], layout[r..]) == Partition(tiles, layout)
    ensures (rows + [tiles[start..stop]]) + Partition(tiles[stop..], layout[r + 1..]) == Partition(tiles, layout)
  {
    PartitionStep(tiles, layout, r, start, stop);
    var rest := Partition(tiles[stop..], layout[r + 1..]);
    assert (rows + [tiles[start..stop]]) + rest == rows + ([tiles[start..stop]] + rest);
  }

  /** Once the layout is used up, the rows placed are the whole partition. */
  lemma RowsComplete<T>(tiles: seq<T>, layout: seq<nat>, rows: seq<seq<T>>, tileIndex: nat)
    requires tileIndex <= |tiles|
    requires rows + Partition(tiles[tileIndex..], layout[|layout|..]) == Partition(tiles, layout)
    ensures rows == Partition(tiles, layout)
  {
    assert layout[|layout|..] == [];
    assert rows + [] == rows;
  }

  /** The display of a board: picks the row layout for the board type and places the tiles row by row. */
  method DisplayBoard(tiles: seq<Tile>, isExpansion: bool) returns (rows: seq<seq<Tile>>)
    ensures rows == Partition(tiles, Layout(isExpansion))
    ensures |tiles| == Sum(Layout(isExpansion)) ==>
              Flatten(rows) == tiles
              && forall r :: 0 <= r < |rows| ==> |rows[r]| == Layout(isExpansion)[r]
  {
    rows := PlaceRows(tiles, Layout(isExpansion));
    if |tiles| == Sum(Layout(isExpansion)) {
      PartitionFlattens(tiles, Layout(isExpansion));
      PartitionRowsFull(tiles, Layout(isExpansion));
    }
  }

  /** The row loop of the display: walks the layout and lets `FillRow` place each row,
      advancing one cursor over the board. */
  method PlaceRows(tiles: seq<Tile>, layout: seq<nat>) returns (rows: seq<seq<Tile>>)
    ensures rows == Partition(tiles, layout)
  {
    var tileIndex := 0;
    rows := [];
    var r := 0;
    while r < |layout|
      invariant 0 <= r <= |layout|
      invariant 0 <= tileIndex <= |tiles|
      invariant rows + Partition(tiles[tileIndex..], layout[r..]) == Partition(tiles, layout)
    {
      var start := tileIndex;
      var row;
      row, tileIndex := FillRow(tiles, tileIndex, layout[r]);
      RowPlaced(tiles, layout, rows, r, start, tileIndex);
      rows := rows + [row];
      r := r + 1;
    }
    RowsComplete(tiles, layout, rows, tileIndex);
  }

  /** One row of the display: takes tiles from the cursor while the row has room and tiles
      remain, and returns the row with the advanced cursor. */
  method FillRow(tiles: seq<Tile>, tileIndex: nat, count: nat) returns (row: seq<Tile>, next: nat)
    requires tileIndex <= |tiles|
    ensures tileIndex <= next <= |tiles|
    ensures next - tileIndex == Min(count, |tiles| - tileIndex)
    ensures row == tiles[tileIndex..next]
  {
    next := tileIndex;
    row := [];
    var i := 0;
    while i < count && next < |tiles|
      invariant 0 <= i <= count
      invariant next == tileIndex + i <= |tiles|
      invariant row == tiles[tileIndex..next]
    {
      SliceGrows(tiles, tileIndex, next);
      row := row + [tiles[next]];
      next := next + 1;
      i := i + 1;
    }
  }

  /** The dot string under a number token: one dot per way to roll it with two dice,
      looked up in a table keyed by the number. */
  function GetProbabilityDots(number: Token): (dots: string)
    ensures number.Num? && IsPip(number.value) ==>
              |dots| == 6 - (if number.value < 7 then 7 - number.value else number.value - 7)
              && forall k :: 0 <= k < |dots| ==> dots[k] == '•'
    ensures !(number.Num? && IsPip(number.value)) ==> dots == ""
  {
    var probabilities := map[
      2 := "•", 3 := "••", 4 := "•••", 5 := "••••", 6 := "•••••",
      8 := "•••••", 9 := "••••", 10 := "•••", 11 := "••", 12 := "•"
    ];
    if number.Num? && number.value in probabilities then probabilities[number.value] else ""
  }

  datatype Option<T> = None | Some(value: T)

  /** The number element of a hex: the number, whether it carries the high-probability
      highlight, and its dots. */
  datatype NumberLabel = NumberLabel(number: int, highProbability: bool, dots: string)

  /** A hex shows a number element only when its number is truthy in JavaScript, so not
      for `null`, `undefined` or 0; 6 and 8 are highlighted. */
  function TileLabel(tile: Tile): (element: Option<NumberLabel>)
    ensures element.Some? <==> tile.number.Num? && tile.number.value != 0
    ensures element.Some? ==> element.value.number == tile.number.value
    ensures element.Some? && IsPip(element.value.number) ==> 1 <= |element.value.dots| <= 5
    ensures element.Some? && !IsPip(element.value.number) ==> element.value.dots == "" && !element.value.highProbability
  {
    if tile.number.Num? && tile.number.value != 0 then
      var n := tile.number.value;
      Some(NumberLabel(n, n == 6 || n == 8, GetProbabilityDots(tile.number)))
    else None
  }

  /** The dots are symmetric about 7: n and 14 - n get the same string. */
  lemma DotsSymmetric(n: int)
    ensures GetProbabilityDots(Num(n)) == GetProbabilityDots(Num(14 - n))
  {
  }
}
