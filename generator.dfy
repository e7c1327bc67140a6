/** Board generation: deal shuffled terrains, pair the shuffled numbers with the
    non-desert tiles, re-deal the numbers while the board is rejected (at most
    100 times), and lay the board out in hex rows. */
module Generator {
  import opened Tiles
  import opened Shuffling
  import opened Display

  /** Most re-deals of the numbers the retry loop performs. */
  const MaxAttempts: nat := 100

  /** The generator's settings, passed in rather than read from a global.
      Only `boardType` and `prevent68` are ever read. */
  datatype Settings = Settings(
    boardType: string,
    prevent68: bool,
    prevent212: bool,
    preventSameNumber: bool,
    preventSameResource: bool)

  /** Only the exact board type "expansion" selects the expansion tables; any other value is classic. */
  predicate IsExpansion(settings: Settings)
  {
    settings.boardType == "expansion"
  }

  /** The terrains of a board, tile by tile. */
  function TerrainsOf(board: seq<Tile>): seq<Terrain>
  {
    seq(|board|, k requires 0 <= k < |board| => board[k].terrain)
  }

  /** `numbers[k]` as JavaScript reads an array: `undefined` past its end. */
  function NumberAt(numbers: seq<int>, k: nat): (token: Token)
    ensures token != Null
    ensures token.Num? <==> k < |numbers|
    ensures token.Num? ==> token.value in numbers
  {
    if k < |numbers| then Num(numbers[k]) else Undefined
  }

  /** Reference definition of the pairing: tile `k` keeps terrain `k`; a desert gets `null`,
      any other terrain the number whose position is the count of non-deserts before it. */
  function Assigned(terrains: seq<Terrain>, numbers: seq<int>): (board: seq<Tile>)
  {
    seq(|terrains|, k requires 0 <= k < |terrains| => AssignedTile(terrains, numbers, k))
  }

  /** Tile `k` of the pairing. */
  function AssignedTile(terrains: seq<Terrain>, numbers: seq<int>, k: nat): Tile
    requires k < |terrains|
  {
    if terrains[k] == Desert then Tile(Desert, Null)
    else Tile(terrains[k], NumberAt(numbers, NonDesertCount(terrains[..k])))
  }

  /** The pairing keeps the terrains, in order. */
  lemma AssignedTerrains(terrains: seq<Terrain>, numbers: seq<int>)
    ensures TerrainsOf(Assigned(terrains, numbers)) == terrains
  {
  }

  /** The numbers on the board, in tile order. */
  function NumbersOf(board: seq<Tile>): seq<int>
  {
    if board == [] then []
    else
      var last := board[|board| - 1];
      NumbersOf(board[..|board| - 1]) + (if last.number.Num? then [last.number.value] else [])
  }

  /** Every desert holds `null` and every other tile a number. */
  ghost predicate Dealt(board: seq<Tile>)
  {
    forall k :: 0 <= k < |board| ==>
      if board[k].terrain == Desert then board[k].number == Null else board[k].number.Num?
  }

  /** A finished board: dealt, and its numbers are a permutation of the number table. */
  ghost predicate Paired(board: seq<Tile>, numbers: seq<int>)
  {
    Dealt(board) && multiset(NumbersOf(board)) == multiset(numbers)
  }

  lemma AssignedPrefix(terrains: seq<Terrain>, numbers: seq<int>, m: nat)
    requires m <= |terrains|
    ensures Assigned(terrains, numbers)[..m] == Assigned(terrains[..m], numbers)
  {
    forall k | 0 <= k < m
      ensures Assigned(terrains, numbers)[k] == Assigned(terrains[..m], numbers)[k]
    {
      assert terrains[..m][..k] == terrains[..k];
    }
  }

  /** When there are enough numbers, the board's numbers, read in tile order, are the first
      `NonDesertCount(terrains)` numbers in order. */
  lemma {:induction false} AssignedNumbers(terrains: seq<Terrain>, numbers: seq<int>)
    requires NonDesertCount(terrains) <= |numbers|
    ensures NumbersOf(Assigned(terrains, numbers)) == numbers[..NonDesertCount(terrains)]
  {
    if terrains != [] {
      var n := |terrains| - 1;
      var init := terrains[..n];
      var before := NonDesertCount(init);
      AssignedNumbers(init, numbers);
      AssignedPrefix(terrains, numbers, n);
      var board := Assigned(terrains, numbers);
      assert board[..n] == Assigned(init, numbers);
      if terrains[n] != Desert {
        assert board[n] == Tile(terrains[n], Num(numbers[before]));
        assert numbers[..before] + [numbers[before]] == numbers[..before + 1];
      }
    }
  }

  /** When there are enough numbers, no tile reads past their end. */
  lemma {:induction false} AssignedDefined(terrains: seq<Terrain>, numbers: seq<int>)
    requires NonDesertCount(terrains) <= |numbers|
    ensures forall k :: 0 <= k < |terrains| ==> Assigned(terrains, numbers)[k].number != Undefined
  {
    if terrains != [] {
      var n := |terrains| - 1;
      AssignedDefined(terrains[..n], numbers);
      AssignedPrefix(terrains, numbers, n);
      var board := Assigned(terrains, numbers);
      forall k | 0 <= k < |terrains| ensures board[k].number != Undefined {
        if k < n {
          assert board[k] == board[..n][k];
        }
      }
    }
  }

  /** A tile reads past the end of the numbers exactly when there are fewer numbers than non-desert terrains. */
  lemma {:induction false} AssignedRunsOut(terrains: seq<Terrain>, numbers: seq<int>)
    ensures (exists k :: 0 <= k < |terrains| && Assigned(terrains, numbers)[k].number == Undefined)
        <==> NonDesertCount(terrains) > |numbers|
  {
    if NonDesertCount(terrains) <= |numbers| {
      AssignedDefined(terrains, numbers);
    } else {
      var k := LastNonDesert(terrains);
      assert Assigned(terrains, numbers)[k].number == Undefined;
    }
  }

  /** The last non-desert terrain; the non-deserts before it are all but one. */
  lemma {:induction false} LastNonDesert(terrains: seq<Terrain>) returns (k: nat)
    requires NonDesertCount(terrains) > 0
    ensures k < |terrains| && terrains[k] != Desert
    ensures NonDesertCount(terrains[..k]) == NonDesertCount(terrains) - 1
  {
    var n := |terrains| - 1;
    if terrains[n] != Desert {
      k := n;
    } else {
      k := LastNonDesert(terrains[..n]);
      assert terrains[..n][..k] == terrains[..k];
    }
  }

  /** The pairing step with exactly one number per non-desert terrain gives a finished board
      whose numbers are exactly the given ones, in order. */
  lemma AssignedIsPaired(terrains: seq<Terrain>, numbers: seq<int>)
    requires NonDesertCount(terrains) == |numbers|
    ensures Paired(Assigned(terrains, numbers), numbers)
    ensures NumbersOf(Assigned(terrains, numbers)) == numbers
  {
    AssignedNumbers(terrains, numbers);
    AssignedDefined(terrains, numbers);
    assert numbers[..|numbers|] == numbers;
  }

  /** The number on any numbered tile is among the board's numbers. */
  lemma {:induction false} NumberListed(board: seq<Tile>, k: nat)
    requires k < |board| && board[k].number.Num?
    ensures board[k].number.value in NumbersOf(board)
  {
    var n := |board| - 1;
    if k < n {
      assert board[..n][k] == board[k];
      NumberListed(board[..n], k);
    }
  }

  /** On a board dealt from a table of pip values (as both number tables are, by
      `NumbersArePips`), every non-desert hex shows a number element and no desert does;
      each shown number has between one and five dots, and only 6 and 8 are highlighted. */
  lemma PairedBoardLabels(board: seq<Tile>, table: seq<int>)
    requires Paired(board, table) && forall n :: n in table ==> IsPip(n)
    ensures forall k :: 0 <= k < |board| ==> (TileLabel(board[k]).Some? <==> board[k].terrain != Desert)
    ensures forall k :: 0 <= k < |board| && TileLabel(board[k]).Some? ==>
              1 <= |TileLabel(board[k]).value.dots| <= 5
              && (TileLabel(board[k]).value.highProbability <==> IsHigh(board[k]))
  {
    forall k | 0 <= k < |board| {
      TileLabelOnPairedBoard(board, table, k);
    }
  }

  lemma TileLabelOnPairedBoard(board: seq<Tile>, table: seq<int>, k: nat)
    requires Paired(board, table) && forall n :: n in table ==> IsPip(n)
    requires k < |board|
    ensures TileLabel(board[k]).Some? <==> board[k].terrain != Desert
    ensures TileLabel(board[k]).Some? ==>
              1 <= |TileLabel(board[k]).value.dots| <= 5
              && (TileLabel(board[k]).value.highProbability <==> IsHigh(board[k]))
  {
    if board[k].terrain != Desert {
      NumberListed(board, k);
      assert board[k].number.value in multiset(NumbersOf(board));
      assert IsPip(board[k].number.value);
    }
  }

  /** On a dealt board there is one number per non-desert tile. */
  lemma {:induction false} DealtNumberCount(board: seq<Tile>)
    requires Dealt(board)
    ensures |NumbersOf(board)| == NonDesertCount(TerrainsOf(board))
  {
    if board != [] {
      var n := |board| - 1;
      assert TerrainsOf(board)[..n] == TerrainsOf(board[..n]);
      DealtNumberCount(board[..n]);
    }
  }

  /** The first pass of the pairing: maps the terrains into a new tile array, walking a cursor
      through the numbers, giving each desert `null` and each other terrain the next number. */
  method AssignNumbers(terrains: seq<Terrain>, numbers: seq<int>) returns (tiles: array<Tile>, numberIndex: nat)
    ensures fresh(tiles)
    ensures tiles[..] == Assigned(terrains, numbers)
    ensures numberIndex == NonDesertCount(terrains)
  {
    tiles := new Tile[|terrains|];
    numberIndex := 0;
    var k := 0;
    while k < |terrains|
      invariant 0 <= k <= |terrains|
      invariant forall q :: 0 <= q < k ==> tiles[q] == AssignedTile(terrains, numbers, q)
      invariant numberIndex == NonDesertCount(terrains[..k])
    {
      NonDesertCountStep(terrains, k);
      var terrain := terrains[k];
      if terrain == Desert {
        tiles[k] := Tile(terrain, Null);
      } else {
        tiles[k] := Tile(terrain, NumberAt(numbers, numberIndex));
        numberIndex := numberIndex + 1;
      }
      k := k + 1;
    }
    assert terrains[..k] == terrains;
  }

  predicate IsHigh(tile: Tile)
  {
    tile.number == Num(6) || tile.number == Num(8)
  }

  /** The tiles numbered 6 or 8, in board order. */
  function HighNumbers(board: seq<Tile>): (high: seq<Tile>)
    ensures forall t :: t in high <==> t in board && IsHigh(t)
  {
    if board == [] then []
    else
      var init, last := board[..|board| - 1], board[|board| - 1];
      assert board == init + [last];
      HighNumbers(init) + (if IsHigh(last) then [last] else [])
  }

  /** There are as many high tiles as sixes and eights among the board's numbers. */
  lemma {:induction false} HighNumbersCount(board: seq<Tile>)
    ensures |HighNumbers(board)| == multiset(NumbersOf(board))[6] + multiset(NumbersOf(board))[8]
  {
    if board != [] {
      var init, last := board[..|board| - 1], board[|board| - 1];
      HighNumbersCount(init);
      var tail := if last.number.Num? then [last.number.value] else [];
      assert multiset(NumbersOf(board)) == multiset(NumbersOf(init)) + multiset(tail);
    }
  }

  /** The acceptance test as written: with `prevent68` on it counts the tiles numbered 6 or 8,
      but both outcomes of the "more than 4" test accept, as does every other path. */
  function IsValidBoard(board: seq<Tile>, settings: Settings): (valid: bool)
    ensures valid
  {
    if settings.prevent68 then
      var high := HighNumbers(board);
      if |high| > 4 then true else true
    else true
  }

  /** A classic board always carries exactly 4 tiles numbered 6 or 8 and an expansion board 6,
      so the "more than 4" branch is taken on every expansion board and on no classic one. */
  lemma HighTilesOnEveryBoard(board: seq<Tile>, isExpansion: bool)
    requires Paired(board, NumberTable(isExpansion))
    ensures |HighNumbers(board)| == (if isExpansion then 6 else 4)
  {
    HighNumberCounts(isExpansion);
    HighNumbersCount(board);
  }

  /** Tile `k` after a re-deal: a desert keeps its tile; any other tile gets the number the
      pairing step would give it with the new numbers, as counted over the board's terrains. */
  function ReassignedTile(board: seq<Tile>, numbers: seq<int>, k: nat): Tile
    requires k < |board|
  {
    if board[k].terrain == Desert then board[k]
    else board[k].(number := NumberAt(numbers, NonDesertCount(TerrainsOf(board)[..k])))
  }

  /** A re-deal of the whole board. */
  function Reassigned(board: seq<Tile>, numbers: seq<int>): (result: seq<Tile>)
  {
    seq(|board|, k requires 0 <= k < |board| => ReassignedTile(board, numbers, k))
  }

  /** A re-deal changes only the numbers of non-desert tiles: the tile count, every terrain
      and every desert tile stay as they were. */
  lemma ReassignedTerrains(board: seq<Tile>, numbers: seq<int>)
    ensures |Reassigned(board, numbers)| == |board|
    ensures forall k :: 0 <= k < |board| ==>
              Reassigned(board, numbers)[k].terrain == board[k].terrain
              && (board[k].terrain == Desert ==> Reassigned(board, numbers)[k] == board[k])
    ensures TerrainsOf(Reassigned(board, numbers)) == TerrainsOf(board)
  {
  }

  /** On a dealt board, a re-deal is the pairing step run afresh on the same terrains. */
  lemma ReassignedIsAssigned(board: seq<Tile>, numbers: seq<int>)
    requires Dealt(board)
    ensures Reassigned(board, numbers) == Assigned(TerrainsOf(board), numbers)
  {
  }

  /** A re-deal with a permutation of the number table keeps the board finished. */
  lemma ReassignedKeepsPaired(board: seq<Tile>, table: seq<int>, numbers: seq<int>)
    requires Paired(board, table)
    requires multiset(numbers) == multiset(table)
    ensures Paired(Reassigned(board, numbers), table)
  {
    DealtNumberCount(board);
    assert |numbers| == |table| == |NumbersOf(board)| by {
      assert |multiset(numbers)| == |multiset(table)| == |multiset(NumbersOf(board))|;
    }
    ReassignedIsAssigned(board, numbers);
    AssignedIsPaired(TerrainsOf(board), numbers);
  }

  /** One pass of the retry loop over the tile array: a cursor walks the tiles and every
      non-desert tile's number is overwritten in place with the next number. */
  method Reassign(tiles: array<Tile>, numbers: seq<int>)
    modifies tiles
    ensures tiles[..] == Reassigned(old(tiles[..]), numbers)
  {
    ghost var before := tiles[..];
    ghost var terrains := TerrainsOf(before);
    var numberIndex := 0;
    var k := 0;
    while k < tiles.Length
      invariant 0 <= k <= tiles.Length
      invariant numberIndex == NonDesertCount(terrains[..k])
      invariant forall q :: 0 <= q < k ==> tiles[q] == ReassignedTile(before, numbers, q)
      invariant forall q :: k <= q < tiles.Length ==> tiles[q] == before[q]
    {
      NonDesertCountStep(terrains, k);
      if tiles[k].terrain != Desert {
        tiles[k] := tiles[k].(number := NumberAt(numbers, numberIndex));
        numberIndex := numberIndex + 1;
      }
      k := k + 1;
    }
  }

  /** The retry loop: while the board is rejected and fewer than `MaxAttempts` re-deals were
      made, shuffle a fresh copy of the number table and re-deal it. The acceptance test is
      a parameter; the generator passes `IsValidBoard`. */
  method RetryLoop(tiles: array<Tile>, table: seq<int>, settings: Settings,
                   accept: (seq<Tile>, Settings) -> bool) returns (attempts: nat)
    requires Paired(tiles[..], table)
    modifies tiles
    ensures attempts <= MaxAttempts
    ensures attempts < MaxAttempts ==> accept(tiles[..], settings)
    ensures accept(old(tiles[..]), settings) ==> attempts == 0 && tiles[..] == old(tiles[..])
    ensures TerrainsOf(tiles[..]) == TerrainsOf(old(tiles[..]))
    ensures Paired(tiles[..], table)
  {
    attempts := 0;
    while !accept(tiles[..], settings) && attempts < MaxAttempts
      invariant attempts <= MaxAttempts
      invariant attempts == 0 ==> tiles[..] == old(tiles[..])
      invariant accept(old(tiles[..]), settings) ==> attempts == 0
      invariant TerrainsOf(tiles[..]) == TerrainsOf(old(tiles[..]))
      invariant Paired(tiles[..], table)
      decreases MaxAttempts - attempts
    {
      var shuffled := Shuffle(table);
      ReassignedKeepsPaired(tiles[..], table, shuffled);
      ReassignedTerrains(tiles[..], shuffled);
      Reassign(tiles, shuffled);
      attempts := attempts + 1;
    }
  }

  /** A finished board of the given type: one tile per terrain of the table, in some order, each
      numbered from a permutation of the number table. */
  ghost predicate Finished(board: seq<Tile>, isExpansion: bool)
  {
    && |board| == (if isExpansion then 30 else 19)
    && multiset(TerrainsOf(board)) == multiset(TerrainTable(isExpansion))
    && Paired(board, NumberTable(isExpansion))
  }

  /** Pairing shuffled copies of a board type's tables gives a finished board of the right size
      whose terrains are a permutation of the terrain table. */
  lemma ShuffledTablesPair(isExpansion: bool, terrains: seq<Terrain>, numbers: seq<int>)
    requires multiset(terrains) == multiset(TerrainTable(isExpansion))
    requires multiset(numbers) == multiset(NumberTable(isExpansion))
    ensures NonDesertCount(terrains) == |numbers|
    ensures Finished(Assigned(terrains, numbers), isExpansion)
  {
    TablesPair(isExpansion);
    NonDesertCountIsAllButDeserts(terrains);
    NonDesertCountIsAllButDeserts(TerrainTable(isExpansion));
    assert |terrains| == |multiset(terrains)|;
    assert |numbers| == |multiset(numbers)|;
    AssignedIsPaired(terrains, numbers);
    AssignedTerrains(terrains, numbers);
  }

  /** The first deal: shuffles the terrain and number tables of the board type and pairs them. */
  method DealBoard(isExpansion: bool) returns (tiles: array<Tile>)
    ensures fresh(tiles)
    ensures Finished(tiles[..], isExpansion)
  {
    var terrains := Shuffle(TerrainTable(isExpansion));
    var numbers := Shuffle(NumberTable(isExpansion));
    ShuffledTablesPair(isExpansion, terrains, numbers);
    var numberIndex;
    tiles, numberIndex := AssignNumbers(terrains, numbers);
  }

  /** Re-dealing numbers keeps a finished board finished as long as its terrains stay put. */
  lemma FinishedKept(before: seq<Tile>, after: seq<Tile>, isExpansion: bool)
    requires Finished(before, isExpansion)
    requires TerrainsOf(after) == TerrainsOf(before)
    requires Paired(after, NumberTable(isExpansion))
    ensures Finished(after, isExpansion)
  {
    assert |after| == |TerrainsOf(after)|;
  }

  /** Generates a board: deals it, runs the retry loop with `IsValidBoard`, and lays the tiles
      out in rows. */
  method GenerateBoard(settings: Settings) returns (board: seq<Tile>, attempts: nat, rows: seq<seq<Tile>>)
    ensures Finished(board, IsExpansion(settings))
    ensures attempts == 0
    ensures rows == Partition(board, Layout(IsExpansion(settings)))
  {
    var isExpansion := IsExpansion(settings);
    var tiles := DealBoard(isExpansion);
    ghost var dealt := tiles[..];
    attempts := RetryLoop(tiles, NumberTable(isExpansion), settings, IsValidBoard);
    board := tiles[..];
    FinishedKept(dealt, board, isExpansion);

    rows := DisplayBoard(board, isExpansion);
  }
}
