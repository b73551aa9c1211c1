/** The game loop: the player's balance and bet, starting a spin on every
    reel, assembling the reels' visible symbols into a grid once they have all
    stopped, and crediting what the paylines pay. The user interface calls are
    left out; everything they display is state modelled here. */
module Game {
  import opened Symbols
  import opened Paylines
  import opened Reels

  /** Unity's integer clamp: the minimum when below it, otherwise the maximum
      when above it, otherwise the value itself. */
  function Clamp(value: int, min: int, max: int): (r: int)
    ensures min <= max ==> min <= r <= max
    ensures min <= value <= max ==> r == value
    ensures value < min ==> r == min
    ensures min <= value && max < value ==> r == max
  {
    if value < min then min
    else if value > max then max
    else value
  }

  /** Clamping twice is clamping once. */
  lemma ClampIdempotent(value: int, min: int, max: int)
    requires min <= max
    ensures Clamp(Clamp(value, min, max), min, max) == Clamp(value, min, max)
  {
  }

  /** A larger value never clamps to a smaller bet. */
  lemma ClampMonotone(a: int, b: int, min: int, max: int)
    requires a <= b
    ensures Clamp(a, min, max) <= Clamp(b, min, max) || max < min
  {
  }

  /** What a win adds to the balance: the total when positive, else nothing. */
  function Credit(totalWin: int): (c: int)
    ensures c >= 0
    ensures c == 0 <==> totalWin <= 0
    ensures c > 0 ==> c == totalWin
  {
    if totalWin > 0 then totalWin else 0
  }

  /** Every symbol any of the reels holds. */
  function ReelSymbols(reels: seq<ReelController>): set<Symbol>
    reads reels`children
  {
    set k, p | 0 <= k < |reels| && 0 <= p < |reels[k].children| :: reels[k].children[p]
  }

  /** The first `rows` children of each reel show `kinds`, indexed [reel][row]. */
  ghost predicate ReelsShow(reels: seq<ReelController>, rows: nat, kinds: seq<seq<SymbolType>>)
    reads reels`children, ReelSymbols(reels)`symbolType
  {
    && |kinds| == |reels|
    && (forall k :: 0 <= k < |reels| ==> rows <= |reels[k].children| && |kinds[k]| == rows)
    && forall k, p :: 0 <= k < |reels| && 0 <= p < rows ==>
         assert reels[k].children[p] in ReelSymbols(reels);
         kinds[k][p] == reels[k].children[p].symbolType
  }

  /** What the reels show is determined by the reels. */
  lemma ReelsShowUnique(reels: seq<ReelController>, rows: nat, a: seq<seq<SymbolType>>, b: seq<seq<SymbolType>>)
    requires ReelsShow(reels, rows, a) && ReelsShow(reels, rows, b)
    ensures a == b
  {
    forall k | 0 <= k < |reels|
      ensures a[k] == b[k]
    {
      assert forall p :: 0 <= p < rows ==> a[k][p] == reels[k].children[p].symbolType == b[k][p];
    }
  }

  /** The kinds the first `rows` children of each reel show. */
  ghost function ShownKinds(reels: seq<ReelController>, rows: nat): (kinds: seq<seq<SymbolType>>)
    requires forall k :: 0 <= k < |reels| ==> rows <= |reels[k].children|
    reads reels`children, ReelSymbols(reels)`symbolType
    ensures ReelsShow(reels, rows, kinds)
  {
    ShownReels(reels, rows, |reels|)
  }

  /** The kinds shown by the first `n` reels. */
  ghost function ShownReels(reels: seq<ReelController>, rows: nat, n: nat): (kinds: seq<seq<SymbolType>>)
    requires n <= |reels| && forall k :: 0 <= k < |reels| ==> rows <= |reels[k].children|
    reads reels`children, ReelSymbols(reels)`symbolType
    ensures |kinds| == n
    ensures forall k :: 0 <= k < n ==>
              |kinds[k]| == rows && forall p :: 0 <= p < rows ==> kinds[k][p] == reels[k].children[p].symbolType
  {
    if n == 0 then [] else ShownReels(reels, rows, n - 1) + [ShownRows(reels, n - 1, rows)]
  }

  /** The kinds shown by the first `n` rows of reel `k`. */
  ghost function ShownRows(reels: seq<ReelController>, k: nat, n: nat): (kinds: seq<SymbolType>)
    requires k < |reels| && n <= |reels[k].children|
    reads reels`children, ReelSymbols(reels)`symbolType
    ensures |kinds| == n
    ensures forall p :: 0 <= p < n ==> kinds[p] == reels[k].children[p].symbolType
  {
    if n == 0 then []
    else
      assert reels[k].children[n - 1] in ReelSymbols(reels);
      ShownRows(reels, k, n - 1) + [reels[k].children[n - 1].symbolType]
  }

  /** A game stays valid, and its reels keep showing what they showed, in any
      later state in which the bet, the balance, the reels' children and
      result indices, the paylines and the kinds of the reels' symbols are
      unchanged. */
  twostate lemma GameKept(game: GameManager)
    requires old(game.Valid())
    requires unchanged(game`currentBet, game`playerBalance, game.reels`children, game.reels`spinResultIndex, game.paylineManager`paylines)
    requires unchanged(ReelSymbols(game.reels)`symbolType)
    ensures game.Valid()
    ensures forall kinds :: old(ReelsShow(game.reels, game.reels[0].visibleSymbols, kinds)) ==>
              ReelsShow(game.reels, game.reels[0].visibleSymbols, kinds)
  {
  }

  /** A grid whose cell [r, p] is child p of reel r shows the kinds of those
      children and holds only symbols of the reels. */
  lemma GridOfReels(grid: array2<Symbol?>, reels: seq<ReelController>, kinds: seq<seq<SymbolType>>)
    requires grid.Length0 == |reels| && ReelsShow(reels, grid.Length1, kinds)
    requires forall r, p :: 0 <= r < grid.Length0 && 0 <= p < grid.Length1 ==> grid[r, p] == reels[r].children[p]
    ensures Shows(grid, kinds)
    ensures Cells(grid) <= ReelSymbols(reels)
  {
    CellsWithin(grid, ReelSymbols(reels));
    ShowsFrom(grid, kinds);
  }

  /** The game: settings, player data and references to the reels and the
      payline evaluator. */
  class GameManager {
    // The settings and references are configured once and never reassigned.
    const minBet: int
    const maxBet: int
    const reels: seq<ReelController>
    const paylineManager: PaylineManager
    var playerBalance: int
    var currentBet: int
    var isSpinning: bool

    /** The bet lies within non-negative limits, the balance is not negative
        and the reels are valid. */
    ghost predicate Valid()
      reads this`currentBet, this`playerBalance, reels`children, reels`spinResultIndex, paylineManager`paylines
    {
      && 0 <= minBet <= currentBet <= maxBet
      && 0 <= playerBalance
      && ReelsValid()
    }

    /** There is at least one reel, every reel is valid and shows as many rows
        as the first, and every payline fits the resulting grid. */
    ghost predicate ReelsValid()
      reads reels`children, reels`spinResultIndex, paylineManager`paylines
    {
      && |reels| >= 1
      && (forall k :: 0 <= k < |reels| ==> reels[k].Valid())
      && (forall k :: 0 <= k < |reels| ==> reels[k].visibleSymbols == reels[0].visibleSymbols)
      && (forall k :: 0 <= k < |paylineManager.paylines| ==> FitsGrid(paylineManager.paylines[k], |reels|, reels[0].visibleSymbols))
    }

    /** No reel is listed twice. The reels never change, so this holds for
        the whole life of the game. */
    predicate DistinctReels()
    {
      forall i, j :: 0 <= i < j < |reels| ==> reels[i] != reels[j]
    }

    /** A game with the default settings and player data. */
    constructor (rs: seq<ReelController>, manager: PaylineManager)
      requires |rs| >= 1 && forall i, j :: 0 <= i < j < |rs| ==> rs[i] != rs[j]
      requires forall k :: 0 <= k < |rs| ==> rs[k].Valid() && rs[k].visibleSymbols == rs[0].visibleSymbols
      requires forall k :: 0 <= k < |manager.paylines| ==> FitsGrid(manager.paylines[k], |rs|, rs[0].visibleSymbols)
      ensures Valid() && DistinctReels()
      ensures minBet == 10 && maxBet == 1000 && playerBalance == 1000 && currentBet == 50
      ensures reels == rs && paylineManager == manager && !isSpinning
    {
      minBet := 10;
      maxBet := 1000;
      playerBalance := 1000;
      currentBet := 50;
      reels := rs;
      paylineManager := manager;
      isSpinning := false;
    }

    /** Starts a spin unless one is running or the balance cannot cover the
        bet: the bet is deducted and every reel is started, an idle reel `k`
        taking `draws[k]`, its random pool index, as its stop position. */
    method StartSpin(draws: seq<int>)
      requires Valid() && DistinctReels()
      requires |draws| == |reels| && forall k :: 0 <= k < |reels| ==> 0 <= draws[k] < |reels[k].possibleSymbols|
      modifies this`playerBalance, this`isSpinning, reels`spinResultIndex
      ensures Valid()
      ensures old(isSpinning) || old(playerBalance) < currentBet ==>
                playerBalance == old(playerBalance) && isSpinning == old(isSpinning) &&
                forall k :: 0 <= k < |reels| ==> reels[k].spinResultIndex == old(reels[k].spinResultIndex)
      ensures !old(isSpinning) && currentBet <= old(playerBalance) ==>
                playerBalance == old(playerBalance) - currentBet && isSpinning &&
                forall k :: 0 <= k < |reels| && !old(reels[k].isSpinning) ==> reels[k].spinResultIndex == draws[k]
      ensures forall k :: 0 <= k < |reels| ==>
                reels[k].isSpinning == old(reels[k].isSpinning) && reels[k].children == old(reels[k].children)
      ensures forall k :: 0 <= k < |reels| ==>
                old(reels[k].isSpinning) ==> reels[k].spinResultIndex == old(reels[k].spinResultIndex)
    {
      if isSpinning || playerBalance < currentBet {
        return;
      }
      playerBalance := playerBalance - currentBet;
      isSpinning := true;
      for i := 0 to |reels|
        invariant playerBalance == old(playerBalance) - currentBet && isSpinning
        invariant forall k :: 0 <= k < |reels| ==> reels[k].Valid()
        invariant forall k :: 0 <= k < |reels| ==>
                    reels[k].isSpinning == old(reels[k].isSpinning) && reels[k].children == old(reels[k].children)
        invariant forall k :: 0 <= k < |reels| ==>
                    old(reels[k].isSpinning) ==> reels[k].spinResultIndex == old(reels[k].spinResultIndex)
        invariant forall k :: 0 <= k < i && !old(reels[k].isSpinning) ==> reels[k].spinResultIndex == draws[k]
      {
        reels[i].StartSpin(draws[i]);
      }
    }

    /** Adds `amount` to the bet, clamped to the bet limits; nothing else changes. */
    method ChangeBet(amount: int)
      requires Valid()
      modifies this`currentBet
      ensures Valid()
      ensures currentBet == Clamp(old(currentBet) + amount, minBet, maxBet)
    {
      currentBet := Clamp(currentBet + amount, minBet, maxBet);
    }

    /** A fresh grid with a column per reel and as many rows as the first reel
        shows; cell [r, p] holds the reel's visible symbol at row p, or null
        where that reel shows fewer rows. */
    method GetSymbolGrid() returns (grid: array2<Symbol?>)
      requires |reels| >= 1
      requires forall k :: 0 <= k < |reels| ==> 0 <= reels[k].visibleSymbols <= reels[0].visibleSymbols
      ensures fresh(grid)
      ensures grid.Length0 == |reels| && grid.Length1 == reels[0].visibleSymbols
      ensures forall r, p :: 0 <= r < grid.Length0 && 0 <= p < grid.Length1 ==>
                grid[r, p] == if p < reels[r].visibleSymbols then reels[r].GetVisibleSymbol(p) else null
    {
      grid := new Symbol?[|reels|, reels[0].visibleSymbols];
      forall r, p | 0 <= r < grid.Length0 && 0 <= p < grid.Length1 {
        grid[r, p] := null;
      }
      for reelIndex := 0 to |reels|
        invariant forall r, p :: 0 <= r < grid.Length0 && 0 <= p < grid.Length1 ==>
                    grid[r, p] == if r < reelIndex && p < reels[r].visibleSymbols then reels[r].GetVisibleSymbol(p) else null
      {
        for symbolPos := 0 to reels[reelIndex].visibleSymbols
          invariant forall r, p :: 0 <= r < grid.Length0 && 0 <= p < grid.Length1 ==>
                      grid[r, p] == if (r < reelIndex && p < reels[r].visibleSymbols) || (r == reelIndex && p < symbolPos)
                                    then reels[r].GetVisibleSymbol(p) else null
        {
          grid[reelIndex, symbolPos] := reels[reelIndex].GetVisibleSymbol(symbolPos);
        }
      }
    }

    /** The paylines' total for the current bet on the grid of the stopped
        reels, which show `kinds`; winning symbols start their animation, and
        the reels keep showing `kinds`. */
    method GridWin(ghost kinds: seq<seq<SymbolType>>) returns (totalWin: int)
      requires Valid() && ReelsShow(reels, reels[0].visibleSymbols, kinds)
      modifies ReelSymbols(reels)`isAnimating, ReelSymbols(reels)`timer
      ensures Valid() && ReelsShow(reels, reels[0].visibleSymbols, kinds)
      ensures LinesFit(paylineManager.paylines, kinds)
      ensures totalWin == TotalWin(paylineManager.paylines, kinds, currentBet)
    {
      var symbolGrid := GetSymbolGrid();
      GridOfReels(symbolGrid, reels, kinds);
      totalWin := paylineManager.CalculateWin(symbolGrid, currentBet, kinds);
      GameKept(this);
    }

    /** Evaluates the stopped reels, which show `kinds`: the paylines' total
        for the current bet is credited when positive. */
    method EvaluateWins(ghost kinds: seq<seq<SymbolType>>)
      requires Valid() && ReelsShow(reels, reels[0].visibleSymbols, kinds)
      modifies this`playerBalance, ReelSymbols(reels)`isAnimating, ReelSymbols(reels)`timer
      ensures Valid() && ReelsShow(reels, reels[0].visibleSymbols, kinds)
      ensures LinesFit(paylineManager.paylines, kinds)
      ensures playerBalance == old(playerBalance) + Credit(TotalWin(paylineManager.paylines, kinds, currentBet))
    {
      var totalWin := GridWin(kinds);
      if totalWin > 0 {
        playerBalance := playerBalance + totalWin;
      }
    }

    /** The callback of the last reel to stop: the spin is over and the wins
        of the reels, which show `kinds`, are evaluated. */
    method OnSpinComplete(ghost kinds: seq<seq<SymbolType>>)
      requires Valid() && ReelsShow(reels, reels[0].visibleSymbols, kinds)
      modifies this`isSpinning, this`playerBalance, ReelSymbols(reels)`isAnimating, ReelSymbols(reels)`timer
      ensures Valid() && !isSpinning && ReelsShow(reels, reels[0].visibleSymbols, kinds)
      ensures LinesFit(paylineManager.paylines, kinds)
      ensures playerBalance == old(playerBalance) + Credit(TotalWin(paylineManager.paylines, kinds, currentBet))
    {
      isSpinning := false;
      EvaluateWins(kinds);
    }

    /** What a reel does once it has stopped and cleared its flag: if no
        reel is left spinning, the game is told the spin is complete. `shown`
        is what the reels show at that point. */
    method ReelStopped() returns (allStopped: bool, ghost shown: seq<seq<SymbolType>>)
      requires Valid()
      modifies this`isSpinning, this`playerBalance, ReelSymbols(reels)`isAnimating, ReelSymbols(reels)`timer
      ensures Valid() && ReelsShow(reels, reels[0].visibleSymbols, shown)
      ensures allStopped <==> forall k :: 0 <= k < |reels| ==> !reels[k].isSpinning
      ensures LinesFit(paylineManager.paylines, shown)
      ensures allStopped ==>
                !isSpinning &&
                playerBalance == old(playerBalance) + Credit(TotalWin(paylineManager.paylines, shown, currentBet))
      ensures !allStopped ==> isSpinning == old(isSpinning) && playerBalance == old(playerBalance)
    {
      shown := ShownKinds(reels, reels[0].visibleSymbols);
      allStopped := AllStopped(reels);
      if allStopped {
        OnSpinComplete(shown);
      }
    }
  }
}
