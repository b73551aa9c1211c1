/** One reel: its pool of template symbols, the symbols it shows in child
    order, the draw that decides where it stops, the cosmetic cycling while it
    scrolls and the final assignment of its strip. Frame timing, scrolling
    and sound are not modelled; the spin coroutine is split into the steps
    that change state. */
module Reels {
  import opened Symbols

  /** The `%` of C#: the remainder has the sign of the dividend. */
  function CsRem(a: int, n: int): (r: int)
    requires n > 0
    ensures a >= 0 ==> 0 <= r < n
    ensures a < 0 ==> -n < r <= 0
  {
    if a >= 0 then a % n else -((-a) % n)
  }

  /** A number already in [0, n) is its own remainder. */
  lemma SmallMod(a: int, n: int)
    requires n > 0
    ensures 0 <= a < n ==> a % n == a
  {
    if 0 <= a < n {
      ModUnique(a, n, 0, a);
    }
  }

  /** Adding the modulus does not change a remainder. */
  lemma ModShift(a: int, n: int)
    requires n > 0
    ensures (a + n) % n == a % n
  {
    ModUnique(a + n, n, a / n + 1, a % n);
  }

  /** The pool index that `SetFinalSymbols` assigns to child `i`, for result
      index `r`, middle child `m` and pool size `n`: the result itself in the
      middle, and pool neighbours, wrapped around, above and below it. */
  function FinalIndex(r: int, m: int, n: int, i: int): (f: int)
    requires n > 0
    ensures 0 <= r < n && 0 <= i && m <= r + n ==> 0 <= f < n
  {
    if i < m then CsRem(r - (m - i) + n, n)
    else if i == m then r
    else CsRem(r + (i - m), n)
  }

  /** Child `i` holds the pool index `i - m` places after the result,
      wrapped around the pool. */
  lemma FinalIndexWraps(r: int, m: int, n: int, i: int)
    requires n > 0 && 0 <= r < n && 0 <= i && m <= r + n
    ensures FinalIndex(r, m, n, i) == (r + (i - m)) % n
  {
    if i < m {
      ModShift(r - (m - i), n);
    } else if i == m {
      SmallMod(r, n);
    }
  }

  /** Adjacent children hold consecutive pool indices, modulo the pool size. */
  lemma FinalIndexConsecutive(r: int, m: int, n: int, i: int)
    requires n > 0 && 0 <= r < n && 0 <= i && m <= r + n
    ensures FinalIndex(r, m, n, i + 1) == (FinalIndex(r, m, n, i) + 1) % n
  {
    FinalIndexWraps(r, m, n, i);
    FinalIndexWraps(r, m, n, i + 1);
    ModSucc(r + (i - m), n);
  }

  lemma MulAtLeast(x: int, n: int)
    requires x >= 1 && n > 0
    ensures x * n >= n
  {
  }

  /** The remainder is determined by any quotient-remainder decomposition. */
  lemma ModUnique(a: int, n: int, q: int, r: int)
    requires n > 0 && a == q * n + r && 0 <= r < n
    ensures a % n == r
  {
    var q', r' := a / n, a % n;
    assert a == q' * n + r';
    assert (q - q') * n == r' - r;
    if q > q' {
      MulAtLeast(q - q', n);
    } else if q < q' {
      MulAtLeast(q' - q, n);
    }
  }

  lemma ModSucc(a: int, n: int)
    requires n > 0
    ensures (a + 1) % n == (a % n + 1) % n
  {
    if a % n + 1 < n {
      ModUnique(a + 1, n, a / n, a % n + 1);
      ModUnique(a % n + 1, n, 0, a % n + 1);
    } else {
      ModUnique(a + 1, n, a / n + 1, 0);
      ModUnique(a % n + 1, n, 1, 0);
    }
  }

  /** The symbol shows the kind and value of some template of the pool. */
  ghost predicate CopiesTemplate(s: Symbol, pool: seq<Symbol>)
    reads s, pool
  {
    exists k :: 0 <= k < |pool| &&
      s.symbolType == pool[k].symbolType && s.baseValue == pool[k].baseValue
  }

  /** A reel and the symbols it shows. */
  class ReelController {
    // The configuration: rows on screen and the pool of templates.
    const visibleSymbols: int
    const possibleSymbols: seq<Symbol>
    /** The reel's symbols in child order; the first `visibleSymbols` are the
        ones the grid reads. */
    var children: seq<Symbol>
    var isSpinning: bool
    var spinResultIndex: int

    /** A configured and initialised reel: a non-empty pool, a middle row no
        further down than the pool is long, `visibleSymbols + 4` distinct
        children that are not pool templates, and an in-range result index. */
    ghost predicate Valid()
      reads this`children, this`spinResultIndex
    {
      && |possibleSymbols| > 0
      && 0 <= visibleSymbols
      && visibleSymbols / 2 <= |possibleSymbols|
      && |children| == visibleSymbols + 4
      && (forall i, j :: 0 <= i < j < |children| ==> children[i] != children[j])
      && (forall c :: c in children ==> c !in possibleSymbols)
      && 0 <= spinResultIndex < |possibleSymbols|
    }

    /** A reel built from its configuration and initialised. */
    constructor (visible: int, pool: seq<Symbol>)
      requires |pool| > 0 && 0 <= visible && visible / 2 <= |pool|
      ensures Valid()
      ensures visibleSymbols == visible && possibleSymbols == pool
      ensures !isSpinning
      ensures forall c :: c in children ==> fresh(c) && !c.isAnimating
      ensures forall i :: 0 <= i < |children| ==> CopiesTemplate(children[i], possibleSymbols)
    {
      visibleSymbols := visible;
      possibleSymbols := pool;
      children := [];
      isSpinning := false;
      spinResultIndex := 0;
      new;
      InitializeReel();
    }

    /** Replaces the reel's symbols by `visibleSymbols + 4` fresh copies of
        templates drawn from the pool. */
    method InitializeReel()
      requires |possibleSymbols| > 0 && 0 <= visibleSymbols && visibleSymbols / 2 <= |possibleSymbols|
      requires 0 <= spinResultIndex < |possibleSymbols|
      modifies this`children
      ensures Valid()
      ensures |children| == visibleSymbols + 4
      ensures forall c :: c in children ==> fresh(c) && !c.isAnimating
      ensures forall i :: 0 <= i < |children| ==> CopiesTemplate(children[i], possibleSymbols)
    {
      var totalSymbols := visibleSymbols + 4;
      var created: seq<Symbol> := [];
      ghost var drawn: seq<int> := [];
      var i := 0;
      while i < totalSymbols
        invariant 0 <= i <= totalSymbols && |created| == i && |drawn| == i
        invariant forall c :: c in created ==> fresh(c) && !c.isAnimating
        invariant forall a, b :: 0 <= a < b < i ==> created[a] != created[b]
        invariant forall a :: 0 <= a < i ==>
                    0 <= drawn[a] < |possibleSymbols| &&
                    created[a].symbolType == possibleSymbols[drawn[a]].symbolType &&
                    created[a].baseValue == possibleSymbols[drawn[a]].baseValue
      {
        var randomIndex :| 0 <= randomIndex < |possibleSymbols|;
        var s := new Symbol.Instantiate(possibleSymbols[randomIndex]);
        created := created + [s];
        drawn := drawn + [randomIndex];
        i := i + 1;
      }
      children := created;
      forall a | 0 <= a < |children|
        ensures CopiesTemplate(children[a], possibleSymbols)
      {
        assert possibleSymbols[drawn[a]].symbolType == children[a].symbolType;
      }
    }

    /** Takes `draw`, the random pool index, as the stop position unless the
        reel is already spinning. */
    method StartSpin(draw: int)
      requires Valid() && 0 <= draw < |possibleSymbols|
      modifies this`spinResultIndex
      ensures Valid()
      ensures old(isSpinning) ==> spinResultIndex == old(spinResultIndex)
      ensures !old(isSpinning) ==> spinResultIndex == draw
    {
      if isSpinning {
        return;
      }
      spinResultIndex := draw;
    }

    /** The end of the start delay: the reel is flagged as spinning. */
    method BeginSpinning()
      modifies this`isSpinning
      ensures isSpinning
    {
      isSpinning := true;
    }

    /** Cosmetic scrolling: the first child moves to the end and shows a
        template drawn from the pool; no other symbol changes. */
    method CycleSymbols()
      requires Valid()
      modifies this`children, children[..1]`symbolType, children[..1]`baseValue
      ensures Valid()
      ensures children == old(children[1..]) + [old(children[0])]
      ensures CopiesTemplate(children[|children| - 1], possibleSymbols)
    {
      var firstSymbol := children[0];
      children := children[1..] + [firstSymbol];
      assert firstSymbol !in possibleSymbols;
      var randomIndex :| 0 <= randomIndex < |possibleSymbols|;
      firstSymbol.SetSymbol(possibleSymbols[randomIndex]);
    }

    /** Assigns the final strip: the drawn result in the middle child and its
        pool neighbours, wrapped around, in the children above and below. */
    method SetFinalSymbols()
      requires Valid()
      modifies children
      ensures forall i :: 0 <= i < |children| ==>
                0 <= FinalIndex(spinResultIndex, visibleSymbols / 2, |possibleSymbols|, i) < |possibleSymbols|
      ensures forall i :: 0 <= i < |children| ==>
                var t := possibleSymbols[FinalIndex(spinResultIndex, visibleSymbols / 2, |possibleSymbols|, i)];
                children[i].symbolType == t.symbolType && children[i].baseValue == t.baseValue
      ensures forall c :: c in children ==> c.isAnimating == old(c.isAnimating) && c.timer == old(c.timer)
    {
      var n := |possibleSymbols|;
      var middleIndex := visibleSymbols / 2;
      var strip := children;
      var r := spinResultIndex;
      strip[middleIndex].SetSymbol(possibleSymbols[r]);
      var i := 0;
      while i < middleIndex
        invariant 0 <= i <= middleIndex
        invariant forall k :: (0 <= k < i || k == middleIndex) ==>
                    var t := possibleSymbols[FinalIndex(r, middleIndex, n, k)];
                    strip[k].symbolType == old(t.symbolType) && strip[k].baseValue == old(t.baseValue)
        invariant forall c :: c in strip ==> c.isAnimating == old(c.isAnimating) && c.timer == old(c.timer)
      {
        var index := CsRem(r - (middleIndex - i) + n, n);
        assert index == FinalIndex(r, middleIndex, n, i);
        assert possibleSymbols[index] !in strip;
        strip[i].SetSymbol(possibleSymbols[index]);
        i := i + 1;
      }
      i := middleIndex + 1;
      while i < |strip|
        invariant middleIndex + 1 <= i <= |strip|
        invariant forall k :: 0 <= k < i ==>
                    var t := possibleSymbols[FinalIndex(r, middleIndex, n, k)];
                    strip[k].symbolType == old(t.symbolType) && strip[k].baseValue == old(t.baseValue)
        invariant forall c :: c in strip ==> c.isAnimating == old(c.isAnimating) && c.timer == old(c.timer)
      {
        var index := CsRem(r + (i - middleIndex), n);
        assert index == FinalIndex(r, middleIndex, n, i);
        assert possibleSymbols[index] !in strip;
        strip[i].SetSymbol(possibleSymbols[index]);
        i := i + 1;
      }
      forall k | 0 <= k < |strip|
        ensures var t := possibleSymbols[FinalIndex(r, middleIndex, n, k)];
                strip[k].symbolType == t.symbolType && strip[k].baseValue == t.baseValue
      {
        assert possibleSymbols[FinalIndex(r, middleIndex, n, k)] !in strip;
      }
    }

    /** The end of the spin: the final strip is assigned and the reel is no
        longer flagged as spinning. */
    method StopSpin()
      requires Valid()
      modifies this`isSpinning, children
      ensures Valid() && !isSpinning
      ensures forall i :: 0 <= i < |children| ==>
                var t := possibleSymbols[FinalIndex(spinResultIndex, visibleSymbols / 2, |possibleSymbols|, i)];
                children[i].symbolType == t.symbolType && children[i].baseValue == t.baseValue
      ensures forall c :: c in children ==> c.isAnimating == old(c.isAnimating) && c.timer == old(c.timer)
    {
      SetFinalSymbols();
      isSpinning := false;
    }

    /** The symbol shown at a visible position, or null for a position outside
        the visible rows or beyond the reel's children. */
    function GetVisibleSymbol(position: int): (s: Symbol?)
      reads this
      ensures s != null <==> 0 <= position < visibleSymbols && position < |children|
      ensures s != null ==> s == children[position]
    {
      if position < 0 || position >= visibleSymbols then null
      else if |children| > position then children[position]
      else null
    }
  }

  /** The barrier: true exactly when no reel of the list is still spinning. */
  method AllStopped(reels: seq<ReelController>) returns (allStopped: bool)
    ensures allStopped <==> forall k :: 0 <= k < |reels| ==> !reels[k].isSpinning
  {
    allStopped := true;
    var i := 0;
    while i < |reels|
      invariant 0 <= i <= |reels|
      invariant forall k :: 0 <= k < i ==> !reels[k].isSpinning
    {
      if reels[i].isSpinning {
        allStopped := false;
        break;
      }
      i := i + 1;
    }
  }

  // -----------------------------------------------------------------------
  // The barrier over a whole spin, on the reels' spinning flags

  /** No flag is set. */
  predicate NoneSpinning(spinning: seq<bool>)
  {
    forall k :: 0 <= k < |spinning| ==> !spinning[k]
  }

  /** How many times the spin-complete callback fires when the reels stop in
      the given order: each stop clears that reel's flag and then fires the
      callback if no flag is left set. */
  function Completions(spinning: seq<bool>, order: seq<nat>): (fired: nat)
    requires forall k :: 0 <= k < |order| ==> order[k] < |spinning|
    ensures fired <= |order|
    decreases |order|
  {
    if order == [] then 0
    else
      var after := spinning[order[0] := false];
      (if NoneSpinning(after) then 1 else 0) + Completions(after, order[1..])
  }

  /** If exactly the reels still to stop are flagged, each stops once, and at
      least one does, then the callback fires exactly once, whatever the
      order. */
  lemma {:induction false} FiresExactlyOnce(spinning: seq<bool>, order: seq<nat>)
    requires order != []
    requires forall k :: 0 <= k < |order| ==> order[k] < |spinning|
    requires forall a, b :: 0 <= a < b < |order| ==> order[a] != order[b]
    requires forall i :: 0 <= i < |spinning| ==> (spinning[i] <==> i in order)
    ensures Completions(spinning, order) == 1
    decreases |order|
  {
    var after := spinning[order[0] := false];
    var rest := order[1..];
    forall i | 0 <= i < |after| ensures after[i] <==> i in rest {
      if i != order[0] {
        assert i in order <==> i in rest by {
          if i in order {
            var a :| 0 <= a < |order| && order[a] == i;
            assert a != 0 && rest[a - 1] == i;
          }
        }
      }
    }
    if rest == [] {
      assert NoneSpinning(after);
    } else {
      assert after[rest[0]];
      FiresExactlyOnce(after, rest);
    }
  }

  /** All reels of a spin flagged, then each stopping exactly once in any
      order: the callback fires exactly once. */
  lemma AllReelsOnce(n: nat, order: seq<nat>)
    requires n >= 1
    requires forall k :: 0 <= k < |order| ==> order[k] < n
    requires forall a, b :: 0 <= a < b < |order| ==> order[a] != order[b]
    requires forall i :: 0 <= i < n ==> i in order
    ensures Completions(seq(n, _ => true), order) == 1
  {
    assert 0 in order;
    FiresExactlyOnce(seq(n, _ => true), order);
  }
}
