/** The symbol catalogue: the ten symbol kinds and the per-cell symbol object
    whose kind is overwritten when a reel is redrawn and which plays a win
    animation. */
module Symbols {

  /** The symbol kinds: the ten values of the enumeration, by their position
      in it. The constants below name them in declaration order (the
      enumeration spells the ninth one `scatter`). */
  newtype SymbolType = k: int | 0 <= k < 10

  const One: SymbolType := 0
  const Two: SymbolType := 1
  const Three: SymbolType := 2
  const Four: SymbolType := 3
  const Five: SymbolType := 4
  const J: SymbolType := 5
  const K: SymbolType := 6
  const Q: SymbolType := 7
  const Scatter: SymbolType := 8
  const Wild: SymbolType := 9

  /** Every kind once, in enumeration order. */
  const AllKinds: seq<SymbolType> := [One, Two, Three, Four, Five, J, K, Q, Scatter, Wild]

  /** The underlying value of a kind in the enumeration. */
  function Ordinal(kind: SymbolType): (n: nat)
    ensures n < |AllKinds| && AllKinds[n] == kind
  {
    kind as nat
  }

  /** There are exactly ten kinds, pairwise distinct, Wild and Scatter among them. */
  lemma TenDistinctKinds()
    ensures |AllKinds| == 10
    ensures forall i, j :: 0 <= i < j < |AllKinds| ==> AllKinds[i] != AllKinds[j]
    ensures forall kind: SymbolType :: kind in AllKinds
    ensures Wild in AllKinds && Scatter in AllKinds
  {
    forall kind: SymbolType ensures kind in AllKinds {
      assert AllKinds[Ordinal(kind)] == kind;
    }
  }

  /** A symbol on a reel (or a template symbol in a reel's pool). */
  class Symbol {
    var symbolType: SymbolType
    var baseValue: int
    var isAnimating: bool
    var timer: real

    /** A template symbol, as configured in the editor. */
    constructor (kind: SymbolType, value: int)
      ensures symbolType == kind && baseValue == value
      ensures !isAnimating && timer == 0.0
    {
      symbolType := kind;
      baseValue := value;
      isAnimating := false;
      timer := 0.0;
    }

    /** A fresh copy of a template, as instantiating a prefab produces. */
    constructor Instantiate(template: Symbol)
      ensures symbolType == template.symbolType && baseValue == template.baseValue
      ensures !isAnimating && timer == 0.0
    {
      symbolType := template.symbolType;
      baseValue := template.baseValue;
      isAnimating := false;
      timer := 0.0;
    }

    /** Takes over the template's kind and base value; the animation state is kept. */
    method SetSymbol(template: Symbol)
      modifies this`symbolType, this`baseValue
      ensures symbolType == old(template.symbolType)
      ensures baseValue == old(template.baseValue)
    {
      symbolType := template.symbolType;
      baseValue := template.baseValue;
    }

    /** Starts the win animation, unless one is already running: animations do
        not stack and a running one keeps its timer. */
    method PlayWinAnimation()
      modifies this`isAnimating, this`timer
      ensures isAnimating
      ensures old(isAnimating) ==> timer == old(timer)
      ensures !old(isAnimating) ==> timer == 0.0
    {
      if isAnimating {
        return;
      }
      timer := 0.0;
      isAnimating := true;
    }

    /** Ends the win animation. */
    method StopWinAnimation()
      modifies this`isAnimating
      ensures !isAnimating
    {
      isAnimating := false;
    }
  }
}
