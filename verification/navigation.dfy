/** The index arithmetic behind the player's previous/next buttons in
    sequential (non-shuffle) mode: one step back or forward, wrapped with a
    true modulo so that the playlist behaves as a ring. */
module Navigation {
  import opened Utils

  /** The index `playNextSong` moves to outside shuffle mode. */
  function Successor(i: int, n: int): (r: int)
    requires n > 0
    ensures 0 <= r < n
    ensures 0 <= i < n ==> r == if i == n - 1 then 0 else i + 1
  {
    Modulo(i + 1, n)
  }

  /** The index `playPreviousSong` moves to outside shuffle mode. */
  function Predecessor(i: int, n: int): (r: int)
    requires n > 0
    ensures 0 <= r < n
    ensures 0 <= i < n ==> r == if i == 0 then n - 1 else i - 1
  {
    Modulo(i - 1, n)
  }

  lemma PreviousUndoesNext(i: int, n: int)
    requires 0 <= i < n
    ensures Predecessor(Successor(i, n), n) == i
  {
  }

  lemma NextUndoesPrevious(i: int, n: int)
    requires 0 <= i < n
    ensures Successor(Predecessor(i, n), n) == i
  {
  }

  /** The cursor after `k` presses of "next" (or `k` end-of-track events)
      starting from `i`. */
  function StepsForward(i: int, n: int, k: nat): (r: int)
    requires n > 0
  {
    if k == 0 then i else Successor(StepsForward(i, n, k - 1), n)
  }

  /** The cursor after `k` presses of "previous" starting from `i`. */
  function StepsBackward(i: int, n: int, k: nat): (r: int)
    requires n > 0
  {
    if k == 0 then i else Predecessor(StepsBackward(i, n, k - 1), n)
  }

  lemma {:induction false} StepsForwardIsModulo(i: int, n: int, k: nat)
    requires 0 <= i < n
    ensures StepsForward(i, n, k) == Modulo(i + k, n)
  {
    if k > 0 {
      StepsForwardIsModulo(i, n, k - 1);
      ModuloShift(i + k - 1, n, 1);
    }
  }

  lemma {:induction false} StepsBackwardIsModulo(i: int, n: int, k: nat)
    requires 0 <= i < n
    ensures StepsBackward(i, n, k) == Modulo(i - k, n)
  {
    if k > 0 {
      StepsBackwardIsModulo(i, n, k - 1);
      ModuloShift(i - k + 1, n, -1);
    }
  }

  /** Playing through the whole list in sequence comes back to the start. */
  lemma CycleReturnsToStart(i: int, n: int)
    requires 0 <= i < n
    ensures StepsForward(i, n, n) == i
    ensures StepsBackward(i, n, n) == i
  {
    StepsForwardIsModulo(i, n, n);
    ModuloOfMultiplePlus(1, n, i);
    StepsBackwardIsModulo(i, n, n);
    ModuloOfMultiplePlus(-1, n, i);
  }

  /** Sequential play reaches every song of the list, from any start, in
      fewer than `n` steps. */
  lemma EveryIndexReachable(i: int, j: int, n: int)
    requires 0 <= i < n && 0 <= j < n
    ensures exists k: nat :: k < n && StepsForward(i, n, k) == j
  {
    var k := Modulo(j - i, n);
    StepsForwardIsModulo(i, n, k);
    var q := (j - i) / n;
    assert i + k == (-q) * n + j;
    ModuloOfMultiplePlus(-q, n, j);
    assert StepsForward(i, n, k) == j;
  }

  /** `k` presses of "previous" undo `k` presses of "next". */
  lemma StepsBackwardUndoesForward(i: int, n: int, k: nat)
    requires 0 <= i < n
    ensures StepsBackward(StepsForward(i, n, k), n, k) == i
  {
    var j := StepsForward(i, n, k);
    StepsForwardIsModulo(i, n, k);
    StepsBackwardIsModulo(j, n, k);
    ModuloShift(i + k, n, -(k as int));
  }
}
