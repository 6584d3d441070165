/**
 * The step index both onboarding screens keep, and the three ways it moves:
 * the "Suivant" button, the "Précédent" button, and the pager's scroll
 * events. The pager reports its offset on every frame while it moves (a drag
 * or the animated scroll a button starts), and each report is turned into a
 * step with `Math.round(offset / width)`.
 *
 * Offsets and the window width are whole pixels here; `Round` is
 * `Math.round` on their quotient (the nearest integer, a half rounded up).
 */
module Paging {

  /** `Math.round(pos / width)`: the integer nearest to the quotient, a tie
      going up. */
  function Round(pos: int, width: int): (k: int)
    requires width > 0
    ensures (2 * k - 1) * width <= 2 * pos < (2 * k + 1) * width
  {
    var k := (2 * pos + width) / (2 * width);
    DivBounds(2 * pos + width, 2 * width);
    assert (2 * k - 1) * width == 2 * width * k - width;
    assert (2 * k + 1) * width == 2 * width * (k + 1) - width;
    k
  }

  lemma DivBounds(a: int, b: int)
    requires b > 0
    ensures b * (a / b) <= a < b * (a / b + 1)
  {
  }

  /** The step "Suivant" moves to: one further, unless this is the last. */
  function NextIndex(index: int, n: int): (r: int)
    ensures 0 <= index < n ==> 0 <= r < n
    ensures r == index || r == index + 1
  {
    if index < n - 1 then index + 1 else index
  }

  /** The step "Précédent" moves to: one back, unless this is the first. */
  function PreviousIndex(index: int): (r: int)
    ensures 0 <= index ==> 0 <= r
    ensures r == index || r == index - 1
  {
    if index > 0 then index - 1 else index
  }

  /** The step one scroll event at offset `pos` leaves the screen on: the
      nearest page, adopted only when it is a different, existing step. */
  function ScrollIndex(index: int, pos: int, width: int, n: int): (r: int)
    requires width > 0
    ensures 0 <= index < n ==> 0 <= r < n
    ensures r == index || r == Round(pos, width)
  {
    var k := Round(pos, width);
    if k != index && k >= 0 && k < n then k else index
  }

  /** The nearest page is the only integer within half a page of the
      offset. */
  lemma RoundUnique(pos: int, width: int, k: int)
    requires width > 0
    requires (2 * k - 1) * width <= 2 * pos < (2 * k + 1) * width
    ensures Round(pos, width) == k
  {
    var r := Round(pos, width);
    if r < k {
      MulMono(2 * r + 1, 2 * k - 1, width);
    } else if r > k {
      MulMono(2 * k + 1, 2 * r - 1, width);
    }
  }

  lemma MulMono(a: int, b: int, width: int)
    requires a <= b && width > 0
    ensures a * width <= b * width
  {
    assert b * width - a * width == (b - a) * width;
  }

  /** An offset less than half a page away from the start of page `k`
      rounds to `k`. */
  lemma RoundNearPage(k: int, d: int, width: int)
    requires width > 0
    requires -width <= 2 * d < width
    ensures Round(k * width + d, width) == k
  {
    assert (2 * k - 1) * width == 2 * (k * width) - width;
    assert (2 * k + 1) * width == 2 * (k * width) + width;
    RoundUnique(k * width + d, width, k);
  }

  /** A scroll event less than half a page from an existing step sets that
      step, whatever the step was before. */
  lemma ScrollLandsOnPage(index: int, k: int, d: int, width: int, n: int)
    requires width > 0
    requires 0 <= k < n
    requires -width <= 2 * d < width
    ensures ScrollIndex(index, k * width + d, width, n) == k
  {
    RoundNearPage(k, d, width);
  }

  /** The scroll event the pager sends when it reaches the offset a button
      asked for (`index * width`) leaves the step as it is. */
  lemma ScrollToRequestedOffset(index: int, width: int, n: int)
    requires width > 0
    ensures ScrollIndex(index, index * width, width, n) == index
  {
    RoundNearPage(index, 0, width);
  }

  /** While the pager is still in the first half of the animated scroll a
      "Suivant" press starts, its scroll events set the step back to the one
      the press left: the index follows the pager, not the press. */
  lemma ScrollDuringForwardAnimation(index: int, d: int, width: int, n: int)
    requires width > 0 && 0 <= index && index + 1 < n
    requires 0 <= d && 2 * d < width
    ensures ScrollIndex(index + 1, index * width + d, width, n) == index
  {
    RoundNearPage(index, d, width);
  }

  /** An overscroll past either end of the pager, whose nearest page does
      not exist, leaves the step as it is. */
  lemma ScrollPastEnds(index: int, pos: int, width: int, n: int)
    requires width > 0 && n >= 1
    requires 2 * pos < -width || 2 * pos >= (2 * n - 1) * width
    ensures ScrollIndex(index, pos, width, n) == index
  {
    var k := Round(pos, width);
    if 0 <= k < n {
      if 2 * pos < -width {
        MulMono(-1, 2 * k - 1, width);
      } else {
        MulMono(2 * k + 1, 2 * n - 1, width);
      }
    }
  }

  /** `Advance(index, n, k)`: the step after pressing "Suivant" `k` times. */
  function Advance(index: int, n: int, k: nat): int
    decreases k
  {
    if k == 0 then index else Advance(NextIndex(index, n), n, k - 1)
  }

  /** `Retreat(index, k)`: the step after pressing "Précédent" `k` times. */
  function Retreat(index: int, k: nat): int
    decreases k
  {
    if k == 0 then index else Retreat(PreviousIndex(index), k - 1)
  }

  /** Pressing "Suivant" `k` times from a step moves `k` steps on, stopping at
      the last step. */
  lemma {:induction false} AdvanceStopsAtLast(index: int, n: int, k: nat)
    requires 0 <= index < n
    ensures Advance(index, n, k) == if index + k < n then index + k else n - 1
    decreases k
  {
    if k > 0 {
      AdvanceStopsAtLast(NextIndex(index, n), n, k - 1);
    }
  }

  /** Pressing "Précédent" `k` times moves `k` steps back, stopping at the
      first step. */
  lemma {:induction false} RetreatStopsAtFirst(index: int, k: nat)
    requires 0 <= index
    ensures Retreat(index, k) == if index - k >= 0 then index - k else 0
    decreases k
  {
    if k > 0 {
      RetreatStopsAtFirst(PreviousIndex(index), k - 1);
    }
  }

  /** "Précédent" undoes a "Suivant" that moved, and "Suivant" undoes a
      "Précédent" that moved. */
  lemma NextPreviousInverse(index: int, n: int)
    requires 0 <= index < n
    ensures NextIndex(index, n) != index ==> PreviousIndex(NextIndex(index, n)) == index
    ensures PreviousIndex(index) != index ==> NextIndex(PreviousIndex(index), n) == index
  {
  }
}
