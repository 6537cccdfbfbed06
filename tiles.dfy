/** The four tile states a grid cell can hold, the click-to-cycle rule that
    advances a cell to the next state, and the letter the draw loop writes for
    each state. */
module Tiles {

  const BLANK: int := 0
  const RAIL: int := 1
  const BUILDING: int := 2
  const STATION: int := 3

  /** `v` is one of BLANK, RAIL, BUILDING, STATION. */
  predicate IsTile(v: int)
  {
    BLANK <= v <= STATION
  }

  /** C's `a % 4`: the quotient is truncated toward zero, so the remainder
      takes the sign of the dividend (Dafny's own `%` is never negative). */
  function CRem4(a: int): (r: int)
    ensures a >= 0 ==> 0 <= r < 4
    ensures a < 0 ==> -4 < r <= 0
    ensures (a - r) % 4 == 0
  {
    if a >= 0 then a % 4 else -((-a) % 4)
  }

  /** The value a cell holds after one toggle: `(curr + 1) % 4` in C. */
  function Next(v: int): (r: int)
    ensures -4 < r < 4
    ensures (r - (v + 1)) % 4 == 0
    ensures IsTile(v) ==> IsTile(r)
    ensures v == BLANK ==> r == RAIL
    ensures v == RAIL ==> r == BUILDING
    ensures v == BUILDING ==> r == STATION
    ensures v == STATION ==> r == BLANK
  {
    CRem4(v + 1)
  }

  /** The value of a cell that held `v` after `n` successive toggles. */
  function Toggled(v: int, n: nat): int
    decreases n
  {
    if n == 0 then v else Next(Toggled(v, n - 1))
  }

  /** Starting from a tile state, `n` toggles add `n` modulo the number of states. */
  lemma {:induction false} ToggledCounts(v: int, n: nat)
    requires IsTile(v)
    ensures Toggled(v, n) == (v + n) % 4
  {
    if n > 0 {
      ToggledCounts(v, n - 1);
      NextCounts(v + n - 1);
    }
  }

  /** Counting one more modulo 4 wraps from STATION back to BLANK. */
  lemma CountStep(k: nat)
    ensures (k + 1) % 4 == if k % 4 == STATION then BLANK else k % 4 + 1
  {
  }

  /** One toggle of the count `k` modulo 4 gives the count `k + 1` modulo 4. */
  lemma NextCounts(k: nat)
    ensures Next(k % 4) == (k + 1) % 4
  {
  }

  /** Adding `d` to a count changes it modulo 4 unless `d` is a multiple of 4. */
  lemma ShiftCount(k: nat, d: nat)
    ensures (k + d) % 4 == k % 4 <==> d % 4 == 0
  {
  }

  /** Toggling never leaves the four tile states. */
  lemma {:induction false} ToggledStaysTile(v: int, n: nat)
    requires IsTile(v)
    ensures IsTile(Toggled(v, n))
  {
    ToggledCounts(v, n);
  }

  /** Four more toggles restore a cell's tile state, wherever in the cycle
      it is. */
  lemma FourTogglesRestore(v: int, n: nat)
    requires IsTile(v)
    ensures Toggled(v, n + 4) == Toggled(v, n)
  {
    ToggledCounts(v, n);
    ToggledCounts(v, n + 4);
    ShiftCount(v + n, 4);
  }

  /** One, two or three more toggles always change it: the cycle's period
      is exactly four. */
  lemma FewerTogglesChange(v: int, n: nat, d: nat)
    requires IsTile(v)
    requires 0 < d < 4
    ensures Toggled(v, n + d) != Toggled(v, n)
  {
    ToggledCounts(v, n);
    ToggledCounts(v, n + d);
    ShiftCount(v + n, d);
  }

  /** From BLANK, successive toggles visit RAIL, BUILDING, STATION, then BLANK. */
  lemma CycleOrder()
    ensures Toggled(BLANK, 1) == RAIL
    ensures Toggled(BLANK, 2) == BUILDING
    ensures Toggled(BLANK, 3) == STATION
    ensures Toggled(BLANK, 4) == BLANK
  {
    ToggledCounts(BLANK, 4);
  }

  /** The letters the draw loop writes for a cell holding `v`, each as a
      one-letter text: nothing for a BLANK cell, otherwise one letter per
      matching test, the three tests run one after the other. */
  function Glyphs(v: int): (gs: seq<char>)
    ensures |gs| <= 1
    ensures gs == [] <==> !(RAIL <= v <= STATION)
    ensures v == RAIL ==> gs == ['R']
    ensures v == BUILDING ==> gs == ['B']
    ensures v == STATION ==> gs == ['S']
  {
    if v != BLANK then
      (if v == RAIL then ['R'] else [])
      + (if v == BUILDING then ['B'] else [])
      + (if v == STATION then ['S'] else [])
    else
      []
  }

  /** The tile state a viewer reads off what is drawn in one cell. */
  function Shown(gs: seq<char>): int
  {
    if gs == ['R'] then RAIL
    else if gs == ['B'] then BUILDING
    else if gs == ['S'] then STATION
    else BLANK
  }

  /** What is drawn in a cell determines its tile state: distinct states look
      different on screen. */
  lemma GlyphsShowState(v: int)
    requires IsTile(v)
    ensures Shown(Glyphs(v)) == v
  {
  }
}
