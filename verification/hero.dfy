/**
 The rotating category word of `src/components/home/Hero.tsx`: an index into
 the seven categories that starts at 0 and advances by one, modulo seven, on
 every tick of the interval; the word at the index is the one shown.
 */
module Hero {
  import opened Modular

  const Categories := ["Electronics", "Vehicles", "Tools", "Outdoor Gear", "Cameras", "Party Supplies", "Musical Instruments"]

  /** `activeCategory` on first render. */
  const InitialIndex := 0

  /** One tick of the interval: `(prev + 1) % categories.length`. */
  function Tick(i: int): (j: int)
    requires 0 <= i < |Categories|
    ensures 0 <= j < |Categories|
    ensures 0 <= i < |Categories| - 1 ==> j == i + 1
    ensures i == |Categories| - 1 ==> j == 0
  {
    (i + 1) % |Categories|
  }

  /** The index after `k` ticks. */
  function Ticks(i: int, k: nat): (j: int)
    requires 0 <= i < |Categories|
    ensures 0 <= j < |Categories|
  {
    if k == 0 then i else Tick(Ticks(i, k - 1))
  }

  /** `k` ticks from an in-range index move it `k` places round the circle. */
  lemma {:induction false} TicksModular(i: int, k: nat)
    requires 0 <= i < |Categories|
    ensures Ticks(i, k) == (i + k) % |Categories|
  {
    var n := |Categories|;
    if k == 0 {
      ModUnique(i, n, 0, i);
    } else {
      TicksModular(i, k - 1);
      ModStep(i + k - 1, n);
    }
  }

  /** Seven ticks bring the rotation back to where it was. */
  lemma FullRotation(i: int)
    requires 0 <= i < |Categories|
    ensures Ticks(i, |Categories|) == i
  {
    TicksModular(i, |Categories|);
    ModUnique(i + |Categories|, |Categories|, 1, i);
  }

  /** The rotation visits every category, starting from the first. */
  lemma EveryCategoryShown(k: nat)
    requires k < |Categories|
    ensures Ticks(InitialIndex, k) == k
  {
    TicksModular(InitialIndex, k);
  }

  /** The opacity class of each word: visible iff its position is the active index. */
  function Visible(active: int): (v: seq<bool>)
    ensures |v| == |Categories|
    ensures forall k :: 0 <= k < |v| ==> (v[k] <==> k == active)
  {
    seq(|Categories|, k => k == active)
  }

  /** At any reachable index exactly one word is visible, the one at that index. */
  lemma ExactlyOneVisible(k: nat)
    ensures var a := Ticks(InitialIndex, k);
            0 <= a < |Categories| && Visible(a)[a] &&
            forall j :: 0 <= j < |Categories| && Visible(a)[j] ==> j == a
  {
    TicksModular(InitialIndex, k);
  }
}
