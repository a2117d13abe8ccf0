/** The landing page's animated hero: a counter cycles through five titles
    on a timer; the title at the counter is shown and the others wait above
    or below it. */
module Hero {

  const Titles: seq<string> := ["brilliant", "validated", "winning", "profitable", "innovative"]

  /** The counter after one tick of the timer. */
  function Next(n: nat): (r: nat)
    ensures n < |Titles| ==> r < |Titles|
    ensures n < |Titles| ==> r == (n + 1) % |Titles|
  {
    if n == |Titles| - 1 then 0 else n + 1
  }

  /** The counter after `k` ticks. */
  function Ticks(n: nat, k: nat): nat
  {
    if k == 0 then n else Next(Ticks(n, k - 1))
  }

  /** After `k` ticks the counter has moved `k` places round the titles. */
  lemma {:induction false} TicksAdvance(n: nat, k: nat)
    requires n < |Titles|
    ensures Ticks(n, k) == (n + k) % |Titles|
  {
    if k > 0 {
      TicksAdvance(n, k - 1);
    }
  }

  /** Five ticks bring the counter back: the cycle has period five. */
  lemma PeriodFive(n: nat)
    requires n < |Titles|
    ensures Ticks(n, |Titles|) == n
    ensures forall k :: 0 < k < |Titles| ==> Ticks(n, k) != n
  {
    TicksAdvance(n, |Titles|);
    forall k | 0 < k < |Titles|
      ensures Ticks(n, k) != n
    {
      TicksAdvance(n, k);
    }
  }

  /** Where a title is animated to. */
  datatype Pose = Pose(y: int, opacity: int)

  /** Title `index` is shown in place when it is the counter's; the others
      are hidden 150 above (those before the counter) or below. */
  function TitlePose(index: nat, counter: nat): (p: Pose)
    ensures p.opacity == 1 <==> index == counter
    ensures index == counter ==> p.y == 0
    ensures index < counter ==> p == Pose(-150, 0)
    ensures index > counter ==> p == Pose(150, 0)
  {
    if counter == index then Pose(0, 1) else Pose(if counter > index then -150 else 150, 0)
  }

  /** Exactly one title is visible at any time. */
  lemma OneTitleVisible(counter: nat)
    requires counter < |Titles|
    ensures exists i :: 0 <= i < |Titles| && TitlePose(i, counter).opacity == 1
    ensures forall i, j :: 0 <= i < j < |Titles| ==>
              !(TitlePose(i, counter).opacity == 1 && TitlePose(j, counter).opacity == 1)
  {
    assert TitlePose(counter, counter).opacity == 1;
  }

  class Banner {
    var titleNumber: nat

    ghost predicate Valid()
      reads this
    {
      titleNumber < |Titles|
    }

    constructor ()
      ensures Valid() && titleNumber == 0
    {
      titleNumber := 0;
    }

    /** The timer firing. */
    method Tick()
      requires Valid()
      modifies this
      ensures Valid()
      ensures titleNumber == Next(old(titleNumber))
    {
      if titleNumber == |Titles| - 1 {
        titleNumber := 0;
      } else {
        titleNumber := titleNumber + 1;
      }
    }
  }
}
