/**
 * The loading screen's animated dots: a string state that a timer updates every
 * half second with the `setDots` updater, cycling through '', '.', '..', '...'.
 * The timer itself is not modelled; each call of `Tick` is one firing.
 */
module LoadingScreen {
  const Dot: char := '.'
  const MaxDots: nat := 3

  /** The updater passed to `setDots`: reset once three or more are shown, else add one. */
  function NextDots(prev: string): (next: string)
    ensures |prev| >= MaxDots ==> next == ""
    ensures |prev| < MaxDots ==> |next| == |prev| + 1 && next[..|prev|] == prev && next[|prev|] == Dot
  {
    if |prev| >= MaxDots then "" else prev + [Dot]
  }

  /** What `dots` can hold: up to three dots and nothing else. */
  predicate WellFormed(dots: string) {
    |dots| <= MaxDots && forall i :: 0 <= i < |dots| ==> dots[i] == Dot
  }

  /** A well-formed state is exactly one of the four frames of the cycle. */
  lemma {:induction false} WellFormedFrames(dots: string)
    requires WellFormed(dots)
    ensures dots == "" || dots == "." || dots == ".." || dots == "..."
  {
    if |dots| == 1 {
      assert dots == [dots[0]];
    } else if |dots| == 2 {
      assert dots == [dots[0], dots[1]];
    } else if |dots| == 3 {
      assert dots == [dots[0], dots[1], dots[2]];
    }
  }

  /** The updater keeps the state well formed. */
  lemma NextDotsWellFormed(dots: string)
    requires WellFormed(dots)
    ensures WellFormed(NextDots(dots))
  {
    var next := NextDots(dots);
    if |dots| < MaxDots {
      forall i | 0 <= i < |next| ensures next[i] == Dot {
        if i < |dots| {
          assert next[i] == next[..|dots|][i];
        }
      }
    }
  }

  /** Four ticks bring any well-formed state back to itself. */
  lemma FourTicksCycle(dots: string)
    requires WellFormed(dots)
    ensures NextDots(NextDots(NextDots(NextDots(dots)))) == dots
  {
    WellFormedFrames(dots);
  }

  /** From the initial '' the ticks show '.', '..', '...' and then '' again. */
  lemma CycleFromEmpty()
    ensures NextDots("") == "."
    ensures NextDots(".") == ".."
    ensures NextDots("..") == "..."
    ensures NextDots("...") == ""
  {
  }

  /** The component's `dots` state. */
  class LoadingDots {
    var dots: string

    ghost predicate Valid()
      reads this
    {
      WellFormed(dots)
    }

    /** `useState('')`. */
    constructor ()
      ensures dots == ""
      ensures Valid()
    {
      dots := "";
    }

    /** One firing of the interval: `setDots(prev => ...)`. */
    method Tick()
      modifies this
      ensures dots == NextDots(old(dots))
      ensures old(Valid()) ==> Valid()
    {
      if Valid() {
        NextDotsWellFormed(dots);
      }
      if |dots| >= MaxDots {
        dots := "";
      } else {
        dots := dots + [Dot];
      }
    }
  }
}
