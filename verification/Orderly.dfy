/** Runs in which pods connect only between bus steps: nothing is diverted and no walk loses its end. */
module OrderlyRuns {
  import opened Sequences
  import opened Rings
  import opened Systems
  import opened SystemSafety
  import opened Delivery
  import opened Replays

  predicate PeekedAtSecond(ring: seq<nat>, at: Where) {
    at.AtWalk? ==> ring != [] && at.next == Second(ring)
  }

  /** Inside a bus step the connection peeked at and checked is the next one, until it is removed. */
  predicate Tidy(s: State)
    requires s.ring != []
  {
    match s.pc
    case Peek(_, at) => PeekedAtSecond(s.ring, at)
    case Check(_, at, target) => PeekedAtSecond(s.ring, at) && target == Second(s.ring)
    case Delete(_, at, target) => PeekedAtSecond(s.ring, at) && target == Second(s.ring)
    case ReplayNext(_, _, target, _) => target == Second(s.ring)
    case Retarget(_, _, next) => next !in s.ring
    case _ => true
  }

  lemma DeleteKeepsTidy(s: State)
    requires s.ring != [] && Tidy(s) && NoDup(s.ring) && s.pc.Delete? && CanBus(s) && Deleted(s).ring != []
    ensures Tidy(Deleted(s))
  {
    WithoutSecondKeeps(s.ring);
  }

  lemma BusKeepsTidy(s: State)
    requires s.ring != [] && Tidy(s) && NoDup(s.ring) && CanBus(s) && BusStep(s).ring != []
    ensures Tidy(BusStep(s))
  {
    if s.pc.Delete? {
      DeleteKeepsTidy(s);
    }
  }

  lemma StepKeepsTidy(s: State, a: Action, t: State)
    requires s.ring != [] && Tidy(s) && NoDup(s.ring) && CanStep(s, a) && t == Step(s, a) && t.ring != []
    requires a.Connect? ==> Boundary(s.pc)
    ensures Tidy(t)
  {
    if a.Bus? {
      BusKeepsTidy(s);
    }
  }

  lemma {:induction false} AlwaysTidy(r: Run, i: nat)
    requires Orderly(r) && i < |r.states|
    ensures r.states[i].ring != [] && Tidy(r.states[i])
  {
    NeverCrashes(r, i);
    if i > 0 {
      AlwaysTidy(r, i - 1);
      AlwaysSafe(r, i - 1);
      RunStep(r, i - 1);
      StepKeepsTidy(r.states[i - 1], r.acts[i - 1], r.states[i]);
    }
  }

  /** What is proved of steady runs holds of orderly ones. */
  lemma OrderlyIsSteady(r: Run, n: nat)
    requires Orderly(r) && n <= |r.acts|
    ensures Steady(r, n)
  {
    forall i | 0 <= i < n ensures !Misaimed(r.states[i]) && Hits(r.states[i]) {
      AlwaysTidy(r, i);
    }
  }
}
