/** The start latch: workers that arrive wait until the last party is there, then all start. */
module StartLatch {

  import opened Common

  type Worker = nat

  /** `released` holds the workers whose wait has been resolved (or that never had to wait). */
  datatype Latch = Latch(parties: nat, arrived: nat, releaseWaiters: seq<Worker>, released: set<Worker>)

  function Arrived(l: Latch, w: Worker): Latch {
    var l1 := l.(arrived := l.arrived + 1);
    if l1.arrived >= l1.parties then
      l1.(released := l1.released + (set v | v in l1.releaseWaiters) + {w})
    else
      l1.(releaseWaiters := l1.releaseWaiters + [w])
  }

  class ConcurrencyLatch {
    const parties: nat
    var arrived: nat
    var releaseWaiters: seq<Worker>
    var released: set<Worker>

    ghost function View(): Latch
      reads this
    {
      Latch(parties, arrived, releaseWaiters, released)
    }

    constructor (parties: nat)
      requires parties >= 2
      ensures View() == Latch(parties, 0, [], {})
    {
      this.parties := parties;
      arrived := 0;
      releaseWaiters := [];
      released := {};
    }

    method ArriveAndWait(w: Worker)
      modifies this
      ensures View() == Arrived(old(View()), w)
    {
      arrived := arrived + 1;
      if arrived >= parties {
        var i := 0;
        while i < |releaseWaiters|
          invariant i <= |releaseWaiters|
          invariant releaseWaiters == old(releaseWaiters) && arrived == old(arrived) + 1
          invariant released == old(released) + set v | v in releaseWaiters[..i]
        {
          released := released + {releaseWaiters[i]};
          assert releaseWaiters[..i + 1] == releaseWaiters[..i] + [releaseWaiters[i]];
          i := i + 1;
        }
        assert releaseWaiters[..i] == releaseWaiters;
        released := released + {w};
        return;
      }
      releaseWaiters := releaseWaiters + [w];
    }
  }

  datatype StartError = WorkerCountMismatch | TooFewParties

  datatype Setup = Ready(latch: ConcurrencyLatch) | Failed(error: StartError)

  /** The checks made before any worker is started. */
  method SetUpStart(parties: nat, workers: nat) returns (setup: Setup)
    ensures setup.Ready? <==> workers == parties && parties >= 2
    ensures setup.Ready? ==> fresh(setup.latch) && setup.latch.View() == Latch(parties, 0, [], {})
    ensures setup.Failed? ==> (setup.error == WorkerCountMismatch <==> workers != parties)
  {
    if workers != parties {
      return Failed(WorkerCountMismatch);
    }
    if parties < 2 {
      return Failed(TooFewParties);
    }
    var latch := new ConcurrencyLatch(parties);
    return Ready(latch);
  }

  // ----- Workers around a latch -----------------------------------------------------------------

  /** `workers` workers; `came` and `started` record arrivals and started bodies in order. */
  datatype System = System(workers: nat, latch: Latch, came: seq<Worker>, started: seq<Worker>)

  datatype Event = Arrive(w: Worker) | Start(w: Worker)

  predicate Enabled(s: System, e: Event) {
    match e
    case Arrive(w) => w < s.workers && w !in s.came
    case Start(w) => w in s.latch.released && w !in s.started
  }

  function Step(s: System, e: Event): System
    requires Enabled(s, e)
  {
    match e
    case Arrive(w) => s.(latch := Arrived(s.latch, w), came := s.came + [w])
    case Start(w) => s.(started := s.started + [w])
  }

  function Initial(workers: nat, parties: nat): System {
    System(workers, Latch(parties, 0, [], {}), [], [])
  }

  predicate IsRun(s: System, es: seq<Event>)
    decreases es
  {
    es == [] || (Enabled(s, es[0]) && IsRun(Step(s, es[0]), es[1..]))
  }

  function After(s: System, es: seq<Event>): System
    requires IsRun(s, es)
    decreases es
  {
    if es == [] then s else After(Step(s, es[0]), es[1..])
  }

  // ----- Safety ---------------------------------------------------------------------------------

  /** Before the last party everyone who came waits; from then on everyone who came is released. */
  ghost predicate Consistent(s: System) {
    && s.latch.arrived == |s.came|
    && NoDuplicates(s.came) && (forall w :: w in s.came ==> w < s.workers)
    && NoDuplicates(s.started) && (forall w :: w in s.started ==> w in s.latch.released)
    && (forall w :: w in s.latch.releaseWaiters ==> w in s.came)
    && (|s.came| < s.latch.parties ==> s.latch.releaseWaiters == s.came && s.latch.released == {} && s.started == [])
    && (|s.came| >= s.latch.parties ==> s.latch.released == set w | w in s.came)
  }

  lemma ConsistentStep(s: System, e: Event)
    requires Consistent(s) && Enabled(s, e) && s.latch.parties >= 1
    ensures Consistent(Step(s, e))
  {
    var s' := Step(s, e);
    if e.Arrive? && |s'.came| >= s.latch.parties {
      forall w
        ensures w in s'.latch.released <==> w in s'.came
      {
        assert w in s'.came <==> w in s.came || w == e.w;
      }
      assert s'.latch.released == set w | w in s'.came;
    }
  }

  function Remaining(s: System): int {
    2 * s.workers - |s.came| - |s.started|
  }

  lemma {:induction false} RunKeepsConsistent(s: System, es: seq<Event>)
    requires Consistent(s) && IsRun(s, es) && s.latch.parties >= 1
    ensures Consistent(After(s, es)) && After(s, es).workers == s.workers
    ensures After(s, es).latch.parties == s.latch.parties
    ensures Remaining(After(s, es)) == Remaining(s) - |es|
    decreases es
  {
    if es != [] {
      ConsistentStep(s, es[0]);
      RunKeepsConsistent(Step(s, es[0]), es[1..]);
    }
  }

  /** In every interleaving: no body starts before all parties have arrived; until then the waiters
      are exactly the arrivals; afterwards no arrived worker is left waiting. */
  lemma LatchSafety(workers: nat, parties: nat, es: seq<Event>)
    requires parties >= 2 && IsRun(Initial(workers, parties), es)
    ensures var s := After(Initial(workers, parties), es);
      && (s.started != [] ==> |s.came| >= parties)
      && (|s.came| < parties ==> s.latch.releaseWaiters == s.came)
      && (|s.came| >= parties ==> forall w :: w in s.came ==> w in s.latch.released)
  {
    RunKeepsConsistent(Initial(workers, parties), es);
  }

  /** An arrival at or beyond the number of parties never blocks. */
  lemma LateArrivalNeverBlocks(s: System, w: Worker)
    requires Consistent(s) && Enabled(s, Arrive(w)) && |s.came| + 1 >= s.latch.parties
    ensures Enabled(Step(s, Arrive(w)), Start(w))
  {
  }

  // ----- Progress -------------------------------------------------------------------------------

  ghost predicate Stuck(s: System) {
    forall e :: !Enabled(s, e)
  }

  function Upto(n: nat): (s: seq<Worker>)
    ensures |s| == n && forall i :: 0 <= i < n ==> s[i] == i
  {
    seq(n, i => i)
  }

  /** Every run is finite (each step uses up one of `2 * workers`), and a run that cannot go on has
      started every worker exactly once if there are at least `parties` workers, and none at all
      if there are fewer. */
  lemma MaximalRun(workers: nat, parties: nat, es: seq<Event>)
    requires parties >= 2 && IsRun(Initial(workers, parties), es)
    ensures |es| <= 2 * workers
    ensures var s := After(Initial(workers, parties), es);
      Stuck(s) ==>
        if workers >= parties then
          |es| == 2 * workers && |s.started| == workers && NoDuplicates(s.started)
          && forall w :: 0 <= w < workers ==> w in s.started
        else |es| == workers && s.started == []
  {
    RunKeepsConsistent(Initial(workers, parties), es);
    var s := After(Initial(workers, parties), es);
    var all := Upto(workers);
    forall w | w in s.came
      ensures w in all
    {
      assert all[w] == w;
    }
    SubsetBySize(s.came, all);
    forall w | w in s.started
      ensures w in s.came
    {
      assert w in s.latch.released;
    }
    SubsetBySize(s.started, s.came);
    if Stuck(s) {
      forall w | w in all
        ensures w in s.came
      {
        assert !Enabled(s, Arrive(w));
      }
      SubsetBySize(all, s.came);
      if workers >= parties {
        forall w | w in s.came
          ensures w in s.started
        {
          assert !Enabled(s, Start(w));
        }
        SubsetBySize(s.came, s.started);
        forall w | 0 <= w < workers
          ensures w in s.started
        {
          assert all[w] == w;
        }
      }
    }
  }

  /** Until then some step is possible: a worker that may come, or one that may start. */
  lemma NotStuckBefore(s: System)
    requires Consistent(s) && Remaining(s) > 0 && s.workers >= s.latch.parties >= 2
    ensures exists e :: Enabled(s, e)
  {
    if forall w :: 0 <= w < s.workers ==> w in s.came {
      var all := Upto(s.workers);
      SubsetBySize(all, s.came);
      if forall w :: w in s.came ==> w in s.started {
        SubsetBySize(s.came, s.started);
        assert false;
      }
      var w :| w in s.came && w !in s.started;
      assert Enabled(s, Start(w));
    } else {
      var w :| 0 <= w < s.workers && w !in s.came;
      assert Enabled(s, Arrive(w));
    }
  }
}
