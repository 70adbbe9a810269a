/** The daemon loop: a permit is acquired, a job leased with it, and a worker holds it until it ends. */
module DaemonLoop {
  import opened Prelude

  /** Where the loop stands: `Leasing` holds a permit, `Waiting` sleeps after a lease that gave no job. */
  datatype Phase = Acquiring | Leasing | Waiting | Draining | Returned

  /**
   `live` are the workers still running, `ended` those that ended and were not joined yet, and
   `joined` those the final loop has collected. Workers are named in the order they are spawned.
   */
  datatype Daemon = Daemon(
    phase: Phase, free: nat, live: set<nat>, ended: set<nat>, joined: set<nat>, spawned: nat, shutdown: bool)

  datatype Step =
    | Acquire
    | LeaseJob
    | LeaseNothing
    | LeaseFails
    | WaitOver
    | Signal
    | SeeShutdown
    | WorkerEnds(w: nat)
    | WorkerPanics(w: nat)
    | Join(w: nat)
    | Return

  /** The larger of 1 and the configured number, which is 1 if there is none. */
  function Capacity(concurrency: Option<nat>): (r: nat)
    ensures r >= 1 && (concurrency.Some? ==> r >= concurrency.value)
    ensures r == 1 || concurrency == Some(r)
  {
    var c := if concurrency.Some? then concurrency.value else 1;
    if c < 1 then 1 else c
  }

  function Initial(concurrency: Option<nat>): Daemon {
    Daemon(Acquiring, Capacity(concurrency), {}, {}, {}, 0, false)
  }

  predicate Enabled(s: Daemon, step: Step) {
    match step
    case Acquire => s.phase.Acquiring? && s.free > 0
    case LeaseJob => s.phase.Leasing?
    case LeaseNothing => s.phase.Leasing?
    case LeaseFails => s.phase.Leasing?
    case WaitOver => s.phase.Waiting?
    case Signal => true
    case SeeShutdown => s.shutdown && (s.phase.Acquiring? || s.phase.Leasing? || s.phase.Waiting?)
    case WorkerEnds(w) => w in s.live
    case WorkerPanics(w) => w in s.live
    case Join(w) => s.phase.Draining? && w in s.ended
    case Return => s.phase.Draining? && s.live == {} && s.ended == {}
  }

  /** A worker gives its permit back however it ends. */
  function Gone(s: Daemon, w: nat): Daemon {
    s.(live := s.live - {w}, ended := s.ended + {w}, free := s.free + 1)
  }

  function Apply(s: Daemon, step: Step): Daemon
    requires Enabled(s, step)
  {
    match step
    case Acquire => s.(phase := Leasing, free := s.free - 1)
    case LeaseJob => s.(phase := Acquiring, live := s.live + {s.spawned}, spawned := s.spawned + 1)
    case LeaseNothing => s.(phase := Waiting, free := s.free + 1)
    case LeaseFails => s.(phase := Waiting, free := s.free + 1)
    case WaitOver => s.(phase := Acquiring)
    case Signal => s.(shutdown := true)
    case SeeShutdown => s.(phase := Draining, free := s.free + Held(s))
    case WorkerEnds(w) => Gone(s, w)
    case WorkerPanics(w) => Gone(s, w)
    case Join(w) => s.(ended := s.ended - {w}, joined := s.joined + {w})
    case Return => s.(phase := Returned)
  }

  predicate Runs(s: Daemon, steps: seq<Step>, t: Daemon)
    decreases |steps|
  {
    if steps == [] then s == t
    else Enabled(s, steps[0]) && Runs(Apply(s, steps[0]), steps[1..], t)
  }

  /** The permit in the hands of the loop itself. */
  function Held(s: Daemon): nat {
    if s.phase.Leasing? then 1 else 0
  }

  /** Every spawned worker is in exactly one of the three sets, and nothing else is. */
  ghost predicate Known(s: Daemon) {
    && (forall w: nat :: w < s.spawned <==> w in s.live || w in s.ended || w in s.joined)
    && s.live !! s.ended && s.live !! s.joined && s.ended !! s.joined
  }

  ghost predicate Sound(s: Daemon, capacity: nat) {
    && Known(s)
    && s.free + Held(s) + |s.live| == capacity
    && (s.phase.Draining? || s.phase.Returned? ==> s.shutdown)
    && (s.phase.Returned? ==> s.live == {} && s.ended == {})
  }

  lemma KnownStep(s: Daemon, step: Step)
    requires Enabled(s, step) && Known(s)
    ensures Known(Apply(s, step))
    ensures step.LeaseJob? ==> s.spawned !in s.live
  {}

  lemma SoundStep(s: Daemon, step: Step, capacity: nat)
    requires Enabled(s, step) && Sound(s, capacity)
    ensures Sound(Apply(s, step), capacity)
  {
    KnownStep(s, step);
    hide Known;
  }

  lemma {:induction false} EveryRunIsSound(s: Daemon, steps: seq<Step>, t: Daemon, capacity: nat)
    requires Sound(s, capacity) && Runs(s, steps, t)
    ensures Sound(t, capacity)
    decreases |steps|
  {
    if steps == [] {
    } else {
      SoundStep(s, steps[0], capacity);
      EveryRunIsSound(Apply(s, steps[0]), steps[1..], t, capacity);
    }
  }

  /** Permits are conserved through every run, so at most `Capacity` jobs run at once, and all of them can. */
  lemma PermitsAreConserved(concurrency: Option<nat>, steps: seq<Step>, s: Daemon)
    requires Runs(Initial(concurrency), steps, s)
    ensures s.free + Held(s) + |s.live| == Capacity(concurrency)
    ensures |s.live| <= Capacity(concurrency)
    ensures s.phase.Acquiring? && !Enabled(s, Acquire) ==> |s.live| == Capacity(concurrency)
  {
    EveryRunIsSound(Initial(concurrency), steps, s, Capacity(concurrency));
  }

  function Times(steps: seq<Step>, step: Step): nat {
    if steps == [] then 0 else (if steps[0] == step then 1 else 0) + Times(steps[1..], step)
  }

  /** Every job that is leased gets a worker of its own. */
  lemma {:induction false} EveryLeasedJobIsSpawned(s: Daemon, steps: seq<Step>, t: Daemon)
    requires Runs(s, steps, t)
    ensures t.spawned == s.spawned + Times(steps, LeaseJob)
    decreases |steps|
  {
    if steps == [] {
    } else {
      EveryLeasedJobIsSpawned(Apply(s, steps[0]), steps[1..], t);
    }
  }

  /** The daemon returns only after a shutdown, with every worker it ever spawned ended and joined. */
  lemma ReturnsOnlyWhenAllEnded(concurrency: Option<nat>, steps: seq<Step>, s: Daemon)
    requires Runs(Initial(concurrency), steps, s) && s.phase.Returned?
    ensures s.shutdown && s.live == {} && s.ended == {} && s.free == Capacity(concurrency)
    ensures forall w: nat :: w in s.joined <==> w < s.spawned
  {
    EveryRunIsSound(Initial(concurrency), steps, s, Capacity(concurrency));
  }

  /** The loop is never stuck: until it returns it can go on by itself or waits for a worker that is running. */
  lemma NeverStuck(concurrency: Option<nat>, steps: seq<Step>, s: Daemon) returns (step: Step)
    requires Runs(Initial(concurrency), steps, s) && !s.phase.Returned?
    ensures Enabled(s, step) && !step.Signal?
  {
    EveryRunIsSound(Initial(concurrency), steps, s, Capacity(concurrency));
    match s.phase
    case Acquiring =>
      if s.free > 0 {
        step := Acquire;
      } else {
        var w :| w in s.live;
        step := WorkerEnds(w);
      }
    case Leasing => step := LeaseNothing;
    case Waiting => step := WaitOver;
    case Draining =>
      if s.live != {} {
        var w :| w in s.live;
        step := WorkerEnds(w);
      } else if s.ended != {} {
        var w :| w in s.ended;
        step := Join(w);
      } else {
        step := Return;
      }
  }

  /** How much is left to do once the loop drains. */
  function Remaining(s: Daemon): nat {
    2 * |s.live| + |s.ended| + if s.phase.Draining? then 1 else 0
  }

  /** Every step but the signal brings a draining daemon closer to its return: it drains in finitely many steps. */
  lemma DrainingEnds(s: Daemon, step: Step, capacity: nat)
    requires Sound(s, capacity) && s.phase.Draining? && Enabled(s, step) && !step.Signal?
    ensures Remaining(Apply(s, step)) < Remaining(s)
    ensures Apply(s, step).phase.Draining? || Apply(s, step).phase.Returned?
  {
    match step
    case WorkerEnds(w) => assert |Gone(s, w).ended| == |s.ended| + 1;
    case WorkerPanics(w) => assert |Gone(s, w).ended| == |s.ended| + 1;
    case _ =>
  }
}
