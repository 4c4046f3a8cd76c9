/** The initial sweep of the prober: one goroutine per target, a shared counter under a lock, and the flag that
    is set when every target was probed once. The steps of different goroutines interleave freely. */
module Prober {
  /** Where the goroutine of one target is. After Looping it only probes again, which this protocol does not see. */
  datatype Phase =
    | NotSpawned  // the loop of Start has not reached this target
    | Probing     // the first probe is under way
    | Probed      // the first probe returned
    | Holding     // has the lock, has not counted yet
    | Counted     // has the lock and has counted
    | Marked      // has the lock and has reported the sweep complete
    | Looping     // released the lock

  datatype Sweep = Sweep(
    phases: seq<Phase>,
    holder: int,         // the goroutine that has the lock, or -1
    firstResults: nat,
    started: bool,
    completions: nat)    // how often the sweep was reported complete

  /** Start marks the runtime started, and complete at once if there is nothing to probe. */
  function Begin(targets: nat): Sweep {
    Sweep(seq(targets, _ => NotSpawned), -1, 0, true, if targets == 0 then 1 else 0)
  }

  predicate CanStep(s: Sweep, i: nat)
    requires i < |s.phases|
  {
    match s.phases[i]
    case NotSpawned => forall j :: 0 <= j < i ==> s.phases[j] != NotSpawned
    case Probed => s.holder == -1
    case Looping => false
    case _ => true
  }

  function Step(s: Sweep, i: nat): Sweep
    requires i < |s.phases| && CanStep(s, i)
  {
    match s.phases[i]
    case NotSpawned => s.(phases := s.phases[i := Probing])
    case Probing => s.(phases := s.phases[i := Probed])
    case Probed => s.(phases := s.phases[i := Holding], holder := i)
    case Holding => s.(phases := s.phases[i := Counted], firstResults := s.firstResults + 1)
    case Counted =>
      if s.firstResults == |s.phases|
      then s.(phases := s.phases[i := Marked], completions := s.completions + 1)
      else s.(phases := s.phases[i := Looping], holder := -1)
    case Marked => s.(phases := s.phases[i := Looping], holder := -1)
    case Looping => s
  }

  predicate HasCounted(p: Phase) {
    p.Counted? || p.Marked? || p.Looping?
  }

  predicate HasLock(p: Phase) {
    p.Holding? || p.Counted? || p.Marked?
  }

  function CountOf(phases: seq<Phase>): nat {
    if phases == [] then 0
    else CountOf(phases[..|phases| - 1]) + if HasCounted(phases[|phases| - 1]) then 1 else 0
  }

  lemma {:induction false} CountAfterUpdate(phases: seq<Phase>, i: nat, p: Phase)
    requires i < |phases|
    ensures CountOf(phases[i := p])
         == CountOf(phases) - (if HasCounted(phases[i]) then 1 else 0) + (if HasCounted(p) then 1 else 0)
  {
    var front := phases[..|phases| - 1];
    if i == |phases| - 1 {
      assert phases[i := p][..|phases| - 1] == front;
    } else {
      assert phases[i := p][..|phases| - 1] == front[i := p];
      CountAfterUpdate(front, i, p);
    }
  }

  lemma {:induction false} CountIsFull(phases: seq<Phase>)
    ensures CountOf(phases) <= |phases|
    ensures CountOf(phases) == |phases| <==> forall i :: 0 <= i < |phases| ==> HasCounted(phases[i])
  {
    if phases != [] {
      var front := phases[..|phases| - 1];
      CountIsFull(front);
      assert forall i :: 0 <= i < |front| ==> front[i] == phases[i];
    }
  }

  /** The counter is the number of goroutines that counted; the lock is held by at most one; and the sweep is
      complete exactly when all have counted and the one that counted last got past its check. */
  ghost predicate Inv(s: Sweep) {
    && s.started
    && -1 <= s.holder < |s.phases|
    && (forall i :: 0 <= i < |s.phases| ==> (HasLock(s.phases[i]) <==> s.holder == i))
    && s.firstResults == CountOf(s.phases)
    && s.completions
       == if s.firstResults == |s.phases| && (s.holder == -1 || !s.phases[s.holder].Counted?) then 1 else 0
  }

  lemma {:induction false} NobodyCountedAtFirst(targets: nat)
    ensures CountOf(seq(targets, _ => NotSpawned)) == 0
  {
    if targets != 0 {
      assert seq(targets, _ => NotSpawned)[..targets - 1] == seq(targets - 1, _ => NotSpawned);
      NobodyCountedAtFirst(targets - 1);
    }
  }

  lemma BeginEstablishesInv(targets: nat)
    ensures Inv(Begin(targets))
  {
    NobodyCountedAtFirst(targets);
  }

  lemma StepKeepsInv(s: Sweep, i: nat)
    requires Inv(s) && i < |s.phases| && CanStep(s, i)
    ensures Inv(Step(s, i))
  {
    var t := Step(s, i);
    CountAfterUpdate(s.phases, i, t.phases[i]);
    CountIsFull(s.phases);
    CountIsFull(t.phases);
  }

  /** A run: which goroutine moved, and the states in between. */
  ghost predicate IsRun(targets: nat, states: seq<Sweep>, moves: seq<nat>) {
    && |states| == |moves| + 1
    && states[0] == Begin(targets)
    && forall k :: 0 <= k < |moves| ==> IsMove(states[k], moves[k], states[k + 1])
  }

  ghost predicate IsMove(s: Sweep, i: nat, t: Sweep) {
    i < |s.phases| && CanStep(s, i) && t == Step(s, i)
  }

  lemma {:induction false} RunKeepsInv(targets: nat, states: seq<Sweep>, moves: seq<nat>, k: nat)
    requires IsRun(targets, states, moves) && k <= |moves|
    ensures Inv(states[k]) && |states[k].phases| == targets
  {
    if k == 0 {
      BeginEstablishesInv(targets);
    } else {
      RunKeepsInv(targets, states, moves, k - 1);
      assert IsMove(states[k - 1], moves[k - 1], states[k]);
      StepKeepsInv(states[k - 1], moves[k - 1]);
    }
  }

  /** Under every interleaving: the counter is exact, the sweep is reported complete at most once, never before
      every target's first probe returned and was counted, and whenever all have been counted and the last of
      them is past its check it has been reported. */
  lemma SweepIsABarrier(targets: nat, states: seq<Sweep>, moves: seq<nat>, k: nat)
    requires IsRun(targets, states, moves) && k <= |moves|
    ensures var s := states[k];
            && |s.phases| == targets
            && s.firstResults == CountOf(s.phases)
            && s.completions <= 1
            && (s.completions == 1 ==> forall i :: 0 <= i < targets ==> HasCounted(s.phases[i]))
            && ((forall i :: 0 <= i < targets ==> s.phases[i].Marked? || s.phases[i].Looping?) ==> s.completions == 1)
  {
    RunKeepsInv(targets, states, moves, k);
    CountIsFull(states[k].phases);
  }

  // Progress

  function Remaining(p: Phase): nat {
    match p
    case NotSpawned => 6
    case Probing => 5
    case Probed => 4
    case Holding => 3
    case Counted => 2
    case Marked => 1
    case Looping => 0
  }

  function Work(phases: seq<Phase>): nat {
    if phases == [] then 0 else Work(phases[..|phases| - 1]) + Remaining(phases[|phases| - 1])
  }

  lemma {:induction false} WorkAfterUpdate(phases: seq<Phase>, i: nat, p: Phase)
    requires i < |phases|
    ensures Work(phases[i := p]) == Work(phases) - Remaining(phases[i]) + Remaining(p)
  {
    var front := phases[..|phases| - 1];
    if i == |phases| - 1 {
      assert phases[i := p][..|phases| - 1] == front;
    } else {
      assert phases[i := p][..|phases| - 1] == front[i := p];
      WorkAfterUpdate(front, i, p);
    }
  }

  lemma {:induction false} InitialWork(targets: nat)
    ensures Work(seq(targets, _ => NotSpawned)) == 6 * targets
  {
    if targets != 0 {
      assert seq(targets, _ => NotSpawned)[..targets - 1] == seq(targets - 1, _ => NotSpawned);
      InitialWork(targets - 1);
    }
  }

  /** Nothing can block the sweep: as long as a goroutine is not through, one of them can move. */
  lemma NeverStuck(s: Sweep) returns (i: nat)
    requires Inv(s) && exists j :: 0 <= j < |s.phases| && s.phases[j] != Looping
    ensures i < |s.phases| && CanStep(s, i)
  {
    if s.holder != -1 {
      i := s.holder;
    } else {
      i := FirstBusy(s.phases);
    }
  }

  lemma FirstBusy(phases: seq<Phase>) returns (i: nat)
    requires exists j :: 0 <= j < |phases| && phases[j] != Looping
    ensures i < |phases| && phases[i] != Looping && forall j :: 0 <= j < i ==> phases[j] == Looping
  {
    i := 0;
    while phases[i] == Looping
      invariant 0 <= i < |phases|
      invariant forall j :: 0 <= j < i ==> phases[j] == Looping
      invariant exists j :: i <= j < |phases| && phases[j] != Looping
      decreases |phases| - i
    {
      i := i + 1;
    }
  }

  /** Every run is finite, and one that cannot go on has reported the sweep complete exactly once. */
  lemma {:induction false} WorkRunsOut(targets: nat, states: seq<Sweep>, moves: seq<nat>, k: nat)
    requires IsRun(targets, states, moves) && k <= |moves|
    ensures Work(states[k].phases) + k <= 6 * targets
  {
    if k == 0 {
      InitialWork(targets);
    } else {
      WorkRunsOut(targets, states, moves, k - 1);
      var s, i := states[k - 1], moves[k - 1];
      assert IsMove(s, i, states[k]);
      WorkAfterUpdate(s.phases, i, states[k].phases[i]);
    }
  }

  lemma SweepCompletes(targets: nat, states: seq<Sweep>, moves: seq<nat>)
    requires IsRun(targets, states, moves)
    ensures |moves| <= 6 * targets
    ensures |states[|moves|].phases| == targets
    ensures var s := states[|moves|];
            (forall i :: 0 <= i < |s.phases| ==> !CanStep(s, i)) ==>
              s.completions == 1 && s.firstResults == targets && forall i :: 0 <= i < targets ==> s.phases[i] == Looping
  {
    var s := states[|moves|];
    WorkRunsOut(targets, states, moves, |moves|);
    RunKeepsInv(targets, states, moves, |moves|);
    if forall i :: 0 <= i < |s.phases| ==> !CanStep(s, i) {
      if exists j :: 0 <= j < |s.phases| && s.phases[j] != Looping {
        var i := NeverStuck(s);
        assert false;
      }
      CountIsFull(s.phases);
    }
  }
}
