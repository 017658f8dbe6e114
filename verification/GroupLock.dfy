/**
 The per-port Group of the relay: a mutex, a condition variable and a busy flag serialise the
 connections that are opening an upstream. Any number of connection threads, any interleaving.
 */
module GroupLock {

  /** Where one connection thread stands in `conn_thread`. */
  datatype Pc =
    | Arriving       // about to lock the mutex for the first time
    | Testing        // holds the mutex, at the loop test on busy
    | Asleep         // inside pthread_cond_wait, mutex released
    | Woken          // signalled, waiting to take the mutex back
    | Claiming       // holds the mutex, has left the loop, about to set busy
    | Leaving        // holds the mutex, busy set, about to unlock
    | Opening        // inside stream_open_upstream, no mutex
    | Returning      // about to lock the mutex again
    | Clearing       // holds the mutex, about to clear busy
    | Broadcasting   // holds the mutex, busy cleared, about to broadcast
    | Unlocking      // holds the mutex, about to unlock
    | Pumping        // done with the group

  /** Program counters, owner of the mutex, the flag, and how often each thread has opened an upstream. */
  datatype State = State(pcs: seq<Pc>, owner: int, busy: bool, opens: seq<nat>)

  const NOBODY := -1

  predicate Holds(p: Pc)
  {
    p.Testing? || p.Claiming? || p.Leaving? || p.Clearing? || p.Broadcasting? || p.Unlocking?
  }

  /** Between setting busy and clearing it. */
  predicate Inside(p: Pc)
  {
    p.Leaving? || p.Opening? || p.Returning? || p.Clearing?
  }

  function Init(): (s: State)
  {
    State([], NOBODY, false, [])
  }

  datatype Step =
    | Spawn          // the accept loop starts another connection thread
    | Spurious(t: nat)   // a condition wait returns without a broadcast
    | Run(t: nat)    // thread t executes its next action

  predicate Enabled(s: State, a: Step)
  {
    match a
    case Spawn => true
    case Spurious(t) => t < |s.pcs| && s.pcs[t].Asleep?
    case Run(t) =>
      && t < |s.pcs|
      && !s.pcs[t].Asleep? && !s.pcs[t].Pumping?
      && (s.pcs[t].Arriving? || s.pcs[t].Woken? || s.pcs[t].Returning? ==> s.owner == NOBODY)
  }

  function Wake(p: Pc): Pc
  {
    if p.Asleep? then Woken else p
  }

  function WakeAll(pcs: seq<Pc>): (r: seq<Pc>)
    ensures |r| == |pcs|
    ensures forall i :: 0 <= i < |pcs| ==> r[i] == Wake(pcs[i])
  {
    seq(|pcs|, i requires 0 <= i < |pcs| => Wake(pcs[i]))
  }

  /** The action a thread takes at p, as seen by its own program counter. */
  function Next(p: Pc, busy: bool): Pc
  {
    match p
    case Arriving => Testing
    case Testing => if busy then Asleep else Claiming
    case Asleep => Asleep
    case Woken => Testing
    case Claiming => Leaving
    case Leaving => Opening
    case Opening => Returning
    case Returning => Clearing
    case Clearing => Broadcasting
    case Broadcasting => Unlocking
    case Unlocking => Pumping
    case Pumping => Pumping
  }

  /** The mutex is taken on arrival, on waking and on return; it is given up by sleeping and by the two unlocks. */
  function NextOwner(s: State, t: nat): int
    requires t < |s.pcs|
  {
    var p := s.pcs[t];
    if p.Arriving? || p.Woken? || p.Returning? then t
    else if (p.Testing? && s.busy) || p.Leaving? || p.Unlocking? then NOBODY
    else s.owner
  }

  function NextBusy(p: Pc, busy: bool): bool
  {
    if p.Claiming? then true else if p.Clearing? then false else busy
  }

  function Apply(s: State, a: Step): (s': State)
    requires Enabled(s, a)
    ensures |s'.pcs| >= |s.pcs|
  {
    match a
    case Spawn => s.(pcs := s.pcs + [Arriving], opens := s.opens + [0])
    case Spurious(t) => s.(pcs := s.pcs[t := Woken])
    case Run(t) =>
      var p := s.pcs[t];
      State((if p.Broadcasting? then WakeAll(s.pcs) else s.pcs)[t := Next(p, s.busy)],
            NextOwner(s, t), NextBusy(p, s.busy),
            if p.Opening? && t < |s.opens| then s.opens[t := s.opens[t] + 1] else s.opens)
  }

  /** Every step of the run is enabled when its turn comes. */
  predicate IsRun(s: State, steps: seq<Step>)
    decreases |steps|
  {
    steps == [] || (Enabled(s, steps[0]) && IsRun(Apply(s, steps[0]), steps[1..]))
  }

  function After(s: State, steps: seq<Step>): (s': State)
    requires IsRun(s, steps)
    decreases |steps|
  {
    if steps == [] then s else After(Apply(s, steps[0]), steps[1..])
  }

  // ---- The invariant

  ghost predicate MutexOwned(s: State)
  {
    && NOBODY <= s.owner < |s.pcs|
    && forall t :: 0 <= t < |s.pcs| ==> (Holds(s.pcs[t]) <==> s.owner == t)
  }

  /** busy is raised exactly while one thread is inside, and there is never a second one. */
  ghost predicate BusyExact(s: State)
  {
    && (s.busy <==> exists t :: 0 <= t < |s.pcs| && Inside(s.pcs[t]))
    && (forall t, u :: 0 <= t < |s.pcs| && 0 <= u < |s.pcs| && Inside(s.pcs[t]) && Inside(s.pcs[u]) ==> t == u)
    && (forall t :: 0 <= t < |s.pcs| && s.pcs[t].Claiming? ==> !s.busy)
  }

  /** A sleeper on a free group has a broadcast on its way. */
  ghost predicate NoMissedWakeup(s: State)
  {
    forall t :: 0 <= t < |s.pcs| && s.pcs[t].Asleep? && !s.busy ==>
      s.owner != NOBODY && 0 <= s.owner < |s.pcs| && s.pcs[s.owner].Broadcasting?
  }

  ghost predicate Inv(s: State)
  {
    MutexOwned(s) && BusyExact(s) && NoMissedWakeup(s)
  }

  lemma InitInv()
    ensures Inv(Init())
  {
  }

  /** A thread that does not act keeps its place in the protocol, unless a broadcast wakes it. */
  lemma Others(s: State, a: Step, u: nat)
    requires Enabled(s, a) && u < |s.pcs| && a != Run(u)
    ensures Apply(s, a).pcs[u] == s.pcs[u] || (s.pcs[u].Asleep? && Apply(s, a).pcs[u].Woken?)
  {
  }

  lemma StepMutex(s: State, a: Step)
    requires MutexOwned(s) && Enabled(s, a)
    ensures MutexOwned(Apply(s, a))
  {
    var s' := Apply(s, a);
    forall u | 0 <= u < |s'.pcs|
      ensures Holds(s'.pcs[u]) <==> s'.owner == u
    {
      if u < |s.pcs| && a != Run(u) {
        Others(s, a, u);
      }
    }
  }

  lemma StepBusy(s: State, a: Step)
    requires Inv(s) && Enabled(s, a)
    ensures BusyExact(Apply(s, a))
  {
    var s' := Apply(s, a);
    forall u | 0 <= u < |s.pcs| && a != Run(u)
      ensures Inside(s'.pcs[u]) == Inside(s.pcs[u]) && s'.pcs[u].Claiming? == s.pcs[u].Claiming?
    {
      Others(s, a, u);
    }
    if a.Run? {
      assert s'.pcs[a.t] == Next(s.pcs[a.t], s.busy);
    }
    if s'.busy {
      if s.busy {
        var w :| 0 <= w < |s.pcs| && Inside(s.pcs[w]);
        assert Inside(s'.pcs[w]);
      } else {
        assert Inside(s'.pcs[a.t]);
      }
    }
  }

  lemma StepWakeup(s: State, a: Step)
    requires Inv(s) && Enabled(s, a)
    ensures NoMissedWakeup(Apply(s, a))
  {
    var s' := Apply(s, a);
    forall u | 0 <= u < |s'.pcs| && s'.pcs[u].Asleep? && !s'.busy
      ensures s'.owner != NOBODY && 0 <= s'.owner < |s'.pcs| && s'.pcs[s'.owner].Broadcasting?
    {
      if a != Run(u) {
        Others(s, a, u);
        if a.Run? && s.pcs[a.t].Clearing? {
          assert s'.owner == a.t;
        }
      }
    }
  }

  lemma StepInv(s: State, a: Step)
    requires Inv(s) && Enabled(s, a)
    ensures Inv(Apply(s, a))
  {
    StepMutex(s, a);
    StepBusy(s, a);
    StepWakeup(s, a);
  }

  lemma {:induction false} RunInv(s: State, steps: seq<Step>)
    requires Inv(s) && IsRun(s, steps)
    ensures Inv(After(s, steps))
    decreases |steps|
  {
    if steps != [] {
      StepInv(s, steps[0]);
      RunInv(Apply(s, steps[0]), steps[1..]);
    }
  }

  /** Mutual exclusion over every interleaving: at most one thread is opening an upstream, and busy says so. */
  lemma MutualExclusion(steps: seq<Step>)
    requires IsRun(Init(), steps)
    ensures var s := After(Init(), steps);
      && (forall t, u :: 0 <= t < |s.pcs| && 0 <= u < |s.pcs| && s.pcs[t].Opening? && s.pcs[u].Opening? ==> t == u)
      && (s.busy <==> exists t :: 0 <= t < |s.pcs| && Inside(s.pcs[t]))
  {
    InitInv();
    RunInv(Init(), steps);
    var s := After(Init(), steps);
    assert forall t :: 0 <= t < |s.pcs| && s.pcs[t].Opening? ==> Inside(s.pcs[t]);
  }

  /** Every thread has opened an upstream once when it has returned from doing so, and not before. */
  ghost predicate OpensExact(s: State)
  {
    && |s.opens| == |s.pcs|
    && forall t :: 0 <= t < |s.pcs| ==> s.opens[t] == if Past(s.pcs[t]) then 1 else 0
  }

  /** Behind `stream_open_upstream`. */
  predicate Past(p: Pc)
  {
    p.Returning? || p.Clearing? || p.Broadcasting? || p.Unlocking? || p.Pumping?
  }

  lemma StepOpens(s: State, a: Step)
    requires OpensExact(s) && Enabled(s, a)
    ensures OpensExact(Apply(s, a))
  {
    var s' := Apply(s, a);
    forall u | 0 <= u < |s'.pcs|
      ensures s'.opens[u] == if Past(s'.pcs[u]) then 1 else 0
    {
      if u < |s.pcs| && a != Run(u) {
        Others(s, a, u);
      }
    }
  }

  lemma {:induction false} RunOpens(s: State, steps: seq<Step>)
    requires OpensExact(s) && IsRun(s, steps)
    ensures OpensExact(After(s, steps))
    decreases |steps|
  {
    hide OpensExact, Enabled, Apply;
    if steps != [] {
      StepOpens(s, steps[0]);
      RunOpens(Apply(s, steps[0]), steps[1..]);
    }
  }

  /** In every interleaving a thread that pumps has opened its upstream exactly once, inside the group. */
  lemma OpenedOnce(steps: seq<Step>)
    requires IsRun(Init(), steps)
    ensures var s := After(Init(), steps);
      |s.opens| == |s.pcs| && forall t :: 0 <= t < |s.pcs| && s.pcs[t].Pumping? ==> s.opens[t] == 1
  {
    RunOpens(Init(), steps);
  }

  // ---- Progress

  /** Distance of a thread from the end of the protocol, not counting renewed sleeps. */
  function Rank(p: Pc): nat
  {
    match p
    case Arriving => 12
    case Woken => 11
    case Testing => 10
    case Asleep => 9
    case Claiming => 8
    case Leaving => 7
    case Opening => 6
    case Returning => 5
    case Clearing => 4
    case Broadcasting => 3
    case Unlocking => 2
    case Pumping => 0
  }

  /** Threads that have yet to broadcast. */
  function Pending(pcs: seq<Pc>): nat
  {
    if pcs == [] then 0
    else (if Rank(pcs[0]) >= 3 then 1 else 0) + Pending(pcs[1..])
  }

  function Total(pcs: seq<Pc>): nat
  {
    if pcs == [] then 0 else Rank(pcs[0]) + Total(pcs[1..])
  }

  lemma {:induction false} SumsUpdate(pcs: seq<Pc>, t: nat, p: Pc)
    requires t < |pcs|
    ensures Total(pcs[t := p]) == Total(pcs) - Rank(pcs[t]) + Rank(p)
    ensures Pending(pcs[t := p]) == Pending(pcs) - (if Rank(pcs[t]) >= 3 then 1 else 0) + (if Rank(p) >= 3 then 1 else 0)
  {
    if t == 0 {
      assert pcs[t := p][1..] == pcs[1..];
    } else {
      assert pcs[t := p][1..] == pcs[1..][t - 1 := p];
      SumsUpdate(pcs[1..], t - 1, p);
    }
  }

  lemma {:induction false} PendingWakeAll(pcs: seq<Pc>)
    ensures Pending(WakeAll(pcs)) == Pending(pcs)
  {
    if pcs != [] {
      PendingWakeAll(pcs[1..]);
      assert WakeAll(pcs)[1..] == WakeAll(pcs[1..]);
    }
  }

  lemma RankDrops(p: Pc, busy: bool)
    requires !p.Asleep? && !p.Pumping?
    ensures Rank(Next(p, busy)) < Rank(p)
    ensures (Rank(p) >= 3 && Rank(Next(p, busy)) < 3) <==> p.Broadcasting?
  {
  }

  /** Every action a thread takes lowers a lexicographic measure, so runs of such actions are finite. */
  lemma RunStepDecreases(s: State, t: nat)
    requires Enabled(s, Run(t))
    ensures var s' := Apply(s, Run(t));
      || Pending(s'.pcs) < Pending(s.pcs)
      || (Pending(s'.pcs) == Pending(s.pcs) && Total(s'.pcs) < Total(s.pcs))
  {
    hide Rank, Next, Pending, Total;
    var p := s.pcs[t];
    RankDrops(p, s.busy);
    if p.Broadcasting? {
      PendingWakeAll(s.pcs);
      SumsUpdate(WakeAll(s.pcs), t, Next(p, s.busy));
    } else {
      SumsUpdate(s.pcs, t, Next(p, s.busy));
    }
  }

  ghost predicate AllPumping(s: State)
  {
    forall t :: 0 <= t < |s.pcs| ==> s.pcs[t].Pumping?
  }

  /** While some thread has not finished, some thread can act: nobody sleeps on a free group for ever. */
  lemma NeverStuck(s: State) returns (t: nat)
    requires Inv(s) && !AllPumping(s)
    ensures Enabled(s, Run(t))
  {
    if s.owner != NOBODY {
      t := s.owner;
    } else if s.busy {
      t :| 0 <= t < |s.pcs| && Inside(s.pcs[t]);
    } else {
      t :| 0 <= t < |s.pcs| && !s.pcs[t].Pumping?;
    }
  }

  /** From every reachable state the threads, left to run, all get through the group. */
  lemma {:induction false} AllGetThrough(s: State) returns (steps: seq<Step>)
    requires Inv(s)
    ensures IsRun(s, steps) && AllPumping(After(s, steps))
    ensures forall i :: 0 <= i < |steps| ==> steps[i].Run?
    decreases Pending(s.pcs), Total(s.pcs)
  {
    if AllPumping(s) {
      return [];
    }
    var t := NeverStuck(s);
    StepInv(s, Run(t));
    RunStepDecreases(s, t);
    var rest := AllGetThrough(Apply(s, Run(t)));
    steps := [Run(t)] + rest;
    assert steps[1..] == rest;
  }

  /** A run of thread actions that cannot be continued has every thread through: no schedule strands a waiter. */
  lemma MaximalRunsFinish(steps: seq<Step>)
    requires IsRun(Init(), steps)
    requires forall t :: !Enabled(After(Init(), steps), Run(t))
    ensures AllPumping(After(Init(), steps))
  {
    InitInv();
    RunInv(Init(), steps);
    if !AllPumping(After(Init(), steps)) {
      var t := NeverStuck(After(Init(), steps));
    }
  }
}
