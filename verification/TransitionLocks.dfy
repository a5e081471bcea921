/** The per-group lock: a map of reference-counted mutexes, made on first use and dropped on last. */
module TransitionLocks {
  import opened Options

  /** Where a thread is: it has taken a reference and waits, it is inside, or it has unlocked and
      has still to give its reference back. Threads that are elsewhere are not listed. */
  datatype Phase<T> = Waiting(gid: int, on: T) | Inside(gid: int, on: T) | Departing(gid: int, on: T)

  /** One mutex: its reference count and which thread holds it. */
  datatype Cell = Cell(refs: int, holder: Option<nat>)

  datatype State<T(==)> = State(groups: map<int, T>, cells: map<T, Cell>, threads: map<nat, Phase<T>>)

  function Idle<T(==)>(): State<T> { State(map[], map[], map[]) }

  datatype Step<T> = Enter(t: nat, gid: int, spare: T) | Acquire(t: nat) | Release(t: nat) | Exit(t: nat)

  ghost predicate Possible<T>(s: State<T>, step: Step<T>) {
    match step
    case Enter(t, gid, spare) => t !in s.threads && spare !in s.cells && (gid in s.groups ==> s.groups[gid] in s.cells)
    case Acquire(t) =>
      t in s.threads && s.threads[t].Waiting? && s.threads[t].on in s.cells && s.cells[s.threads[t].on].holder.None?
    case Release(t) => t in s.threads && s.threads[t].Inside? && s.threads[t].on in s.cells
    case Exit(t) => t in s.threads && s.threads[t].Departing? && s.threads[t].on in s.cells
  }

  /** The first critical section of `lock`: find or make the group's mutex and take a reference. */
  function Entered<T(==)>(s: State<T>, t: nat, gid: int, spare: T): State<T>
    requires gid in s.groups ==> s.groups[gid] in s.cells
  {
    var on := if gid in s.groups then s.groups[gid] else spare;
    var cell := if gid in s.groups then s.cells[on] else Cell(0, None);
    s.(groups := s.groups[gid := on], cells := s.cells[on := cell.(refs := cell.refs + 1)],
       threads := s.threads[t := Waiting(gid, on)])
  }

  function Acquired<T(==)>(s: State<T>, t: nat): State<T>
    requires t in s.threads && s.threads[t].on in s.cells
  {
    var p := s.threads[t];
    s.(cells := s.cells[p.on := s.cells[p.on].(holder := Some(t))], threads := s.threads[t := Inside(p.gid, p.on)])
  }

  function Released<T(==)>(s: State<T>, t: nat): State<T>
    requires t in s.threads && s.threads[t].on in s.cells
  {
    var p := s.threads[t];
    s.(cells := s.cells[p.on := s.cells[p.on].(holder := None)], threads := s.threads[t := Departing(p.gid, p.on)])
  }

  /** The last critical section: give the reference back, and drop the mutex nobody refers to. */
  function Exited<T(==)>(s: State<T>, t: nat): State<T>
    requires t in s.threads && s.threads[t].on in s.cells
  {
    var p := s.threads[t];
    var refs := s.cells[p.on].refs - 1;
    s.(cells := s.cells[p.on := s.cells[p.on].(refs := refs)],
       groups := if refs == 0 then s.groups - {p.gid} else s.groups,
       threads := s.threads - {t})
  }

  ghost function After<T>(s: State<T>, step: Step<T>): State<T>
    requires Possible(s, step)
  {
    match step
    case Enter(t, gid, spare) => Entered(s, t, gid, spare)
    case Acquire(t) => Acquired(s, t)
    case Release(t) => Released(s, t)
    case Exit(t) => Exited(s, t)
  }

  // ---- What every step keeps ----

  /** The threads at work on a group. */
  ghost function On<T>(s: State<T>, gid: int): set<nat> { set t | t in s.threads && s.threads[t].gid == gid }

  ghost predicate Shared<T>(s: State<T>) {
    && (forall t | t in s.threads :: s.threads[t].gid in s.groups && s.groups[s.threads[t].gid] == s.threads[t].on)
    && (forall g | g in s.groups :: s.groups[g] in s.cells)
    && (forall g, h | g in s.groups && h in s.groups && s.groups[g] == s.groups[h] :: g == h)
  }

  ghost predicate Counted<T>(s: State<T>) {
    forall g | g in s.groups :: s.groups[g] in s.cells && s.cells[s.groups[g]].refs == |On(s, g)| && On(s, g) != {}
  }

  ghost predicate Exclusive<T>(s: State<T>) {
    && (forall t | t in s.threads :: s.threads[t].on in s.cells &&
          (s.threads[t].Inside? <==> s.cells[s.threads[t].on].holder == Some(t)))
    && (forall g | g in s.groups && s.groups[g] in s.cells && s.cells[s.groups[g]].holder.Some? ::
          s.cells[s.groups[g]].holder.value in s.threads && s.threads[s.cells[s.groups[g]].holder.value].on == s.groups[g])
  }

  ghost predicate Inv<T>(s: State<T>) { Shared(s) && Counted(s) && Exclusive(s) }

  lemma EnterCounts<T>(s: State<T>, step: Step<T>)
    requires Inv(s) && step.Enter? && Possible(s, step)
    ensures Counted(After(s, step))
  {
    var s' := After(s, step);
    forall g | g in s'.groups
      ensures s'.cells[s'.groups[g]].refs == |On(s', g)| && On(s', g) != {}
    {
      if g == step.gid {
        assert On(s', g) == On(s, g) + {step.t} && step.t !in On(s, g);
        if g !in s.groups { assert On(s, g) == {}; }
      } else {
        assert On(s', g) == On(s, g);
      }
    }
  }

  lemma ExitCounts<T>(s: State<T>, step: Step<T>)
    requires Inv(s) && step.Exit? && Possible(s, step)
    ensures Counted(After(s, step)) && Shared(After(s, step))
  {
    var s' := After(s, step);
    var gid := s.threads[step.t].gid;
    assert On(s', gid) == On(s, gid) - {step.t} && step.t in On(s, gid);
    forall g | g in s'.groups
      ensures s'.cells[s'.groups[g]].refs == |On(s', g)| && On(s', g) != {}
    {
      if g != gid { assert On(s', g) == On(s, g); }
    }
    forall t | t in s'.threads ensures s'.threads[t].gid in s'.groups {
      if s'.threads[t].gid == gid { assert t in On(s', gid); }
    }
  }

  lemma HoldCounts<T>(s: State<T>, step: Step<T>)
    requires Inv(s) && (step.Acquire? || step.Release?) && Possible(s, step)
    ensures Counted(After(s, step))
  {
    var s' := After(s, step);
    forall g | g in s'.groups ensures s'.cells[s'.groups[g]].refs == |On(s', g)| && On(s', g) != {} {
      assert On(s', g) == On(s, g);
    }
  }

  lemma HoldShares<T>(s: State<T>, step: Step<T>)
    requires Shared(s) && Exclusive(s) && (step.Acquire? || step.Release?) && Possible(s, step)
    ensures Shared(After(s, step)) && Exclusive(After(s, step))
  {
  }

  lemma EnterShares<T>(s: State<T>, step: Step<T>)
    requires Shared(s) && Exclusive(s) && step.Enter? && Possible(s, step)
    ensures Shared(After(s, step)) && Exclusive(After(s, step))
  {
  }

  lemma ExitExcludes<T>(s: State<T>, step: Step<T>)
    requires Shared(s) && Exclusive(s) && step.Exit? && Possible(s, step)
    ensures Exclusive(After(s, step))
  {
  }

  lemma StepKeepsInv<T>(s: State<T>, step: Step<T>)
    requires Inv(s) && Possible(s, step)
    ensures Inv(After(s, step))
  {
    if step.Enter? {
      EnterCounts(s, step);
      EnterShares(s, step);
    } else if step.Exit? {
      ExitCounts(s, step);
      ExitExcludes(s, step);
    } else {
      HoldCounts(s, step);
      HoldShares(s, step);
    }
  }

  ghost predicate Runs<T>(s: State<T>, steps: seq<Step<T>>, s': State<T>)
    decreases |steps|
  {
    if steps == [] then s' == s
    else Possible(s, steps[0]) && Runs(After(s, steps[0]), steps[1..], s')
  }

  lemma {:induction false} RunsKeepInv<T>(s: State<T>, steps: seq<Step<T>>, s': State<T>)
    requires Inv(s) && Runs(s, steps, s')
    ensures Inv(s')
    decreases |steps|
  {
    if steps != [] {
      StepKeepsInv(s, steps[0]);
      RunsKeepInv(After(s, steps[0]), steps[1..], s');
    }
  }

  /** For any number of threads in any interleaving: at most one is inside a group; all threads at
      work on a group share one mutex, whose count is their number; a group has a mutex exactly
      while some thread is at work on it. */
  lemma LockIsExclusive<T>(steps: seq<Step<T>>, s: State<T>)
    requires Runs(Idle<T>(), steps, s)
    ensures forall t, u | t in s.threads && u in s.threads && s.threads[t].Inside? && s.threads[u].Inside?
              && s.threads[t].gid == s.threads[u].gid :: t == u
    ensures forall t | t in s.threads :: s.threads[t].gid in s.groups && s.groups[s.threads[t].gid] == s.threads[t].on
    ensures forall g | g in s.groups :: s.groups[g] in s.cells && s.cells[s.groups[g]].refs == |On(s, g)|
    ensures forall g :: g in s.groups <==> On(s, g) != {}
    ensures s.threads == map[] ==> s.groups == map[]
  {
    RunsKeepInv(Idle<T>(), steps, s);
    forall g ensures g in s.groups <==> On(s, g) != {} {
      if On(s, g) != {} {
        var t :| t in On(s, g);
        assert s.threads[t].gid in s.groups;
      }
    }
    if s.groups.Keys != {} {
      var g :| g in s.groups.Keys;
      assert On(s, g) != {};
    } else {
      assert s.groups == map[];
    }
  }

  // ---- The lock itself ----

  class Transition {
    var refs: int
    var holder: Option<nat>

    constructor ()
      ensures refs == 0 && holder == None
    {
      refs, holder := 0, None;
    }
  }

  /** `registrationTransitionLocks`; each method is what runs under one mutex. */
  class Locks {
    var groups: map<int, Transition>
    ghost var cells: map<Transition, Cell>
    ghost var threads: map<nat, Phase<Transition>>

    constructor ()
      ensures Valid() && Abs() == State(map[], map[], map[])
    {
      groups, cells, threads := map[], map[], map[];
    }

    ghost predicate Valid()
      reads this, cells.Keys
    {
      && (forall x | x in cells :: cells[x] == Cell(x.refs, x.holder))
      && (forall g | g in groups :: groups[g] in cells)
      && (forall t | t in threads :: threads[t].on in cells)
    }

    ghost function Abs(): State<Transition>
      reads this
    {
      State(groups, cells, threads)
    }

    method Enter(ghost t: nat, gid: int) returns (transition: Transition)
      requires Valid() && t !in threads
      modifies this, cells.Keys
      ensures Valid() && t in threads && threads[t] == Waiting(gid, transition)
      ensures gid in old(groups) || transition !in old(cells)
      ensures Abs() == Entered(old(Abs()), t, gid, transition)
    {
      if gid in groups {
        transition := groups[gid];
      } else {
        transition := new Transition();
        groups := groups[gid := transition];
      }
      transition.refs := transition.refs + 1;
      cells := cells[transition := Cell(transition.refs, transition.holder)];
      threads := threads[t := Waiting(gid, transition)];
    }

    /** `transition.mu.Lock()` returning: nobody else holds it. */
    method Acquire(t: nat, transition: Transition)
      requires Valid() && t in threads && threads[t].Waiting? && threads[t].on == transition && transition.holder.None?
      modifies `cells, `threads, transition`holder
      ensures Valid() && Abs() == Acquired(old(Abs()), t)
    {
      transition.holder := Some(t);
      cells := cells[transition := Cell(transition.refs, transition.holder)];
      threads := threads[t := Inside(threads[t].gid, transition)];
    }

    method Release(ghost t: nat, transition: Transition)
      requires Valid() && t in threads && threads[t].Inside? && threads[t].on == transition
      modifies `cells, `threads, transition`holder
      ensures Valid() && Abs() == Released(old(Abs()), t)
    {
      transition.holder := None;
      cells := cells[transition := Cell(transition.refs, transition.holder)];
      threads := threads[t := Departing(threads[t].gid, transition)];
    }

    method Exit(ghost t: nat, gid: int, transition: Transition)
      requires Valid() && t in threads && threads[t] == Departing(gid, transition)
      modifies this, transition`refs
      ensures Valid() && Abs() == Exited(old(Abs()), t)
    {
      transition.refs := transition.refs - 1;
      cells := cells[transition := Cell(transition.refs, transition.holder)];
      if transition.refs == 0 {
        groups := groups - {gid};
      }
      threads := threads - {t};
    }
  }
}
