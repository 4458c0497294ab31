/** What the pool owes to parked requests: whom each critical section wakes, and that a freed lease is taken. */
module PoolWakes {
  import opened Options
  import opened Text
  import opened PoolSpec
  import opened PoolRuns
  import Sums

  // ---- whom a step wakes

  /** The number of parked requests that a step wakes: a release that gives back a lease wakes one, and whatever
      changes the accounts wakes all. */
  function Woken(st: State, step: Step): nat {
    match step
    case DoRelease(id) => if id != "" && id in st.inUse && st.inUse[id] > 0 && |st.waiters| > 0 then 1 else 0
    case DoRemove(id) => if id == "" then 0 else |st.waiters|
    case DoSync(_) => |st.waiters|
    case DoReset => |st.waiters|
    case _ => 0
  }

  /** A request that finds no account, and may wait, parks. */
  ghost predicate Parks(st: State, step: Step) {
    step.DoAcquireOrPark? && Choice(st, step.target, step.exclude).None? && CanQueue(st, step.target, step.exclude)
  }

  /** Those woken are the ones parked longest; their channels are closed in that order, the others stay parked in
      order, and a new one goes to the end. */
  lemma StepWakes(settings: Settings, st: State, step: Step)
    requires !step.DoCancel?
    ensures var st', k := Next(settings, st, step), Woken(st, step);
      && k <= |st.waiters| && st'.closings == st.closings + st.waiters[..k]
      && st'.waiters == st.waiters[k..] + (if Parks(st, step) then [st.nextWaiter] else [])
  {
    hide Choice, CanQueue, SumOf;
    var st', k := Next(settings, st, step), Woken(st, step);
    assert st.waiters[..|st.waiters|] == st.waiters;
    assert st.closings + [] == st.closings;
    if st.waiters != [] {
      assert st.waiters[..1] == [st.waiters[0]];
    }
  }

  /** New limits may make room, so they wake one. */
  lemma LimitsWake(st: State, maxPer: int, maxQueue: int, global: int)
    ensures var st', k := ApplyLimits(st, maxPer, maxQueue, global), if st.waiters == [] then 0 else 1;
      st'.closings == st.closings + st.waiters[..k] && st'.waiters == st.waiters[k..]
  {
    if st.waiters != [] {
      assert st.waiters[..1] == [st.waiters[0]];
    }
  }

  /** A request that gives up takes itself off the list and nobody else. */
  lemma CancelDrops(st: State, w: nat)
    ensures Cancel(st, w).closings == st.closings
    ensures w !in st.waiters ==> Cancel(st, w) == st
    ensures w in st.waiters ==>
      exists i :: 0 <= i < |st.waiters| && st.waiters[i] == w
        && Cancel(st, w).waiters == st.waiters[..i] + st.waiters[i + 1..]
  {
  }

  lemma StillThere(s: seq<nat>, i: nat, w: nat)
    requires i < |s| && w in s && s[i] != w
    ensures w in s[..i] + s[i + 1..]
  {
    var j :| 0 <= j < |s| && s[j] == w;
    assert (s[..i] + s[i + 1..])[if j < i then j else j - 1] == w;
  }

  lemma CancelSpares(st: State, other: nat, w: nat)
    requires (w in st.waiters || w in st.closings) && other != w
    ensures w in Cancel(st, other).waiters || w in Cancel(st, other).closings
  {
    CancelDrops(st, other);
    hide Cancel;
    if other in st.waiters && w in st.waiters {
      var i :| 0 <= i < |st.waiters| && st.waiters[i] == other
        && Cancel(st, other).waiters == st.waiters[..i] + st.waiters[i + 1..];
      StillThere(st.waiters, i, w);
    }
  }

  lemma InParts(s: seq<nat>, k: nat, w: nat)
    requires k <= |s| && w in s
    ensures w in s[..k] || w in s[k..]
  {
    assert s == s[..k] + s[k..];
  }

  /** A request that is parked or woken stays so, unless it gives up. */
  lemma Remembered(settings: Settings, st: State, step: Step, w: nat)
    requires (w in st.waiters || w in st.closings) && step != DoCancel(w)
    ensures var st' := Next(settings, st, step); w in st'.waiters || w in st'.closings
  {
    if step.DoCancel? {
      CancelSpares(st, step.waiter, w);
    } else {
      hide Next, Woken, Parks;
      StepWakes(settings, st, step);
      if w in st.waiters {
        InParts(st.waiters, Woken(st, step), w);
      }
    }
  }

  /** No parked request is forgotten in any run: it is still parked, or its channel was closed, or it gave up. */
  lemma {:induction false} NobodyForgotten(settings: Settings, st: State, steps: seq<Step>, w: nat)
    requires (w in st.waiters || w in st.closings) && DoCancel(w) !in steps
    ensures var st' := Run(settings, st, steps); w in st'.waiters || w in st'.closings
    decreases |steps|
  {
    hide Next;
    if steps != [] {
      Remembered(settings, st, steps[0], w);
      NobodyForgotten(settings, Next(settings, st, steps[0]), steps[1..], w);
    }
  }

  // ---- when an account is found

  /** Identifiers are trimmed and not blank, and the queue has each once. */
  ghost predicate TrimmedNames(st: State) {
    && (forall id :: id in st.lookup.byID ==> id != "" && Trim(id) == id)
    && (forall i :: 0 <= i < |st.queue| ==> st.queue[i] in st.lookup.byID)
  }

  /** The leases on record for an account are as many as allowed. */
  predicate AtLimit(st: State, id: string) {
    (if id in st.inUse then st.inUse[id] else 0) >= st.maxPer
  }

  ghost predicate GloballyFull(st: State) {
    st.globalMax > 0 && SumOf(st.inUse) >= st.globalMax
  }

  /** An untargeted acquire fails exactly when the global limit is reached, or every queued account is excluded or
      at its own limit. */
  lemma AcquireFailsExactly(st: State, exclude: set<string>)
    requires TrimmedNames(st)
    ensures Choice(st, "", exclude).None? <==>
      GloballyFull(st) || forall i :: 0 <= i < |st.queue| ==> st.queue[i] in exclude || AtLimit(st, st.queue[i])
  {
    hide SumOf, FirstEligible, Trim;
    FailsOnlyWhenNoneEligible(st, exclude, st.queue);
    forall i | 0 <= i < |st.queue|
      ensures Eligible(st, exclude, st.queue[i]) <==>
        !GloballyFull(st) && st.queue[i] !in exclude && !AtLimit(st, st.queue[i])
    {
    }
  }

  /** A named account is leased exactly when it is listed, not excluded, not at its limit, and the global limit is
      not reached. */
  lemma TargetFailsExactly(st: State, target: string, exclude: set<string>)
    requires target != "" && Trim(target) == target
    ensures Choice(st, target, exclude) ==
      if target in st.lookup.byID && target !in exclude && !AtLimit(st, target) && !GloballyFull(st)
      then Some(target) else None
  {
    hide SumOf, Trim;
  }

  /** A request that finds no account parks exactly when it names no account or a listed one that is not excluded,
      and the list of waiters is not full. */
  lemma ParksExactly(st: State, target: string, exclude: set<string>)
    requires Trim(target) == target && Choice(st, target, exclude).None?
    ensures st.nextWaiter in AcquireOrPark(st, target, exclude).waiters[|st.waiters|..] <==>
      && (target == "" || (target in st.lookup.byID && target !in exclude))
      && (st.maxQueue == -1 || |st.waiters| < st.maxQueue)
  {
    hide Choice;
    assert (st.waiters + [st.nextWaiter])[|st.waiters|..] == [st.nextWaiter];
  }

  // ---- a freed lease

  lemma ReleasedState(settings: Settings, st: State, id: string)
    requires Inv(settings, st) && id != "" && id in st.inUse
    ensures var st' := Release(st, id);
      && st'.lookup == st.lookup && st'.queue == st.queue && st'.maxPer == st.maxPer && st'.globalMax == st.globalMax
      && !AtLimit(st', id) && !GloballyFull(st')
      && forall x :: x != id ==> (AtLimit(st', x) <==> AtLimit(st, x))
  {
    if st.inUse[id] == 1 {
      Sums.Pick(st.inUse, id);
    } else {
      Sums.Update(st.inUse, id, st.inUse[id] - 1);
    }
    hide SumOf, Elements;
  }

  /** A request that parked for an account, or for any, gets one once a holder of a queued account gives it back and
      nobody acquires in between: its channel is closed, and its next pass finds an account, which is that very
      account when it asked for it, or when every other account is still taken. */
  lemma ParkedIsServed(settings: Settings, st: State, target: string, exclude: set<string>, id: string)
    requires Inv(settings, st) && TrimmedNames(st) && Trim(target) == target && st.waiters == []
    requires Parks(st, DoAcquireOrPark(target, exclude))
    requires id in st.inUse && id in st.queue && id !in exclude && (target != "" ==> target == id)
    ensures var parked := AcquireOrPark(st, target, exclude);
      var freed := Release(parked, id);
      && parked.waiters == [st.nextWaiter] && freed.waiters == [] && freed.closings == st.closings + [st.nextWaiter]
      && Choice(freed, target, exclude).Some?
      && (target == id || !GloballyFull(st) ==> Choice(freed, target, exclude) == Some(id))
  {
    var parked := AcquireOrPark(st, target, exclude);
    var freed := Release(parked, id);
    AcquireOrParkKeeps(settings, st, target, exclude);
    StepWakes(settings, st, DoAcquireOrPark(target, exclude));
    StepWakes(settings, parked, DoRelease(id));
    hide Inv, SumOf, Trim, FirstEligible, Eligible, Release, AcquireOrPark, AtLimit, GloballyFull, Choice, CanQueue;
    ParkedOnly(st, target, exclude);
    ReleasedState(settings, parked, id);
    if target != "" {
      TargetFailsExactly(freed, target, exclude);
    } else {
      AcquireFailsExactly(freed, exclude);
      AcquireFailsExactly(st, exclude);
      var i :| 0 <= i < |st.queue| && st.queue[i] == id;
      assert freed.queue[i] !in exclude && !AtLimit(freed, freed.queue[i]);
      OnlyOneFits(st, freed, exclude, id);
    }
  }

  lemma ParkedOnly(st: State, target: string, exclude: set<string>)
    requires Parks(st, DoAcquireOrPark(target, exclude))
    ensures AcquireOrPark(st, target, exclude)
         == st.(waiters := st.waiters + [st.nextWaiter], nextWaiter := st.nextWaiter + 1)
    ensures Choice(st, target, exclude).None?
    ensures forall x :: AtLimit(AcquireOrPark(st, target, exclude), x) <==> AtLimit(st, x)
  {
    hide Choice, CanQueue;
  }

  /** When nothing was found before and only one account was freed, that one is found. */
  lemma OnlyOneFits(st: State, freed: State, exclude: set<string>, id: string)
    requires Choice(freed, "", exclude).Some? && freed.queue == st.queue
    requires GloballyFull(st) || forall i :: 0 <= i < |st.queue| ==> st.queue[i] in exclude || AtLimit(st, st.queue[i])
    requires forall x :: x != id ==> (AtLimit(freed, x) <==> AtLimit(st, x))
    ensures !GloballyFull(st) ==> Choice(freed, "", exclude) == Some(id)
  {
    FirstIsEligible(freed, exclude, freed.queue);
    hide SumOf, FirstEligible, GloballyFull, FindAccount;
    var c := Choice(freed, "", exclude).value;
    assert !AtLimit(freed, c);
    var i :| 0 <= i < |freed.queue| && freed.queue[i] == c;
    assert st.queue[i] == c;
  }
}
