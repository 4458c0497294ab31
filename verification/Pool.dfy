/** internal/account/pool_*.go: the pool object. Each method is one critical section. */
module Pool {
  import opened Options
  import opened PoolSpec
  import Sums

  /** account.NewMemoryLookup */
  method NewMemoryLookup(accounts: seq<Account>) returns (lookup: Lookup)
    ensures lookup == NewLookup(accounts)
  {
    var filtered: seq<Account> := [];
    var byID: map<string, Account> := map[];
    for i := 0 to |accounts|
      invariant filtered == Named(accounts[..i]) && byID == ByID(accounts[..i])
    {
      assert accounts[..i + 1][..i] == accounts[..i];
      var a := accounts[i];
      if a.id == "" {
        continue;
      }
      filtered := filtered + [a];
      byID := byID[a.id := a];
    }
    assert accounts[..|accounts|] == accounts;
    lookup := Lookup(filtered, byID);
  }

  method AccountIDList(accounts: seq<Account>) returns (ids: seq<string>)
    ensures ids == AccountIDs(accounts)
  {
    ids := [];
    for i := 0 to |accounts|
      invariant ids == AccountIDs(accounts[..i])
    {
      assert accounts[..i + 1][..i] == accounts[..i];
      if accounts[i].id != "" {
        ids := ids + [accounts[i].id];
      }
    }
    assert accounts[..|accounts|] == accounts;
  }

  /** The queue that SyncAccounts builds: survivors in their order, then the newcomers. */
  method MergedQueue(queue: seq<string>, newIDs: seq<string>, allowed: set<string>) returns (nextQueue: seq<string>)
    ensures nextQueue == Extended(Kept(queue, allowed), newIDs)
  {
    nextQueue := [];
    var seen := {};
    for i := 0 to |queue|
      invariant nextQueue == Kept(queue[..i], allowed) && seen == Elements(nextQueue)
    {
      assert queue[..i + 1][..i] == queue[..i];
      if queue[i] !in allowed {
        continue;
      }
      nextQueue := nextQueue + [queue[i]];
      seen := seen + {queue[i]};
    }
    assert queue[..|queue|] == queue;
    ghost var kept := nextQueue;
    for i := 0 to |newIDs|
      invariant nextQueue == Extended(kept, newIDs[..i]) && seen == Elements(nextQueue)
    {
      assert newIDs[..i + 1][..i] == newIDs[..i];
      if newIDs[i] in seen {
        continue;
      }
      nextQueue := nextQueue + [newIDs[i]];
      seen := seen + {newIDs[i]};
    }
    assert newIDs[..|newIDs|] == newIDs;
  }

  class Pool {
    var lookup: Lookup
    var settings: Settings
    var queue: seq<string>
    var inUse: map<string, int>
    var waiters: seq<nat>
    var maxInflightPerAccount: int
    var recommendedConcurrency: int
    var maxQueueSize: int
    var globalMaxInflight: int
    // the channels closed so far, in order, and the number of the next channel
    var closings: seq<nat>
    var nextWaiter: nat

    ghost function St(): State
      reads this
    {
      State(lookup, queue, inUse, waiters, closings, nextWaiter,
            maxInflightPerAccount, recommendedConcurrency, maxQueueSize, globalMaxInflight)
    }

    /** NewPoolWithRuntime */
    constructor (lookup: Lookup, settings: Settings)
      ensures this.lookup == lookup && this.settings == settings
      ensures St() == PoolSpec.Reset(Blank(lookup, settings.maxPer), settings)
    {
      this.lookup, this.settings := lookup, settings;
      this.queue, this.inUse, this.waiters := [], map[], [];
      this.maxInflightPerAccount := settings.maxPer;
      this.recommendedConcurrency, this.maxQueueSize, this.globalMaxInflight := 0, 0, 0;
      this.closings, this.nextWaiter := [], 0;
      new;
      Reset();
    }

    method CurrentInUse() returns (total: int)
      ensures total == SumOf(inUse)
    {
      total := 0;
      var rest := inUse;
      while rest != map[]
        invariant rest.Keys <= inUse.Keys && total + SumOf(rest) == SumOf(inUse)
        decreases |rest|
      {
        var id :| id in rest;
        Sums.Pick(rest, id);
        total := total + rest[id];
        rest := rest - {id};
      }
    }

    method CanAcquireID(id: string) returns (ok: bool)
      ensures ok <==> CanAcquire(St(), id)
    {
      if id == "" {
        return false;
      }
      if (if id in inUse then inUse[id] else 0) >= maxInflightPerAccount {
        return false;
      }
      if globalMaxInflight > 0 {
        var current := CurrentInUse();
        if current >= globalMaxInflight {
          return false;
        }
      }
      return true;
    }

    method CanQueueNow(target: string, exclude: set<string>) returns (ok: bool)
      ensures ok <==> CanQueue(St(), target, exclude)
    {
      if target != "" {
        if target in exclude {
          return false;
        }
        if FindAccount(lookup, target).None? {
          return false;
        }
      }
      if maxQueueSize == UNLIMITED_QUEUE {
        return true;
      }
      if maxQueueSize <= 0 {
        return false;
      }
      return |waiters| < maxQueueSize;
    }

    method BumpQueue(id: string)
      modifies this`queue
      ensures queue == Bump(old(queue), id)
    {
      for i := 0 to |queue|
        invariant queue == old(queue) && forall j :: 0 <= j < i ==> queue[j] != id
      {
        if queue[i] != id {
          continue;
        }
        queue := queue[..i] + queue[i + 1..];
        queue := queue + [id];
        return;
      }
    }

    method TryAcquire(exclude: set<string>) returns (acc: Option<Account>)
      modifies this`queue, this`inUse
      ensures St() == PoolSpec.Acquire(old(St()), "", exclude)
      ensures acc == match Choice(old(St()), "", exclude)
                     case Some(id) => FindAccount(lookup, id)
                     case None => None
    {
      assert queue[0..] == queue;
      for i := 0 to |queue|
        invariant St() == old(St())
        invariant FirstEligible(St(), exclude, queue) == FirstEligible(St(), exclude, queue[i..])
      {
        var id := queue[i];
        assert queue[i..][0] == id && queue[i..][1..] == queue[i + 1..];
        var free := CanAcquireID(id);
        if id in exclude || !free {
          continue;
        }
        acc := FindAccount(lookup, id);
        if acc.None? {
          continue;
        }
        inUse := inUse[id := (if id in inUse then inUse[id] else 0) + 1];
        BumpQueue(id);
        return;
      }
      acc := None;
    }

    /** Acquire, under the lock. */
    method Acquire(target: string, exclude: set<string>) returns (acc: Option<Account>)
      modifies this`queue, this`inUse
      ensures St() == PoolSpec.Acquire(old(St()), target, exclude)
      ensures acc == match Choice(old(St()), target, exclude)
                     case Some(id) => FindAccount(lookup, id)
                     case None => None
    {
      if target != "" {
        var free := CanAcquireID(target);
        if target in exclude || !free {
          return None;
        }
        acc := FindAccount(lookup, target);
        if acc.None? {
          return;
        }
        inUse := inUse[target := (if target in inUse then inUse[target] else 0) + 1];
        BumpQueue(target);
        return;
      }
      acc := TryAcquire(exclude);
    }

    /** One pass of the loop of AcquireWait: an account, a waiter to block on, or neither. */
    method AcquireOrPark(target: string, exclude: set<string>) returns (acc: Option<Account>, waiter: Option<nat>)
      modifies this`queue, this`inUse, this`waiters, this`nextWaiter
      ensures St() == PoolSpec.AcquireOrPark(old(St()), target, exclude)
      ensures acc == match Choice(old(St()), target, exclude)
                     case Some(id) => FindAccount(lookup, id)
                     case None => None
      ensures waiter == if acc.None? && CanQueue(old(St()), target, exclude) then Some(old(nextWaiter)) else None
    {
      FirstIsEligible(St(), exclude, queue);
      waiter := None;
      acc := Acquire(target, exclude);
      if acc.Some? {
        return;
      }
      var room := CanQueueNow(target, exclude);
      if !room {
        return;
      }
      waiter := Some(nextWaiter);
      waiters := waiters + [nextWaiter];
      nextWaiter := nextWaiter + 1;
    }

    method NotifyWaiter()
      modifies this`waiters, this`closings
      ensures St() == Notify(old(St()))
    {
      if |waiters| == 0 {
        return;
      }
      var waiter := waiters[0];
      waiters := waiters[1..];
      closings := closings + [waiter];
    }

    method RemoveWaiter(waiter: nat) returns (removed: bool)
      modifies this`waiters
      ensures St() == Cancel(old(St()), waiter) && (removed <==> waiter in old(waiters))
    {
      for i := 0 to |waiters|
        invariant waiters == old(waiters) && forall j :: 0 <= j < i ==> waiters[j] != waiter
      {
        if waiters[i] != waiter {
          continue;
        }
        waiters := waiters[..i] + waiters[i + 1..];
        return true;
      }
      return false;
    }

    method DrainWaiters()
      modifies this`waiters, this`closings
      ensures St() == Drain(old(St()))
    {
      for i := 0 to |waiters|
        invariant waiters == old(waiters) && closings == old(closings) + waiters[..i]
      {
        assert waiters[..i + 1] == waiters[..i] + [waiters[i]];
        closings := closings + [waiters[i]];
      }
      waiters := [];
    }

    method Release(id: string)
      modifies this`inUse, this`waiters, this`closings
      ensures St() == PoolSpec.Release(old(St()), id)
    {
      if id == "" {
        return;
      }
      var count := if id in inUse then inUse[id] else 0;
      if count <= 0 {
        return;
      }
      if count == 1 {
        inUse := inUse - {id};
        NotifyWaiter();
        return;
      }
      inUse := inUse[id := count - 1];
      NotifyWaiter();
    }

    method RemoveAccount(id: string)
      modifies this`queue, this`inUse, this`waiters, this`closings
      ensures St() == Remove(old(St()), id)
    {
      if id == "" {
        return;
      }
      for i := 0 to |queue|
        invariant queue == old(queue) && forall j :: 0 <= j < i ==> queue[j] != id
      {
        if queue[i] != id {
          continue;
        }
        queue := queue[..i] + queue[i + 1..];
        break;
      }
      inUse := inUse - {id};
      DrainWaiters();
    }

    method Reset()
      modifies this`queue, this`inUse, this`waiters, this`closings,
        this`maxInflightPerAccount, this`recommendedConcurrency, this`maxQueueSize, this`globalMaxInflight
      ensures St() == PoolSpec.Reset(old(St()), settings)
    {
      var ids := AccountIDList(SortedForQueue(lookup.accounts));
      maxInflightPerAccount := settings.maxPer;
      var recommended := Recommended(|ids|, maxInflightPerAccount);
      DrainWaiters();
      queue := ids;
      inUse := map[];
      recommendedConcurrency := recommended;
      maxQueueSize := settings.maxQueue;
      globalMaxInflight := GlobalLimit(settings, recommended);
    }

    method SyncAccounts(accounts: seq<Account>)
      modifies this`lookup, this`queue, this`inUse, this`waiters, this`closings,
        this`maxInflightPerAccount, this`recommendedConcurrency, this`maxQueueSize, this`globalMaxInflight
      ensures St() == Sync(old(St()), settings, accounts)
    {
      var sorted := SortedForQueue(accounts);
      var newLookup := NewMemoryLookup(sorted);
      var newIDs := AccountIDList(sorted);
      var allowed := Elements(newIDs);
      maxInflightPerAccount := settings.maxPer;
      var recommended := Recommended(|newIDs|, maxInflightPerAccount);
      var nextQueue := MergedQueue(queue, newIDs, allowed);
      inUse := KeptLeases(inUse, allowed);
      lookup := newLookup;
      queue := nextQueue;
      recommendedConcurrency := recommended;
      maxQueueSize := settings.maxQueue;
      globalMaxInflight := GlobalLimit(settings, recommended);
      DrainWaiters();
    }

    /** ApplyRuntimeLimits: the settings themselves are not touched, so a later sync undoes it. */
    method ApplyRuntimeLimits(maxPer: int, maxQueue: int, global: int)
      modifies this`maxInflightPerAccount, this`maxQueueSize, this`globalMaxInflight,
        this`recommendedConcurrency, this`waiters, this`closings
      ensures St() == ApplyLimits(old(St()), maxPer, maxQueue, global)
    {
      var per := if maxPer <= 0 then 1 else maxPer;
      var bound := if maxQueue < 0 then UNLIMITED_QUEUE else maxQueue;
      var limit := global;
      if limit <= 0 {
        limit := per * |lookup.accounts|;
        if limit <= 0 {
          limit := per;
        }
      }
      maxInflightPerAccount := per;
      maxQueueSize := bound;
      globalMaxInflight := limit;
      recommendedConcurrency := Recommended(|queue|, per);
      NotifyWaiter();
    }
  }
}
