/** Safety and fairness of the account pool over every run of its critical sections. */
module PoolRuns {
  import opened Sets
  import opened Options
  import opened Text
  import opened PoolSpec
  import Sums

  datatype Step =
    | DoAcquire(target: string, exclude: set<string>)
    | DoAcquireOrPark(target: string, exclude: set<string>)
    | DoCancel(waiter: nat)
    | DoRelease(id: string)
    | DoRemove(id: string)
    | DoSync(accounts: seq<Account>)
    | DoReset

  ghost function Next(settings: Settings, st: State, step: Step): State {
    match step
    case DoAcquire(target, exclude) => Acquire(st, target, exclude)
    case DoAcquireOrPark(target, exclude) => AcquireOrPark(st, target, exclude)
    case DoCancel(w) => Cancel(st, w)
    case DoRelease(id) => Release(st, id)
    case DoRemove(id) => Remove(st, id)
    case DoSync(accounts) => Sync(st, settings, accounts)
    case DoReset => Reset(st, settings)
  }

  /** Any interleaving of the critical sections of any number of requests. */
  ghost function Run(settings: Settings, st: State, steps: seq<Step>): State
    decreases |steps|
  {
    if steps == [] then st else Run(settings, Next(settings, st, steps[0]), steps[1..])
  }

  predicate NoDup(s: seq<string>) {
    forall i, j :: 0 <= i < j < |s| ==> s[i] != s[j]
  }

  predicate Rising(s: seq<nat>) {
    forall i, j :: 0 <= i < j < |s| ==> s[i] < s[j]
  }

  ghost predicate SettingsOk(settings: Settings) {
    settings.maxPer >= 1 && settings.maxQueue >= UNLIMITED_QUEUE &&
      (settings.global.Some? ==> settings.global.value > 0)
  }

  /** The settings in force are the fixed ones. */
  ghost predicate Configured(settings: Settings, st: State) {
    && st.maxPer == settings.maxPer && st.maxQueue == settings.maxQueue
    && (settings.global.Some? ==> st.globalMax == settings.global.value)
  }

  ghost predicate QueueOk(st: State) {
    NoDup(st.queue) && Elements(st.queue) <= st.lookup.byID.Keys
  }

  ghost predicate LeasesOk(st: State) {
    && st.inUse.Keys <= st.lookup.byID.Keys
    && (forall id :: id in st.inUse ==> 1 <= st.inUse[id] <= st.maxPer)
    && (st.globalMax > 0 ==> SumOf(st.inUse) <= st.globalMax)
  }

  predicate Below(s: seq<nat>, x: nat) {
    forall i :: 0 <= i < |s| ==> s[i] < x
  }

  /** Closed channels followed by parked ones are in order of parking. So no channel is closed twice,
      no parked waiter has been closed, the parked ones are distinct, and they are woken in order. */
  ghost predicate WaitersOk(st: State) {
    && Rising(st.closings + st.waiters)
    && Below(st.closings + st.waiters, st.nextWaiter)
    && (st.maxQueue != UNLIMITED_QUEUE ==> |st.waiters| <= st.maxQueue)
  }

  ghost predicate Inv(settings: Settings, st: State) {
    Configured(settings, st) && QueueOk(st) && LeasesOk(st) && WaitersOk(st)
  }

  /** Callers trim the target they name; a reset is sound for distinct identifiers. */
  ghost predicate StepOk(st: State, step: Step) {
    match step
    case DoAcquire(target, _) => Trim(target) == target
    case DoAcquireOrPark(target, _) => Trim(target) == target
    case DoReset => LookupOk(st.lookup)
    case _ => true
  }

  ghost predicate LookupOk(lookup: Lookup) {
    NoDup(AccountIDs(lookup.accounts)) && Elements(AccountIDs(lookup.accounts)) <= lookup.byID.Keys
  }

  ghost predicate StepsOk(settings: Settings, st: State, steps: seq<Step>)
    decreases |steps|
  {
    steps != [] ==> StepOk(st, steps[0]) && StepsOk(settings, Next(settings, st, steps[0]), steps[1..])
  }

  // ---- the queue

  lemma WithoutKeeps(queue: seq<string>, id: string)
    requires NoDup(queue)
    ensures NoDup(Without(queue, id)) && Elements(Without(queue, id)) == Elements(queue) - {id}
  {
    var i := IndexOf(queue, id);
    if i < |queue| {
      var q := Without(queue, id);
      forall x | x in queue && x != id ensures x in q {
        var j :| 0 <= j < |queue| && queue[j] == x;
        assert if j < i then q[j] == x else q[j - 1] == x;
      }
    }
  }

  lemma BumpKeeps(queue: seq<string>, id: string)
    requires NoDup(queue)
    ensures NoDup(Bump(queue, id)) && Elements(Bump(queue, id)) == Elements(queue)
  {
    WithoutKeeps(queue, id);
    if IndexOf(queue, id) < |queue| {
      assert id in Elements(queue);
      assert id !in Elements(Without(queue, id));
    }
  }

  lemma Appended(s: seq<string>, x: string)
    ensures Elements(s + [x]) == Elements(s) + {x}
    ensures NoDup(s) && x !in s ==> NoDup(s + [x])
  {
  }

  lemma {:induction false} KeptKeeps(queue: seq<string>, allowed: set<string>)
    requires NoDup(queue)
    ensures NoDup(Kept(queue, allowed)) && Elements(Kept(queue, allowed)) == Elements(queue) * allowed
  {
    if queue != [] {
      var init, last := queue[..|queue| - 1], queue[|queue| - 1];
      KeptKeeps(init, allowed);
      assert queue == init + [last];
      Appended(init, last);
      Appended(Kept(init, allowed), last);
      assert last !in Elements(init);
    }
  }

  /** Sync's merge drops duplicates whatever list it is given. */
  lemma {:induction false} ExtendedKeeps(queue: seq<string>, ids: seq<string>)
    requires NoDup(queue)
    ensures NoDup(Extended(queue, ids)) && Elements(Extended(queue, ids)) == Elements(queue) + Elements(ids)
    ensures queue <= Extended(queue, ids)
  {
    if ids != [] {
      var init, last := ids[..|ids| - 1], ids[|ids| - 1];
      ExtendedKeeps(queue, init);
      assert ids == init + [last];
      Appended(init, last);
      Appended(Extended(queue, init), last);
      assert last in Extended(queue, init) <==> last in Elements(Extended(queue, init));
    }
  }

  // ---- lookups

  lemma {:induction false} ByIDKeys(accounts: seq<Account>)
    ensures ByID(accounts).Keys == Elements(AccountIDs(accounts))
  {
    if accounts != [] {
      ByIDKeys(accounts[..|accounts| - 1]);
    }
  }

  lemma {:induction false} NamedIDs(accounts: seq<Account>)
    ensures AccountIDs(Named(accounts)) == AccountIDs(accounts)
  {
    if accounts != [] {
      var init, last := accounts[..|accounts| - 1], accounts[|accounts| - 1];
      NamedIDs(init);
      if last.id != "" {
        assert Named(accounts)[..|Named(accounts)| - 1] == Named(init);
      }
    }
  }

  lemma {:induction false} AccountIDsAppend(a: seq<Account>, b: seq<Account>)
    ensures AccountIDs(a + b) == AccountIDs(a) + AccountIDs(b)
    decreases |b|
  {
    if b == [] {
      assert a + b == a;
    } else {
      assert (a + b)[..|a + b| - 1] == a + b[..|b| - 1];
      AccountIDsAppend(a, b[..|b| - 1]);
    }
  }

  lemma HeadByToken(accounts: seq<Account>)
    requires accounts != []
    ensures var has := accounts[0].token != "";
      WithToken(accounts, has) == [accounts[0]] + WithToken(accounts[1..], has)
      && WithToken(accounts, !has) == WithToken(accounts[1..], !has)
  {
  }

  /** Sorting for the queue only reorders the identifiers. */
  lemma {:induction false} SortReorders(accounts: seq<Account>)
    ensures multiset(AccountIDs(SortedForQueue(accounts))) == multiset(AccountIDs(accounts))
    decreases |accounts|
  {
    var t, f := WithToken(accounts, true), WithToken(accounts, false);
    AccountIDsAppend(t, f);
    if accounts != [] {
      var head, rest := [accounts[0]], accounts[1..];
      SortReorders(rest);
      HeadByToken(accounts);
      hide WithToken, AccountIDs;
      assert accounts == head + rest;
      AccountIDsAppend(head, rest);
      AccountIDsAppend(WithToken(rest, true), WithToken(rest, false));
      AccountIDsAppend(head, WithToken(rest, true));
      AccountIDsAppend(head, WithToken(rest, false));
    }
  }

  lemma {:induction false} NoDupCounts(s: seq<string>)
    ensures NoDup(s) <==> forall x :: multiset(s)[x] <= 1
  {
    if s != [] {
      var init, last := s[..|s| - 1], s[|s| - 1];
      assert s == init + [last];
      NoDupCounts(init);
      assert last in init <==> multiset(init)[last] > 0;
      assert multiset(s)[last] == multiset(init)[last] + 1;
      if NoDup(s) {
        forall x ensures multiset(s)[x] <= 1 {
          assert multiset(s)[x] == multiset(init)[x] + (if x == last then 1 else 0);
        }
      } else if NoDup(init) {
        assert last in init;
      } else {
        var x :| multiset(init)[x] > 1;
        assert multiset(s)[x] > 1;
      }
    }
  }

  lemma SortKeepsDistinct(accounts: seq<Account>)
    ensures NoDup(AccountIDs(SortedForQueue(accounts))) <==> NoDup(AccountIDs(accounts))
    ensures Elements(AccountIDs(SortedForQueue(accounts))) == Elements(AccountIDs(accounts))
  {
    SortReorders(accounts);
    var sorted, ids := AccountIDs(SortedForQueue(accounts)), AccountIDs(accounts);
    NoDupCounts(sorted);
    NoDupCounts(ids);
    forall x ensures x in sorted <==> x in ids {
      assert x in multiset(sorted) <==> x in multiset(ids);
    }
  }

  lemma {:induction false} ElementsAtMost(s: seq<string>)
    ensures |Elements(s)| <= |s|
  {
    if s != [] {
      ElementsAtMost(s[1..]);
      assert Elements(s) == {s[0]} + Elements(s[1..]);
    }
  }

  // ---- one step

  lemma ChoiceIsKnown(st: State, target: string, exclude: set<string>)
    requires QueueOk(st) && Trim(target) == target
    ensures var c := Choice(st, target, exclude);
      c.Some? ==> Eligible(st, exclude, c.value) && c.value in st.lookup.byID && (target == "" ==> c.value in st.queue)
  {
    if target == "" {
      FirstIsEligible(st, exclude, st.queue);
      var c := Choice(st, target, exclude);
      assert c.Some? ==> c.value in Elements(st.queue);
    }
  }

  lemma LeaseKeeps(settings: Settings, st: State, id: string)
    requires Inv(settings, st) && CanAcquire(st, id) && id in st.lookup.byID
    ensures Inv(settings, Lease(st, id))
  {
    BumpKeeps(st.queue, id);
    Sums.Update(st.inUse, id, InUse(st, id) + 1);
  }

  lemma AcquireKeeps(settings: Settings, st: State, target: string, exclude: set<string>)
    requires Inv(settings, st) && Trim(target) == target
    ensures Inv(settings, Acquire(st, target, exclude))
  {
    ChoiceIsKnown(st, target, exclude);
    var c := Choice(st, target, exclude);
    if c.Some? {
      LeaseKeeps(settings, st, c.value);
    }
  }

  lemma AcquireOrParkKeeps(settings: Settings, st: State, target: string, exclude: set<string>)
    requires Inv(settings, st) && Trim(target) == target
    ensures Inv(settings, AcquireOrPark(st, target, exclude))
  {
    AcquireKeeps(settings, st, target, exclude);
    var st' := AcquireOrPark(st, target, exclude);
    if Choice(st, target, exclude).None? && CanQueue(st, target, exclude) {
      RisingAppend(st.closings + st.waiters, st.nextWaiter);
      assert st'.closings + st'.waiters == (st.closings + st.waiters) + [st.nextWaiter];
    }
  }

  lemma RisingAppend(s: seq<nat>, x: nat)
    requires Rising(s) && Below(s, x)
    ensures Rising(s + [x])
  {
  }

  lemma RisingDrop(s: seq<nat>, n: nat)
    requires Rising(s) && n < |s|
    ensures Rising(s[..n] + s[n + 1..])
    ensures forall x :: Below(s, x) ==> Below(s[..n] + s[n + 1..], x)
  {
    var r := s[..n] + s[n + 1..];
    forall i | 0 <= i < |r| ensures r[i] == if i < n then s[i] else s[i + 1] {
    }
  }

  lemma NotifyKeeps(settings: Settings, st: State)
    requires Inv(settings, st)
    ensures Inv(settings, Notify(st))
  {
    if st.waiters != [] {
      var st' := Notify(st);
      assert st'.closings + st'.waiters == st.closings + st.waiters;
    }
  }

  lemma CancelKeeps(settings: Settings, st: State, w: nat)
    requires Inv(settings, st)
    ensures Inv(settings, Cancel(st, w))
  {
    var i := IndexOf(st.waiters, w);
    if i < |st.waiters| {
      DropLater(st.closings, st.waiters, i);
    }
  }

  lemma DropLater(a: seq<nat>, b: seq<nat>, i: nat)
    requires Rising(a + b) && i < |b|
    ensures Rising(a + (b[..i] + b[i + 1..]))
    ensures forall x :: Below(a + b, x) ==> Below(a + (b[..i] + b[i + 1..]), x)
  {
    var n := |a| + i;
    RisingDrop(a + b, n);
    assert (a + b)[..n] == a + b[..i] && (a + b)[n + 1..] == b[i + 1..];
    assert a + (b[..i] + b[i + 1..]) == (a + b)[..n] + (a + b)[n + 1..];
  }

  lemma ReleaseKeeps(settings: Settings, st: State, id: string)
    requires Inv(settings, st)
    ensures Inv(settings, Release(st, id))
  {
    var count := InUse(st, id);
    if id != "" && count > 0 {
      var inUse := if count == 1 then st.inUse - {id} else st.inUse[id := count - 1];
      if count == 1 {
        Sums.Pick(st.inUse, id);
      } else {
        Sums.Update(st.inUse, id, count - 1);
      }
      NotifyKeeps(settings, st.(inUse := inUse));
    }
  }

  lemma RemoveKeeps(settings: Settings, st: State, id: string)
    requires Inv(settings, st)
    ensures Inv(settings, Remove(st, id))
  {
    if id != "" {
      WithoutKeeps(st.queue, id);
      Sums.Restricted(st.inUse, st.inUse - {id});
      assert Remove(st, id).closings + [] == st.closings + st.waiters;
    }
  }

  lemma SyncKeeps(settings: Settings, st: State, accounts: seq<Account>)
    requires SettingsOk(settings) && Inv(settings, st)
    ensures Inv(settings, Sync(st, settings, accounts))
  {
    var sorted := SortedForQueue(accounts);
    var ids := AccountIDs(sorted);
    var inUse := KeptLeases(st.inUse, Elements(ids));
    KeptKeeps(st.queue, Elements(ids));
    ExtendedKeeps(Kept(st.queue, Elements(ids)), ids);
    ByIDKeys(sorted);
    Sums.Restricted(st.inUse, inUse);
    SharedLimit(inUse, ids, settings.maxPer);
    assert Sync(st, settings, accounts).closings + [] == st.closings + st.waiters;
  }

  /** Leases on listed accounts, each within the per-account limit, fit the recommended concurrency. */
  lemma SharedLimit(inUse: map<string, int>, ids: seq<string>, maxPer: int)
    requires maxPer >= 1 && inUse.Keys <= Elements(ids)
    requires forall id :: id in inUse ==> 1 <= inUse[id] <= maxPer
    ensures SumOf(inUse) <= Recommended(|ids|, maxPer)
  {
    Sums.Bounded(inUse, maxPer);
    ElementsAtMost(ids);
    SubsetSize(inUse.Keys, Elements(ids));
    Scaled(|inUse|, |ids|, maxPer);
  }

  lemma Scaled(a: nat, b: nat, m: nat)
    requires a <= b
    ensures a * m <= b * m
  {
  }

  lemma ResetKeeps(settings: Settings, st: State)
    requires SettingsOk(settings) && WaitersOk(st) && LookupOk(st.lookup)
    ensures Inv(settings, Reset(st, settings))
  {
    SortKeepsDistinct(st.lookup.accounts);
    assert Reset(st, settings).closings + [] == st.closings + st.waiters;
  }

  lemma StepKeeps(settings: Settings, st: State, step: Step)
    requires SettingsOk(settings) && Inv(settings, st) && StepOk(st, step)
    ensures Inv(settings, Next(settings, st, step))
  {
    match step
    case DoAcquire(target, exclude) => AcquireKeeps(settings, st, target, exclude);
    case DoAcquireOrPark(target, exclude) => AcquireOrParkKeeps(settings, st, target, exclude);
    case DoCancel(w) => CancelKeeps(settings, st, w);
    case DoRelease(id) => ReleaseKeeps(settings, st, id);
    case DoRemove(id) => RemoveKeeps(settings, st, id);
    case DoSync(accounts) => SyncKeeps(settings, st, accounts);
    case DoReset => ResetKeeps(settings, st);
  }

  /** Every run of a pool made for distinct identifiers keeps the invariant. */
  lemma {:induction false} RunKeeps(settings: Settings, st: State, steps: seq<Step>)
    requires SettingsOk(settings) && Inv(settings, st) && StepsOk(settings, st, steps)
    ensures Inv(settings, Run(settings, st, steps))
    decreases |steps|
  {
    if steps != [] {
      StepKeeps(settings, st, steps[0]);
      RunKeeps(settings, Next(settings, st, steps[0]), steps[1..]);
    }
  }

  lemma NewPoolRuns(settings: Settings, lookup: Lookup, steps: seq<Step>)
    requires SettingsOk(settings) && LookupOk(lookup)
    requires StepsOk(settings, Reset(Blank(lookup, settings.maxPer), settings), steps)
    ensures Inv(settings, Run(settings, Reset(Blank(lookup, settings.maxPer), settings), steps))
  {
    ResetKeeps(settings, Blank(lookup, settings.maxPer));
    RunKeeps(settings, Reset(Blank(lookup, settings.maxPer), settings), steps);
  }

  // ---- where the safety claim stops

  /** A catalogue built from accounts allows a reset exactly when their identifiers are distinct. */
  lemma DistinctLookup(accounts: seq<Account>)
    ensures LookupOk(NewLookup(accounts)) <==> NoDup(AccountIDs(accounts))
  {
    NamedIDs(accounts);
    ByIDKeys(accounts);
  }

  lemma ResetQueueExact(settings: Settings, st: State)
    requires Elements(AccountIDs(st.lookup.accounts)) <= st.lookup.byID.Keys
    ensures QueueOk(Reset(st, settings)) <==> NoDup(AccountIDs(st.lookup.accounts))
  {
    SortKeepsDistinct(st.lookup.accounts);
  }

  /** A lease taken on a named target is recorded under a listed identifier exactly when the caller
      trimmed the target: FindAccount trims, the lease counter does not. */
  lemma TargetExact(st: State, target: string, exclude: set<string>)
    requires QueueOk(st) && st.inUse.Keys <= st.lookup.byID.Keys
    requires forall id :: id in st.lookup.byID ==> Trim(id) == id
    requires target != "" && Choice(st, target, exclude).Some?
    ensures Acquire(st, target, exclude).inUse.Keys <= st.lookup.byID.Keys <==> Trim(target) == target
  {
    assert target in Acquire(st, target, exclude).inUse.Keys;
  }

  lemma {:induction false} NamesAtMost(accounts: seq<Account>)
    ensures |AccountIDs(accounts)| <= |accounts|
  {
    if accounts != [] {
      NamesAtMost(accounts[..|accounts| - 1]);
    }
  }

  /** New limits keep the leases within them exactly when no account holds more leases than the new
      per-account limit and, if a global limit is given, it covers the leases in all. A global limit that
      is not given is derived from the account count and never too small. */
  lemma ApplyLimitsExact(st: State, maxPer: int, maxQueue: int, global: int)
    requires LeasesOk(st) && st.lookup.byID.Keys <= Elements(AccountIDs(st.lookup.accounts))
    ensures LeasesOk(ApplyLimits(st, maxPer, maxQueue, global)) <==>
      && (forall id :: id in st.inUse ==> st.inUse[id] <= if maxPer <= 0 then 1 else maxPer)
      && (global > 0 ==> SumOf(st.inUse) <= global)
  {
    hide SumOf, Elements;
    var per, n, ids := if maxPer <= 0 then 1 else maxPer, |st.lookup.accounts|, AccountIDs(st.lookup.accounts);
    if global <= 0 && forall id :: id in st.inUse ==> st.inUse[id] <= per {
      SharedLimit(st.inUse, ids, per);
      NamesAtMost(st.lookup.accounts);
      Scaled(|ids|, n, per);
      assert SumOf(st.inUse) <= n * per == per * n;
    }
  }

  // ---- an input for each limit of the claim

  /** Two accounts with one identifier: the queue after a reset holds it twice. */
  lemma RepeatedIdentifier(settings: Settings)
    requires SettingsOk(settings)
    ensures var lookup := NewLookup([Account("a", ""), Account("a", "")]);
      !LookupOk(lookup) && !QueueOk(Reset(Blank(lookup, settings.maxPer), settings))
  {
    var a := Account("a", "");
    TwoNames(a, a);
    var lookup := NewLookup([a, a]);
    ByIDKeys([a, a]);
    assert AccountIDs(lookup.accounts)[0] == AccountIDs(lookup.accounts)[1];
    ResetQueueExact(settings, Blank(lookup, settings.maxPer));
  }

  lemma TwoNames(a: Account, b: Account)
    requires a.id != "" && b.id != ""
    ensures Named([a, b]) == [a, b] && AccountIDs([a, b]) == [a.id, b.id]
  {
    assert [a, b][..1] == [a] && [a][..0] == [];
    assert Named([a]) == [a] && AccountIDs([a]) == [a.id];
  }

  /** A target with a blank in front: the lease is recorded under a name that no account has. */
  lemma UntrimmedTarget(settings: Settings)
    requires SettingsOk(settings)
    ensures var lookup := Lookup([Account("a", "")], map["a" := Account("a", "")]);
      var st := Reset(Blank(lookup, settings.maxPer), settings);
      && LookupOk(lookup) && Choice(st, " a", {}) == Some(" a")
      && " a" in Acquire(st, " a", {}).inUse && " a" !in lookup.byID
  {
    var a := Account("a", "");
    var lookup := Lookup([a], map["a" := a]);
    OneAccount(a);
    SpacedName();
    hide AccountIDs, SortedForQueue, Elements, Trim, SumOf;
    assert SumOf(map[]) == 0 by { NoSum(); }
    assert Elements(["a"]) == {"a"} by { OneElement("a"); }
  }

  lemma OneAccount(a: Account)
    requires a.id != "" && a.token == ""
    ensures AccountIDs([a]) == [a.id] && SortedForQueue([a]) == [a] && a.id in ByID([a])
  {
    assert [a][..0] == [] && [a][1..] == [] && [a] + [] == [a] && [] + [a] == [a];
    assert AccountIDs([a]) == [a.id] by { assert AccountIDs([]) == []; }
    assert WithToken([a], true) == WithToken([], true) == [];
    assert WithToken([a], false) == [a] + WithToken([], false) == [a];
  }

  lemma SpacedName()
    ensures Trim(" a") == "a" && " a" != "a" && Trim("a") == "a"
  {
    assert " a"[1..] == "a";
  }

  lemma NoSum()
    ensures SumOf(map[]) == 0
  {
  }

  lemma OneElement(x: string)
    ensures Elements([x]) == {x}
  {
  }

  // ---- leases

  /** What one acquire takes, one release of the chosen account gives back. */
  lemma AcquireThenRelease(settings: Settings, st: State, target: string, exclude: set<string>)
    requires Inv(settings, st) && Choice(st, target, exclude).Some?
    ensures Release(Acquire(st, target, exclude), Choice(st, target, exclude).value).inUse == st.inUse
  {
    FirstIsEligible(st, exclude, st.queue);
    hide FirstEligible, Bump, Elements, FindAccount;
    var id := Choice(st, target, exclude).value;
    if id in st.inUse {
      assert st.inUse[id := st.inUse[id] + 1][id := st.inUse[id]] == st.inUse;
    } else {
      assert st.inUse[id := 1] - {id} == st.inUse;
    }
  }

  /** An untargeted acquire fails only when no queued account is eligible. */
  lemma {:induction false} FailsOnlyWhenNoneEligible(st: State, exclude: set<string>, queue: seq<string>)
    ensures FirstEligible(st, exclude, queue).None? <==> forall id :: id in queue ==> !Eligible(st, exclude, id)
  {
    if queue != [] {
      FailsOnlyWhenNoneEligible(st, exclude, queue[1..]);
      assert queue == [queue[0]] + queue[1..];
    }
  }

  // ---- waiters

  lemma WaiterSafety(st: State)
    requires WaitersOk(st)
    ensures forall i, j :: 0 <= i < j < |st.closings| ==> st.closings[i] != st.closings[j]
    ensures forall i, j :: 0 <= i < j < |st.waiters| ==> st.waiters[i] != st.waiters[j]
    ensures forall w :: w in st.waiters ==> w !in st.closings
    ensures st.waiters != [] ==> forall w :: w in Notify(st).waiters ==> st.waiters[0] < w
  {
    var all, n := st.closings + st.waiters, |st.closings|;
    assert forall i :: 0 <= i < |st.waiters| ==> all[n + i] == st.waiters[i];
    assert forall i :: 0 <= i < n ==> all[i] == st.closings[i];
  }

  // ---- fairness

  ghost predicate Picks(st: State, step: Step, id: string) {
    match step
    case DoAcquire(target, exclude) => Choice(st, target, exclude) == Some(id)
    case DoAcquireOrPark(target, exclude) => Choice(st, target, exclude) == Some(id)
    case _ => false
  }

  /** A successful untargeted acquire. */
  ghost predicate Wins(st: State, step: Step) {
    match step
    case DoAcquire(target, exclude) => target == "" && Choice(st, target, exclude).Some?
    case DoAcquireOrPark(target, exclude) => target == "" && Choice(st, target, exclude).Some?
    case _ => false
  }

  /** The step leaves id in the pool, and id is eligible if the step is an untargeted acquire. */
  ghost predicate Spares(st: State, step: Step, id: string) {
    match step
    case DoAcquire(target, exclude) => target == "" ==> Eligible(st, exclude, id)
    case DoAcquireOrPark(target, exclude) => target == "" ==> Eligible(st, exclude, id)
    case DoRemove(other) => other != id
    case DoSync(accounts) => id in AccountIDs(SortedForQueue(accounts))
    case DoReset => false
    case _ => true
  }

  ghost function CountWins(settings: Settings, st: State, steps: seq<Step>): nat
    decreases |steps|
  {
    if steps == [] then 0
    else (if Wins(st, steps[0]) then 1 else 0) + CountWins(settings, Next(settings, st, steps[0]), steps[1..])
  }

  ghost predicate NeverPicked(settings: Settings, st: State, steps: seq<Step>, id: string)
    decreases |steps|
  {
    steps != [] ==> !Picks(st, steps[0], id) && NeverPicked(settings, Next(settings, st, steps[0]), steps[1..], id)
  }

  ghost predicate AlwaysSpared(settings: Settings, st: State, steps: seq<Step>, id: string)
    decreases |steps|
  {
    steps != [] ==> Spares(st, steps[0], id) && AlwaysSpared(settings, Next(settings, st, steps[0]), steps[1..], id)
  }

  lemma {:induction false} FirstComesFirst(st: State, exclude: set<string>, queue: seq<string>, id: string)
    requires IndexOf(queue, id) < |queue| && Eligible(st, exclude, id)
    ensures var first := FirstEligible(st, exclude, queue);
      first.Some? && IndexOf(queue, first.value) <= IndexOf(queue, id)
  {
    if !Eligible(st, exclude, queue[0]) {
      FirstComesFirst(st, exclude, queue[1..], id);
    }
  }

  lemma BumpMoves(queue: seq<string>, other: string, id: string)
    requires NoDup(queue) && other != id && IndexOf(queue, id) < |queue|
    ensures IndexOf(Bump(queue, other), id) < |Bump(queue, other)|
    ensures IndexOf(Bump(queue, other), id)
         <= IndexOf(queue, id) - (if IndexOf(queue, other) < IndexOf(queue, id) then 1 else 0)
  {
    hide IndexOf;
    var i, j := IndexOf(queue, id), IndexOf(queue, other);
    var q := Bump(queue, other);
    if j < |queue| {
      assert q[if j < i then i - 1 else i] == id;
    }
  }

  lemma WithoutMoves(queue: seq<string>, other: string, id: string)
    requires NoDup(queue) && other != id && IndexOf(queue, id) < |queue|
    ensures IndexOf(Without(queue, other), id) < |Without(queue, other)|
    ensures IndexOf(Without(queue, other), id) <= IndexOf(queue, id)
  {
    hide IndexOf;
    var i, j := IndexOf(queue, id), IndexOf(queue, other);
    if j < |queue| {
      assert Without(queue, other)[if j < i then i - 1 else i] == id;
    }
  }

  lemma {:induction false} KeptMoves(queue: seq<string>, allowed: set<string>, id: string)
    requires IndexOf(queue, id) < |queue| && id in allowed
    ensures IndexOf(Kept(queue, allowed), id) < |Kept(queue, allowed)| <= |queue|
    ensures IndexOf(Kept(queue, allowed), id) <= IndexOf(queue, id)
  {
    var init, last := queue[..|queue| - 1], queue[|queue| - 1];
    KeptShorter(init, allowed);
    if IndexOf(queue, id) < |init| {
      assert init[IndexOf(queue, id)] == id;
      KeptMoves(init, allowed, id);
      assert IndexOf(init, id) == IndexOf(queue, id);
      assert Kept(queue, allowed)[IndexOf(Kept(init, allowed), id)] == id;
    } else {
      assert Kept(queue, allowed)[|Kept(init, allowed)|] == id;
    }
  }

  lemma {:induction false} KeptShorter(queue: seq<string>, allowed: set<string>)
    ensures |Kept(queue, allowed)| <= |queue|
  {
    if queue != [] {
      KeptShorter(queue[..|queue| - 1], allowed);
    }
  }

  lemma SyncMoves(settings: Settings, st: State, accounts: seq<Account>, id: string)
    requires QueueOk(st) && IndexOf(st.queue, id) < |st.queue| && id in AccountIDs(SortedForQueue(accounts))
    ensures var queue := Sync(st, settings, accounts).queue;
      IndexOf(queue, id) < |queue| && IndexOf(queue, id) <= IndexOf(st.queue, id)
  {
    var ids := AccountIDs(SortedForQueue(accounts));
    KeptMoves(st.queue, Elements(ids), id);
    KeptKeeps(st.queue, Elements(ids));
    var kept := Kept(st.queue, Elements(ids));
    ExtendedKeeps(kept, ids);
    assert Extended(kept, ids)[IndexOf(kept, id)] == id;
  }

  /** A step that spares id and does not pick it never moves it back, and a successful untargeted
      acquire moves it forward. */
  lemma StepMoves(settings: Settings, st: State, step: Step, id: string)
    requires QueueOk(st) && IndexOf(st.queue, id) < |st.queue|
    requires Spares(st, step, id) && !Picks(st, step, id)
    ensures var st' := Next(settings, st, step);
      && IndexOf(st'.queue, id) < |st'.queue|
      && IndexOf(st'.queue, id) + (if Wins(st, step) then 1 else 0) <= IndexOf(st.queue, id)
  {
    match step
    case DoAcquire(target, exclude) => ChoiceMoves(st, target, exclude, id);
    case DoAcquireOrPark(target, exclude) => ChoiceMoves(st, target, exclude, id);
    case DoRemove(other) => WithoutMoves(st.queue, other, id);
    case DoSync(accounts) => SyncMoves(settings, st, accounts, id);
    case _ =>
  }

  lemma ChoiceMoves(st: State, target: string, exclude: set<string>, id: string)
    requires QueueOk(st) && IndexOf(st.queue, id) < |st.queue|
    requires Choice(st, target, exclude) != Some(id) && (target == "" ==> Eligible(st, exclude, id))
    ensures var st' := Acquire(st, target, exclude);
      && IndexOf(st'.queue, id) < |st'.queue|
      && IndexOf(st'.queue, id) + (if target == "" then 1 else 0) <= IndexOf(st.queue, id)
  {
    if target == "" {
      FirstComesFirst(st, exclude, st.queue, id);
    }
    var c := Choice(st, target, exclude);
    if c.Some? {
      BumpMoves(st.queue, c.value, id);
    }
  }

  lemma {:induction false} IndexNeverGrows(settings: Settings, st: State, steps: seq<Step>, id: string)
    requires SettingsOk(settings) && Inv(settings, st) && StepsOk(settings, st, steps)
    requires IndexOf(st.queue, id) < |st.queue|
    requires AlwaysSpared(settings, st, steps, id) && NeverPicked(settings, st, steps, id)
    ensures var st' := Run(settings, st, steps);
      && IndexOf(st'.queue, id) < |st'.queue|
      && IndexOf(st'.queue, id) + CountWins(settings, st, steps) <= IndexOf(st.queue, id)
    decreases |steps|
  {
    if steps != [] {
      StepKeeps(settings, st, steps[0]);
      StepMoves(settings, st, steps[0], id);
      IndexNeverGrows(settings, Next(settings, st, steps[0]), steps[1..], id);
    }
  }

  /** Bounded fairness: an account at index k that stays in the pool, and eligible at every untargeted
      acquire, is picked within k + 1 successful untargeted acquires, whatever comes between. */
  lemma BoundedFairness(settings: Settings, st: State, steps: seq<Step>, id: string)
    requires SettingsOk(settings) && Inv(settings, st) && StepsOk(settings, st, steps)
    requires IndexOf(st.queue, id) < |st.queue|
    requires AlwaysSpared(settings, st, steps, id)
    requires CountWins(settings, st, steps) >= IndexOf(st.queue, id) + 1
    ensures !NeverPicked(settings, st, steps, id)
  {
    if NeverPicked(settings, st, steps, id) {
      IndexNeverGrows(settings, st, steps, id);
    }
  }
}
