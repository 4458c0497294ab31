/** internal/auth/request.go: the loops in which one request takes, switches and returns an account
    lease while other requests use the same pool between its critical sections. */
module Lease {
  import opened Options
  import opened Text
  import opened PoolSpec
  import opened LeaseSpec
  import P = Pool
  import R = PoolRuns
  import W = PoolWakes

  /** The leases on record are those of this request and those of the others. An account that is dropped
      while it is leased loses its record, so for an account that may be gone there are at most as many. */
  ghost predicate Balanced(inUse: map<string, int>, mine: multiset<string>, others: multiset<string>,
                           gone: set<string>) {
    forall id {:trigger Leases(inUse, id)} ::
      Leases(inUse, id) <= mine[id] + others[id] && (id !in gone ==> Leases(inUse, id) == mine[id] + others[id])
  }

  function Leases(inUse: map<string, int>, id: string): int {
    if id in inUse then inUse[id] else 0
  }

  ghost predicate CatalogueOk(lookup: Lookup) {
    && R.LookupOk(lookup)
    && forall id :: id in lookup.byID ==> id != "" && Trim(id) == id && lookup.byID[id].id == id
  }

  /** Every request trims the target it names, and resyncs to accounts of the universe, each listed once. */
  predicate Allowed(step: Other, universe: set<string>) {
    match step
    case TheyAcquire(target, _) => Trim(target) == target
    case TheyAcquireOrPark(target, _) => Trim(target) == target
    case TheySync(accounts) => R.NoDup(AccountIDs(accounts)) && Elements(AccountIDs(accounts)) <= universe
    case _ => true
  }

  predicate AllAllowed(steps: seq<Other>, universe: set<string>) {
    forall i :: 0 <= i < |steps| ==> Allowed(steps[i], universe)
  }

  /** A pool in a reachable state, with every lease accounted for. The account list may change, but every
      account it ever lists is one of the universe. Accounts outside gone are not dropped while leased. So with
      gone empty the record is exact, and with gone the universe others may drop any account at any time. */
  ghost predicate Shared(pool: P.Pool, universe: set<string>, mine: multiset<string>, others: multiset<string>,
                         gone: set<string>)
    reads pool
  {
    && R.SettingsOk(pool.settings) && R.Inv(pool.settings, pool.St())
    && CatalogueOk(pool.lookup) && pool.lookup.byID.Keys <= universe
    && (forall id :: id in universe ==> Trim(id) == id && id != "")
    && Balanced(pool.St().inUse, mine, others, gone)
  }

  lemma LeaseBalances(st: State, id: string, mine: multiset<string>, others: multiset<string>, gone: set<string>)
    requires Balanced(st.inUse, mine, others, gone)
    ensures Balanced(Lease(st, id).inUse, mine + multiset{id}, others, gone)
    ensures Balanced(Lease(st, id).inUse, mine, others + multiset{id}, gone)
  {
    forall x ensures Leases(Lease(st, id).inUse, x) == Leases(st.inUse, x) + (if x == id then 1 else 0) {
    }
  }

  /** A holder releases. If the record is gone, nothing is taken from the others. */
  lemma ReleaseBalances(st: State, id: string, mine: multiset<string>, others: multiset<string>, gone: set<string>)
    requires Balanced(st.inUse, mine, others, gone) && id != "" && Leases(st.inUse, id) >= 0
    ensures id in mine ==> Balanced(Release(st, id).inUse, mine - multiset{id}, others, gone)
    ensures id in others ==> Balanced(Release(st, id).inUse, mine, others - multiset{id}, gone)
  {
    forall x ensures Leases(Release(st, id).inUse, x)
                  == Leases(st.inUse, x) - (if x == id && Leases(st.inUse, id) > 0 then 1 else 0) {
    }
  }

  /** What an acquire leaves behind, whoever asked for it. */
  lemma ChoiceBalances(settings: Settings, st: State, target: string, exclude: set<string>,
                       mine: multiset<string>, others: multiset<string>, gone: set<string>)
    requires R.Inv(settings, st) && CatalogueOk(st.lookup) && Balanced(st.inUse, mine, others, gone)
    requires Trim(target) == target
    ensures var c := Choice(st, target, exclude);
      var st' := Acquire(st, target, exclude);
      && st'.lookup == st.lookup && R.Inv(settings, st')
      && (c.Some? ==>
            && c.value != "" && c.value !in exclude && c.value in st.lookup.byID
            && FindAccount(st.lookup, c.value) == Some(st.lookup.byID[c.value])
            && Balanced(st'.inUse, mine + multiset{c.value}, others, gone)
            && Balanced(st'.inUse, mine, others + multiset{c.value}, gone))
      && (c.None? ==> st' == st)
  {
    R.AcquireKeeps(settings, st, target, exclude);
    R.ChoiceIsKnown(st, target, exclude);
    var c := Choice(st, target, exclude);
    if c.Some? {
      LeaseBalances(st, c.value, mine, others, gone);
    }
  }

  method OtherAcquires(pool: P.Pool, target: string, exclude: set<string>, wait: bool,
                       ghost universe: set<string>, ghost mine: multiset<string>, others: multiset<string>,
                       ghost gone: set<string>)
    returns (others': multiset<string>)
    requires Shared(pool, universe, mine, others, gone) && Trim(target) == target
    modifies pool
    ensures Shared(pool, universe, mine, others', gone) && pool.settings == old(pool.settings)
    ensures Ledger(pool.St(), others') == Did(pool.settings, Ledger(old(pool.St()), others),
      if wait then TheyAcquireOrPark(target, exclude) else TheyAcquire(target, exclude), gone)
  {
    ghost var st := pool.St();
    ChoiceBalances(pool.settings, st, target, exclude, mine, others, gone);
    R.AcquireOrParkKeeps(pool.settings, st, target, exclude);
    var acc;
    if wait {
      var waiter;
      acc, waiter := pool.AcquireOrPark(target, exclude);
    } else {
      acc := pool.Acquire(target, exclude);
    }
    others' := if acc.Some? then others + multiset{acc.value.id} else others;
  }

  method OtherReleases(pool: P.Pool, id: string, ghost universe: set<string>, ghost mine: multiset<string>,
                       others: multiset<string>, ghost gone: set<string>)
    returns (others': multiset<string>)
    requires Shared(pool, universe, mine, others, gone)
    modifies pool
    ensures Shared(pool, universe, mine, others', gone) && pool.settings == old(pool.settings)
    ensures Ledger(pool.St(), others')
         == Did(pool.settings, Ledger(old(pool.St()), others), TheyRelease(id), gone)
  {
    others' := others;
    if id in others && id != "" {
      R.ReleaseKeeps(pool.settings, pool.St(), id);
      ReleaseBalances(pool.St(), id, mine, others, gone);
      pool.Release(id);
      others' := others - multiset{id};
    }
  }

  method OneCancels(pool: P.Pool, waiter: nat, ghost universe: set<string>, ghost mine: multiset<string>,
                    ghost others: multiset<string>, ghost gone: set<string>)
    requires Shared(pool, universe, mine, others, gone)
    modifies pool
    ensures Shared(pool, universe, mine, others, gone) && pool.settings == old(pool.settings)
    ensures pool.St() == Cancel(old(pool.St()), waiter)
  {
    R.CancelKeeps(pool.settings, pool.St(), waiter);
    var removed := pool.RemoveWaiter(waiter);
  }

  method OtherCancels(pool: P.Pool, waiter: nat, ghost universe: set<string>, ghost mine: multiset<string>,
                      ghost others: multiset<string>, ghost gone: set<string>)
    requires Shared(pool, universe, mine, others, gone)
    modifies pool
    ensures Shared(pool, universe, mine, others, gone) && pool.settings == old(pool.settings)
    ensures Ledger(pool.St(), others) == Did(pool.settings, Ledger(old(pool.St()), others), TheyCancel(waiter), gone)
  {
    OneCancels(pool, waiter, universe, mine, others, gone);
  }

  lemma EntryNamesItself(accounts: seq<Account>, id: string)
    requires id in ByID(accounts)
    ensures ByID(accounts)[id].id == id
  {
    if accounts[|accounts| - 1].id != id {
      EntryNamesItself(accounts[..|accounts| - 1], id);
    }
  }

  /** Leases on accounts that are no longer listed go, with their record. */
  lemma DropBalances(before: map<string, int>, after: map<string, int>, mine: multiset<string>,
                     others: multiset<string>, gone: set<string>)
    requires Balanced(before, mine, others, gone) && after.Keys <= before.Keys && before.Keys - after.Keys <= gone
    requires forall id :: id in after ==> after[id] == before[id]
    ensures Balanced(after, mine, others, gone)
  {
    forall id ensures Leases(after, id) <= mine[id] + others[id] {
      assert Leases(before, id) <= mine[id] + others[id];
    }
    forall id | id !in gone ensures Leases(after, id) == mine[id] + others[id] {
      assert Leases(before, id) == mine[id] + others[id];
    }
  }

  lemma SyncShares(settings: Settings, st: State, accounts: seq<Account>, universe: set<string>,
                   mine: multiset<string>, others: multiset<string>, gone: set<string>)
    requires R.SettingsOk(settings) && R.Inv(settings, st) && Balanced(st.inUse, mine, others, gone)
    requires Allowed(TheySync(accounts), universe) && st.inUse.Keys - Elements(AccountIDs(accounts)) <= gone
    requires forall id :: id in universe ==> Trim(id) == id && id != ""
    ensures var st' := Sync(st, settings, accounts);
      && R.Inv(settings, st') && CatalogueOk(st'.lookup) && st'.lookup.byID.Keys <= universe
      && Balanced(st'.inUse, mine, others, gone)
  {
    hide R.SettingsOk, R.Inv, Balanced, CatalogueOk;
    R.SyncKeeps(settings, st, accounts);
    SyncCatalogue(accounts, universe);
    R.SortKeepsDistinct(accounts);
    DropBalances(st.inUse, Sync(st, settings, accounts).inUse, mine, others, gone);
  }

  lemma SyncCatalogue(accounts: seq<Account>, universe: set<string>)
    requires Allowed(TheySync(accounts), universe) && forall id :: id in universe ==> Trim(id) == id && id != ""
    ensures var lookup := NewLookup(SortedForQueue(accounts)); CatalogueOk(lookup) && lookup.byID.Keys <= universe
  {
    var sorted := SortedForQueue(accounts);
    hide SortedForQueue, Trim;
    R.SortKeepsDistinct(accounts);
    R.DistinctLookup(sorted);
    R.ByIDKeys(sorted);
    forall id | id in ByID(sorted) ensures ByID(sorted)[id].id == id {
      EntryNamesItself(sorted, id);
    }
  }

  /** Another request loads its accounts and resyncs the pool. */
  method OtherSyncs(pool: P.Pool, accounts: seq<Account>, ghost universe: set<string>, ghost mine: multiset<string>,
                    ghost others: multiset<string>, gone: set<string>)
    requires Shared(pool, universe, mine, others, gone) && Allowed(TheySync(accounts), universe)
    modifies pool
    ensures Shared(pool, universe, mine, others, gone) && pool.settings == old(pool.settings)
    ensures Ledger(pool.St(), others)
         == Did(pool.settings, Ledger(old(pool.St()), others), TheySync(accounts), gone)
  {
    if pool.inUse.Keys - Elements(AccountIDs(accounts)) <= gone {
      SyncShares(pool.settings, pool.St(), accounts, universe, mine, others, gone);
      pool.SyncAccounts(accounts);
    }
  }

  /** An account is dropped: a cooldown, or an account found to be muted or banned. */
  method OtherRemoves(pool: P.Pool, id: string, ghost universe: set<string>, ghost mine: multiset<string>,
                      ghost others: multiset<string>, gone: set<string>)
    requires Shared(pool, universe, mine, others, gone)
    modifies pool
    ensures Shared(pool, universe, mine, others, gone) && pool.settings == old(pool.settings)
    ensures Ledger(pool.St(), others) == Did(pool.settings, Ledger(old(pool.St()), others), TheyRemove(id), gone)
  {
    if id !in pool.inUse || id in gone {
      R.RemoveKeeps(pool.settings, pool.St(), id);
      DropBalances(pool.inUse, pool.inUse - {id}, mine, others, gone);
      pool.RemoveAccount(id);
    }
  }

  /** Other requests run; each releases only what it holds. A step that would drop a leased account outside
      gone does not happen. */
  method Interfere(pool: P.Pool, steps: seq<Other>, ghost universe: set<string>, ghost mine: multiset<string>,
                   others: multiset<string>, gone: set<string>)
    returns (others': multiset<string>)
    requires Shared(pool, universe, mine, others, gone) && AllAllowed(steps, universe)
    modifies pool
    ensures Shared(pool, universe, mine, others', gone) && pool.settings == old(pool.settings)
    ensures Ledger(pool.St(), others') == Played(pool.settings, Ledger(old(pool.St()), others), steps, gone)
  {
    hide Did, Shared;
    others' := others;
    for i := 0 to |steps|
      invariant Shared(pool, universe, mine, others', gone) && pool.settings == old(pool.settings)
      invariant Ledger(pool.St(), others')
             == Played(pool.settings, Ledger(old(pool.St()), others), steps[..i], gone)
    {
      assert Allowed(steps[i], universe) && steps[..i + 1][..i] == steps[..i];
      match steps[i] {
        case TheyAcquire(target, exclude) =>
          others' := OtherAcquires(pool, target, exclude, false, universe, mine, others', gone);
        case TheyAcquireOrPark(target, exclude) =>
          others' := OtherAcquires(pool, target, exclude, true, universe, mine, others', gone);
        case TheyCancel(waiter) =>
          OtherCancels(pool, waiter, universe, mine, others', gone);
        case TheyRelease(id) =>
          others' := OtherReleases(pool, id, universe, mine, others', gone);
        case TheySync(accounts) =>
          OtherSyncs(pool, accounts, universe, mine, others', gone);
        case TheyRemove(id) =>
          OtherRemoves(pool, id, universe, mine, others', gone);
      }
    }
    assert steps[..|steps|] == steps;
  }

  predicate AllSteps(script: seq<seq<Other>>, universe: set<string>) {
    forall i :: 0 <= i < |script| ==> AllAllowed(script[i], universe)
  }

  /** AcquireWait, with the script of what others do while this request is parked. */
  method AcquireWait(pool: P.Pool, target: string, exclude: set<string>, script: seq<seq<Other>>,
                     ghost universe: set<string>, others: multiset<string>, gone: set<string>)
    returns (acc: Option<Account>, others': multiset<string>)
    requires Shared(pool, universe, multiset{}, others, gone) && Trim(target) == target && AllSteps(script, universe)
    modifies pool
    ensures pool.settings == old(pool.settings)
    ensures acc.None? ==> Shared(pool, universe, multiset{}, others', gone)
    ensures acc.Some? ==>
      && Shared(pool, universe, multiset{acc.value.id}, others', gone) && acc.value.id in pool.lookup.byID
      && acc.value.id !in exclude && (target != "" ==> acc.value.id == target)
    ensures WaitEnds(Waiting(pool.settings, Ledger(old(pool.St()), others), target, exclude, script, gone),
                     acc, Ledger(pool.St(), others'))
  {
    hide Waiting, Parked, Played, Balanced, CatalogueOk, R.SettingsOk, AllAllowed;
    others' := others;
    var rest := script;
    ghost var goal := Waiting(pool.settings, Ledger(pool.St(), others), target, exclude, script, gone);
    while true
      invariant Shared(pool, universe, multiset{}, others', gone) && AllSteps(rest, universe)
      invariant pool.settings == old(pool.settings)
      invariant goal == Waiting(pool.settings, Ledger(pool.St(), others'), target, exclude, rest, gone)
      decreases |rest|
    {
      WaitingNow(pool.settings, Ledger(pool.St(), others'), target, exclude, rest, gone);
      if rest == [] {
        return None, others';
      }
      var waiter;
      acc, waiter := TakeOrPark(pool, target, exclude, universe, others', gone);
      if acc.Some? || waiter.None? {
        return;
      }
      ghost var before := rest;
      while rest != [] && waiter.value !in pool.closings
        invariant Shared(pool, universe, multiset{}, others', gone) && AllSteps(rest, universe)
        invariant |rest| <= |before| && (|rest| == |before| ==> waiter.value !in pool.closings)
        invariant pool.settings == old(pool.settings)
        invariant goal == StillWaiting(pool.settings, Ledger(pool.St(), others'), waiter.value, target, exclude, rest,
                                       gone)
        decreases |rest|
      {
        ParkedNow(pool.settings, Ledger(pool.St(), others'), waiter.value, target, exclude, rest, gone);
        others' := Interfere(pool, rest[0], universe, multiset{}, others', gone);
        rest := rest[1..];
      }
      if waiter.value !in pool.closings {
        ParkedNow(pool.settings, Ledger(pool.St(), others'), waiter.value, target, exclude, rest, gone);
        OneCancels(pool, waiter.value, universe, multiset{}, others', gone);
        return None, others';
      }
    }
  }

  /** How a wait ended. */
  ghost predicate WaitEnds(w: Waited, acc: Option<Account>, after: Ledger) {
    && w.after == after
    && match w
       case Got(id, _) => acc.Some? && acc.value.id == id
       case _ => acc.None?
  }

  ghost function StillWaiting(settings: Settings, w: Ledger, waiter: nat, target: string, exclude: set<string>,
                              script: seq<seq<Other>>, gone: set<string>): Waited
  {
    if waiter in w.st.closings then Waiting(settings, w, target, exclude, script, gone)
    else Parked(settings, w, waiter, target, exclude, script, gone)
  }

  lemma WaitingNow(settings: Settings, w: Ledger, target: string, exclude: set<string>, script: seq<seq<Other>>,
                   gone: set<string>)
    ensures var goal := Waiting(settings, w, target, exclude, script, gone);
      if script == [] then goal == OutOfTime(w)
      else if Choice(w.st, target, exclude).Some? then
        goal == Got(Choice(w.st, target, exclude).value, w.(st := Acquire(w.st, target, exclude)))
      else if !CanQueue(w.st, target, exclude) then goal == Refused(w)
      else goal == Parked(settings, w.(st := AcquireOrPark(w.st, target, exclude)), w.st.nextWaiter, target,
                                    exclude, script, gone)
  {
  }

  lemma ParkedNow(settings: Settings, w: Ledger, waiter: nat, target: string, exclude: set<string>,
                  script: seq<seq<Other>>, gone: set<string>)
    ensures Parked(settings, w, waiter, target, exclude, script, gone) ==
      if script == [] then OutOfTime(w.(st := Cancel(w.st, waiter)))
      else StillWaiting(settings, Played(settings, w, script[0], gone), waiter, target, exclude, script[1..], gone)
  {
  }

  /** One pass under the lock. */
  method TakeOrPark(pool: P.Pool, target: string, exclude: set<string>, ghost universe: set<string>,
                    ghost others: multiset<string>, ghost gone: set<string>)
    returns (acc: Option<Account>, waiter: Option<nat>)
    requires Shared(pool, universe, multiset{}, others, gone) && Trim(target) == target
    modifies pool
    ensures pool.settings == old(pool.settings) && pool.St() == AcquireOrPark(old(pool.St()), target, exclude)
    ensures acc.None? ==> Shared(pool, universe, multiset{}, others, gone)
    ensures acc.Some? ==>
      && Shared(pool, universe, multiset{acc.value.id}, others, gone) && acc.value.id in pool.lookup.byID
      && acc.value.id !in exclude && (target != "" ==> acc.value.id == target)
    ensures acc.Some? <==> Choice(old(pool.St()), target, exclude).Some?
    ensures acc.Some? ==> Choice(old(pool.St()), target, exclude) == Some(acc.value.id)
    ensures acc.None? ==> (waiter.Some? <==> CanQueue(old(pool.St()), target, exclude))
    ensures acc.None? && waiter.None? ==> pool.St() == old(pool.St())
    ensures acc.None? && waiter.Some? ==> waiter.value == old(pool.nextWaiter) && waiter.value !in pool.closings
  {
    ghost var st := pool.St();
    ChoiceBalances(pool.settings, st, target, exclude, multiset{}, others, gone);
    R.AcquireOrParkKeeps(pool.settings, st, target, exclude);
    acc, waiter := pool.AcquireOrPark(target, exclude);
    assert forall i :: 0 <= i < |st.closings| ==> (st.closings + st.waiters)[i] == st.closings[i];
    assert multiset{} + multiset{if acc.Some? then acc.value.id else ""} ==
      multiset{if acc.Some? then acc.value.id else ""};
  }

  class RequestAuth {
    var useConfigToken: bool
    var accountID: string
    var account: Account
    var triedAccounts: set<string>

    constructor (account: Account, tried: set<string>)
      ensures useConfigToken && accountID == account.id && this.account == account && triedAccounts == tried
    {
      this.useConfigToken, this.accountID, this.account, this.triedAccounts := true, account.id, account, tried;
    }
  }

  /** acquireManagedRequestAuth. The last attempt that was begun is returned with the request. */
  method AcquireManaged(pool: P.Pool, p: Plan, ghost universe: set<string>, others: multiset<string>)
    returns (a: RequestAuth?, others': multiset<string>, ghost last: nat)
    requires p.settings == pool.settings
    requires Shared(pool, universe, multiset{}, others, p.gone) && Trim(p.target) == p.target
    requires forall k :: AllSteps(p.waits(k), universe) && AllAllowed(p.logins(k), universe)
    modifies pool
    ensures pool.settings == old(pool.settings)
    ensures a == null ==> Shared(pool, universe, multiset{}, others', p.gone)
    ensures a != null ==>
      && fresh(a) && a.useConfigToken && Shared(pool, universe, multiset{a.accountID}, others', p.gone)
      && a.accountID in universe && (a.accountID !in p.gone ==> a.accountID in pool.lookup.byID)
      && a.accountID !in a.triedAccounts && a.triedAccounts <= universe
      && (p.target != "" ==> a.accountID == p.target && a.triedAccounts == {})
    // every attempt before the last one got an account and failed to log in to it
    ensures forall k: nat :: k < last ==> FailedAt(p, Ledger(old(pool.St()), others), k)
    // success: the last attempt got this account and logged in to it
    ensures a != null ==>
      && LoggedInAt(p, Ledger(old(pool.St()), others), last, a.accountID)
      && a.triedAccounts == AttemptAt(p, Ledger(old(pool.St()), others), last).tried
      && Ledger(pool.St(), others') == Played(p.settings, WaitAt(p, Ledger(old(pool.St()), others), last).after,
                                              p.logins(last), p.gone)
    // failure: as many accounts failed as are listed, or the named one did, or the last wait gave none
    ensures a == null ==>
      GivesUp(p, Ledger(old(pool.St()), others), last, Ledger(pool.St(), others'))
  {
    hide Shared, AllAllowed, Waiting, Played, LoginFailed, WaitAt, FailedAt, LoggedInAt;
    ghost var start := Ledger(pool.St(), others);
    others' := others;
    var tried: set<string> := {};
    var attempt := 0;
    last := 0;
    while true
      invariant Shared(pool, universe, multiset{}, others', p.gone)
      invariant pool.settings == old(pool.settings)
      invariant tried <= universe && (p.target != "" ==> tried == {} && attempt == 0)
      invariant last == attempt && Attempt(Ledger(pool.St(), others'), tried) == AttemptAt(p, start, attempt)
      invariant forall k: nat :: k < attempt ==> FailedAt(p, start, k)
      decreases universe - tried
    {
      if p.target == "" && |tried| >= |pool.lookup.accounts| {
        return null, others', last;
      }
      var acc, loggedIn;
      acc, loggedIn, others' := TryAccount(pool, p, attempt, tried, start, universe, others');
      if acc.None? {
        return null, others', last;
      }
      if loggedIn {
        a := new RequestAuth(acc.value, tried);
        return;
      }
      tried := tried + {acc.value.id};
      attempt, last := attempt + 1, last + 1;
      if p.target != "" {
        return null, others', last;
      }
    }
  }

  /** The loop body: wait for an account, log in, and give the account back if that fails. */
  method TryAccount(pool: P.Pool, p: Plan, attempt: nat, tried: set<string>, ghost start: Ledger,
                    ghost universe: set<string>, others: multiset<string>)
    returns (acc: Option<Account>, loggedIn: bool, others': multiset<string>)
    requires p.settings == pool.settings
    requires Shared(pool, universe, multiset{}, others, p.gone) && Trim(p.target) == p.target
    requires AllSteps(p.waits(attempt), universe) && AllAllowed(p.logins(attempt), universe)
    requires Attempt(Ledger(pool.St(), others), tried) == AttemptAt(p, start, attempt)
    modifies pool
    ensures pool.settings == old(pool.settings)
    ensures acc.None? ==>
      && Shared(pool, universe, multiset{}, others', p.gone)
      && !WaitAt(p, start, attempt).Got? && Ledger(pool.St(), others') == WaitAt(p, start, attempt).after
    ensures acc.Some? ==>
      && acc.value.id in universe && acc.value.id !in tried && (p.target != "" ==> acc.value.id == p.target)
    ensures acc.Some? && loggedIn ==>
      && Shared(pool, universe, multiset{acc.value.id}, others', p.gone)
      && (acc.value.id !in p.gone ==> acc.value.id in pool.lookup.byID)
      && LoggedInAt(p, start, attempt, acc.value.id)
      && Ledger(pool.St(), others')
         == Played(p.settings, WaitAt(p, start, attempt).after, p.logins(attempt), p.gone)
    ensures acc.Some? && !loggedIn ==>
      && Shared(pool, universe, multiset{}, others', p.gone) && FailedAt(p, start, attempt)
      && AttemptAt(p, start, attempt + 1) == Attempt(Ledger(pool.St(), others'), tried + {acc.value.id})
  {
    hide R.Inv, R.SettingsOk, CatalogueOk, Balanced, AttemptAt, AllAllowed, Waiting, Played, LoginFailed, Release;
    acc, others' := AcquireWait(pool, p.target, tried, p.waits(attempt), universe, others, p.gone);
    loggedIn := false;
    if acc.None? {
      return;
    }
    var id := acc.value.id;
    ghost var after := Ledger(pool.St(), others');
    assert WaitAt(p, start, attempt) == Got(id, after);
    others' := Interfere(pool, p.logins(attempt), universe, multiset{id}, others', p.gone);
    if p.ensureToken(attempt, id) {
      LeaseListed(pool.settings, pool.St(), id, others', p.gone);
      loggedIn := true;
      return;
    }
    ghost var later := Ledger(pool.St(), others');
    GiveBack(pool, id, universe, others', p.gone);
    NextAttempt(p, start, attempt, id, after, tried);
    FailedLogin(p, attempt, id, after, later, tried);
  }

  lemma FailedLogin(p: Plan, k: nat, id: string, after: Ledger, later: Ledger, tried: set<string>)
    requires later == Played(p.settings, after, p.logins(k), p.gone)
    ensures LoginFailed(p, k, id, after, tried) == Attempt(Ledger(Release(later.st, id), later.others), tried + {id})
  {
    hide Played, Release;
  }

  lemma NextAttempt(p: Plan, w: Ledger, k: nat, id: string, after: Ledger, tried: set<string>)
    requires WaitAt(p, w, k) == Got(id, after) && AttemptAt(p, w, k).tried == tried
    ensures AttemptAt(p, w, k + 1) == LoginFailed(p, k, id, after, tried)
  {
    hide Waiting, LoginFailed;
  }

  /** The accounts tried before an attempt are those whose login failed on an earlier one. */
  lemma {:induction false} TriedFailed(p: Plan, w: Ledger, k: nat)
    requires forall i: nat :: i < k ==> FailedAt(p, w, i)
    ensures forall id :: id in AttemptAt(p, w, k).tried <==> exists i: nat :: i < k && FailsFor(p, w, i, id)
  {
    hide Waiting, Played, Release;
    if k > 0 {
      TriedFailed(p, w, k - 1);
      assert FailedAt(p, w, k - 1);
      var got := WaitAt(p, w, k - 1);
      assert AttemptAt(p, w, k).tried == AttemptAt(p, w, k - 1).tried + {got.id};
      assert forall id {:trigger FailsFor(p, w, k - 1, id)} :: FailsFor(p, w, k - 1, id) <==> id == got.id;
      hide FailsFor, WaitAt, AttemptAt;
      forall id ensures id in AttemptAt(p, w, k).tried <==> exists i: nat :: i < k && FailsFor(p, w, i, id) {
        assert (exists i: nat :: i < k && FailsFor(p, w, i, id)) <==>
          (exists i: nat :: i < k - 1 && FailsFor(p, w, i, id)) || FailsFor(p, w, k - 1, id);
      }
    }
  }

  /** Attempt k got this account, and its login failed. */
  ghost predicate FailsFor(p: Plan, w: Ledger, k: nat, id: string) {
    WaitAt(p, w, k).Got? && WaitAt(p, w, k).id == id && !p.ensureToken(k, id)
  }

  /** A request that waits and finds everything taken is given the account that another request releases, if it is
      still waiting then: the very one it named, or the only one that is free. */
  lemma ReleasedToWaiter(settings: Settings, w: Ledger, target: string, exclude: set<string>, id: string,
                         script: seq<seq<Other>>, gone: set<string>)
    requires R.Inv(settings, w.st) && W.TrimmedNames(w.st) && Trim(target) == target && w.st.waiters == []
    requires W.Parks(w.st, R.DoAcquireOrPark(target, exclude))
    requires id in w.st.inUse && id in w.st.queue && id !in exclude && (target != "" ==> target == id)
    requires id in w.others && id != "" && |script| >= 2 && script[0] == [TheyRelease(id)]
    ensures var end := Waiting(settings, w, target, exclude, script, gone);
      end.Got? && (target == id || !W.GloballyFull(w.st) ==> end.id == id)
  {
    W.ParkedIsServed(settings, w.st, target, exclude, id);
    hide R.Inv, W.TrimmedNames, CanQueue, Choice, AcquireOrPark, Release, W.GloballyFull, Waiting, Parked, Played;
    var parked := w.(st := AcquireOrPark(w.st, target, exclude));
    var freed := Ledger(Release(parked.st, id), parked.others - multiset{id});
    WaitingNow(settings, w, target, exclude, script, gone);
    ParkedNow(settings, parked, w.st.nextWaiter, target, exclude, script, gone);
    OneRelease(settings, parked, id, gone);
    assert w.st.nextWaiter == freed.st.closings[|w.st.closings|];
    WaitingNow(settings, freed, target, exclude, script[1..], gone);
  }

  lemma OneRelease(settings: Settings, w: Ledger, id: string, gone: set<string>)
    requires id in w.others && id != ""
    ensures Played(settings, w, [TheyRelease(id)], gone) == Ledger(Release(w.st, id), w.others - multiset{id})
  {
    hide Release;
    assert [TheyRelease(id)][..0] == [];
    assert Played(settings, w, [], gone) == w;
  }

  /** Why no request is returned, when attempt k is the last one begun. */
  ghost predicate GivesUp(p: Plan, w: Ledger, k: nat, after: Ledger) {
    var a := AttemptAt(p, w, k);
    || (p.target == "" && |a.tried| >= |a.w.st.lookup.accounts| && after == a.w)
    || (p.target != "" && k == 1 && after == a.w)
    || (!WaitAt(p, w, k).Got? && after == WaitAt(p, w, k).after)
  }

  /** pool.Release(id) for the one lease this request holds. */
  method GiveBack(pool: P.Pool, id: string, ghost universe: set<string>, ghost others: multiset<string>,
                  ghost gone: set<string>)
    requires Shared(pool, universe, multiset{id}, others, gone) && id != ""
    modifies pool
    ensures Shared(pool, universe, multiset{}, others, gone) && pool.settings == old(pool.settings)
    ensures pool.St() == Release(old(pool.St()), id)
  {
    R.ReleaseKeeps(pool.settings, pool.St(), id);
    ReleaseBalances(pool.St(), id, multiset{id}, others, gone);
    assert multiset{id} - multiset{id} == multiset{};
    pool.Release(id);
  }

  /** An account with a lease is listed, unless it was dropped. */
  lemma LeaseListed(settings: Settings, st: State, id: string, others: multiset<string>, gone: set<string>)
    requires R.Inv(settings, st) && Balanced(st.inUse, multiset{id}, others, gone)
    ensures id !in gone ==> id in st.lookup.byID
  {
    assert id !in gone ==> Leases(st.inUse, id) > 0;
  }

  ghost function Held(a: RequestAuth): multiset<string>
    reads a
  {
    if a.accountID == "" then multiset{} else multiset{a.accountID}
  }

  /** pool.Acquire("", exclude) by this request. */
  method TakeAny(pool: P.Pool, exclude: set<string>, ghost universe: set<string>, ghost others: multiset<string>,
                 ghost gone: set<string>)
    returns (acc: Option<Account>)
    requires Shared(pool, universe, multiset{}, others, gone)
    modifies pool
    ensures pool.settings == old(pool.settings) && pool.St() == Acquire(old(pool.St()), "", exclude)
    ensures Choice(old(pool.St()), "", exclude) == if acc.Some? then Some(acc.value.id) else None
    ensures acc.None? ==> pool.St() == old(pool.St())
    ensures acc.None? ==> Shared(pool, universe, multiset{}, others, gone)
    ensures acc.Some? ==>
      && Shared(pool, universe, multiset{acc.value.id}, others, gone)
      && acc.value.id in universe && acc.value.id !in exclude && acc.value.id != ""
  {
    hide R.Inv, Balanced;
    ChoiceBalances(pool.settings, pool.St(), "", exclude, multiset{}, others, gone);
    acc := pool.Acquire("", exclude);
    assert multiset{} + multiset{if acc.Some? then acc.value.id else ""} ==
      multiset{if acc.Some? then acc.value.id else ""};
  }

  /** Resolver.SwitchAccount. */
  method SwitchAccount(pool: P.Pool, a: RequestAuth, p: Plan, ghost universe: set<string>, others: multiset<string>)
    returns (ok: bool, others': multiset<string>, ghost last: nat)
    requires p.settings == pool.settings
    requires Shared(pool, universe, Held(a), others, p.gone)
    requires forall k :: AllAllowed(p.logins(k), universe)
    modifies pool, a
    ensures pool.settings == old(pool.settings)
    ensures !old(a.useConfigToken) ==>
      !ok && others' == others && unchanged(a) && unchanged(pool) && Shared(pool, universe, Held(a), others', p.gone)
    // success: one lease, on an account not tried before and not the one given up
    ensures ok ==>
      && Shared(pool, universe, multiset{a.accountID}, others', p.gone)
      && a.accountID in universe && (a.accountID !in p.gone ==> a.accountID in pool.lookup.byID)
      && a.accountID !in a.triedAccounts && old(a.triedAccounts) <= a.triedAccounts
      && a.accountID !in old(a.triedAccounts) && a.accountID != old(a.accountID)
    // failure: no lease, although the request still names the last account it tried
    ensures !ok && old(a.useConfigToken) ==>
      && Shared(pool, universe, multiset{}, others', p.gone)
      && (a.accountID != "" ==> a.accountID in a.triedAccounts)
    // every attempt before the last one leased an account and failed to log in to it; the last one leased this
    // account and logged in to it, or found none
    ensures old(a.useConfigToken) ==>
      Switched(p, Ledger(old(pool.St()), others), old(a.accountID), old(a.triedAccounts), last, ok, a.accountID,
               a.triedAccounts, Ledger(pool.St(), others'))
  {
    hide Shared, AllAllowed, Played, SwitchesTo, SwitchLeased, Release, SwitchAt;
    ghost var start, from, before := Ledger(pool.St(), others), a.accountID, a.triedAccounts;
    others', ok, last := others, false, 0;
    if !a.useConfigToken {
      return;
    }
    if a.accountID != "" {
      a.triedAccounts := a.triedAccounts + {a.accountID};
      GiveBack(pool, a.accountID, universe, others', p.gone);
    }
    FirstSwitch(p, start, from, before);
    var attempt := 0;
    while true
      invariant Shared(pool, universe, multiset{}, others', p.gone)
      invariant pool.settings == old(pool.settings)
      invariant before <= a.triedAccounts
      invariant a.accountID != "" ==> a.accountID in a.triedAccounts
      invariant from != "" ==> from in a.triedAccounts
      invariant last == attempt
      invariant Attempt(Ledger(pool.St(), others'), a.triedAccounts) == SwitchAt(p, start, from, before, attempt)
      invariant forall k: nat :: k < attempt ==> SwitchFailsAt(p, start, from, before, k)
      invariant attempt == 0 ==> a.accountID == from
      invariant attempt > 0 ==> SwitchesTo(p, start, from, before, attempt - 1) == Some(a.accountID)
      decreases universe - a.triedAccounts
    {
      var acc, loggedIn;
      acc, loggedIn, others' := TryAnother(pool, p, attempt, a.triedAccounts, start, from, before, universe, others');
      if acc.None? {
        return;
      }
      a.account := acc.value;
      a.accountID := acc.value.id;
      if loggedIn {
        ok := true;
        return;
      }
      a.triedAccounts := a.triedAccounts + {a.accountID};
      attempt, last := attempt + 1, last + 1;
    }
  }

  lemma FirstSwitch(p: Plan, w: Ledger, accountID: string, tried: set<string>)
    ensures SwitchAt(p, w, accountID, tried, 0) ==
      if accountID == "" then Attempt(w, tried)
      else Attempt(w.(st := Release(w.st, accountID)), tried + {accountID})
  {
    hide Release;
  }

  /** The loop body of a switch. */
  method TryAnother(pool: P.Pool, p: Plan, attempt: nat, tried: set<string>, ghost start: Ledger, ghost from: string,
                    ghost before: set<string>, ghost universe: set<string>, others: multiset<string>)
    returns (acc: Option<Account>, loggedIn: bool, others': multiset<string>)
    requires p.settings == pool.settings && Shared(pool, universe, multiset{}, others, p.gone)
    requires AllAllowed(p.logins(attempt), universe)
    requires Attempt(Ledger(pool.St(), others), tried) == SwitchAt(p, start, from, before, attempt)
    modifies pool
    ensures pool.settings == old(pool.settings)
    ensures SwitchesTo(p, start, from, before, attempt) == if acc.Some? then Some(acc.value.id) else None
    ensures acc.None? ==>
      && Shared(pool, universe, multiset{}, others', p.gone)
      && Ledger(pool.St(), others') == SwitchAt(p, start, from, before, attempt).w
    ensures acc.Some? ==>
      && acc.value.id in universe && acc.value.id !in tried && acc.value.id != ""
      && loggedIn == p.ensureToken(attempt, acc.value.id)
    ensures acc.Some? && loggedIn ==>
      && Shared(pool, universe, multiset{acc.value.id}, others', p.gone)
      && (acc.value.id !in p.gone ==> acc.value.id in pool.lookup.byID)
      && Ledger(pool.St(), others')
         == Played(p.settings, SwitchLeased(p, start, from, before, attempt), p.logins(attempt), p.gone)
    ensures acc.Some? && !loggedIn ==>
      && Shared(pool, universe, multiset{}, others', p.gone)
      && SwitchAt(p, start, from, before, attempt + 1)
         == Attempt(Ledger(pool.St(), others'), tried + {acc.value.id})
  {
    hide R.Inv, R.SettingsOk, CatalogueOk, Balanced, Choice, AllAllowed, Played, LoginFailed, Release, Acquire;
    acc := TakeAny(pool, tried, universe, others, p.gone);
    others', loggedIn := others, false;
    if acc.None? {
      return;
    }
    var id := acc.value.id;
    ghost var after := Ledger(pool.St(), others');
    assert SwitchesTo(p, start, from, before, attempt) == Some(id);
    others' := Interfere(pool, p.logins(attempt), universe, multiset{id}, others', p.gone);
    if p.ensureToken(attempt, id) {
      LeaseListed(pool.settings, pool.St(), id, others', p.gone);
      loggedIn := true;
      return;
    }
    ghost var later := Ledger(pool.St(), others');
    GiveBack(pool, id, universe, others', p.gone);
    NextSwitch(p, start, from, before, attempt, id, after);
    FailedLogin(p, attempt, id, after, later, tried);
  }

  ghost predicate SwitchFailsAt(p: Plan, w: Ledger, accountID: string, tried: set<string>, k: nat) {
    var id := SwitchesTo(p, w, accountID, tried, k);
    id.Some? && !p.ensureToken(k, id.value)
  }

  /** The pool once attempt k of a switch has leased its account. */
  ghost function SwitchLeased(p: Plan, w: Ledger, accountID: string, tried: set<string>, k: nat): Ledger {
    var a := SwitchAt(p, w, accountID, tried, k);
    a.w.(st := Acquire(a.w.st, "", a.tried))
  }

  lemma NextSwitch(p: Plan, w: Ledger, accountID: string, tried: set<string>, k: nat, id: string, after: Ledger)
    requires SwitchesTo(p, w, accountID, tried, k) == Some(id) && after == SwitchLeased(p, w, accountID, tried, k)
    ensures SwitchAt(p, w, accountID, tried, k + 1)
         == LoginFailed(p, k, id, after, SwitchAt(p, w, accountID, tried, k).tried)
  {
    hide Choice, LoginFailed, Acquire;
  }

  /** What a switch leaves, when attempt k is the last one begun. */
  ghost predicate Switched(p: Plan, w: Ledger, from: string, before: set<string>, k: nat, ok: bool, accountID: string,
                           tried: set<string>, after: Ledger)
  {
    && (forall i: nat :: i < k ==> SwitchFailsAt(p, w, from, before, i))
    && tried == SwitchAt(p, w, from, before, k).tried
    && (ok ==>
          && SwitchesTo(p, w, from, before, k) == Some(accountID) && p.ensureToken(k, accountID)
          && after == Played(p.settings, SwitchLeased(p, w, from, before, k), p.logins(k), p.gone))
    && (!ok ==>
          && SwitchesTo(p, w, from, before, k) == None && after == SwitchAt(p, w, from, before, k).w
          && (k > 0 ==> Some(accountID) == SwitchesTo(p, w, from, before, k - 1)))
  }

  /** Releasing once more after a failed switch takes a lease away from whoever else holds that
      account, and is harmless exactly when nobody does. */
  lemma ReleaseAfterFailedSwitch(settings: Settings, st: State, id: string, others: multiset<string>)
    requires R.Inv(settings, st) && Balanced(st.inUse, multiset{}, others, {}) && id != ""
    ensures Balanced(Release(st, id).inUse, multiset{}, others, {}) <==> id !in others
  {
    assert Leases(st.inUse, id) == others[id];
    if id in others {
      ReleaseBalances(st, id, multiset{}, others, {});
      assert Leases(Release(st, id).inUse, id) == (others - multiset{id})[id];
    }
  }

  /** Such a run: this request leases the only account, gives it back in a switch that then finds no other
      account, another request leases it, and the release at the end of this request takes that lease. */
  lemma StolenLease(settings: Settings)
    requires R.SettingsOk(settings)
    ensures var a := Account("a", "");
      var st := Reset(Blank(Lookup([a], map["a" := a]), settings.maxPer), settings);
      var mine := Acquire(st, "", {});
      var switched := Acquire(Release(mine, "a"), "", {"a"});
      var theirs := Acquire(switched, "", {});
      && Balanced(mine.inUse, multiset{"a"}, multiset{}, {})
      && Choice(Release(mine, "a"), "", {"a"}) == None
      && Balanced(theirs.inUse, multiset{}, multiset{"a"}, {})
      && !Balanced(Release(theirs, "a").inUse, multiset{}, multiset{"a"}, {})
  {
    var a := Account("a", "");
    var st := Reset(Blank(Lookup([a], map["a" := a]), settings.maxPer), settings);
    FreshOne(settings, a);
    LeasesOne(settings, st);
    GivesBack(st);
    NoneLeft(st);
    OneHeld();
    hide *;
  }

  lemma FreshOne(settings: Settings, a: Account)
    requires R.SettingsOk(settings) && a == Account("a", "")
    ensures var st := Reset(Blank(Lookup([a], map["a" := a]), settings.maxPer), settings);
      && st.queue == ["a"] && st.inUse == map[] && st.maxPer >= 1 && SumOf(map[]) == 0
      && st.globalMax > 0 && "a" in st.lookup.byID && st.waiters == []
  {
    R.OneAccount(a);
    R.NoSum();
    hide SumOf, SortedForQueue, AccountIDs;
  }

  lemma GivesBack(st: State)
    requires st.inUse == map[] && st.waiters == []
    ensures Release(st.(inUse := map["a" := 1]), "a") == st
  {
  }

  lemma OneHeld()
    ensures Balanced(map["a" := 1], multiset{"a"}, multiset{}, {})
    ensures Balanced(map["a" := 1], multiset{}, multiset{"a"}, {})
    ensures !Balanced(map[], multiset{}, multiset{"a"}, {})
  {
    assert Leases(map[], "a") == 0;
  }

  lemma LeasesOne(settings: Settings, st: State)
    requires R.SettingsOk(settings) && st.queue == ["a"] && st.inUse == map[] && st.maxPer >= 1 && SumOf(map[]) == 0
    requires st.globalMax > 0 && "a" in st.lookup.byID && st.waiters == []
    ensures Choice(st, "", {}) == Some("a") && Acquire(st, "", {}) == st.(inUse := map["a" := 1])
  {
    R.SpacedName();
    hide SumOf, Trim;
    assert FirstEligible(st, {}, ["a"]) == Some("a");
    assert Bump(["a"], "a") == ["a"] by { assert ["a"][..0] + ["a"][1..] + ["a"] == ["a"]; }
  }

  lemma NoneLeft(st: State)
    requires st.queue == ["a"]
    ensures Choice(st, "", {"a"}) == None
  {
    assert st.queue[0] == "a" && st.queue[1..] == [];
    assert FirstEligible(st, {"a"}, []) == None;
  }

  // ---- accounts that are dropped while leased

  /** Whatever others dropped meanwhile, when nobody holds a lease none is on record. */
  lemma NothingLeaks(settings: Settings, st: State, gone: set<string>)
    requires R.Inv(settings, st) && Balanced(st.inUse, multiset{}, multiset{}, gone)
    ensures st.inUse == map[]
  {
    forall id ensures id !in st.inUse {
      assert Leases(st.inUse, id) <= 0;
    }
    assert st.inUse.Keys == {};
  }

  /** Why the record is exact only for accounts that are not dropped while leased: this request leases the only
      account, a cooldown drops it and a resync lists it again, and another request leases it. Both hold it, and
      one lease is on record, so a limit of one per account does not stop the second. */
  lemma DroppedWhileLeased(settings: Settings)
    requires R.SettingsOk(settings)
    ensures var a := Account("a", "");
      var st := Reset(Blank(Lookup([a], map["a" := a]), settings.maxPer), settings);
      var back := Sync(Remove(Acquire(st, "", {}), "a"), settings, [a]);
      && Choice(back, "", {}) == Some("a")
      && Balanced(Acquire(back, "", {}).inUse, multiset{"a"}, multiset{"a"}, {"a"})
      && !Balanced(Acquire(back, "", {}).inUse, multiset{"a"}, multiset{"a"}, {})
  {
    var a := Account("a", "");
    var st := Reset(Blank(Lookup([a], map["a" := a]), settings.maxPer), settings);
    FreshOne(settings, a);
    LeasesOne(settings, st);
    BackAgain(settings, st.(inUse := map["a" := 1]), a);
    LeasesOne(settings, Sync(Remove(st.(inUse := map["a" := 1]), "a"), settings, [a]));
    TwoHeld();
    hide *;
  }

  lemma TwoHeld()
    ensures Balanced(map["a" := 1], multiset{"a"}, multiset{"a"}, {"a"})
    ensures !Balanced(map["a" := 1], multiset{"a"}, multiset{"a"}, {})
  {
    assert Leases(map["a" := 1], "a") == 1;
  }

  lemma BackAgain(settings: Settings, st: State, a: Account)
    requires R.SettingsOk(settings) && a == Account("a", "") && st.queue == ["a"] && st.inUse == map["a" := 1]
    ensures var back := Sync(Remove(st, "a"), settings, [a]);
      && back.queue == ["a"] && back.inUse == map[] && back.maxPer >= 1 && SumOf(map[]) == 0
      && back.globalMax > 0 && "a" in back.lookup.byID && back.waiters == []
  {
    R.OneAccount(a);
    R.NoSum();
    hide SumOf, SortedForQueue, AccountIDs;
    assert Without(["a"], "a") == [] by { assert ["a"][..0] == []; }
    assert Remove(st, "a").inUse == map[];
    assert Extended([], ["a"]) == ["a"];
  }
}
