/** The order of the queue after a reset or resync, the accounts a lookup lists, and the limits that follow. */
module PoolOrder {
  import opened Options
  import opened Text
  import opened PoolSpec
  import opened PoolRuns
  import opened PoolWakes
  import Sums

  predicate HasToken(a: Account) {
    a.token != ""
  }

  // ---- sorting

  lemma {:induction false} WithTokenHas(accounts: seq<Account>, has: bool)
    ensures forall a :: a in WithToken(accounts, has) <==> a in accounts && HasToken(a) == has
  {
    if accounts != [] {
      WithTokenHas(accounts[1..], has);
      assert forall a :: a in accounts <==> a == accounts[0] || a in accounts[1..];
    }
  }

  /** Accounts that hold a token come first. */
  lemma TokensFirst(accounts: seq<Account>)
    ensures var sorted := SortedForQueue(accounts);
      forall i, j :: 0 <= i < j < |sorted| && HasToken(sorted[j]) ==> HasToken(sorted[i])
  {
    hide WithToken;
    WithTokenHas(accounts, true);
    WithTokenHas(accounts, false);
    var t, f := WithToken(accounts, true), WithToken(accounts, false);
    var sorted := SortedForQueue(accounts);
    assert forall i :: 0 <= i < |t| ==> sorted[i] == t[i] && t[i] in t;
    assert forall i :: |t| <= i < |sorted| ==> sorted[i] == f[i - |t|] && f[i - |t|] in f;
  }

  /** Before in a list. */
  ghost predicate Precedes<T>(s: seq<T>, a: T, b: T) {
    exists i, j :: 0 <= i < j < |s| && s[i] == a && s[j] == b
  }

  lemma PrecedesLater<T>(s: seq<T>, x: T, a: T, b: T)
    requires Precedes(s, a, b)
    ensures Precedes([x] + s, a, b)
  {
    var i, j :| 0 <= i < j < |s| && s[i] == a && s[j] == b;
    assert ([x] + s)[i + 1] == a && ([x] + s)[j + 1] == b;
  }

  lemma HeadPrecedes<T>(x: T, s: seq<T>, b: T)
    requires b in s
    ensures Precedes([x] + s, x, b)
  {
    var j :| 0 <= j < |s| && s[j] == b;
    assert ([x] + s)[0] == x && ([x] + s)[j + 1] == b;
  }

  /** The accounts of one kind keep their order. */
  lemma {:induction false} KindKeepsOrder(accounts: seq<Account>, has: bool, i: nat, j: nat)
    requires i < j < |accounts| && HasToken(accounts[i]) == HasToken(accounts[j]) == has
    ensures Precedes(WithToken(accounts, has), accounts[i], accounts[j])
  {
    hide Precedes;
    var rest := WithToken(accounts[1..], has);
    if i > 0 {
      KindKeepsOrder(accounts[1..], has, i - 1, j - 1);
      PrecedesLater(rest, accounts[0], accounts[i], accounts[j]);
    } else {
      WithTokenHas(accounts[1..], has);
      assert accounts[j] == accounts[1..][j - 1];
      HeadPrecedes(accounts[0], rest, accounts[j]);
    }
  }

  lemma PrecedesIn<T>(a: seq<T>, b: seq<T>, x: T, y: T)
    requires Precedes(a, x, y) || Precedes(b, x, y)
    ensures Precedes(a + b, x, y)
  {
    if Precedes(a, x, y) {
      var i, j :| 0 <= i < j < |a| && a[i] == x && a[j] == y;
      assert (a + b)[i] == x && (a + b)[j] == y;
    } else {
      var i, j :| 0 <= i < j < |b| && b[i] == x && b[j] == y;
      assert (a + b)[|a| + i] == x && (a + b)[|a| + j] == y;
    }
  }

  /** The sort is stable: within the accounts with a token, and within those without, the listed order stays. */
  lemma SortStable(accounts: seq<Account>, i: nat, j: nat)
    requires i < j < |accounts| && HasToken(accounts[i]) == HasToken(accounts[j])
    ensures Precedes(SortedForQueue(accounts), accounts[i], accounts[j])
  {
    KindKeepsOrder(accounts, HasToken(accounts[i]), i, j);
    hide Precedes, WithToken;
    PrecedesIn(WithToken(accounts, true), WithToken(accounts, false), accounts[i], accounts[j]);
  }

  // ---- merging

  lemma PrecedesInit<T>(s: seq<T>, last: T, x: T, y: T)
    requires Precedes(s + [last], x, y) && y != last
    ensures Precedes(s, x, y)
  {
    var i, j :| 0 <= i < j < |s + [last]| && (s + [last])[i] == x && (s + [last])[j] == y;
    assert s[i] == x && s[j] == y;
  }

  lemma EndPrecedes<T>(s: seq<T>, x: T, y: T)
    requires x in s
    ensures Precedes(s + [y], x, y)
  {
    var i :| 0 <= i < |s| && s[i] == x;
    assert (s + [y])[i] == x && (s + [y])[|s|] == y;
  }

  lemma BeforeLast(s: seq<string>, x: string, y: string)
    requires Precedes(s, x, y)
    ensures s != [] && x in s[..|s| - 1]
  {
    var i, j :| 0 <= i < j < |s| && s[i] == x && s[j] == y;
    assert s[..|s| - 1][i] == x;
  }

  /** Survivors of a resync keep their order. */
  lemma {:induction false} SurvivorsKeepOrder(queue: seq<string>, allowed: set<string>, x: string, y: string)
    requires NoDup(queue) && Precedes(queue, x, y) && x in allowed && y in allowed
    ensures Precedes(Kept(queue, allowed), x, y)
  {
    var init, last := queue[..|queue| - 1], queue[|queue| - 1];
    assert queue == init + [last];
    hide Precedes;
    if y != last {
      PrecedesInit(init, last, x, y);
      SurvivorsKeepOrder(init, allowed, x, y);
      PrecedesIn(Kept(init, allowed), [last], x, y);
    } else {
      BeforeLast(queue, x, y);
      KeptKeeps(init, allowed);
      assert x in Elements(init) && x in Elements(Kept(init, allowed));
      EndPrecedes(Kept(init, allowed), x, y);
      assert Kept(queue, allowed) == Kept(init, allowed) + [y];
    }
  }

  /** Newcomers follow in the order of the sorted accounts. */
  lemma {:induction false} NewcomersInOrder(queue: seq<string>, ids: seq<string>, x: string, y: string)
    requires NoDup(queue) && NoDup(ids) && Precedes(ids, x, y) && x !in queue && y !in queue
    ensures Precedes(Extended(queue, ids), x, y)
  {
    var init, last := ids[..|ids| - 1], ids[|ids| - 1];
    assert ids == init + [last];
    ExtendedKeeps(queue, init);
    hide Precedes;
    if y != last {
      PrecedesInit(init, last, x, y);
      NewcomersInOrder(queue, init, x, y);
      PrecedesIn(Extended(queue, init), [last], x, y);
    } else {
      BeforeLast(ids, x, y);
      assert x in Elements(init) && y !in Elements(init) && y !in Elements(queue);
      assert y !in Elements(Extended(queue, init));
      EndPrecedes(Extended(queue, init), x, y);
      assert Extended(queue, ids) == Extended(queue, init) + [y];
    }
  }

  // ---- the lookup

  /** Of accounts with one identifier the lookup finds the last. */
  lemma {:induction false} LastWins(accounts: seq<Account>, i: nat)
    requires i < |accounts| && accounts[i].id != ""
    requires forall j :: i < j < |accounts| ==> accounts[j].id != accounts[i].id
    ensures accounts[i].id in ByID(accounts) && ByID(accounts)[accounts[i].id] == accounts[i]
  {
    if i < |accounts| - 1 {
      var init := accounts[..|accounts| - 1];
      assert forall j :: 0 <= j < |init| ==> init[j] == accounts[j];
      LastWins(init, i);
    }
  }

  lemma {:induction false} NamedHas(accounts: seq<Account>)
    ensures forall a :: a in Named(accounts) <==> a in accounts && a.id != ""
  {
    if accounts != [] {
      var init, last := accounts[..|accounts| - 1], accounts[|accounts| - 1];
      NamedHas(init);
      assert accounts == init + [last];
    }
  }

  // ---- the limits that follow

  lemma SameCount(accounts: seq<Account>)
    ensures |AccountIDs(SortedForQueue(accounts))| == |AccountIDs(accounts)|
  {
    SortReorders(accounts);
    assert |multiset(AccountIDs(SortedForQueue(accounts)))| == |multiset(AccountIDs(accounts))|;
  }

  /** Without a configured global limit, a resync allows as many leases in all as the listed accounts together, and
      a configured one stays. */
  lemma LimitAfterSync(settings: Settings, st: State, accounts: seq<Account>)
    requires SettingsOk(settings)
    ensures Sync(st, settings, accounts).globalMax ==
      if settings.global.Some? then settings.global.value else |AccountIDs(accounts)| * settings.maxPer
  {
    SameCount(accounts);
    hide AccountIDs, SortedForQueue;
  }

  lemma LimitAfterReset(settings: Settings, st: State)
    requires SettingsOk(settings)
    ensures Reset(st, settings).globalMax ==
      if settings.global.Some? then settings.global.value else |AccountIDs(st.lookup.accounts)| * settings.maxPer
  {
    SameCount(st.lookup.accounts);
    hide AccountIDs, SortedForQueue;
  }

  /** New limits are at least one for each account, and in all the given one, or else as many as the listed accounts
      together, counting at least one account. */
  lemma LimitsApplied(st: State, maxPer: int, maxQueue: int, global: int)
    ensures var st' := ApplyLimits(st, maxPer, maxQueue, global);
      && st'.maxPer >= 1 && (maxPer >= 1 ==> st'.maxPer == maxPer) && (maxPer < 1 ==> st'.maxPer == 1)
      && (maxQueue >= 0 ==> st'.maxQueue == maxQueue) && (maxQueue < 0 ==> st'.maxQueue == -1)
      && (global > 0 ==> st'.globalMax == global)
      && (global <= 0 && st.lookup.accounts != [] ==> st'.globalMax == |st.lookup.accounts| * st'.maxPer)
      && (global <= 0 && st.lookup.accounts == [] ==> st'.globalMax == st'.maxPer)
      && st'.lookup == st.lookup && st'.queue == st.queue && st'.inUse == st.inUse
  {
    var per, n := if maxPer <= 0 then 1 else maxPer, |st.lookup.accounts|;
    if n > 0 {
      Scaled(1, n, per);
      assert per * n == n * per >= 1 * per;
    } else {
      assert per * n == 0;
    }
  }

  // ---- capacity

  /** Every account of a set at its limit: so is their sum. */
  lemma {:induction false} AllAtLimit(m: map<string, int>, ids: set<string>, max: nat)
    requires m.Keys <= ids && forall id :: id in ids ==> (if id in m then m[id] else 0) >= max
    ensures SumOf(m) >= |ids| * max
    decreases ids
  {
    if ids == {} {
      assert m == map[];
    } else {
      var id :| id in ids;
      AllAtLimit(m - {id}, ids - {id}, max);
      if id in m {
        Sums.Pick(m, id);
      } else {
        assert m - {id} == m;
      }
      assert |ids - {id}| == |ids| - 1;
      assert (|ids| - 1) * max + max == |ids| * max;
    }
  }

  lemma {:induction false} DistinctCount(s: seq<string>)
    requires NoDup(s)
    ensures |Elements(s)| == |s|
  {
    if s != [] {
      DistinctCount(s[1..]);
      assert Elements(s) == {s[0]} + Elements(s[1..]);
      assert s[0] !in s[1..];
    }
  }

  /** No lease is refused while there is room: as long as fewer leases are out than the global limit and than the
      queued accounts together allow, an acquire that excludes nothing succeeds. */
  lemma RoomIsUsed(settings: Settings, st: State)
    requires Inv(settings, st) && TrimmedNames(st) && settings.maxPer >= 0
    requires st.inUse.Keys <= Elements(st.queue)
    requires !GloballyFull(st) && SumOf(st.inUse) < |st.queue| * st.maxPer
    ensures Choice(st, "", {}).Some?
  {
    if Choice(st, "", {}).None? {
      AcquireFailsExactly(st, {});
      DistinctCount(st.queue);
      forall id | id in Elements(st.queue)
        ensures (if id in st.inUse then st.inUse[id] else 0) >= st.maxPer
      {
        var i :| 0 <= i < |st.queue| && st.queue[i] == id;
        assert AtLimit(st, st.queue[i]);
      }
      hide Choice, GloballyFull;
      AllAtLimit(st.inUse, Elements(st.queue), st.maxPer);
      assert false;
    }
  }
}
