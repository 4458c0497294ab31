/** What a request that waits for an account, logs in and switches goes through, as functions on values. */
module LeaseSpec {
  import opened Options
  import opened PoolSpec

  /** What other requests may do between two critical sections of this one. */
  datatype Other =
    | TheyAcquire(target: string, exclude: set<string>)
    | TheyAcquireOrPark(target: string, exclude: set<string>)
    | TheyCancel(waiter: nat)
    | TheyRelease(id: string)
    | TheySync(accounts: seq<Account>)
    | TheyRemove(id: string)

  /** A pool and the leases that other requests hold. */
  datatype Ledger = Ledger(st: State, others: multiset<string>)

  ghost function Took(w: Ledger, target: string, exclude: set<string>): multiset<string> {
    match Choice(w.st, target, exclude)
    case Some(id) => w.others + multiset{id}
    case None => w.others
  }

  /** A step of another request. Nobody releases what it does not hold, and an account outside gone is not dropped
      while it is leased. */
  ghost function Did(settings: Settings, w: Ledger, step: Other, gone: set<string>): Ledger {
    match step
    case TheyAcquire(target, exclude) => Ledger(Acquire(w.st, target, exclude), Took(w, target, exclude))
    case TheyAcquireOrPark(target, exclude) => Ledger(AcquireOrPark(w.st, target, exclude), Took(w, target, exclude))
    case TheyCancel(waiter) => w.(st := Cancel(w.st, waiter))
    case TheyRelease(id) =>
      if id in w.others && id != "" then Ledger(Release(w.st, id), w.others - multiset{id}) else w
    case TheySync(accounts) =>
      if w.st.inUse.Keys - Elements(AccountIDs(accounts)) <= gone then w.(st := Sync(w.st, settings, accounts)) else w
    case TheyRemove(id) =>
      if id !in w.st.inUse || id in gone then w.(st := Remove(w.st, id)) else w
  }

  ghost function Played(settings: Settings, w: Ledger, steps: seq<Other>, gone: set<string>): Ledger {
    if steps == [] then w else Did(settings, Played(settings, w, steps[..|steps| - 1], gone), steps[|steps| - 1], gone)
  }

  // ---- waiting

  datatype Waited =
    | Got(id: string, after: Ledger)
    | Refused(after: Ledger)
    | OutOfTime(after: Ledger)

  /** AcquireWait. The script is what others do while this request is parked; the context is done, at the latest by
      its deadline, when the script ends. */
  ghost function Waiting(settings: Settings, w: Ledger, target: string, exclude: set<string>,
                         script: seq<seq<Other>>, gone: set<string>): Waited
    decreases |script|, 1
  {
    if script == [] then OutOfTime(w)
    else
      match Choice(w.st, target, exclude)
      case Some(id) => Got(id, w.(st := Acquire(w.st, target, exclude)))
      case None =>
        if !CanQueue(w.st, target, exclude) then Refused(w)
        else
          var parked := w.(st := AcquireOrPark(w.st, target, exclude));
          Parked(settings, parked, w.st.nextWaiter, target, exclude, script, gone)
  }

  /** Parked until the channel is closed. */
  ghost function Parked(settings: Settings, w: Ledger, waiter: nat, target: string, exclude: set<string>,
                        script: seq<seq<Other>>, gone: set<string>): Waited
    decreases |script|, 0
  {
    if script == [] then OutOfTime(w.(st := Cancel(w.st, waiter)))
    else
      var next := Played(settings, w, script[0], gone);
      if waiter in next.st.closings then Waiting(settings, next, target, exclude, script[1..], gone)
      else Parked(settings, next, waiter, target, exclude, script[1..], gone)
  }

  // ---- attempts

  /** Everything a request cannot know: the outcomes of its logins, and what others do while it waits for an account
      and while it logs in, for each attempt. */
  datatype Plan = Plan(
    settings: Settings, target: string, ensureToken: (nat, string) -> bool, waits: nat -> seq<seq<Other>>,
    logins: nat -> seq<Other>, gone: set<string>)

  /** Before an attempt. */
  datatype Attempt = Attempt(w: Ledger, tried: set<string>)

  /** The account is given back after a failed login. */
  ghost function LoginFailed(p: Plan, k: nat, id: string, after: Ledger, tried: set<string>): Attempt {
    var later := Played(p.settings, after, p.logins(k), p.gone);
    Attempt(later.(st := Release(later.st, id)), tried + {id})
  }

  ghost function WaitAt(p: Plan, w: Ledger, k: nat): Waited {
    var a := AttemptAt(p, w, k);
    Waiting(p.settings, a.w, p.target, a.tried, p.waits(k), p.gone)
  }

  /** Attempt k of acquireManagedRequestAuth, when the logins of all attempts before it have failed. */
  ghost function AttemptAt(p: Plan, w: Ledger, k: nat): Attempt {
    if k == 0 then Attempt(w, {})
    else
      var a := AttemptAt(p, w, k - 1);
      match Waiting(p.settings, a.w, p.target, a.tried, p.waits(k - 1), p.gone)
      case Got(id, after) => LoginFailed(p, k - 1, id, after, a.tried)
      case other => Attempt(other.after, a.tried)
  }

  /** Attempt k got an account, and its login failed. */
  ghost predicate FailedAt(p: Plan, w: Ledger, k: nat) {
    WaitAt(p, w, k).Got? && !p.ensureToken(k, WaitAt(p, w, k).id)
  }

  /** Attempt k got this account, and its login succeeded. */
  ghost predicate LoggedInAt(p: Plan, w: Ledger, k: nat, id: string) {
    WaitAt(p, w, k).Got? && WaitAt(p, w, k).id == id && p.ensureToken(k, id)
  }

  /** Attempt k of SwitchAccount, which gives back the account the request has and does not wait. */
  ghost function SwitchAt(p: Plan, w: Ledger, accountID: string, tried: set<string>, k: nat): Attempt {
    if k == 0 then
      if accountID == "" then Attempt(w, tried)
      else Attempt(w.(st := Release(w.st, accountID)), tried + {accountID})
    else
      var a := SwitchAt(p, w, accountID, tried, k - 1);
      match Choice(a.w.st, "", a.tried)
      case Some(id) => LoginFailed(p, k - 1, id, a.w.(st := Acquire(a.w.st, "", a.tried)), a.tried)
      case None => a
  }

  ghost function SwitchesTo(p: Plan, w: Ledger, accountID: string, tried: set<string>, k: nat): Option<string> {
    var a := SwitchAt(p, w, accountID, tried, k);
    Choice(a.w.st, "", a.tried)
  }
}
