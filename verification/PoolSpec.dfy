/** internal/account: what each critical section of the pool does to its state, as functions on values. */
module PoolSpec {
  import opened Options
  import opened Text

  /** id is the value of Account.Identifier(): a trimmed e-mail or mobile number, or "". */
  datatype Account = Account(id: string, token: string)

  datatype Lookup = Lookup(accounts: seq<Account>, byID: map<string, Account>)

  /** The limit knobs: accounts' in-flight limit, queue bound (-1 is unlimited), and the configured
      global limit, where None leaves the recommended concurrency in charge. */
  datatype Settings = Settings(maxPer: int, maxQueue: int, global: Option<int>)

  /** A waiter channel is a number handed out in order; closings lists the channels closed so far. */
  datatype State = State(
    lookup: Lookup, queue: seq<string>, inUse: map<string, int>,
    waiters: seq<nat>, closings: seq<nat>, nextWaiter: nat,
    maxPer: int, recommended: int, maxQueue: int, globalMax: int)

  const UNLIMITED_QUEUE := -1

  // ---- lookups

  function AccountIDs(accounts: seq<Account>): seq<string> {
    if accounts == [] then []
    else
      var init, last := AccountIDs(accounts[..|accounts| - 1]), accounts[|accounts| - 1].id;
      if last != "" then init + [last] else init
  }

  function Named(accounts: seq<Account>): seq<Account> {
    if accounts == [] then []
    else
      var init, last := Named(accounts[..|accounts| - 1]), accounts[|accounts| - 1];
      if last.id != "" then init + [last] else init
  }

  function ByID(accounts: seq<Account>): map<string, Account> {
    if accounts == [] then map[]
    else
      var init, last := ByID(accounts[..|accounts| - 1]), accounts[|accounts| - 1];
      if last.id != "" then init[last.id := last] else init
  }

  function NewLookup(accounts: seq<Account>): Lookup {
    Lookup(Named(accounts), ByID(accounts))
  }

  function FindAccount(lookup: Lookup, id: string): Option<Account> {
    if Trim(id) in lookup.byID then Some(lookup.byID[Trim(id)]) else None
  }

  function WithToken(accounts: seq<Account>, has: bool): seq<Account> {
    if accounts == [] then []
    else if (accounts[0].token != "") == has then [accounts[0]] + WithToken(accounts[1..], has)
    else WithToken(accounts[1..], has)
  }

  /** The stable sort of the source: accounts holding a token first. */
  function SortedForQueue(accounts: seq<Account>): seq<Account> {
    WithToken(accounts, true) + WithToken(accounts, false)
  }

  // ---- limits

  function InUse(st: State, id: string): int {
    if id in st.inUse then st.inUse[id] else 0
  }

  ghost function SumOf(m: map<string, int>): int {
    if m == map[] then 0 else var k :| k in m; m[k] + SumOf(m - {k})
  }

  function Recommended(count: nat, maxPer: int): int {
    if count <= 0 then 0 else count * (if maxPer <= 0 then 1 else maxPer)
  }

  function GlobalLimit(settings: Settings, recommended: int): int {
    match settings.global
    case Some(g) => g
    case None => recommended
  }

  ghost predicate CanAcquire(st: State, id: string) {
    && id != ""
    && InUse(st, id) < st.maxPer
    && !(st.globalMax > 0 && SumOf(st.inUse) >= st.globalMax)
  }

  predicate CanQueue(st: State, target: string, exclude: set<string>) {
    && (target != "" ==> target !in exclude && FindAccount(st.lookup, target).Some?)
    && (st.maxQueue == UNLIMITED_QUEUE || 0 <= |st.waiters| < st.maxQueue)
  }

  // ---- acquire and release

  /** The position of id in the queue, or its length. */
  function IndexOf<T(==)>(queue: seq<T>, id: T): (i: nat)
    ensures i <= |queue|
    ensures i < |queue| ==> queue[i] == id
    ensures forall j :: 0 <= j < i ==> queue[j] != id
  {
    if queue == [] || queue[0] == id then 0 else 1 + IndexOf(queue[1..], id)
  }

  function Without(queue: seq<string>, id: string): seq<string> {
    var i := IndexOf(queue, id);
    if i == |queue| then queue else queue[..i] + queue[i + 1..]
  }

  function Bump(queue: seq<string>, id: string): seq<string> {
    if IndexOf(queue, id) == |queue| then queue else Without(queue, id) + [id]
  }

  function Lease(st: State, id: string): State {
    st.(inUse := st.inUse[id := InUse(st, id) + 1], queue := Bump(st.queue, id))
  }

  ghost predicate Eligible(st: State, exclude: set<string>, id: string) {
    id !in exclude && CanAcquire(st, id) && FindAccount(st.lookup, id).Some?
  }

  /** The id an acquire leases: the target itself, or the first eligible id of the queue. */
  ghost function Choice(st: State, target: string, exclude: set<string>): Option<string> {
    if target != "" then (if Eligible(st, exclude, target) then Some(target) else None)
    else FirstEligible(st, exclude, st.queue)
  }

  ghost function FirstEligible(st: State, exclude: set<string>, queue: seq<string>): Option<string> {
    if queue == [] then None
    else if Eligible(st, exclude, queue[0]) then Some(queue[0])
    else FirstEligible(st, exclude, queue[1..])
  }

  lemma {:induction false} FirstIsEligible(st: State, exclude: set<string>, queue: seq<string>)
    ensures var first := FirstEligible(st, exclude, queue);
      first.Some? ==> first.value in queue && Eligible(st, exclude, first.value)
  {
    if queue != [] {
      FirstIsEligible(st, exclude, queue[1..]);
    }
  }

  ghost function Acquire(st: State, target: string, exclude: set<string>): State {
    match Choice(st, target, exclude)
    case Some(id) => Lease(st, id)
    case None => st
  }

  /** One pass of AcquireWait under the lock: lease, refuse, or park a new waiter. */
  ghost function AcquireOrPark(st: State, target: string, exclude: set<string>): State {
    if Choice(st, target, exclude).Some? then Acquire(st, target, exclude)
    else if CanQueue(st, target, exclude) then
      st.(waiters := st.waiters + [st.nextWaiter], nextWaiter := st.nextWaiter + 1)
    else st
  }

  function Notify(st: State): State {
    if st.waiters == [] then st
    else st.(waiters := st.waiters[1..], closings := st.closings + [st.waiters[0]])
  }

  function Drain(st: State): State {
    st.(waiters := [], closings := st.closings + st.waiters)
  }

  function Cancel(st: State, w: nat): State {
    var i := IndexOf(st.waiters, w);
    if i == |st.waiters| then st else st.(waiters := st.waiters[..i] + st.waiters[i + 1..])
  }

  function Release(st: State, id: string): State {
    if id == "" || InUse(st, id) <= 0 then st
    else if InUse(st, id) == 1 then Notify(st.(inUse := st.inUse - {id}))
    else Notify(st.(inUse := st.inUse[id := InUse(st, id) - 1]))
  }

  // ---- accounts coming and going

  function Remove(st: State, id: string): State {
    if id == "" then st
    else Drain(st.(queue := Without(st.queue, id), inUse := st.inUse - {id}))
  }

  function Kept(queue: seq<string>, allowed: set<string>): seq<string> {
    if queue == [] then []
    else
      var init, last := Kept(queue[..|queue| - 1], allowed), queue[|queue| - 1];
      if last in allowed then init + [last] else init
  }

  /** The ids of the list that are not there yet, each once, appended in order. */
  function Extended(queue: seq<string>, ids: seq<string>): seq<string> {
    if ids == [] then queue
    else
      var init, last := Extended(queue, ids[..|ids| - 1]), ids[|ids| - 1];
      if last in init then init else init + [last]
  }

  function Elements(s: seq<string>): set<string> {
    set x | x in s
  }

  function KeptLeases(inUse: map<string, int>, allowed: set<string>): map<string, int> {
    map id | id in inUse && id in allowed :: inUse[id]
  }

  function Sync(st: State, settings: Settings, accounts: seq<Account>): State {
    var sorted := SortedForQueue(accounts);
    var ids := AccountIDs(sorted);
    var allowed := Elements(ids);
    var recommended := Recommended(|ids|, settings.maxPer);
    State(
      NewLookup(sorted),
      Extended(Kept(st.queue, allowed), ids),
      KeptLeases(st.inUse, allowed),
      [], st.closings + st.waiters, st.nextWaiter,
      settings.maxPer, recommended, settings.maxQueue, GlobalLimit(settings, recommended))
  }

  function Reset(st: State, settings: Settings): State {
    var ids := AccountIDs(SortedForQueue(st.lookup.accounts));
    var recommended := Recommended(|ids|, settings.maxPer);
    State(
      st.lookup, ids, map[],
      [], st.closings + st.waiters, st.nextWaiter,
      settings.maxPer, recommended, settings.maxQueue, GlobalLimit(settings, recommended))
  }

  function ApplyLimits(st: State, maxPer: int, maxQueue: int, global: int): State {
    var per := if maxPer <= 0 then 1 else maxPer;
    var all := per * |st.lookup.accounts|;
    Notify(st.(
      maxPer := per,
      maxQueue := if maxQueue < 0 then UNLIMITED_QUEUE else maxQueue,
      globalMax := if global > 0 then global else if all > 0 then all else per,
      recommended := Recommended(|st.queue|, per)))
  }

  /** A pool object before its first reset. */
  function Blank(lookup: Lookup, maxPer: int): State {
    State(lookup, [], map[], [], [], 0, maxPer, 0, 0, 0)
  }
}
