/** internal/privatecontext/upload_cache.go: single flight per key over a cache with a time to live. */
module UploadCache {
  import opened Options
  import opened Text

  datatype File = File(id: string, name: string)

  /** What an upload returns: a file or none, and whether there was an error. */
  datatype Outcome = Outcome(result: Option<File>, failed: bool)

  datatype Entry = Entry(result: File, expiresAt: int)

  /** One upload shared by its leader and its waiters; closings counts close(done). */
  datatype Call = Call(key: string, outcome: Option<Outcome>, closings: nat)

  /** What the first critical section tells a caller to do. */
  datatype Ticket = Hit(result: File) | Join(call: nat) | Lead(call: nat)

  const TTL := 20 * 60 * 1000

  datatype Cache = Cache(entries: map<string, Entry>, inflight: map<string, nat>, calls: seq<Call>)

  predicate Fresh(entry: Entry, now: int) {
    now < entry.expiresAt && Trim(entry.result.id) != ""
  }

  predicate Storable(outcome: Outcome) {
    outcome.result.Some? && !outcome.failed && Trim(outcome.result.value.id) != ""
  }

  function Entered(c: Cache, now: int, key: string): (Cache, Ticket) {
    if key in c.entries && Fresh(c.entries[key], now) then (c, Hit(c.entries[key].result))
    else
      var c' := c.(entries := c.entries - {key});
      if key in c.inflight then (c', Join(c.inflight[key]))
      else (c'.(calls := c.calls + [Call(key, None, 0)], inflight := c.inflight[key := |c.calls|]), Lead(|c.calls|))
  }

  function Finished(c: Cache, call: nat, outcome: Outcome, now: int): Cache
    requires call < |c.calls|
  {
    var done := c.calls[call];
    Cache(
      if Storable(outcome) then c.entries[done.key := Entry(outcome.result.value, now + TTL)] else c.entries,
      c.inflight - {done.key},
      c.calls[call := Call(done.key, Some(outcome), done.closings + 1)])
  }

  /** The package variable uploadCache. */
  class Shared {
    var entries: map<string, Entry>
    var inflight: map<string, nat>
    var calls: seq<Call>

    ghost function State(): Cache
      reads this
    {
      Cache(entries, inflight, calls)
    }

    constructor ()
      ensures State() == Cache(map[], map[], [])
    {
      entries, inflight, calls := map[], map[], [];
    }

    /** From the lock to the first unlock. */
    method Enter(now: int, key: string) returns (ticket: Ticket)
      modifies this
      ensures (State(), ticket) == Entered(old(State()), now, key)
    {
      if key in entries {
        var entry := entries[key];
        if now < entry.expiresAt && Trim(entry.result.id) != "" {
          return Hit(entry.result);
        }
        entries := entries - {key};
      }
      assert entries == old(entries) - {key};
      if key in inflight {
        return Join(inflight[key]);
      }
      ticket := Lead(|calls|);
      inflight := inflight[key := |calls|];
      calls := calls + [Call(key, None, 0)];
    }

    /** The second critical section of the leader. */
    method Finish(call: nat, outcome: Outcome, now: int)
      requires call < |calls|
      modifies this
      ensures State() == Finished(old(State()), call, outcome, now)
    {
      var key := calls[call].key;
      if outcome.result.Some? && !outcome.failed && Trim(outcome.result.value.id) != "" {
        entries := entries[key := Entry(outcome.result.value, now + TTL)];
      }
      calls := calls[call := calls[call].(outcome := Some(outcome))];
      inflight := inflight - {key};
      calls := calls[call := calls[call].(closings := calls[call].closings + 1)];
    }
  }

  // ---- callers

  datatype Answer =
    | Cached(result: File, now: int)
    | Uploaded(call: nat, outcome: Outcome)
    | Cancelled

  /** One call of Upload with a non-empty key. */
  datatype Caller =
    | Leading(key: string, call: nat)
    | Waiting(key: string, call: nat)
    | Returned(key: string, answer: Answer)

  datatype Record = Record(key: string, outcome: Outcome, at: int)

  /** The cache, every caller so far, and the log of finished uploads. */
  datatype World = World(cache: Cache, callers: seq<Caller>, log: seq<Record>)

  datatype Step =
    | Arrive(now: int, key: string)
    | Complete(caller: nat, outcome: Outcome, now: int)
    | Wake(caller: nat)
    | GiveUp(caller: nat)

  function Arrived(key: string, now: int, ticket: Ticket): Caller {
    match ticket
    case Hit(result) => Returned(key, Cached(result, now))
    case Join(call) => Waiting(key, call)
    case Lead(call) => Leading(key, call)
  }

  /** A step of some caller; one that is not enabled changes nothing. */
  function Next(w: World, step: Step): World {
    match step
    case Arrive(now, rawKey) =>
      var key := Trim(rawKey);
      if key == "" then w  // uploads on its own and touches nothing shared
      else
        var (cache, ticket) := Entered(w.cache, now, key);
        World(cache, w.callers + [Arrived(key, now, ticket)], w.log)
    case Complete(i, outcome, now) =>
      if i < |w.callers| && w.callers[i].Leading? && w.callers[i].call < |w.cache.calls| then
        var (key, call) := (w.callers[i].key, w.callers[i].call);
        World(Finished(w.cache, call, outcome, now),
              w.callers[i := Returned(key, Uploaded(call, outcome))],
              w.log + [Record(key, outcome, now)])
      else w
    case Wake(i) =>
      if i < |w.callers| && w.callers[i].Waiting? && w.callers[i].call < |w.cache.calls|
         && w.cache.calls[w.callers[i].call].closings > 0 && w.cache.calls[w.callers[i].call].outcome.Some? then
        var call := w.callers[i].call;
        w.(callers := w.callers[i := Returned(w.callers[i].key, Uploaded(call, w.cache.calls[call].outcome.value))])
      else w
    case GiveUp(i) =>
      if i < |w.callers| && w.callers[i].Waiting? then
        w.(callers := w.callers[i := Returned(w.callers[i].key, Cancelled)])
      else w
  }

  function Run(w: World, steps: seq<Step>): World
    decreases |steps|
  {
    if steps == [] then w else Run(Next(w, steps[0]), steps[1..])
  }

  const START := World(Cache(map[], map[], []), [], [])

  // ---- what holds in every reachable world

  /** Some finished upload for this key stored this file, and it was fresh until expiresAt. */
  ghost predicate Backed(w: World, key: string, result: File, expiresAt: int) {
    exists k :: 0 <= k < |w.log| && w.log[k].key == key && Storable(w.log[k].outcome)
      && w.log[k].outcome.result == Some(result) && w.log[k].at + TTL == expiresAt
  }

  /** A call is open and in flight under its key, or closed once with its outcome. */
  ghost predicate CallOk(w: World, c: nat)
    requires c < |w.cache.calls|
  {
    var call := w.cache.calls[c];
    if call.closings == 0 then
      call.outcome.None? && call.key in w.cache.inflight && w.cache.inflight[call.key] == c
    else call.closings == 1 && call.outcome.Some?
  }

  ghost predicate CallerOk(w: World, caller: Caller) {
    match caller
    case Leading(key, c) => c < |w.cache.calls| && w.cache.calls[c].key == key && w.cache.calls[c].closings == 0
    case Waiting(key, c) => c < |w.cache.calls| && w.cache.calls[c].key == key
    case Returned(key, Cached(result, now)) => exists e :: now < e && Backed(w, key, result, e)
    case Returned(key, Uploaded(c, outcome)) =>
      c < |w.cache.calls| && w.cache.calls[c].key == key && w.cache.calls[c].closings == 1
      && w.cache.calls[c].outcome == Some(outcome)
    case Returned(_, Cancelled) => true
  }

  ghost predicate HasLeader(w: World, c: nat) {
    exists i :: 0 <= i < |w.callers| && w.callers[i].Leading? && w.callers[i].call == c
  }

  ghost predicate Inv(w: World) {
    && (forall c :: 0 <= c < |w.cache.calls| ==> CallOk(w, c))
    && (forall key :: key in w.cache.inflight ==>
          var c := w.cache.inflight[key];
          c < |w.cache.calls| && w.cache.calls[c].key == key && w.cache.calls[c].closings == 0)
    && (forall key :: key in w.cache.entries ==>
      Backed(w, key, w.cache.entries[key].result, w.cache.entries[key].expiresAt))
    && (forall i :: 0 <= i < |w.callers| ==> CallerOk(w, w.callers[i]))
    // an open call has a leader, and only one
    && (forall c :: 0 <= c < |w.cache.calls| && w.cache.calls[c].closings == 0 ==> HasLeader(w, c))
    && (forall i, j :: 0 <= i < j < |w.callers| && w.callers[i].Leading? && w.callers[j].Leading? ==>
          w.callers[i].call != w.callers[j].call)
  }

  /** A log that only grows backs whatever it backed. */
  lemma BackedLater(w: World, w': World, key: string, result: File, e: int)
    requires Backed(w, key, result, e) && w.log <= w'.log
    ensures Backed(w', key, result, e)
  {
    var k :| 0 <= k < |w.log| && w.log[k].key == key && Storable(w.log[k].outcome)
      && w.log[k].outcome.result == Some(result) && w.log[k].at + TTL == e;
    assert w'.log[k] == w.log[k];
  }

  lemma CallerLater(w: World, w': World, caller: Caller)
    requires CallerOk(w, caller) && w.log <= w'.log && |w.cache.calls| <= |w'.cache.calls|
    requires forall c :: 0 <= c < |w.cache.calls| ==> w'.cache.calls[c].key == w.cache.calls[c].key
    requires forall c :: 0 <= c < |w.cache.calls| && w.cache.calls[c].closings > 0 ==>
      w'.cache.calls[c] == w.cache.calls[c]
    requires caller.Leading? ==> w'.cache.calls[caller.call].closings == 0
    ensures CallerOk(w', caller)
  {
    if caller.Returned? && caller.answer.Cached? {
      var e :| caller.answer.now < e && Backed(w, caller.key, caller.answer.result, e);
      BackedLater(w, w', caller.key, caller.answer.result, e);
    }
  }

  lemma ArriveKeeps(w: World, now: int, rawKey: string)
    requires Inv(w)
    ensures Inv(Next(w, Arrive(now, rawKey)))
  {
    var key := Trim(rawKey);
    if key != "" {
      var (cache, ticket) := Entered(w.cache, now, key);
      OldCallersKept(w, Next(w, Arrive(now, rawKey)));
      NewCaller(w, now, key);
      if ticket.Lead? {
        LeadKeeps(w, key, Next(w, Arrive(now, rawKey)));
      } else {
        SettledKeeps(w, Next(w, Arrive(now, rawKey)));
      }
    }
  }

  /** A caller that joins or is served leaves the calls alone. */
  lemma SettledKeeps(w: World, w': World)
    requires Inv(w) && w.callers < w'.callers && |w'.callers| == |w.callers| + 1 && w'.log == w.log
    requires w'.cache.calls == w.cache.calls && w'.cache.inflight == w.cache.inflight
    requires w'.cache.entries.Keys <= w.cache.entries.Keys
    requires forall k :: k in w'.cache.entries ==> w'.cache.entries[k] == w.cache.entries[k]
    requires forall k :: k in w.cache.entries ==> Backed(w', k, w.cache.entries[k].result, w.cache.entries[k].expiresAt)
    requires forall i :: 0 <= i < |w'.callers| ==> CallerOk(w', w'.callers[i])
    requires !w'.callers[|w.callers|].Leading?
    ensures Inv(w')
  {
    forall c | 0 <= c < |w.cache.calls| ensures CallOk(w', c) {
      assert CallOk(w, c);
    }
    forall c | 0 <= c < |w.cache.calls| && w.cache.calls[c].closings == 0 ensures HasLeader(w', c) {
      LeaderKept(w, w', c);
    }
  }

  lemma LeadKeeps(w: World, key: string, w': World)
    requires Inv(w) && key !in w.cache.inflight
    requires w'.callers == w.callers + [Leading(key, |w.cache.calls|)] && w'.log == w.log
    requires w'.cache == Cache(w.cache.entries - {key}, w.cache.inflight[key := |w.cache.calls|],
                               w.cache.calls + [Call(key, None, 0)])
    requires forall k :: k in w.cache.entries ==> Backed(w', k, w.cache.entries[k].result, w.cache.entries[k].expiresAt)
    requires forall i :: 0 <= i < |w'.callers| ==> CallerOk(w', w'.callers[i])
    ensures Inv(w')
  {
    var n := |w.cache.calls|;
    forall c | 0 <= c < n ensures CallOk(w', c) {
      assert CallOk(w, c);
    }
    forall c | 0 <= c <= n && w'.cache.calls[c].closings == 0 ensures HasLeader(w', c) {
      if c < n {
        LeaderKept(w, w', c);
      } else {
        assert w'.callers[|w.callers|].Leading? && w'.callers[|w.callers|].call == c;
      }
    }
    forall i | 0 <= i < |w.callers| && w.callers[i].Leading? ensures w.callers[i].call < n {
      assert CallerOk(w, w.callers[i]);
    }
  }

  lemma LeaderKept(w: World, w': World, c: nat)
    requires HasLeader(w, c) && w.callers <= w'.callers
    ensures HasLeader(w', c)
  {
    var i :| 0 <= i < |w.callers| && w.callers[i].Leading? && w.callers[i].call == c;
    assert w'.callers[i] == w.callers[i];
  }

  lemma OldCallersKept(w: World, w': World)
    requires Inv(w) && w.log <= w'.log && w.callers <= w'.callers && w.cache.calls <= w'.cache.calls
    ensures forall i :: 0 <= i < |w.callers| ==> CallerOk(w', w'.callers[i])
    ensures forall k :: k in w.cache.entries ==> Backed(w', k, w.cache.entries[k].result, w.cache.entries[k].expiresAt)
  {
    forall i | 0 <= i < |w.callers| ensures CallerOk(w', w'.callers[i]) {
      CallerLater(w, w', w.callers[i]);
    }
    forall k | k in w.cache.entries ensures Backed(w', k, w.cache.entries[k].result, w.cache.entries[k].expiresAt) {
      BackedLater(w, w', k, w.cache.entries[k].result, w.cache.entries[k].expiresAt);
    }
  }

  lemma NewCaller(w: World, now: int, key: string)
    requires Inv(w)
    ensures var (cache, ticket) := Entered(w.cache, now, key);
      var caller := Arrived(key, now, ticket);
      CallerOk(World(cache, w.callers + [caller], w.log), caller)
  {
    var (cache, ticket) := Entered(w.cache, now, key);
    if ticket.Hit? {
      BackedLater(w, World(cache, w.callers + [Arrived(key, now, ticket)], w.log),
                  key, ticket.result, w.cache.entries[key].expiresAt);
    }
  }

  lemma CompleteKeeps(w: World, i: nat, outcome: Outcome, now: int)
    requires Inv(w) && i < |w.callers| && w.callers[i].Leading?
    ensures Inv(Next(w, Complete(i, outcome, now)))
  {
    assert CallerOk(w, w.callers[i]);
    var w' := Next(w, Complete(i, outcome, now));
    var key, call := w.callers[i].key, w.callers[i].call;
    assert CallOk(w, call);
    forall j | 0 <= j < |w.callers| ensures CallerOk(w', w'.callers[j]) {
      if j != i {
        CallerLater(w, w', w.callers[j]);
      }
    }
    forall k | k in w'.cache.entries
      ensures Backed(w', k, w'.cache.entries[k].result, w'.cache.entries[k].expiresAt)
    {
      if Storable(outcome) && k == key {
        assert w'.log[|w.log|] == Record(key, outcome, now);
      } else {
        BackedLater(w, w', k, w.cache.entries[k].result, w.cache.entries[k].expiresAt);
      }
    }
    forall c | 0 <= c < |w'.cache.calls| ensures CallOk(w', c) {
      assert CallOk(w, c);
    }
    forall c | 0 <= c < |w'.cache.calls| && w'.cache.calls[c].closings == 0 ensures HasLeader(w', c) {
      var j :| 0 <= j < |w.callers| && w.callers[j].Leading? && w.callers[j].call == c;
      assert w'.callers[j] == w.callers[j];
    }
  }

  lemma LeaveKeeps(w: World, i: nat, w': World)
    requires Inv(w) && i < |w.callers| && w.callers[i].Waiting?
    requires w'.cache == w.cache && w'.log == w.log && |w'.callers| == |w.callers|
    requires forall j :: 0 <= j < |w.callers| && j != i ==> w'.callers[j] == w.callers[j]
    requires w'.callers[i].Returned? && CallerOk(w, w'.callers[i])
    ensures Inv(w')
  {
    forall j | 0 <= j < |w.callers| ensures CallerOk(w', w'.callers[j]) {
      CallerLater(w, w', w'.callers[j]);
    }
    forall k | k in w.cache.entries ensures Backed(w', k, w.cache.entries[k].result, w.cache.entries[k].expiresAt) {
      BackedLater(w, w', k, w.cache.entries[k].result, w.cache.entries[k].expiresAt);
    }
    forall c | 0 <= c < |w.cache.calls| ensures CallOk(w', c) {
      assert CallOk(w, c);
    }
    forall c | 0 <= c < |w.cache.calls| && w.cache.calls[c].closings == 0 ensures HasLeader(w', c) {
      var j :| 0 <= j < |w.callers| && w.callers[j].Leading? && w.callers[j].call == c;
      assert w'.callers[j] == w.callers[j];
    }
  }

  lemma StepKeeps(w: World, step: Step)
    requires Inv(w)
    ensures Inv(Next(w, step))
  {
    match step
    case Arrive(now, key) => ArriveKeeps(w, now, key);
    case Complete(i, outcome, now) =>
      if i < |w.callers| && w.callers[i].Leading? {
        CompleteKeeps(w, i, outcome, now);
      }
    case Wake(i) =>
      if i < |w.callers| && w.callers[i].Waiting? && Next(w, step) != w {
        assert CallerOk(w, w.callers[i]) && CallOk(w, w.callers[i].call);
        LeaveKeeps(w, i, Next(w, step));
      }
    case GiveUp(i) =>
      if i < |w.callers| && w.callers[i].Waiting? {
        LeaveKeeps(w, i, Next(w, step));
      }
  }

  lemma {:induction false} RunKeeps(w: World, steps: seq<Step>)
    requires Inv(w)
    ensures Inv(Run(w, steps))
    decreases |steps|
  {
    if steps != [] {
      StepKeeps(w, steps[0]);
      RunKeeps(Next(w, steps[0]), steps[1..]);
    }
  }

  // ---- the promises, in every reachable world

  /** At most one upload runs per key. */
  lemma SingleFlight(steps: seq<Step>, i: nat, j: nat)
    requires var w := Run(START, steps);
      i < |w.callers| && j < |w.callers| && w.callers[i].Leading? && w.callers[j].Leading?
      && w.callers[i].key == w.callers[j].key
    ensures i == j
  {
    RunKeeps(START, steps);
    var w := Run(START, steps);
    assert CallerOk(w, w.callers[i]) && CallerOk(w, w.callers[j]);
    assert CallOk(w, w.callers[i].call) && CallOk(w, w.callers[j].call);
  }

  /** A call's channel is closed at most once, exactly when its outcome is there, and until then some
      caller is still uploading for it. */
  lemma ClosedOnce(steps: seq<Step>, c: nat)
    requires c < |Run(START, steps).cache.calls|
    ensures var w := Run(START, steps);
      && w.cache.calls[c].closings <= 1
      && (w.cache.calls[c].closings == 1 <==> w.cache.calls[c].outcome.Some?)
      && (w.cache.calls[c].closings == 0 ==> HasLeader(w, c))
  {
    RunKeeps(START, steps);
    assert CallOk(Run(START, steps), c);
  }

  /** Callers that shared a call without giving up returned the same outcome, and for the same key. */
  lemma WaitersGetTheLeadersOutcome(steps: seq<Step>, i: nat, j: nat)
    requires var w := Run(START, steps);
      && i < |w.callers| && j < |w.callers| && w.callers[i].Returned? && w.callers[j].Returned?
      && w.callers[i].answer.Uploaded? && w.callers[j].answer.Uploaded?
      && w.callers[i].answer.call == w.callers[j].answer.call
    ensures var w := Run(START, steps);
      w.callers[i].key == w.callers[j].key && w.callers[i].answer.outcome == w.callers[j].answer.outcome
  {
    RunKeeps(START, steps);
    var w := Run(START, steps);
    assert CallerOk(w, w.callers[i]) && CallerOk(w, w.callers[j]);
  }

  /** A cache hit is the file of a successful upload for that very key, not older than the time to live. */
  lemma HitsAreBacked(steps: seq<Step>, i: nat)
    requires var w := Run(START, steps);
      i < |w.callers| && w.callers[i].Returned? && w.callers[i].answer.Cached?
    ensures var w := Run(START, steps);
      exists k :: 0 <= k < |w.log| && w.log[k].key == w.callers[i].key && Storable(w.log[k].outcome)
        && w.log[k].outcome.result == Some(w.callers[i].answer.result)
        && w.callers[i].answer.now < w.log[k].at + TTL
  {
    RunKeeps(START, steps);
    var w := Run(START, steps);
    assert CallerOk(w, w.callers[i]);
  }
}
