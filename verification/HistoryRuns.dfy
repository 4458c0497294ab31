/** Whole runs of the history store: any operations, with any file operation failing. */
module HistoryRuns {
  import opened Text
  import opened History
  import opened HistoryStore
  import S = Sets

  datatype Op =
    | DoStart(start: StartParams, id: string)
    | DoUpdate(name: string, update: UpdateParams)
    | DoDelete(name: string)
    | DoClear
    | DoSetLimit(limit: int)

  /** One call: when it reads the clock, in milliseconds and in nanoseconds, and how many of its file
      operations succeed before one fails. */
  datatype Call = Call(op: Op, now: int, clock: int, budget: nat)

  datatype Snapshot = Snapshot(
    limit: int, revision: int, items: seq<Summary>, details: map<string, Entry>, dirty: set<string>,
    deleted: set<string>, files: map<string, Entry>, index: IndexFile)

  ghost function Snap(s: Store): Snapshot
    reads s
  {
    Snapshot(s.limit, s.revision, s.items, s.details, s.dirty, s.deleted, s.files, s.index)
  }

  ghost predicate SnapOk(s: Snapshot) {
    && IsAllowedLimit(s.limit) && Sound(s.details, s.revision) && Pending(s.files, s.details, s.dirty, s.deleted)
    && Ranked(s.items) && Lists(s.items, s.details) && (s.limit > 0 ==> |s.details| <= s.limit)
  }

  /** A started entry gets a fresh identifier. */
  predicate CallOk(call: Call) {
    call.op.DoStart? ==> Trim(call.op.id) == call.op.id && call.op.id != ""
  }

  /** The details before the limit is applied. */
  function Wanted(s: Snapshot, call: Call, revision: int): map<string, Entry> {
    match call.op
    case DoStart(p, id) => if s.limit == 0 then s.details else s.details[id := Started(p, id, revision, call.now)]
    case DoUpdate(name, p) =>
      if Trim(name) in s.details then s.details[Trim(name) := Updated(s.details[Trim(name)], p, revision, call.now)]
      else s.details
    case DoDelete(name) => s.details - {Trim(name)}
    case DoClear => map[]
    case DoSetLimit(_) => s.details
  }

  /** The call is refused and changes nothing. */
  predicate Refused(s: Snapshot, call: Call) {
    match call.op
    case DoStart(_, _) => s.limit == 0
    case DoUpdate(name, _) => Trim(name) !in s.details
    case DoDelete(name) => Trim(name) !in s.details
    case DoClear => false
    case DoSetLimit(limit) => !IsAllowedLimit(limit)
  }

  /** The details that a call files, removals apart. */
  function Touched(call: Call): set<string> {
    match call.op
    case DoStart(_, id) => {id}
    case DoUpdate(name, _) => {Trim(name)}
    case _ => {}
  }

  function Writes(s: Snapshot, call: Call, s': Snapshot): set<string> {
    ToWrite(s.dirty, Touched(call), s'.details.Keys)
  }

  function Removals(s: Snapshot, call: Call, s': Snapshot): set<string> {
    ToRemove(s.deleted, Touched(call), s.details.Keys, s'.details.Keys)
  }

  /** Disk and memory are the same. */
  ghost predicate Saved(s: Snapshot) {
    && s.files == s.details && s.dirty == {} && s.deleted == {}
    && s.index == Index(File(FILE_VERSION, s.limit, s.revision, s.items))
  }

  /** What one call does. Its budget decides whether all is saved; what a call that runs out of budget does to
      the files is within SnapOk. */
  ghost predicate Next(s: Snapshot, call: Call, s': Snapshot) {
    if Refused(s, call) then s' == s
    else
      && SnapOk(s')
      && s'.revision == NextRevision(s.revision, call.clock)
      && s'.limit == (if call.op.DoSetLimit? then call.op.limit else s.limit)
      && Rebuilt(s'.items, s'.details, Wanted(s, call, s'.revision), s'.limit)
      && Marked(Saves(s, call, s'), call.budget, Writes(s, call, s'), Removals(s, call, s'), s'.dirty, s'.deleted)
      && (Saves(s, call, s') ==> Saved(s'))
  }

  /** The budget covers two operations for the index and one for each detail to write or remove. */
  predicate Saves(s: Snapshot, call: Call, s': Snapshot) {
    call.budget >= 2 + |Writes(s, call, s')| + |Removals(s, call, s')|
  }

  lemma ValidIsOk(s: Store)
    requires s.Valid()
    ensures SnapOk(Snap(s))
  {
    hide Ranked, Lists, Sound, Pending;
  }

  /** What an operation says about its marks, as the run relation puts it. */
  lemma MarksAre(before: Snapshot, call: Call, s: Store, saved: bool)
    requires Marked(saved, call.budget, Writes(before, call, Snap(s)), Removals(before, call, Snap(s)),
                    s.dirty, s.deleted)
    requires saved ==> s.files == s.details && s.index == Index(s.State())
    ensures Marked(Saves(before, call, Snap(s)), call.budget, Writes(before, call, Snap(s)),
                   Removals(before, call, Snap(s)), s.dirty, s.deleted)
    ensures Saves(before, call, Snap(s)) ==> Saved(Snap(s))
  {
    hide ToWrite, ToRemove, Touched;
  }

  method ApplyStart(s: Store, call: Call)
    requires s.Valid() && CallOk(call) && call.op.DoStart?
    modifies s
    ensures s.Valid() && Next(old(Snap(s)), call, Snap(s))
  {
    hide SnapOk, Ranked, Lists, Sound, Pending, Rebuilt, NextRevision, Marked, ToWrite, ToRemove, Saves, Saved;
    var r, saved := s.Start(call.op.start, call.op.id, call.now, call.clock, call.budget, s.revision);
    ValidIsOk(s);
    if old(s.limit) != 0 {
      MarksAre(old(Snap(s)), call, s, saved);
    }
  }

  method ApplyUpdate(s: Store, call: Call)
    requires s.Valid() && call.op.DoUpdate?
    modifies s
    ensures s.Valid() && Next(old(Snap(s)), call, Snap(s))
  {
    hide SnapOk, Ranked, Lists, Sound, Pending, Rebuilt, NextRevision, Updated, Marked, ToWrite, ToRemove, Saves, Saved;
    var r := s.Update(call.op.name, call.op.update, call.now, call.clock, call.budget, s.revision);
    ValidIsOk(s);
    if Trim(call.op.name) in old(s.details) {
      MarksAre(old(Snap(s)), call, s, r.Ok?);
    }
  }

  method ApplyDelete(s: Store, call: Call)
    requires s.Valid() && call.op.DoDelete?
    modifies s
    ensures s.Valid() && Next(old(Snap(s)), call, Snap(s))
  {
    hide SnapOk, Ranked, Lists, Sound, Pending, Rebuilt, NextRevision, Marked, ToWrite, ToRemove, Saves, Saved;
    var r := s.Delete(call.op.name, call.clock, call.budget, s.revision);
    WithinRebuilt(s.items, s.details, s.limit);
    ValidIsOk(s);
    if Trim(call.op.name) in old(s.details) {
      MarksAre(old(Snap(s)), call, s, r.Ok?);
    }
  }

  method ApplyClear(s: Store, call: Call)
    requires s.Valid() && call.op.DoClear?
    modifies s
    ensures s.Valid() && Next(old(Snap(s)), call, Snap(s))
  {
    hide SnapOk, Ranked, Lists, Sound, Pending, Rebuilt, NextRevision, Marked, ToWrite, ToRemove, Saves, Saved;
    var r := s.Clear(call.clock, call.budget, s.revision);
    WithinRebuilt(s.items, s.details, s.limit);
    ValidIsOk(s);
    MarksAre(old(Snap(s)), call, s, r.Ok?);
  }

  method ApplyLimit(s: Store, call: Call)
    requires s.Valid() && call.op.DoSetLimit?
    modifies s
    ensures s.Valid() && Next(old(Snap(s)), call, Snap(s))
  {
    hide SnapOk, Ranked, Lists, Sound, Pending, Rebuilt, NextRevision, Marked, ToWrite, ToRemove, Saves, Saved;
    var r := s.SetLimit(call.op.limit, call.clock, call.budget, s.revision);
    ValidIsOk(s);
    if IsAllowedLimit(call.op.limit) {
      MarksAre(old(Snap(s)), call, s, r.Ok?);
    }
  }

  /** Every call, on every valid store, is such a step. */
  method Apply(s: Store, call: Call)
    requires s.Valid() && CallOk(call)
    modifies s
    ensures s.Valid() && SnapOk(Snap(s)) && Next(old(Snap(s)), call, Snap(s))
  {
    hide Next, SnapOk, Ranked, Lists, Sound, Pending;
    match call.op {
      case DoStart(_, _) => ApplyStart(s, call);
      case DoUpdate(_, _) => ApplyUpdate(s, call);
      case DoDelete(_) => ApplyDelete(s, call);
      case DoClear => ApplyClear(s, call);
      case DoSetLimit(_) => ApplyLimit(s, call);
    }
    ValidIsOk(s);
  }

  lemma WithinRebuilt(items: seq<Summary>, details: map<string, Entry>, limit: int)
    requires limit >= 0 && Ranked(items) && Lists(items, details) && (limit > 0 ==> |details| <= limit)
    ensures Rebuilt(items, details, details, limit)
  {
    WholeIsRebuilt(items, details, limit);
  }

  // ---- runs

  ghost predicate IsRun(states: seq<Snapshot>, calls: seq<Call>) {
    && |states| == |calls| + 1
    && forall i :: 0 <= i < |calls| ==> CallOk(calls[i]) && Next(states[i], calls[i], states[i + 1])
  }

  lemma {:induction false} EveryStateOk(states: seq<Snapshot>, calls: seq<Call>, i: nat)
    requires IsRun(states, calls) && SnapOk(states[0]) && i < |states|
    ensures SnapOk(states[i]) && states[0].revision <= states[i].revision
    decreases i
  {
    hide SnapOk, Rebuilt, Refused, Wanted;
    if i > 0 {
      EveryStateOk(states, calls, i - 1);
      assert Next(states[i - 1], calls[i - 1], states[i]);
    }
  }

  lemma WithinBudget(s: Snapshot, call: Call, s': Snapshot)
    requires SnapOk(s) && Next(s, call, s') && !Refused(s, call)
    ensures Saves(s, call, s') ==> Saved(s')
    ensures |Writes(s, call, s')| + |Removals(s, call, s')| <= |s.details| + |s.deleted| + 1
  {
    hide Refused, Rebuilt, Wanted, SnapOk;
    AfterWithin(s, call, s');
    BothWithin(s.details.Keys, s.dirty, s.deleted, Touched(call), s'.details.Keys);
    assert |s.details| == |s.details.Keys|;
  }

  lemma AfterWithin(s: Snapshot, call: Call, s': Snapshot)
    requires SnapOk(s) && Next(s, call, s') && !Refused(s, call)
    ensures s.dirty <= s.details.Keys && s'.details.Keys <= s.details.Keys + Touched(call) && |Touched(call)| <= 1
  {
    hide Ranked, Lists, Sound, Marked, Saves, Started, Updated;
  }

  lemma BothWithin(before: set<string>, dirty: set<string>, deleted: set<string>, touched: set<string>,
                   after: set<string>)
    requires dirty <= before && after <= before + touched && |touched| <= 1
    ensures |ToWrite(dirty, touched, after)| + |ToRemove(deleted, touched, before, after)|
         <= |before| + |deleted| + 1
  {
    var write, rest := ToWrite(dirty, touched, after), before + touched - after;
    S.SubsetSize(write, after);
    S.SubsetSize(deleted - touched, deleted);
    assert |after + rest| == |after| + |rest|;
    assert after + rest == before + touched;
    assert |(deleted - touched) + rest| <= |deleted - touched| + |rest|;
    assert |before + touched| <= |before| + |touched|;
  }

  lemma OkMeans(s: Snapshot)
    requires SnapOk(s)
    ensures |s.items| == |s.details| && s.limit >= 0 && (s.limit > 0 ==> |s.items| <= s.limit)
    ensures s.dirty !! s.deleted && s.dirty <= s.details.Keys && s.deleted !! s.details.Keys
    ensures s.dirty == {} && s.deleted == {} ==> s.files == s.details
  {
    AsManyAsDetails(s.items, s.details);
    hide Ranked, Lists, Sound;
  }

  /** In every run, whatever file operations fail, the index lists the retained details once each in strict
      order and within the limit, revisions grow, and the file of each entry is right unless it is still to be
      written or removed. A call whose budget covers what is to be written and removed saves everything; three
      operations more than there are details and left-over removals are always enough. */
  lemma RunKeeps(states: seq<Snapshot>, calls: seq<Call>, i: nat)
    requires IsRun(states, calls) && SnapOk(states[0]) && i < |states|
    ensures var s := states[i];
      && Ranked(s.items) && Lists(s.items, s.details) && |s.items| == |s.details|
      && (s.limit > 0 ==> |s.items| <= s.limit)
      && Pending(s.files, s.details, s.dirty, s.deleted) && s.dirty !! s.deleted
      && (s.dirty == {} && s.deleted == {} ==> s.files == s.details)
    ensures i < |calls| && !Refused(states[i], calls[i]) ==>
      && states[i].revision < states[i + 1].revision
      && (Saves(states[i], calls[i], states[i + 1]) ==> Saved(states[i + 1]))
      && (calls[i].budget >= 3 + |states[i].details| + |states[i].deleted| ==> Saved(states[i + 1]))
  {
    hide Next, Ranked, Lists, Sound, Pending, Saved;
    EveryStateOk(states, calls, i);
    OkMeans(states[i]);
    if i < |calls| {
      RevisionGrows(states[i], calls[i], states[i + 1]);
      if !Refused(states[i], calls[i]) {
        WithinBudget(states[i], calls[i], states[i + 1]);
      }
    }
  }

  lemma RevisionGrows(s: Snapshot, call: Call, s': Snapshot)
    requires Next(s, call, s')
    ensures !Refused(s, call) ==> s.revision < s'.revision
  {
    hide SnapOk, Rebuilt, Refused, Wanted;
  }

  /** The clock does not go back from call to call. */
  predicate ClockAdvances(calls: seq<Call>) {
    forall i, j :: 0 <= i <= j < |calls| ==> calls[i].now <= calls[j].now
  }

  predicate CreatedBy(details: map<string, Entry>, now: int) {
    forall id :: id in details ==> details[id].createdAt <= now
  }

  lemma StepCreated(s: Snapshot, call: Call, s': Snapshot, now: int)
    requires Next(s, call, s') && CreatedBy(s.details, now) && call.now <= now
    ensures CreatedBy(s'.details, now)
  {
    if !Refused(s, call) {
      StepRebuilds(s, call, s');
      WantedCreated(s, call, s'.revision, now);
      hide *;
      KeptCreated(s'.items, s'.details, Wanted(s, call, s'.revision), s'.limit, now);
    }
  }

  lemma StepRebuilds(s: Snapshot, call: Call, s': Snapshot)
    requires Next(s, call, s') && !Refused(s, call)
    ensures s'.limit >= 0 && Rebuilt(s'.items, s'.details, Wanted(s, call, s'.revision), s'.limit)
  {
    hide Refused, Wanted, Rebuilt, Ranked, Lists, Sound, Pending, Marked, Saves, Saved, Writes, Removals;
  }

  lemma WantedCreated(s: Snapshot, call: Call, revision: int, now: int)
    requires CreatedBy(s.details, now) && call.now <= now
    ensures CreatedBy(Wanted(s, call, revision), now)
  {
  }

  lemma KeptCreated(items: seq<Summary>, details: map<string, Entry>, all: map<string, Entry>, limit: nat, now: int)
    requires Rebuilt(items, details, all, limit) && CreatedBy(all, now)
    ensures CreatedBy(details, now)
  {
    forall id | id in details ensures details[id].createdAt <= now {
      KeptValue(items, details, all, limit, id);
    }
  }

  lemma {:induction false} AllCreated(states: seq<Snapshot>, calls: seq<Call>, i: nat, now: int)
    requires IsRun(states, calls) && i < |states| && CreatedBy(states[0].details, now)
    requires forall j :: 0 <= j < i ==> calls[j].now <= now
    ensures CreatedBy(states[i].details, now)
    decreases i
  {
    hide Next, CreatedBy;
    if i > 0 {
      AllCreated(states, calls, i - 1, now);
      StepCreated(states[i - 1], calls[i - 1], states[i], now);
    }
  }

  lemma StartKept(s: Snapshot, call: Call, s': Snapshot)
    requires SnapOk(s) && Next(s, call, s') && call.op.DoStart? && s.limit > 0 && CreatedBy(s.details, call.now)
    ensures call.op.id in s'.details && s'.items != [] && s'.items[0].id == call.op.id
  {
    hide *;
    StartIs(s, call, s');
    RevisionsBelow(s, call.op.id, s'.revision);
    CreatedMeans(s.details, call.now);
    FreshEntry(call.op.start, call.op.id, s'.revision, call.now);
    FreshOver(s'.items, s'.details, s.details, s.limit, Started(call.op.start, call.op.id, s'.revision, call.now));
  }

  lemma FreshOver(items: seq<Summary>, details: map<string, Entry>, before: map<string, Entry>, limit: nat, e: Entry)
    requires Rebuilt(items, details, before[e.id := e], limit) && limit > 0
    requires forall id :: id in before && id != e.id ==> before[id].revision < e.revision
    requires forall id :: id in before ==> before[id].createdAt <= e.createdAt
    ensures e.id in details && items != [] && items[0].id == e.id
  {
    hide *;
    FreshKept(items, details, before[e.id := e], limit, e);
  }

  /** While the clock does not go back, every entry is kept when it is started, and ranks first. */
  lemma StartedAlwaysKept(states: seq<Snapshot>, calls: seq<Call>, i: nat)
    requires IsRun(states, calls) && SnapOk(states[0]) && ClockAdvances(calls) && i < |calls|
    requires CreatedBy(states[0].details, calls[0].now) && calls[i].op.DoStart? && states[i].limit > 0
    ensures calls[i].op.id in states[i + 1].details
    ensures states[i + 1].items != [] && states[i + 1].items[0].id == calls[i].op.id
  {
    hide SnapOk, Next;
    assert calls[0].now <= calls[i].now;
    EveryStateOk(states, calls, i);
    AllCreated(states, calls, i, calls[i].now);
    StartKept(states[i], calls[i], states[i + 1]);
  }

  lemma CreatedMeans(details: map<string, Entry>, now: int)
    requires CreatedBy(details, now)
    ensures forall id :: id in details ==> details[id].createdAt <= now
  {
  }

  /** The step of a start that is not refused. */
  lemma StartIs(s: Snapshot, call: Call, s': Snapshot)
    requires Next(s, call, s') && call.op.DoStart? && s.limit > 0
    ensures s'.limit == s.limit && s'.revision > s.revision
    ensures var e := Started(call.op.start, call.op.id, s'.revision, call.now);
      Rebuilt(s'.items, s'.details, s.details[e.id := e], s.limit)
  {
    hide SnapOk, Rebuilt;
  }

  lemma RevisionsBelow(s: Snapshot, id: string, revision: int)
    requires SnapOk(s) && revision > s.revision
    ensures forall x :: x in s.details && x != id ==> s.details[x].revision < revision
  {
    hide Ranked, Lists, Pending;
  }

  // ---- a clock that goes back

  /** The names x, xx, xxx and so on. */
  function Name(k: nat): (name: string)
    ensures |name| == k
  {
    seq(k, _ => 'x')
  }

  function Names(n: nat): set<string> {
    if n == 0 then {} else Names(n - 1) + {Name(n)}
  }

  lemma {:induction false} NamesCount(n: nat)
    ensures |Names(n)| == n && forall name :: name in Names(n) ==> 1 <= |name| <= n
  {
    if n > 0 {
      NamesCount(n - 1);
    }
  }

  const BLANK := StartParams("", "", "", "", false, "", [], "", "")

  lemma OneMoreStarted(s: Snapshot, call: Call, s': Snapshot, k: nat)
    requires s.limit == 20 && s.details.Keys == Names(k) &&
      (forall id :: id in s.details ==> s.details[id].createdAt == 5)
    requires k < 20 && call.op == DoStart(BLANK, Name(k + 1)) && call.now == 5 && Next(s, call, s')
    ensures s'.limit == 20 && s'.details.Keys == Names(k + 1)
    ensures forall id :: id in s'.details ==> s'.details[id].createdAt == 5
  {
    hide Next, Rebuilt, Names, Name, Started, SnapOk;
    StartIs(s, call, s');
    var e := Started(BLANK, Name(k + 1), s'.revision, 5);
    assert e.id == Name(k + 1) && e.createdAt == 5 by { FreshEntry(BLANK, Name(k + 1), s'.revision, 5); }
    var all := s.details[e.id := e];
    OneMoreName(s.details, k, e);
    RebuiltWithin(s'.items, s'.details, all, 20);
  }

  lemma OneMoreName(details: map<string, Entry>, k: nat, e: Entry)
    requires details.Keys == Names(k) && (forall id :: id in details ==> details[id].createdAt == 5)
    requires e.id == Name(k + 1) && e.createdAt == 5
    ensures var all := details[e.id := e];
      all.Keys == Names(k + 1) && |all| == k + 1 && forall id :: id in all ==> all[id].createdAt == 5
  {
    AllNames(k);
    NamesCount(k + 1);
    hide *;
    OneMoreAt(details, Names(k), e);
  }

  lemma OneMoreAt(details: map<string, Entry>, names: set<string>, e: Entry)
    requires details.Keys == names && (forall id :: id in details ==> details[id].createdAt == 5) && e.createdAt == 5
    ensures var all := details[e.id := e];
      && all.Keys == names + {e.id} && |all| == |names + {e.id}|
      && forall id :: id in all ==> all[id].createdAt == 5
  {
    var all := details[e.id := e];
    assert all.Keys == names + {e.id};
    assert |all| == |all.Keys|;
  }

  lemma AllNames(k: nat)
    ensures Names(k + 1) == Names(k) + {Name(k + 1)}
  {
  }

  lemma NamePlain(k: nat)
    requires k > 0
    ensures Trim(Name(k)) == Name(k) && Name(k) != ""
  {
    assert Name(k)[0] == 'x' && Name(k)[k - 1] == 'x';
  }

  /** Twenty entries are started in a fresh store at time 5, and then one at time 4: that call evicts the
      entry it starts, and returns an entry that is not there. */
  method StartAfterClockBack(budget: nat) returns (s: Store, r: Result<Entry>)
    ensures fresh(s) && s.Valid() && r.Ok? && r.value.id !in s.details && |s.details| == DEFAULT_LIMIT
  {
    hide SnapOk, Next, Ranked, Lists, Sound, Pending, Rebuilt, Names, Name, Wanted, Refused;
    s := new Store(budget);
    assert Names(0) == {} by { NamesCount(0); }
    for k := 0 to 20
      invariant fresh(s) && s.Valid() && s.limit == 20 && s.details.Keys == Names(k)
      invariant forall id :: id in s.details ==> s.details[id].createdAt == 5
    {
      NamePlain(k + 1);
      var call := Call(DoStart(BLANK, Name(k + 1)), 5, 0, budget);
      ghost var before := Snap(s);
      Apply(s, call);
      OneMoreStarted(before, call, Snap(s), k);
    }
    NewPlain();
    var saved;
    ghost var before := Snap(s);
    ValidIsOk(s);
    r, saved := s.Start(BLANK, "new", 4, 0, budget, s.revision);
    NamesCount(20);
    AllNamesPlain(20);
    assert Later(before.details, "new", 4) == Names(20);
    FreshEntry(BLANK, "new", s.revision, 4);
    FullAfter(s.items, s.details, before.details[r.value.id := r.value], 20);
  }

  lemma NewPlain()
    ensures Trim("new") == "new"
  {
  }

  lemma FullAfter(items: seq<Summary>, details: map<string, Entry>, all: map<string, Entry>, limit: nat)
    requires Rebuilt(items, details, all, limit) && 0 < limit < |all|
    ensures |details| == limit
  {
    AsManyAsDetails(items, details);
  }

  lemma {:induction false} AllNamesPlain(n: nat)
    ensures "new" !in Names(n)
  {
    if n > 0 {
      AllNamesPlain(n - 1);
      assert Name(n) != "new" by {
        if |Name(n)| == 3 {
          assert Name(n)[0] == 'x' && "new"[0] == 'n';
        }
      }
    }
  }
}
