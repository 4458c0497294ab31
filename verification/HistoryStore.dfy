/** internal/chathistory/store.go: the store, its index and its detail files, with writes that may fail. */
module HistoryStore {
  import opened Sets
  import opened Text
  import opened History

  datatype Result<T> = Ok(value: T) | Err(message: string)

  datatype StartParams = StartParams(
    callerID: string, accountID: string, surface: string, model: string, stream: bool, userInput: string,
    messages: seq<Message>, historyText: string, finalPrompt: string)

  datatype UpdateParams = UpdateParams(
    status: string, reasoning: string, content: string, error: string, statusCode: int, elapsedMs: int,
    finishReason: string, usage: Usage, completed: bool)

  function Started(p: StartParams, id: string, revision: int, now: int): Entry {
    Entry(id, revision, now, now, 0, "streaming", Trim(p.callerID), Trim(p.accountID), Trim(p.surface), Trim(p.model),
          p.stream, Trim(p.userInput), p.messages, p.historyText, Trim(p.finalPrompt), "", "", "", 0, 0, "", NoUsage)
  }

  function Updated(e: Entry, p: UpdateParams, revision: int, now: int): Entry {
    e.(revision := revision, updatedAt := now,
       status := if p.status != "" then p.status else e.status,
       reasoning := if p.reasoning != "" || e.reasoning == "" then p.reasoning else e.reasoning,
       content := if p.content != "" || e.content == "" then p.content else e.content,
       error := Trim(p.error), statusCode := p.statusCode, elapsedMs := p.elapsedMs,
       finishReason := Trim(p.finishReason),
       usage := if p.usage.NoUsage? then e.usage else p.usage,
       completedAt := if p.completed then now else e.completedAt)
  }

  function NextRevision(last: int, clock: int): (next: int)
    ensures next > last
  {
    if clock <= last then last + 1 else clock
  }

  datatype IndexFile = NoIndex | Index(file: File)

  /** Files and memory differ only at identifiers that are still to be written or removed. */
  ghost predicate Pending(files: map<string, Entry>, details: map<string, Entry>, dirty: set<string>,
    deleted: set<string>) {
    && dirty <= details.Keys && deleted !! details.Keys
    && (forall id :: id !in dirty && id !in deleted ==> (id in files <==> id in details))
    && (forall id :: id !in dirty && id in files && id in details ==> files[id] == details[id])
  }

  /** What a call leaves to write: details that were dirty or that it touched, and that are still there. */
  function ToWrite(dirty: set<string>, touched: set<string>, after: set<string>): set<string> {
    (dirty + touched) * after
  }

  /** What a call leaves to remove: what was left before, and the details it made disappear. */
  function ToRemove(deleted: set<string>, touched: set<string>, before: set<string>, after: set<string>): set<string> {
    (deleted - touched) + (before + touched - after)
  }

  /** Saving takes one file operation for each of them and two for the index; it clears the marks if it
      succeeds and leaves them otherwise. */
  ghost predicate Marked(saved: bool, budget: nat, write: set<string>, remove: set<string>, dirty: set<string>,
                         deleted: set<string>) {
    && (saved <==> budget >= 2 + |write| + |remove|)
    && dirty == (if saved then {} else write) && deleted == (if saved then {} else remove)
  }

  class Store {
    var limit: int
    var revision: int
    var items: seq<Summary>
    var details: map<string, Entry>
    var dirty: set<string>
    var deleted: set<string>
    /** The detail directory and the index file. */
    var files: map<string, Entry>
    var index: IndexFile

    /** No revision is above the bound. */
    ghost predicate Core(bound: int)
      reads this
    {
      IsAllowedLimit(limit) && Sound(details, bound) && Pending(files, details, dirty, deleted)
    }

    /** The index lists the details in order, within the limit. */
    ghost predicate Consistent(bound: int)
      reads this
    {
      Core(bound) && Ranked(items) && Lists(items, details) && (limit > 0 ==> |details| <= limit)
    }

    ghost predicate Valid()
      reads this
    {
      Consistent(revision)
    }

    function State(): File
      reads this
    {
      File(FILE_VERSION, limit, revision, items)
    }

    method MarkDetailDirty(name: string)
      modifies this`dirty, this`deleted
      ensures Trim(name) == "" ==> dirty == old(dirty) && deleted == old(deleted)
      ensures Trim(name) != "" ==> dirty == old(dirty) + {Trim(name)} && deleted == old(deleted) - {Trim(name)}
    {
      var id := Trim(name);
      if id == "" {
        return;
      }
      dirty, deleted := dirty + {id}, deleted - {id};
    }

    method MarkDetailDeleted(name: string)
      modifies this`dirty, this`deleted
      ensures Trim(name) == "" ==> dirty == old(dirty) && deleted == old(deleted)
      ensures Trim(name) != "" ==> dirty == old(dirty) - {Trim(name)} && deleted == old(deleted) + {Trim(name)}
    {
      var id := Trim(name);
      if id == "" {
        return;
      }
      dirty, deleted := dirty - {id}, deleted + {id};
    }

    method NextRevisionNumber(clock: int) returns (next: int)
      modifies this`revision
      ensures next == revision == NextRevision(old(revision), clock) && next > old(revision)
    {
      next := if clock <= revision then revision + 1 else clock;
      revision := next;
    }

    /** The summaries of all details, sorted. */
    method Summaries(ghost bound: int) returns (summaries: seq<Summary>)
      requires Sound(details, bound)
      ensures Ranked(summaries) && Lists(summaries, details)
    {
      hide Ranked, Lists, Insert, SummaryOf, Sound, Split;
      summaries := [];
      NothingListed();
      var all := details;
      var rest := all;
      ghost var done: map<string, Entry> := map[];
      SplitEnds(all);
      while rest.Keys != {}
        invariant Split(all, done, rest)
        invariant Ranked(summaries) && Lists(summaries, done)
        decreases |rest.Keys|
      {
        var id :| id in rest.Keys;
        SplitMoves(all, done, rest, id);
        InsertNext(summaries, done, all, id, bound);
        summaries := Insert(summaries, SummaryOf(all[id]));
        rest, done := rest - {id}, done[id := all[id]];
      }
      SplitIsWhole(all, done, rest);
    }

    /** Drop the details outside keep, to be removed from the directory later. */
    method Evict(keep: set<string>, ghost bound: int)
      requires Sound(details, bound) && Pending(files, details, dirty, deleted)
      modifies this`details, this`dirty, this`deleted
      ensures details == old(details) - (old(details).Keys - keep)
      ensures dirty == old(dirty) - (old(details).Keys - keep) && deleted == old(deleted) + (old(details).Keys - keep)
    {
      hide Pending, Evicting;
      ghost var all := details;
      var rest := details.Keys;
      EvictStarts(all, keep, dirty, deleted);
      while rest != {}
        invariant Evicting(all, keep, rest, old(dirty), old(deleted), details, dirty, deleted)
        decreases |rest|
      {
        var id :| id in rest;
        EvictStep(all, keep, rest, old(dirty), old(deleted), details, dirty, deleted, id, bound);
        if id !in keep {
          MarkDetailDeleted(id);
          details := details - {id};
        }
        rest := rest - {id};
      }
      EvictEnds(all, keep, old(dirty), old(deleted), details, dirty, deleted);
    }

    /** rebuildIndexLocked */
    method RebuildIndex(ghost bound: int)
      requires Sound(details, bound) && Pending(files, details, dirty, deleted)
      modifies this`limit, this`items, this`details, this`dirty, this`deleted
      ensures Consistent(bound) && limit == (if IsAllowedLimit(old(limit)) then old(limit) else DEFAULT_LIMIT)
      ensures Rebuilt(items, details, old(details), limit)
      ensures dirty == old(dirty) - (old(details).Keys - details.Keys)
      ensures deleted == old(deleted) + (old(details).Keys - details.Keys)
    {
      hide Ranked, Lists, SummaryOf, Ahead, Rebuilt, Pending, Sound;
      ghost var all := details;
      var summaries := Summaries(bound);
      AsManyAsDetails(summaries, all);
      NoneGone(all.Keys, dirty, deleted);
      if limit < 0 || !IsAllowedLimit(limit) {
        limit := DEFAULT_LIMIT;
      }
      if limit == 0 {
        WholeIsRebuilt(summaries, details, limit);
        items := summaries;
        return;
      }
      if |summaries| > limit {
        KeepTop(summaries, bound);
        summaries := summaries[..limit];
      } else {
        WholeIsRebuilt(summaries, details, limit);
      }
      items := summaries;
    }

    /** The eviction in rebuildIndexLocked. */
    method KeepTop(summaries: seq<Summary>, ghost bound: int)
      requires Sound(details, bound) && Pending(files, details, dirty, deleted)
      requires Ranked(summaries) && Lists(summaries, details) && 0 < limit < |summaries| == |details|
      modifies this`details, this`dirty, this`deleted
      ensures Sound(details, bound) && Pending(files, details, dirty, deleted) && |details| == limit
      ensures Ranked(summaries[..limit]) && Lists(summaries[..limit], details)
      ensures Rebuilt(summaries[..limit], details, old(details), limit)
      ensures dirty == old(dirty) - (old(details).Keys - details.Keys)
      ensures deleted == old(deleted) + (old(details).Keys - details.Keys)
    {
      hide Ranked, Lists, SummaryOf, Ahead, Rebuilt, Pending, Sound;
      ghost var all := details;
      var keep := IDs(summaries[..limit]);
      Evict(keep, bound);
      TopIsRebuilt(summaries, details, all, limit);
      GoneKeys(all, keep);
      EvictedPends(files, details, all, old(dirty), old(deleted), dirty, deleted);
      FewerSound(details, all, bound);
    }

    /** sortedDetailIDs; nothing here depends on the order. */
    method DetailIDs(ids: set<string>) returns (out: seq<string>)
      ensures |out| == |ids| && (forall i :: 0 <= i < |out| ==> out[i] in ids)
      ensures forall id :: id in ids ==> id in out
    {
      out := [];
      var rest := ids;
      while rest != {}
        invariant rest <= ids && |out| + |rest| == |ids|
        invariant forall i :: 0 <= i < |out| ==> out[i] in ids
        invariant forall id :: id in ids && id !in rest ==> id in out
        decreases |rest|
      {
        var id :| id in rest;
        out := out + [id];
        rest := rest - {id};
      }
    }

    method RemoveDeleted(budget: nat) returns (ok: bool, left: nat)
      requires Pending(files, details, dirty, deleted)
      modifies this`files
      ensures Pending(files, details, dirty, deleted)
      ensures ok <==> budget >= |deleted|
      ensures ok ==> left == budget - |deleted| && files.Keys !! deleted
    {
      var ids := DetailIDs(deleted);
      left := budget;
      for i := 0 to |ids|
        invariant Pending(files, details, dirty, deleted) && left == budget - i
        invariant forall j :: 0 <= j < i ==> ids[j] !in files
      {
        if left == 0 {
          return false, 0;
        }
        files := files - {ids[i]};
        left := left - 1;
      }
      return true, left;
    }

    method WriteDirty(budget: nat) returns (ok: bool, left: nat)
      requires Pending(files, details, dirty, deleted) && files.Keys !! deleted
      modifies this`files
      ensures Pending(files, details, dirty, deleted)
      ensures ok <==> budget >= |dirty|
      ensures ok ==> left == budget - |dirty| && files == details
    {
      var ids := DetailIDs(dirty);
      left := budget;
      for i := 0 to |ids|
        invariant Pending(files, details, dirty, deleted) && left == budget - i && files.Keys !! deleted
        invariant forall j :: 0 <= j < i ==> ids[j] in files && files[ids[j]] == details[ids[j]]
      {
        if left == 0 {
          return false, 0;
        }
        files := files[ids[i] := details[ids[i]]];
        left := left - 1;
      }
      AllWritten(files, details, dirty, deleted);
      return true, left;
    }

    /** The removals and writes of saveLocked. */
    method WriteFiles(budget: nat) returns (ok: bool, left: nat)
      requires Pending(files, details, dirty, deleted)
      modifies this`files
      ensures Pending(files, details, dirty, deleted)
      ensures ok <==> budget >= |deleted| + |dirty|
      ensures ok ==> left == budget - |deleted| - |dirty| && files == details
    {
      hide Pending;
      ok, left := RemoveDeleted(budget);
      if ok {
        ok, left := WriteDirty(left);
      }
    }

    /** Rebuilding an index that is already right changes nothing. */
    method Refresh(ghost bound: int)
      requires Consistent(bound)
      modifies this
      ensures Consistent(bound) && unchanged(this)
    {
      hide Ranked, Lists, SummaryOf, Ahead, Sound, Pending, Rebuilt;
      ghost var before := items;
      RebuildIndex(bound);
      RebuiltWithin(items, details, old(details), limit);
      NoneGone(details.Keys, old(dirty), old(deleted));
      RankingUnique(items, before, details);
    }

    /** saveLocked, when the first budget file operations succeed and the next one fails. */
    method Save(budget: nat, ghost bound: int) returns (ok: bool)
      requires Consistent(bound)
      modifies this
      ensures Consistent(bound) && unchanged(`details, `items, `limit, `revision)
      ensures ok <==> budget >= 2 + |old(deleted)| + |old(dirty)|
      ensures ok ==> files == details && dirty == {} && deleted == {} && index == Index(State())
      ensures !ok ==> unchanged(`dirty, `deleted, `index)
    {
      hide Ranked, Lists, SummaryOf, Sound, Pending;
      Refresh(bound);
      if budget == 0 {
        return false;
      }
      var left;
      ok, left := WriteFiles(budget - 1);
      if !ok || left == 0 {
        return false;
      }
      index := Index(State());
      dirty, deleted := {}, {};
      NothingPending(details);
    }

    // ---- the operations

    /** The end of every operation: rebuild, then save. */
    method Commit(budget: nat) returns (saved: bool)
      requires Core(revision)
      modifies this
      ensures Valid() && unchanged(`limit, `revision) && Rebuilt(items, details, old(details), limit)
      ensures saved ==> files == details && dirty == {} && deleted == {} && index == Index(State())
      ensures Marked(saved, budget, old(dirty) - (old(details).Keys - details.Keys),
                     old(deleted) + (old(details).Keys - details.Keys), dirty, deleted)
    {
      hide Ranked, Lists, SummaryOf, Ahead, Sound, Pending, Rebuilt;
      RebuildIndex(revision);
      saved := Save(budget, revision);
    }

    /** A fresh store in an empty directory; the bootstrap write may fail. */
    constructor (budget: nat)
      ensures Valid() && limit == DEFAULT_LIMIT && revision == 0 && details == map[] && items == []
      ensures budget >= 2 ==> index == Index(State())
    {
      limit, revision, items, details, dirty, deleted := DEFAULT_LIMIT, 0, [], map[], {}, {};
      files, index := map[], NoIndex;
      new;
      var saved := Save(budget, 0);
    }

    // The bound of an operation is above the revisions of all details: it is the store's own revision, or,
    // after a load from files newer than their index, one that the clock has passed.

    /** The end of an operation that files one entry. */
    method CommitEntry(e: Entry, budget: nat, ghost bound: int) returns (saved: bool)
      requires Core(bound) && bound < e.revision == revision && Trim(e.id) == e.id && e.id != ""
      modifies this
      ensures Valid() && unchanged(`limit, `revision) && Rebuilt(items, details, old(details)[e.id := e], limit)
      ensures Marked(saved, budget, ToWrite(old(dirty), {e.id}, details.Keys),
                     ToRemove(old(deleted), {e.id}, old(details).Keys, details.Keys), dirty, deleted)
      ensures saved ==> files == details && dirty == {} && deleted == {} && index == Index(State())
    {
      hide Ranked, Lists, Sound, Pending, Rebuilt, Marked, ToWrite, ToRemove, Trim;
      MarksWithin(files, details, dirty, deleted);
      NewSound(details, bound, e);
      NewPending(files, details, dirty, deleted, e);
      details := details[e.id := e];
      MarkDetailDirty(e.id);
      ghost var all := details.Keys;
      assert all == old(details).Keys + {e.id};
      saved := Commit(budget);
      MarksOf(saved, budget, old(details).Keys, old(dirty), old(deleted), {e.id}, details.Keys, dirty, deleted);
    }

    method Start(p: StartParams, id: string, now: int, clock: int, budget: nat, ghost bound: int)
      returns (r: Result<Entry>, saved: bool)
      requires Consistent(bound) && bound < NextRevision(revision, clock) && Trim(id) == id && id != ""
      modifies this
      ensures Consistent(if limit == 0 then bound else revision) && unchanged(`limit)
      ensures limit == 0 ==> r.Err? && !saved && unchanged(this)
      ensures limit > 0 ==>
        && revision == NextRevision(old(revision), clock)
        && r == Ok(Started(p, id, revision, now))
        && Rebuilt(items, details, old(details)[id := Started(p, id, revision, now)], limit)
        && (id in details <==> |Later(old(details), id, now)| < limit)
        && Marked(saved, budget, ToWrite(old(dirty), {id}, details.Keys),
                  ToRemove(old(deleted), {id}, old(details).Keys, details.Keys), dirty, deleted)
      ensures saved ==> files == details && dirty == {} && deleted == {} && index == Index(State())
    {
      if limit == 0 {
        return Err("chat history disabled"), false;
      }
      hide Ranked, Lists, Sound, Pending, Rebuilt, Marked, ToWrite, ToRemove, Later, Trim, Started;
      ghost var before := details;
      var next := NextRevisionNumber(clock);
      var entry := Started(p, id, next, now);
      FreshEntry(p, id, next, now);
      NewSound(details, bound, entry);
      saved := CommitEntry(entry, budget, bound);
      KeptIfFewLater(items, details, before, limit, entry);
      r := Ok(entry);
    }

    method Update(name: string, p: UpdateParams, now: int, clock: int, budget: nat, ghost bound: int)
      returns (r: Result<Entry>)
      requires Consistent(bound) && bound < NextRevision(revision, clock)
      modifies this
      ensures Consistent(if Trim(name) in old(details) then revision else bound) && unchanged(`limit)
      ensures Trim(name) !in old(details) ==> r.Err? && unchanged(this)
      ensures Trim(name) in old(details) ==>
        && revision == NextRevision(old(revision), clock)
        && Rebuilt(items, details, old(details)[Trim(name) := Updated(old(details)[Trim(name)], p, revision, now)],
          limit)
        && (r.Ok? ==> r.value == Updated(old(details)[Trim(name)], p, revision, now))
        && Marked(r.Ok?, budget, ToWrite(old(dirty), {Trim(name)}, details.Keys),
                  ToRemove(old(deleted), {Trim(name)}, old(details).Keys, details.Keys), dirty, deleted)
      ensures r.Ok? ==> files == details && dirty == {} && deleted == {} && index == Index(State())
    {
      hide Ranked, Lists, SummaryOf, Ahead, Pending, Rebuilt, Marked, ToWrite, ToRemove;
      var target := Trim(name);
      if target == "" {
        return Err("history id is required");
      }
      if target !in details {
        return Err("chat history entry not found");
      }
      var next := NextRevisionNumber(clock);
      var item := Updated(details[target], p, next, now);
      TrimTwice(name);
      var saved := CommitEntry(item, budget, bound);
      r := if saved then Ok(item) else Err("save failed");
    }

    method Delete(name: string, clock: int, budget: nat, ghost bound: int) returns (r: Result<()>)
      requires Consistent(bound) && bound < NextRevision(revision, clock)
      modifies this
      ensures Consistent(if Trim(name) in old(details) then revision else bound) && unchanged(`limit)
      ensures Trim(name) !in old(details) ==> r.Err? && unchanged(this)
      ensures Trim(name) in old(details) ==>
        && revision == NextRevision(old(revision), clock) && details == old(details) - {Trim(name)}
        && Marked(r.Ok?, budget, ToWrite(old(dirty), {}, details.Keys),
                  ToRemove(old(deleted), {}, old(details).Keys, details.Keys), dirty, deleted)
      ensures r.Ok? ==> files == details && dirty == {} && deleted == {} && index == Index(State())
    {
      hide Ranked, Lists, Sound, Pending, Trim, Marked, ToWrite, ToRemove;
      NoBlank(details, bound);
      MarksWithin(files, details, dirty, deleted);
      var target := Trim(name);
      if target == "" {
        return Err("history id is required");
      }
      if target !in details {
        return Err("chat history entry not found");
      }
      TrimTwice(name);
      Drops(files, details, dirty, deleted, bound, {target});
      Fewer(details, target);
      MarkDetailDeleted(target);
      DropMarks(details.Keys, old(dirty), old(deleted), {target});
      details := details - {target};
      assert details.Keys == old(details).Keys - {target};
      var saved := CommitSmaller(clock, budget, bound);
      r := if saved then Ok(()) else Err("save failed");
    }

    /** The end of an operation that only removed details. */
    method CommitSmaller(clock: int, budget: nat, ghost bound: int) returns (saved: bool)
      requires Core(bound) && bound < NextRevision(revision, clock) && (limit > 0 ==> |details| <= limit)
      modifies this
      ensures Valid() && unchanged(`limit, `details) && revision == NextRevision(old(revision), clock)
      ensures Marked(saved, budget, old(dirty), old(deleted), dirty, deleted)
      ensures saved ==> files == details && dirty == {} && deleted == {} && index == Index(State())
    {
      hide Ranked, Lists, Pending, Rebuilt, Marked;
      var next := NextRevisionNumber(clock);
      Looser(details, bound, revision);
      saved := Commit(budget);
      RebuiltWithin(items, details, old(details), limit);
      NoneGone(details.Keys, old(dirty), old(deleted));
    }

    method Clear(clock: int, budget: nat, ghost bound: int) returns (r: Result<()>)
      requires Consistent(bound) && bound < NextRevision(revision, clock)
      modifies this
      ensures Valid() && unchanged(`limit)
      ensures revision == NextRevision(old(revision), clock) && details == map[]
      ensures Marked(r.Ok?, budget, ToWrite(old(dirty), {}, details.Keys),
                     ToRemove(old(deleted), {}, old(details).Keys, details.Keys), dirty, deleted)
      ensures r.Ok? ==> files == map[] && dirty == {} && deleted == {} && index == Index(State())
    {
      hide Ranked, Lists, Sound, Pending, Marked, ToWrite, ToRemove;
      MarksWithin(files, details, dirty, deleted);
      DropMarks(details.Keys, dirty, deleted, details.Keys);
      Drops(files, details, dirty, deleted, bound, details.Keys);
      assert details - details.Keys == map[];
      MarkAllDeleted(bound);
      details := map[];
      assert details.Keys == old(details).Keys - old(details).Keys;
      var saved := CommitSmaller(clock, budget, bound);
      r := if saved then Ok(()) else Err("save failed");
    }

    /** The loop of Clear. */
    method MarkAllDeleted(ghost bound: int)
      requires Sound(details, bound)
      modifies this`dirty, this`deleted
      ensures dirty == old(dirty) - details.Keys && deleted == old(deleted) + details.Keys
    {
      hide Evicting, Sound;
      ghost var all := details;
      var rest := details.Keys;
      EvictStarts(all, {}, dirty, deleted);
      ghost var left := all;
      while rest != {}
        invariant Evicting(all, {}, rest, old(dirty), old(deleted), left, dirty, deleted)
        decreases |rest|
      {
        var id :| id in rest;
        EvictStep(all, {}, rest, old(dirty), old(deleted), left, dirty, deleted, id, bound);
        MarkDetailDeleted(id);
        rest, left := rest - {id}, left - {id};
      }
      AllMarked(all, old(dirty), old(deleted), left, dirty, deleted);
    }

    method SetLimit(newLimit: int, clock: int, budget: nat, ghost bound: int) returns (r: Result<File>)
      requires Consistent(bound) && bound < NextRevision(revision, clock)
      modifies this
      ensures Consistent(if IsAllowedLimit(newLimit) then revision else bound)
      ensures !IsAllowedLimit(newLimit) ==> r.Err? && unchanged(this)
      ensures IsAllowedLimit(newLimit) ==>
        && limit == newLimit && revision == NextRevision(old(revision), clock)
        && Rebuilt(items, details, old(details), limit)
        && Marked(r.Ok?, budget, ToWrite(old(dirty), {}, details.Keys),
                  ToRemove(old(deleted), {}, old(details).Keys, details.Keys), dirty, deleted)
      ensures r.Ok? ==>
        r.value == State() && files == details && dirty == {} && deleted == {} && index == Index(State())
    {
      hide Ranked, Lists, SummaryOf, Ahead, Pending, Rebuilt, Marked, ToWrite, ToRemove;
      if !IsAllowedLimit(newLimit) {
        return Err("unsupported chat history limit");
      }
      limit := newLimit;
      var next := NextRevisionNumber(clock);
      Looser(details, bound, revision);
      MarksWithin(files, details, dirty, deleted);
      NothingTouched(details.Keys, dirty, deleted);
      var saved := Commit(budget);
      MarksOf(saved, budget, old(details).Keys, old(dirty), old(deleted), {}, details.Keys, dirty, deleted);
      r := if saved then Ok(State()) else Err("save failed");
    }

    method Get(name: string) returns (r: Result<Entry>)
      ensures r.Ok? <==> Trim(name) in details
      ensures r.Ok? ==> r.value == details[Trim(name)]
    {
      var target := Trim(name);
      r := if target in details then Ok(details[target]) else Err("chat history entry not found");
    }

    /** The store of an index file whose details have been read. */
    constructor Loaded(read: map<string, Entry>, saved: File, budget: nat, ghost bound: int)
      requires Sound(read, bound)
      ensures Consistent(bound) && revision == saved.revision
      ensures limit == if IsAllowedLimit(saved.limit) then saved.limit else DEFAULT_LIMIT
      ensures Rebuilt(items, details, read, limit)
    {
      limit, revision, items := saved.limit, saved.revision, saved.items;
      dirty, deleted := {}, {};
      details, files, index := read, read, Index(saved);
      new;
      hide Ranked, Lists, SummaryOf, Ahead, Pending, Rebuilt, Sound;
      NothingPending(read);
      RebuildIndex(bound);
      var ok := Save(budget, bound);
    }
  }

  /** loadLocked on an existing index. The files are those that can be read; one that is indexed but
      missing makes loading fail. Then the details are indexed and saved again. */
  method Load(stored: map<string, Entry>, saved: File, budget: nat, ghost bound: int) returns (r: Result<Store>)
    requires Sound(stored, bound) && stored.Keys <= IDs(saved.items)
    ensures r.Err? <==> exists id :: id in IDs(saved.items) && id !in stored
    ensures r.Ok? ==>
      && fresh(r.value) && r.value.Consistent(bound) && (bound <= saved.revision ==> r.value.Valid())
      && r.value.revision == saved.revision
      && r.value.limit == (if IsAllowedLimit(saved.limit) then saved.limit else DEFAULT_LIMIT)
      && Rebuilt(r.value.items, r.value.details, stored, r.value.limit)
  {
    hide Ranked, Lists, Pending, Rebuilt, IDs;
    var read := ReadDetails(saved.items, stored);
    if read.Err? {
      return Err(read.message);
    }
    var store := new Store.Loaded(read.value, saved, budget, bound);
    if bound <= saved.revision {
      Looser(store.details, bound, saved.revision);
    }
    hide Sound;
    r := Ok(store);
  }

  lemma FreshEntry(p: StartParams, id: string, revision: int, now: int)
    ensures var e := Started(p, id, revision, now); e.id == id && e.createdAt == now && e.revision == revision
  {
  }

  lemma KeptIfFewLater(items: seq<Summary>, details: map<string, Entry>, before: map<string, Entry>, limit: nat,
                       e: Entry)
    requires Rebuilt(items, details, before[e.id := e], limit) && limit > 0
    requires forall id :: id in before && id != e.id ==> before[id].revision < e.revision
    ensures e.id in details <==> |Later(before, e.id, e.createdAt)| < limit
  {
    hide Rebuilt, Later;
    StartedKept(items, details, before[e.id := e], limit, e);
    LaterOf(before, e);
  }

  /** The marks of a call that touched some details, in terms of the details that are kept in the end. */
  lemma MarksOf(saved: bool, budget: nat, before: set<string>, dirty: set<string>, deleted: set<string>,
                touched: set<string>, after: set<string>, dirty': set<string>, deleted': set<string>)
    requires dirty <= before
    requires Marked(saved, budget, dirty + touched - (before + touched - after),
                    deleted - touched + (before + touched - after), dirty', deleted')
    ensures Marked(saved, budget, ToWrite(dirty, touched, after), ToRemove(deleted, touched, before, after),
                   dirty', deleted')
  {
    hide Marked;
    assert ToWrite(dirty, touched, after) == dirty + touched - (before + touched - after);
  }

  lemma DropMarks(before: set<string>, dirty: set<string>, deleted: set<string>, gone: set<string>)
    requires dirty <= before && gone <= before
    ensures ToWrite(dirty, {}, before - gone) == dirty - gone
    ensures ToRemove(deleted, {}, before, before - gone) == deleted + gone
  {
  }

  lemma NothingTouched(before: set<string>, dirty: set<string>, deleted: set<string>)
    ensures before + {} == before && dirty + {} == dirty && deleted - {} == deleted
  {
  }

  lemma MarksWithin(files: map<string, Entry>, details: map<string, Entry>, dirty: set<string>, deleted: set<string>)
    requires Pending(files, details, dirty, deleted)
    ensures dirty <= details.Keys && deleted !! details.Keys
  {
  }

  lemma Looser(details: map<string, Entry>, bound: int, revision: int)
    requires Sound(details, bound) && bound <= revision
    ensures Sound(details, revision)
  {
  }

  method ReadDetails(items: seq<Summary>, stored: map<string, Entry>) returns (r: Result<map<string, Entry>>)
    requires stored.Keys <= IDs(items)
    ensures r.Err? <==> exists id :: id in IDs(items) && id !in stored
    ensures r.Ok? ==> r.value == stored
  {
    var details: map<string, Entry> := map[];
    for i := 0 to |items|
      invariant details.Keys == IDs(items[..i]) <= stored.Keys
      invariant forall id :: id in details ==> details[id] == stored[id]
    {
      var id := items[i].id;
      OneMoreID(items, i);
      assert id in IDs(items);
      if id !in stored {
        return Err("read chat history detail");
      }
      details := details[id := stored[id]];
    }
    assert items[..|items|] == items;
    r := Ok(details);
  }

  lemma OneMoreID(items: seq<Summary>, i: nat)
    requires i < |items|
    ensures IDs(items[..i + 1]) == IDs(items[..i]) + {items[i].id}
  {
    assert forall k :: 0 <= k < i ==> items[..i + 1][k] == items[..i][k];
    assert items[..i + 1][i] == items[i];
    forall x | x in IDs(items[..i]) ensures x in IDs(items[..i + 1]) {
      var k :| 0 <= k < i && items[..i][k].id == x;
      assert items[..i + 1][k].id == x;
    }
  }

  /** The entries other than id that were created after now. */
  function Later(all: map<string, Entry>, id: string, now: int): set<string> {
    set x | x in all && x != id && all[x].createdAt > now
  }

  lemma LaterOf(before: map<string, Entry>, e: Entry)
    ensures Later(before[e.id := e], e.id, e.createdAt) == Later(before, e.id, e.createdAt)
  {
  }

  /** A started entry is kept exactly when fewer entries than the limit were created later. */
  lemma StartedKept(items: seq<Summary>, details: map<string, Entry>, all: map<string, Entry>, limit: nat, e: Entry)
    requires Rebuilt(items, details, all, limit) && limit > 0 && e.id in all && all[e.id] == e
    requires forall id :: id in all && id != e.id ==> all[id].revision < e.revision
    ensures e.id in details <==> |Later(all, e.id, e.createdAt)| < limit
  {
    hide Ranked, Lists, SummaryOf, Ahead;
    FreshRank(all, e);
    var ahead := set id | id in all && all[id].createdAt > e.createdAt;
    assert ahead == Later(all, e.id, e.createdAt);
    if |all| <= limit {
      Smaller(ahead, all.Keys, e.id);
    }
  }

  lemma Smaller(a: set<string>, b: set<string>, x: string)
    requires a <= b && x in b && x !in a
    ensures |a| < |b|
  {
    SubsetSize(a, b - {x});
  }

  /** While the clock does not go back, a started entry is always kept. */
  lemma FreshKept(items: seq<Summary>, details: map<string, Entry>, all: map<string, Entry>, limit: nat, e: Entry)
    requires Rebuilt(items, details, all, limit) && limit > 0 && e.id in all && all[e.id] == e
    requires forall id :: id in all && id != e.id ==> all[id].revision < e.revision && all[id].createdAt <= e.createdAt
    ensures e.id in details && items != [] && items[0].id == e.id
  {
    assert e.id in details by {
      StartedKept(items, details, all, limit, e);
      assert Later(all, e.id, e.createdAt) == {};
    }
    ListedValue(items, details, all, limit);
    hide Rebuilt, SummaryOf, Before, Lists;
    assert e.id in IDs(items);
    var k :| 0 <= k < |items| && items[k].id == e.id;
    if k > 0 {
      BeforeIsLower(items, 0, k);
      if items[0].id != e.id {
        NotBefore(all[items[0].id], e);
      }
    }
  }

  lemma ListedValue(items: seq<Summary>, details: map<string, Entry>, all: map<string, Entry>, limit: nat)
    requires Rebuilt(items, details, all, limit)
    ensures Ranked(items) && IDs(items) == details.Keys
    ensures forall i :: 0 <= i < |items| ==> items[i].id in all && items[i] == SummaryOf(all[items[i].id])
  {
    hide Preview, Ranked;
    forall i | 0 <= i < |items| ensures items[i].id in all && items[i] == SummaryOf(all[items[i].id]) {
      KeptValue(items, details, all, limit, items[i].id);
    }
  }

  lemma NotBefore(x: Entry, e: Entry)
    requires x.revision < e.revision && x.createdAt <= e.createdAt
    ensures !Before(SummaryOf(x), SummaryOf(e))
  {
    hide Preview;
  }

  lemma KeptValue(items: seq<Summary>, details: map<string, Entry>, all: map<string, Entry>, limit: nat, id: string)
    requires Rebuilt(items, details, all, limit) && id in details
    ensures id in all && details[id] == all[id]
  {
  }

  lemma NewSound(details: map<string, Entry>, revision: int, e: Entry)
    requires Sound(details, revision) && e.revision > revision && Trim(e.id) == e.id && e.id != ""
    ensures Sound(details[e.id := e], e.revision)
    ensures forall id :: id in details ==> details[id].revision < e.revision
  {
  }

  lemma NewPending(files: map<string, Entry>, details: map<string, Entry>, dirty: set<string>, deleted: set<string>,
    e: Entry)
    requires Pending(files, details, dirty, deleted)
    ensures Pending(files, details[e.id := e], dirty + {e.id}, deleted - {e.id})
  {
  }

  lemma AllMarked(all: map<string, Entry>, dirty0: set<string>, deleted0: set<string>, left: map<string, Entry>,
                  dirty: set<string>, deleted: set<string>)
    requires Evicting(all, {}, {}, dirty0, deleted0, left, dirty, deleted)
    ensures dirty == dirty0 - all.Keys && deleted == deleted0 + all.Keys
  {
  }

  lemma NoBlank(details: map<string, Entry>, revision: int)
    requires Sound(details, revision)
    ensures "" !in details
  {
  }

  lemma Drops(files: map<string, Entry>, details: map<string, Entry>, dirty: set<string>, deleted: set<string>,
              revision: int, gone: set<string>)
    requires Sound(details, revision) && Pending(files, details, dirty, deleted) && gone <= details.Keys
    ensures Sound(details - gone, revision) && Pending(files, details - gone, dirty - gone, deleted + gone)
  {
  }

  lemma Fewer(details: map<string, Entry>, id: string)
    requires id in details
    ensures |details - {id}| < |details|
  {
    assert details.Keys == (details - {id}).Keys + {id};
  }

  /** A saved store that is opened again has the same entries and the same index. */
  lemma ReopenedIsSaved(items: seq<Summary>, details: map<string, Entry>, stored: map<string, Entry>, saved: File)
    requires saved.limit >= 0 && Rebuilt(items, details, stored, saved.limit)
    requires Ranked(saved.items) && Lists(saved.items, stored) && (saved.limit > 0 ==> |stored| <= saved.limit)
    ensures items == saved.items && details == stored
  {
    RebuiltWithin(items, details, stored, saved.limit);
    RankingUnique(items, saved.items, stored);
  }

  lemma RebuiltWithin(items: seq<Summary>, details: map<string, Entry>, all: map<string, Entry>, limit: nat)
    requires Rebuilt(items, details, all, limit) && (limit == 0 || |all| <= limit)
    ensures details == all
  {
  }

  lemma NothingPending(details: map<string, Entry>)
    ensures Pending(details, details, {}, {})
  {
  }

  // ---- steps of the bookkeeping

  lemma TopIs(summaries: seq<Summary>, all: map<string, Entry>, n: nat)
    requires n <= |summaries|
    ensures all - (all.Keys - IDs(summaries[..n])) == Top(summaries, all, n)
  {
    hide IDs;
  }

  lemma GoneKeys(all: map<string, Entry>, keep: set<string>)
    ensures var kept := all - (all.Keys - keep);
      all.Keys - kept.Keys == all.Keys - keep && kept.Keys <= all.Keys &&
      forall id :: id in kept ==> kept[id] == all[id]
  {
  }

  lemma NoneGone(keys: set<string>, dirty: set<string>, deleted: set<string>)
    ensures dirty - (keys - keys) == dirty && deleted + (keys - keys) == deleted
  {
  }

  lemma WholeIsRebuilt(summaries: seq<Summary>, details: map<string, Entry>, limit: nat)
    requires Ranked(summaries) && Lists(summaries, details) && (limit == 0 || |details| <= limit)
    ensures Rebuilt(summaries, details, details, limit)
  {
    hide Ranked, Lists, Ahead, SummaryOf;
  }

  /** Eviction has dealt with all entries but the rest. */
  ghost predicate Evicting(all: map<string, Entry>, keep: set<string>, rest: set<string>, dirty0: set<string>,
                           deleted0: set<string>, details: map<string, Entry>, dirty: set<string>, deleted: set<string>)
  {
    && (forall id :: id in rest ==> id in all)
    && (forall id :: id in details <==> id in all && (id in rest || id in keep))
    && (forall id :: id in details ==> details[id] == all[id])
    && (forall id :: id in dirty <==> id in dirty0 && (id !in all || id in rest || id in keep))
    && (forall id :: id in deleted <==> id in deleted0 || (id in all && id !in rest && id !in keep))
  }

  lemma EvictStarts(all: map<string, Entry>, keep: set<string>, dirty: set<string>, deleted: set<string>)
    ensures Evicting(all, keep, all.Keys, dirty, deleted, all, dirty, deleted)
  {
  }

  lemma EvictStep(all: map<string, Entry>, keep: set<string>, rest: set<string>, dirty0: set<string>,
                  deleted0: set<string>, details: map<string, Entry>, dirty: set<string>, deleted: set<string>,
                  id: string, revision: int)
    requires Evicting(all, keep, rest, dirty0, deleted0, details, dirty, deleted) && id in rest && Sound(all, revision)
    ensures Trim(id) == id && id != ""
    ensures id in keep ==> Evicting(all, keep, rest - {id}, dirty0, deleted0, details, dirty, deleted)
    ensures id !in keep ==>
      Evicting(all, keep, rest - {id}, dirty0, deleted0, details - {id}, dirty - {id}, deleted + {id})
  {
  }

  lemma EvictEnds(all: map<string, Entry>, keep: set<string>, dirty0: set<string>, deleted0: set<string>,
                  details: map<string, Entry>, dirty: set<string>, deleted: set<string>)
    requires Evicting(all, keep, {}, dirty0, deleted0, details, dirty, deleted)
    ensures details == all - (all.Keys - keep)
    ensures dirty == dirty0 - (all.Keys - keep) && deleted == deleted0 + (all.Keys - keep)
  {
  }

  lemma TopIsRebuilt(summaries: seq<Summary>, details: map<string, Entry>, all: map<string, Entry>, limit: nat)
    requires Ranked(summaries) && Lists(summaries, all) && 0 < limit < |summaries| == |all|
    requires details == all - (all.Keys - IDs(summaries[..limit]))
    ensures Rebuilt(summaries[..limit], details, all, limit) && |details| == limit
    ensures Ranked(summaries[..limit]) && Lists(summaries[..limit], details)
  {
    hide Ranked, SummaryOf, Ahead, IDs;
    TopLists(summaries, all, limit);
    TopIs(summaries, all, limit);
    forall id | id in all ensures id in details <==> |Ahead(all, SummaryOf(all[id]))| < limit {
      KeptExactly(summaries, all, id, limit);
    }
  }

  lemma EvictedPends(files: map<string, Entry>, details: map<string, Entry>, all: map<string, Entry>,
                     dirty: set<string>, deleted: set<string>, dirty': set<string>, deleted': set<string>)
    requires Pending(files, all, dirty, deleted)
    requires details.Keys <= all.Keys && forall id :: id in details ==> details[id] == all[id]
    requires dirty' == dirty - (all.Keys - details.Keys) && deleted' == deleted + (all.Keys - details.Keys)
    ensures Pending(files, details, dirty', deleted')
  {
  }

  lemma FewerSound(details: map<string, Entry>, all: map<string, Entry>, revision: int)
    requires Sound(all, revision) && details.Keys <= all.Keys && forall id :: id in details ==> details[id] == all[id]
    ensures Sound(details, revision)
  {
  }

  lemma AllWritten(files: map<string, Entry>, details: map<string, Entry>, dirty: set<string>, deleted: set<string>)
    requires Pending(files, details, dirty, deleted) && files.Keys !! deleted
    requires forall id :: id in dirty ==> id in files && files[id] == details[id]
    ensures files == details
  {
  }

  /** Two parts of a map that share no key. */
  ghost predicate Split(all: map<string, Entry>, a: map<string, Entry>, b: map<string, Entry>) {
    && (forall id :: id in all <==> id in a || id in b) && (forall id :: id in a ==> id !in b)
    && (forall id :: id in a ==> a[id] == all[id]) && (forall id :: id in b ==> b[id] == all[id])
  }

  lemma SplitEnds(all: map<string, Entry>)
    ensures Split(all, map[], all)
  {
  }

  lemma SplitIsWhole(all: map<string, Entry>, a: map<string, Entry>, b: map<string, Entry>)
    requires Split(all, a, b) && b.Keys == {}
    ensures a == all
  {
  }

  lemma SplitMoves(all: map<string, Entry>, a: map<string, Entry>, b: map<string, Entry>, id: string)
    requires Split(all, a, b) && id in b
    ensures Split(all, a[id := all[id]], b - {id}) && id in all && id !in a && |(b - {id}).Keys| < |b.Keys|
    ensures a.Keys <= all.Keys && forall x :: x in a ==> a[x] == all[x]
  {
    KeysShrink(b, id);
  }

  lemma KeysShrink(b: map<string, Entry>, id: string)
    requires id in b
    ensures |(b - {id}).Keys| < |b.Keys|
  {
    assert b.Keys == (b - {id}).Keys + {id};
  }

  lemma NothingListed()
    ensures Ranked([]) && Lists([], map[])
  {
  }

  lemma InsertNext(items: seq<Summary>, some: map<string, Entry>, all: map<string, Entry>, id: string, revision: int)
    requires Ranked(items) && Lists(items, some) && some.Keys <= all.Keys &&
      (forall x :: x in some ==> some[x] == all[x])
    requires Sound(all, revision) && id in all && id !in some
    ensures Ranked(Insert(items, SummaryOf(all[id]))) && Lists(Insert(items, SummaryOf(all[id])), some[id := all[id]])
  {
    NewRevision(items, some, all, id, revision);
    InsertRanks(items, SummaryOf(all[id]));
    InsertLists(items, some, all, id);
  }

  lemma NewRevision(items: seq<Summary>, some: map<string, Entry>, all: map<string, Entry>, id: string, revision: int)
    requires Lists(items, some) && some.Keys <= all.Keys && (forall x :: x in some ==> some[x] == all[x])
    requires Sound(all, revision) && id in all && id !in some
    ensures forall i :: 0 <= i < |items| ==> items[i].revision != SummaryOf(all[id]).revision
  {
  }

  lemma InsertLists(items: seq<Summary>, some: map<string, Entry>, all: map<string, Entry>, id: string)
    requires Ranked(items) && Lists(items, some) && id in all && id !in some && all[id].id == id
    requires some.Keys <= all.Keys && (forall x :: x in some ==> some[x] == all[x])
    requires forall i :: 0 <= i < |items| ==> items[i].revision != SummaryOf(all[id]).revision
    ensures Lists(Insert(items, SummaryOf(all[id])), some[id := all[id]])
  {
    hide Insert, Ranked, SummaryOf;
    var s := SummaryOf(all[id]);
    assert s.id == id && s.revision == all[id].revision by { SummaryKeeps(all[id]); }
    InsertRanks(items, s);
    InsertIDs(items, s);
    var r, more := Insert(items, s), some[id := all[id]];
    forall k | 0 <= k < |r| ensures r[k].id in more && r[k] == SummaryOf(more[r[k].id]) {
      if r[k] != s {
        assert r[k] in items;
        var i :| 0 <= i < |items| && items[i] == r[k];
        assert items[i].id in some;
      }
    }
  }

  lemma SummaryKeeps(e: Entry)
    ensures SummaryOf(e).id == e.id && SummaryOf(e).revision == e.revision
  {
  }

  lemma InsertIDs(items: seq<Summary>, s: Summary)
    requires Ranked(items) && forall i :: 0 <= i < |items| ==> items[i].revision != s.revision
    ensures IDs(Insert(items, s)) == IDs(items) + {s.id}
  {
    hide Insert, Ranked;
    InsertRanks(items, s);
    var r := Insert(items, s);
    forall x | x in IDs(items) + {s.id} ensures x in IDs(r) {
      if x == s.id {
        assert s in r;
      } else {
        var i :| 0 <= i < |items| && items[i].id == x;
        assert items[i] in r;
      }
    }
    forall x | x in IDs(r) ensures x in IDs(items) + {s.id} {
      var k :| 0 <= k < |r| && r[k].id == x;
      assert r[k] == s || r[k] in items;
    }
  }
}
