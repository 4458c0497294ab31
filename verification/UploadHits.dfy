/** What the upload cache is for: a file that was uploaded is not uploaded again while it is fresh. */
module UploadHits {
  import opened Options
  import opened Text
  import opened UploadCache

  /** The file is in the cache under the key until the given time, and nobody is uploading for the key. */
  ghost predicate Holds(w: World, key: string, file: File, until: int) {
    key in w.cache.entries && w.cache.entries[key] == Entry(file, until) && key !in w.cache.inflight
  }

  /** Whoever asks for the key asks before that time. */
  predicate InTime(step: Step, key: string, until: int) {
    step.Arrive? && Trim(step.key) == key ==> step.now < until
  }

  lemma NobodyLeads(w: World, key: string, i: nat)
    requires Inv(w) && key !in w.cache.inflight && i < |w.callers| && w.callers[i].Leading?
    ensures w.callers[i].key != key
  {
    assert CallerOk(w, w.callers[i]);
    assert CallOk(w, w.callers[i].call);
  }

  /** An upload that ends well puts its file there, for twenty minutes. */
  lemma CompletedHolds(w: World, i: nat, outcome: Outcome, now: int)
    requires Inv(w) && i < |w.callers| && w.callers[i].Leading?
    requires outcome.result.Some? && !outcome.failed && Trim(outcome.result.value.id) != ""
    ensures Holds(Next(w, Complete(i, outcome, now)), w.callers[i].key, outcome.result.value, now + 20 * 60 * 1000)
  {
    assert CallerOk(w, w.callers[i]);
    hide Inv;
  }

  /** One that fails, or ends without a usable file, leaves the entries alone. */
  lemma FailedStoresNothing(w: World, i: nat, outcome: Outcome, now: int)
    requires outcome.result.None? || outcome.failed || Trim(outcome.result.value.id) == ""
    ensures Next(w, Complete(i, outcome, now)).cache.entries == w.cache.entries
  {
  }

  lemma StepHolds(w: World, step: Step, key: string, file: File, until: int)
    requires Inv(w) && Holds(w, key, file, until) && InTime(step, key, until) && Trim(file.id) != ""
    ensures var w' := Next(w, step);
      && Holds(w', key, file, until)
      && |w.cache.calls| <= |w'.cache.calls|
      && (forall c :: 0 <= c < |w.cache.calls| ==> w'.cache.calls[c].key == w.cache.calls[c].key)
      && (forall c :: |w.cache.calls| <= c < |w'.cache.calls| ==> w'.cache.calls[c].key != key)
      && (step.Arrive? && Trim(step.key) == key && key != "" ==>
            w' == w.(callers := w.callers + [Returned(key, Cached(file, step.now))]))
  {
    match step
    case Complete(i, outcome, now) =>
      if i < |w.callers| && w.callers[i].Leading? {
        NobodyLeads(w, key, i);
        assert CallerOk(w, w.callers[i]);
        hide Inv;
      }
    case _ =>
      hide Inv;
  }

  /** Once a leader of a key has completed with a file, every later arrival for that key within twenty minutes
      returns that very file from the cache, in every interleaving, and no further call for the key is made. */
  lemma {:induction false} FileIsReused(w: World, steps: seq<Step>, key: string, file: File, until: int)
    requires Inv(w) && Holds(w, key, file, until) && Trim(file.id) != "" && key != ""
    requires forall k :: 0 <= k < |steps| ==> InTime(steps[k], key, until)
    ensures forall k :: 0 <= k < |steps| && steps[k].Arrive? && Trim(steps[k].key) == key ==>
      var before := Run(w, steps[..k]);
      Next(before, steps[k]) == before.(callers := before.callers + [Returned(key, Cached(file, steps[k].now))])
    ensures var w' := Run(w, steps);
      && Holds(w', key, file, until) && |w.cache.calls| <= |w'.cache.calls|
      && forall c :: |w.cache.calls| <= c < |w'.cache.calls| ==> w'.cache.calls[c].key != key
    decreases |steps|
  {
    hide Next, Inv, Holds, InTime, Trim;
    if steps != [] {
      var init, last := steps[..|steps| - 1], steps[|steps| - 1];
      assert forall k :: 0 <= k < |init| ==> init[k] == steps[k] && init[..k] == steps[..k];
      FileIsReused(w, init, key, file, until);
      RunKeeps(w, init);
      RunSplits(w, init, last);
      assert steps == init + [last];
      StepHolds(Run(w, init), last, key, file, until);
    }
  }

  lemma {:induction false} RunSplits(w: World, steps: seq<Step>, last: Step)
    ensures Run(w, steps + [last]) == Next(Run(w, steps), last)
    decreases |steps|
  {
    hide Next;
    if steps == [] {
      assert ([] + [last])[1..] == [];
    } else {
      assert (steps + [last])[1..] == steps[1..] + [last];
      RunSplits(Next(w, steps[0]), steps[1..], last);
    }
  }

  lemma {:induction false} KeysNotBlank(w: World, steps: seq<Step>)
    requires forall i :: 0 <= i < |w.callers| ==> w.callers[i].key != ""
    ensures forall i :: 0 <= i < |Run(w, steps).callers| ==> Run(w, steps).callers[i].key != ""
    decreases |steps|
  {
    hide Finished, Entered;
    if steps != [] {
      KeysNotBlank(Next(w, steps[0]), steps[1..]);
    }
  }

  /** The same for a run from the empty cache. */
  lemma UploadedOnce(before: seq<Step>, i: nat, outcome: Outcome, now: int, after: seq<Step>)
    requires var w := Run(START, before); i < |w.callers| && w.callers[i].Leading?
    requires outcome.result.Some? && !outcome.failed && Trim(outcome.result.value.id) != ""
    requires forall k :: 0 <= k < |after| ==>
      InTime(after[k], Run(START, before).callers[i].key, now + 20 * 60 * 1000)
    ensures var w := Run(START, before);
      var key, w1 := w.callers[i].key, Next(w, Complete(i, outcome, now));
      && (forall k :: 0 <= k < |after| && after[k].Arrive? && Trim(after[k].key) == key ==>
            var v := Run(w1, after[..k]);
            Next(v, after[k])
            == v.(callers := v.callers + [Returned(key, Cached(outcome.result.value, after[k].now))]))
      && |w1.cache.calls| <= |Run(w1, after).cache.calls|
      && (forall c :: |w1.cache.calls| <= c < |Run(w1, after).cache.calls| ==>
            Run(w1, after).cache.calls[c].key != key)
  {
    RunKeeps(START, before);
    KeysNotBlank(START, before);
    var w := Run(START, before);
    CompletedHolds(w, i, outcome, now);
    CompleteKeeps(w, i, outcome, now);
    hide Next, Inv, Holds, Trim, Run;
    FileIsReused(Next(w, Complete(i, outcome, now)), after, w.callers[i].key, outcome.result.value,
                 now + 20 * 60 * 1000);
  }
}
