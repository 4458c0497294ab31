/** What an entry says after it was started and updated any number of times. */
module HistoryUpdates {
  import opened Text
  import opened History
  import opened HistoryStore

  /** One update, with its revision and the time it was made. */
  datatype Report = Report(p: UpdateParams, revision: int, now: int)

  function After(e: Entry, reports: seq<Report>): Entry {
    if reports == [] then e
    else
      var last := reports[|reports| - 1];
      Updated(After(e, reports[..|reports| - 1]), last.p, last.revision, last.now)
  }

  /** The text of the last report that gives one, or the first text when none does. */
  ghost predicate LastGiven(first: string, text: Report -> string, reports: seq<Report>, result: string) {
    || (result == first && forall i :: 0 <= i < |reports| ==> text(reports[i]) == "")
    || exists i :: 0 <= i < |reports| && text(reports[i]) != "" && result == text(reports[i])
         && forall j :: i < j < |reports| ==> text(reports[j]) == ""
  }

  lemma OneMoreText(first: string, text: Report -> string, reports: seq<Report>, before: string, last: Report)
    requires LastGiven(first, text, reports, before)
    ensures LastGiven(first, text, reports + [last], if text(last) != "" then text(last) else before)
  {
    var all := reports + [last];
    assert all[|reports|] == last && forall i :: 0 <= i < |reports| ==> all[i] == reports[i];
    if text(last) != "" {
      assert text(all[|reports|]) != "";
    } else if exists i :: 0 <= i < |reports| && text(reports[i]) != "" && before == text(reports[i])
                && forall j :: i < j < |reports| ==> text(reports[j]) == "" {
      var i :| 0 <= i < |reports| && text(reports[i]) != "" && before == text(reports[i])
        && forall j :: i < j < |reports| ==> text(reports[j]) == "";
      assert text(all[i]) != "" && before == text(all[i]);
    }
  }

  function StatusOf(r: Report): string {
    r.p.status
  }

  function ReasoningOf(r: Report): string {
    r.p.reasoning
  }

  function ContentOf(r: Report): string {
    r.p.content
  }

  lemma UpdatedTexts(e: Entry, r: Report)
    ensures var u := Updated(e, r.p, r.revision, r.now);
      && u.status == (if r.p.status != "" then r.p.status else e.status)
      && u.reasoning == (if r.p.reasoning != "" then r.p.reasoning else e.reasoning)
      && u.content == (if r.p.content != "" then r.p.content else e.content)
  {
    hide Trim;
  }

  /** Status, reasoning and content are those of the last update that gives them: none of them is ever erased. */
  lemma {:induction false} LastTextsStay(e: Entry, reports: seq<Report>)
    ensures LastGiven(e.status, StatusOf, reports, After(e, reports).status)
    ensures LastGiven(e.reasoning, ReasoningOf, reports, After(e, reports).reasoning)
    ensures LastGiven(e.content, ContentOf, reports, After(e, reports).content)
  {
    if reports != [] {
      var init, last := reports[..|reports| - 1], reports[|reports| - 1];
      LastTextsStay(e, init);
      var before := After(e, init);
      UpdatedTexts(before, last);
      hide LastGiven, Updated;
      assert reports == init + [last];
      OneMoreText(e.status, StatusOf, init, before.status, last);
      OneMoreText(e.reasoning, ReasoningOf, init, before.reasoning, last);
      OneMoreText(e.content, ContentOf, init, before.content, last);
    }
  }

  /** The rest of the outcome is that of the last update. */
  lemma LastOutcome(e: Entry, reports: seq<Report>)
    requires reports != []
    ensures var r, last := After(e, reports), reports[|reports| - 1];
      && r.error == Trim(last.p.error) && r.finishReason == Trim(last.p.finishReason)
      && r.statusCode == last.p.statusCode && r.elapsedMs == last.p.elapsedMs
      && r.revision == last.revision && r.updatedAt == last.now
  {
    hide Trim;
  }

  /** What was recorded at the start stays. */
  lemma {:induction false} StartStays(e: Entry, reports: seq<Report>)
    ensures var r := After(e, reports);
      && r.id == e.id && r.createdAt == e.createdAt && r.callerID == e.callerID && r.accountID == e.accountID
      && r.surface == e.surface && r.model == e.model && r.stream == e.stream && r.userInput == e.userInput
      && r.messages == e.messages && r.historyText == e.historyText && r.finalPrompt == e.finalPrompt
  {
    hide Trim;
    if reports != [] {
      StartStays(e, reports[..|reports| - 1]);
    }
  }

  lemma UpdatedMarks(e: Entry, r: Report)
    ensures var u := Updated(e, r.p, r.revision, r.now);
      && u.completedAt == (if r.p.completed then r.now else e.completedAt)
      && u.usage == (if r.p.usage.NoUsage? then e.usage else r.p.usage)
  {
    hide Trim;
  }

  /** Report i is the last completing one. */
  predicate LastCompleting(reports: seq<Report>, i: nat) {
    i < |reports| && reports[i].p.completed && forall j :: i < j < |reports| ==> !reports[j].p.completed
  }

  /** An entry is completed at the time of its last completing update; before that it is as it was. */
  lemma {:induction false} CompletedWhen(e: Entry, reports: seq<Report>)
    ensures (forall i :: 0 <= i < |reports| ==> !reports[i].p.completed) ==>
      After(e, reports).completedAt == e.completedAt
    ensures forall i: nat :: LastCompleting(reports, i) ==> After(e, reports).completedAt == reports[i].now
  {
    if reports != [] {
      var init, last := reports[..|reports| - 1], reports[|reports| - 1];
      CompletedWhen(e, init);
      UpdatedMarks(After(e, init), last);
      hide Updated;
      forall i: nat | LastCompleting(reports, i) ensures After(e, reports).completedAt == reports[i].now {
        assert i < |init| ==> LastCompleting(init, i);
      }
    }
  }

  /** Report i is the last one that gives the usage. */
  predicate LastUsage(reports: seq<Report>, i: nat) {
    i < |reports| && !reports[i].p.usage.NoUsage? && forall j :: i < j < |reports| ==> reports[j].p.usage.NoUsage?
  }

  /** The usage is the last one given. */
  lemma {:induction false} UsageStays(e: Entry, reports: seq<Report>)
    ensures (forall i :: 0 <= i < |reports| ==> reports[i].p.usage.NoUsage?) ==> After(e, reports).usage == e.usage
    ensures forall i: nat :: LastUsage(reports, i) ==> After(e, reports).usage == reports[i].p.usage
  {
    if reports != [] {
      var init, last := reports[..|reports| - 1], reports[|reports| - 1];
      UsageStays(e, init);
      UpdatedMarks(After(e, init), last);
      hide Updated;
      forall i: nat | LastUsage(reports, i) ensures After(e, reports).usage == reports[i].p.usage {
        assert i < |init| ==> LastUsage(init, i);
      }
    }
  }

  /** A new entry is streaming, not completed, and has no answer yet; the request is recorded without blanks around
      its short texts, and its messages and prompt history as they are. */
  lemma NewEntry(p: StartParams, id: string, revision: int, now: int)
    ensures var e := Started(p, id, revision, now);
      && e.status == "streaming" && e.completedAt == 0 && e.updatedAt == e.createdAt == now
      && e.reasoning == "" && e.content == "" && e.error == "" && e.finishReason == "" && e.usage.NoUsage?
      && e.statusCode == 0 && e.elapsedMs == 0
      && e.callerID == Trim(p.callerID) && e.accountID == Trim(p.accountID) && e.surface == Trim(p.surface)
      && e.model == Trim(p.model) && e.userInput == Trim(p.userInput) && e.finalPrompt == Trim(p.finalPrompt)
      && e.stream == p.stream && e.messages == p.messages && e.historyText == p.historyText
  {
    hide Trim;
  }

  /** The preview begins with the answer; without one with the reasoning, then the error, then the question; and
      texts longer than 160 characters are cut there. */
  lemma PreviewShows(e: Entry, text: string)
    requires text != "" && Trim(text) == text
    requires
      || Trim(e.content) == text
      || (Trim(e.content) == "" && Trim(e.reasoning) == text)
      || (Trim(e.content) == "" && Trim(e.reasoning) == "" && Trim(e.error) == text)
      || (Trim(e.content) == "" && Trim(e.reasoning) == "" && Trim(e.error) == "" && Trim(e.userInput) == text)
    ensures |text| <= 160 ==> SummaryOf(e).preview == text
    ensures |text| > 160 ==> SummaryOf(e).preview == text[..160] + "..."
  {
    hide Trim;
  }

  /** The index tells of an entry what the entry says, and the revision of its file. */
  lemma SummaryAgrees(e: Entry)
    ensures var s := SummaryOf(e);
      && s.id == e.id && s.revision == s.detailRevision == e.revision && s.createdAt == e.createdAt
      && s.updatedAt == e.updatedAt && s.completedAt == e.completedAt && s.status == e.status
      && s.callerID == e.callerID && s.accountID == e.accountID && s.surface == e.surface && s.model == e.model
      && s.stream == e.stream && s.userInput == e.userInput && s.statusCode == e.statusCode
      && s.elapsedMs == e.elapsedMs && s.finishReason == e.finishReason
  {
    hide Preview;
  }

  /** The supported limits: none at all, ten, twenty, the default, or fifty entries. */
  lemma SupportedLimits(limit: int)
    ensures IsAllowedLimit(limit) <==> limit in {0, 10, 20, 50}
    ensures DEFAULT_LIMIT == 20
  {
  }
}
