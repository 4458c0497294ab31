/** internal/chathistory/store.go: the ranking of entries and the limit on their number. */
module History {
  import opened Text

  datatype Message = Message(role: string, content: string)

  datatype Usage = NoUsage | Usage(values: map<string, string>)

  datatype Entry = Entry(
    id: string, revision: int, createdAt: int, updatedAt: int, completedAt: int, status: string,
    callerID: string, accountID: string, surface: string, model: string, stream: bool, userInput: string,
    messages: seq<Message>, historyText: string, finalPrompt: string, reasoning: string, content: string,
    error: string, statusCode: int, elapsedMs: int, finishReason: string, usage: Usage)

  datatype Summary = Summary(
    id: string, revision: int, createdAt: int, updatedAt: int, completedAt: int, status: string,
    callerID: string, accountID: string, surface: string, model: string, stream: bool, userInput: string,
    preview: string, statusCode: int, elapsedMs: int, finishReason: string, detailRevision: int)

  datatype File = File(version: int, limit: int, revision: int, items: seq<Summary>)

  const FILE_VERSION := 2
  const DEFAULT_LIMIT := 20
  const PREVIEW_AT := 160

  predicate IsAllowedLimit(limit: int) {
    limit == 0 || limit == 10 || limit == 20 || limit == 50
  }

  /** The first of the four texts that is not blank, cut to the preview length. */
  function Preview(e: Entry): string {
    var content, reasoning, error := Trim(e.content), Trim(e.reasoning), Trim(e.error);
    var text := if content != "" then content else if reasoning != "" then reasoning
                else if error != "" then error else Trim(e.userInput);
    if |text| > PREVIEW_AT then text[..PREVIEW_AT] + "..." else text
  }

  function SummaryOf(e: Entry): Summary {
    Summary(e.id, e.revision, e.createdAt, e.updatedAt, e.completedAt, e.status, e.callerID, e.accountID, e.surface,
            e.model, e.stream, e.userInput, Preview(e), e.statusCode, e.elapsedMs, e.finishReason, e.revision)
  }

  // ---- the ranking

  /** The comparison of sort.Slice: later creation first, then higher revision, then later update. */
  predicate Before(a: Summary, b: Summary) {
    if a.createdAt == b.createdAt then
      if a.revision == b.revision then a.updatedAt > b.updatedAt else a.revision > b.revision
    else a.createdAt > b.createdAt
  }

  /** Strictly ordered. */
  predicate Ranked(items: seq<Summary>) {
    forall i, j :: 0 <= i < j < |items| ==> Before(items[i], items[j])
  }

  function IDs(items: seq<Summary>): set<string> {
    set i | 0 <= i < |items| :: items[i].id
  }

  /** The items are the summaries of the details. */
  predicate Lists(items: seq<Summary>, details: map<string, Entry>) {
    && IDs(items) == details.Keys
    && forall i :: 0 <= i < |items| ==> items[i].id in details && items[i] == SummaryOf(details[items[i].id])
  }

  /** Entries are filed under their own identifier and have different revisions, none above the last one. */
  predicate Sound(details: map<string, Entry>, revision: int) {
    && (forall id :: id in details ==>
          details[id].id == id && Trim(id) == id && id != "" && details[id].revision <= revision)
    && (forall a, b :: a in details && b in details && a != b ==> details[a].revision != details[b].revision)
  }

  function Insert(items: seq<Summary>, s: Summary): seq<Summary> {
    if items == [] || Before(s, items[0]) then [s] + items else [items[0]] + Insert(items[1..], s)
  }

  /** Where the summary goes: behind every item that it does not rank before. */
  lemma {:induction false} InsertPlace(items: seq<Summary>, s: Summary) returns (p: nat)
    ensures p <= |items| && Insert(items, s) == items[..p] + [s] + items[p..]
    ensures (forall i :: 0 <= i < p ==> !Before(s, items[i])) && (p < |items| ==> Before(s, items[p]))
  {
    hide Before;
    if items == [] || Before(s, items[0]) {
      p := 0;
    } else {
      p := InsertPlace(items[1..], s);
      assert forall i :: 0 <= i < p ==> items[i + 1] == items[1..][i];
      p := p + 1;
      assert items[..p] == [items[0]] + items[1..][..p - 1];
    }
  }

  function Placed(items: seq<Summary>, s: Summary, p: nat): seq<Summary>
    requires p <= |items|
  {
    items[..p] + [s] + items[p..]
  }

  lemma PlacedRanks(items: seq<Summary>, s: Summary, p: nat, i: nat, j: nat)
    requires Ranked(items) && p <= |items| && forall k :: 0 <= k < |items| ==> items[k].revision != s.revision
    requires (forall k :: 0 <= k < p ==> !Before(s, items[k])) && (p < |items| ==> Before(s, items[p]))
    requires i < j <= |items|
    ensures Before(Placed(items, s, p)[i], Placed(items, s, p)[j])
  {
    if i == p {
      if p < j - 1 {
        assert Before(items[p], items[j - 1]);
      }
    } else if j == p {
      Opposite(s, items[i]);
    } else {
      assert Before(items[if i < p then i else i - 1], items[if j < p then j else j - 1]);
    }
  }

  lemma PlacedHas(items: seq<Summary>, s: Summary, p: nat)
    requires p <= |items|
    ensures |Placed(items, s, p)| == |items| + 1 && s in Placed(items, s, p)
    ensures forall k :: 0 <= k < |items| + 1 ==> Placed(items, s, p)[k] == s || Placed(items, s, p)[k] in items
    ensures forall i :: 0 <= i < |items| ==> items[i] in Placed(items, s, p)
  {
    var r := Placed(items, s, p);
    assert r[p] == s;
    forall i | 0 <= i < |items| ensures items[i] in r {
      assert r[if i < p then i else i + 1] == items[i];
    }
  }

  lemma InsertRanks(items: seq<Summary>, s: Summary)
    requires Ranked(items) && forall i :: 0 <= i < |items| ==> items[i].revision != s.revision
    ensures Ranked(Insert(items, s)) && |Insert(items, s)| == |items| + 1
    ensures forall k :: 0 <= k < |items| + 1 ==> Insert(items, s)[k] == s || Insert(items, s)[k] in items
    ensures s in Insert(items, s) && forall i :: 0 <= i < |items| ==> items[i] in Insert(items, s)
  {
    var p := InsertPlace(items, s);
    assert Insert(items, s) == Placed(items, s, p);
    PlacedHas(items, s, p);
    forall i, j | 0 <= i < j < |items| + 1 ensures Before(Placed(items, s, p)[i], Placed(items, s, p)[j]) {
      PlacedRanks(items, s, p, i, j);
    }
    hide Insert, Placed, Before;
  }

  lemma Opposite(a: Summary, b: Summary)
    requires !Before(a, b) && a.revision != b.revision
    ensures Before(b, a)
  {
  }

  lemma TailLists(a: seq<Summary>, details: map<string, Entry>)
    requires a != [] && Ranked(a) && Lists(a, details)
    ensures Ranked(a[1..]) && Lists(a[1..], details - {a[0].id})
  {
    var rest := details - {a[0].id};
    forall i | 0 < i < |a| ensures a[i].id != a[0].id {
      assert Before(a[0], a[i]);
    }
    assert forall i :: 0 <= i < |a[1..]| ==> a[1..][i] == a[i + 1];
    forall id | id in rest ensures id in IDs(a[1..]) {
      assert id in IDs(a);
      var i :| 0 <= i < |a| && a[i].id == id;
      assert a[1..][i - 1].id == id;
    }
  }

  lemma {:induction false} AsManyAsDetails(a: seq<Summary>, details: map<string, Entry>)
    requires Ranked(a) && Lists(a, details)
    ensures |a| == |details|
    decreases |a|
  {
    if a == [] {
      assert details.Keys == {};
    } else {
      TailLists(a, details);
      AsManyAsDetails(a[1..], details - {a[0].id});
      assert a[0].id in IDs(a);
    }
  }

  /** The ranking is determined by the details, whatever order a map yields them in. */
  lemma {:induction false} RankingUnique(a: seq<Summary>, b: seq<Summary>, details: map<string, Entry>)
    requires Ranked(a) && Ranked(b) && Lists(a, details) && Lists(b, details)
    ensures a == b
    decreases |a|
  {
    AsManyAsDetails(a, details);
    AsManyAsDetails(b, details);
    if a != [] {
      SameFirst(a, b, details);
      TailLists(a, details);
      TailLists(b, details);
      RankingUnique(a[1..], b[1..], details - {a[0].id});
    }
  }

  lemma SameFirst(a: seq<Summary>, b: seq<Summary>, details: map<string, Entry>)
    requires a != [] && b != [] && Ranked(a) && Ranked(b) && Lists(a, details) && Lists(b, details)
    ensures a[0] == b[0]
  {
    hide SummaryOf;
    assert a[0].id in IDs(b);
    var j :| 0 <= j < |b| && b[j].id == a[0].id;
    assert b[0].id in IDs(a);
    var i :| 0 <= i < |a| && a[i].id == b[0].id;
    assert a[0] == b[j] && a[i] == b[0];
  }

  // ---- the limit

  /** The entries that rank among the first n. */
  function Top(items: seq<Summary>, details: map<string, Entry>, n: nat): map<string, Entry>
    requires n <= |items|
  {
    map id | id in details && id in IDs(items[..n]) :: details[id]
  }

  lemma TopLists(items: seq<Summary>, details: map<string, Entry>, n: nat)
    requires Ranked(items) && Lists(items, details) && n <= |items|
    ensures Ranked(items[..n]) && Lists(items[..n], Top(items, details, n)) && |Top(items, details, n)| == n
  {
    var top := Top(items, details, n);
    assert forall i :: 0 <= i < n ==> items[..n][i] == items[i];
    forall i | 0 <= i < n ensures items[..n][i].id in top {
      assert items[..n][i].id in IDs(items[..n]);
    }
    AsManyAsDetails(items[..n], top);
  }

  /** The entries that rank before this one. */
  function Ahead(details: map<string, Entry>, s: Summary): set<string> {
    set id | id in details && Before(SummaryOf(details[id]), s)
  }

  lemma BeforeIsLower(items: seq<Summary>, j: nat, k: nat)
    requires Ranked(items) && j < |items| && k < |items|
    ensures Before(items[j], items[k]) <==> j < k
  {
    if k < j {
      assert Before(items[k], items[j]);
    }
  }

  lemma SameIDSamePlace(items: seq<Summary>, details: map<string, Entry>, i: nat, j: nat)
    requires Ranked(items) && Lists(items, details) && i < |items| && j < |items| && items[i].id == items[j].id
    ensures i == j
  {
    BeforeIsLower(items, i, j);
    BeforeIsLower(items, j, i);
  }

  lemma InTop(items: seq<Summary>, details: map<string, Entry>, n: nat, k: nat)
    requires Ranked(items) && Lists(items, details) && n <= |items| && k < |items|
    ensures items[k].id in Top(items, details, n) <==> k < n
  {
    hide Ranked, SummaryOf;
    if k < n {
      assert items[..n][k].id in IDs(items[..n]);
    }
    if items[k].id in IDs(items[..n]) {
      var i :| 0 <= i < n && items[..n][i].id == items[k].id;
      SameIDSamePlace(items, details, i, k);
    }
  }

  lemma PositionIsCount(items: seq<Summary>, details: map<string, Entry>, k: nat)
    requires Ranked(items) && Lists(items, details) && k < |items|
    ensures |Ahead(details, items[k])| == k
  {
    TopLists(items, details, k);
    var top := Top(items, details, k);
    hide Ranked, Before, SummaryOf;
    forall id | id in details ensures id in Ahead(details, items[k]) <==> id in top {
      assert id in IDs(items);
      var j :| 0 <= j < |items| && items[j].id == id;
      InTop(items, details, k, j);
      BeforeIsLower(items, j, k);
    }
    assert Ahead(details, items[k]) == top.Keys;
  }

  /** An entry is among the first n exactly when fewer than n entries rank before it. */
  lemma KeptExactly(items: seq<Summary>, details: map<string, Entry>, id: string, n: nat)
    requires Ranked(items) && Lists(items, details) && id in details && n <= |items|
    ensures id in Top(items, details, n) <==> |Ahead(details, SummaryOf(details[id]))| < n
  {
    assert id in IDs(items);
    var k :| 0 <= k < |items| && items[k].id == id;
    PositionIsCount(items, details, k);
    InTop(items, details, n, k);
  }

  /** What the index and the details are after a rebuild under a limit; 0 stands for no limit. */
  predicate Rebuilt(items: seq<Summary>, details: map<string, Entry>, all: map<string, Entry>, limit: int)
    requires limit >= 0
  {
    && Ranked(items) && Lists(items, details)
    && (limit == 0 || |all| <= limit ==> details == all)
    && (0 < limit < |all| ==>
          |items| == limit && forall id :: id in all ==>
            (id in details <==> |Ahead(all, SummaryOf(all[id]))| < limit) && (id in details ==> details[id] == all[id]))
    && details.Keys <= all.Keys
  }

  /** A fresh entry, whose revision is above all others, ranks behind exactly the entries created later. */
  lemma FreshRank(all: map<string, Entry>, e: Entry)
    requires e.id in all && all[e.id] == e
    requires forall id :: id in all && id != e.id ==> all[id].revision < e.revision
    ensures Ahead(all, SummaryOf(e)) == set id | id in all && all[id].createdAt > e.createdAt
  {
  }
}
