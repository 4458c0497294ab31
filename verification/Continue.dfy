/** internal/deepseek/client/client_continue.go: continuing an incomplete answer in further rounds and
    splicing the rounds into one stream. */
module Continue {
  import opened Text
  import opened JsonValue

  datatype Decoding = Bad | Good(chunk: map<string, Json>)

  /** The JSON decoder, and the text that fmt.Sprint gives a value that is neither null nor a string. */
  datatype Codec = Codec(decode: string -> Decoding, render: Json -> string)

  function AsString(c: Codec, v: Json): string {
    match v
    case Null => ""
    case Str(s) => s
    case _ => c.render(v)
  }

  function TrimSlashes(s: string): string {
    TrimRight(TrimLeft(Trim(s), "/"), "/")
  }

  // ---- what a chunk says

  datatype Signal = MessageID(id: int) | Status(text: string) | AutoContinue

  function PathSignals(c: Codec, path: string, value: Json): seq<Signal> {
    var p := TrimSlashes(path);
    if p == "response/status" || p == "status" || p == "response/quasi_status" || p == "quasi_status" then
      [Status(AsString(c, value))]
    else if (p == "response/auto_continue" || p == "auto_continue") && value == Bool(true) then [AutoContinue]
    else []
  }

  function FullPath(parent: string, path: string): string {
    if TrimSlashes(parent) != "" && FindFrom(path, 0, "/") < 0 then TrimSlashes(parent) + "/" + path else path
  }

  function PatchSignals(c: Codec, parent: string, patch: Json): seq<Signal> {
    if !patch.Obj? then []
    else
      var path := Trim(AsString(c, Get(patch.fields, "p")));
      if path == "" then [] else PathSignals(c, FullPath(parent, path), Get(patch.fields, "v"))
  }

  function BatchSignals(c: Codec, parent: string, patches: seq<Json>): seq<Signal> {
    if patches == [] then []
    else BatchSignals(c, parent, patches[..|patches| - 1]) + PatchSignals(c, parent, patches[|patches| - 1])
  }

  function IDSignals(v: Json): seq<Signal> {
    if v.Num? && v.value.Floor > 0 then [MessageID(v.value.Floor)] else []
  }

  function ResponseSignals(c: Codec, raw: Json): seq<Signal> {
    if !raw.Obj? then []
    else
      IDSignals(Get(raw.fields, "message_id")) + [Status(AsString(c, Get(raw.fields, "status")))]
      + (if Get(raw.fields, "auto_continue") == Bool(true) then [AutoContinue] else [])
  }

  function Inner(v: Json, key: string): Json {
    if v.Obj? then Get(v.fields, key) else Null
  }

  function ChunkSignals(c: Codec, chunk: map<string, Json>): seq<Signal> {
    var v := Get(chunk, "v");
    IDSignals(Get(chunk, "response_message_id"))
    + PathSignals(c, AsString(c, Get(chunk, "p")), v)
    + BatchSignals(c, if Get(chunk, "p") == Str("response") then "response" else "", if v.Arr? then v.items else [])
    + ResponseSignals(c, Inner(v, "response"))
    + ResponseSignals(c, Inner(Get(chunk, "message"), "response"))
  }

  function DataSignals(c: Codec, data: string): seq<Signal> {
    if Trim(data) == "" then []
    else
      match c.decode(data)
      case Bad => []
      case Good(chunk) => ChunkSignals(c, chunk)
  }

  // ---- the state that the signals drive

  datatype View = View(sessionID: string, responseMessageID: int, lastStatus: string, finished: bool)

  predicate Finishes(status: string) {
    Lower(Trim(status)) == "finished" || Lower(Trim(status)) == "content_filter"
  }

  function Applied(s: View, signal: Signal): View {
    match signal
    case MessageID(id) => s.(responseMessageID := id)
    case AutoContinue => s.(lastStatus := "AUTO_CONTINUE")
    case Status(text) =>
      if Trim(text) == "" then s else s.(lastStatus := Trim(text), finished := s.finished || Finishes(text))
  }

  function AppliedAll(s: View, signals: seq<Signal>): View {
    if signals == [] then s else Applied(AppliedAll(s, signals[..|signals| - 1]), signals[|signals| - 1])
  }

  predicate Incomplete(status: string) {
    Lower(Trim(status)) == "incomplete" || Lower(Trim(status)) == "auto_continue"
  }

  predicate MayContinue(s: View) {
    !s.finished && s.responseMessageID > 0 && Trim(s.sessionID) != "" && Incomplete(s.lastStatus)
  }

  function NextRound(s: View): View {
    s.(finished := false, lastStatus := "")
  }

  lemma {:induction false} AppliedAppend(s: View, a: seq<Signal>, b: seq<Signal>)
    ensures AppliedAll(s, a + b) == AppliedAll(AppliedAll(s, a), b)
    decreases |b|
  {
    if b == [] {
      assert a + b == a;
    } else {
      assert (a + b)[..|a + b| - 1] == a + b[..|b| - 1];
      AppliedAppend(s, a, b[..|b| - 1]);
    }
  }

  /** continueState */
  class ContinueState {
    var sessionID: string
    var responseMessageID: int
    var lastStatus: string
    var finished: bool

    function Value(): View
      reads this
    {
      View(sessionID, responseMessageID, lastStatus, finished)
    }

    constructor (sessionID: string)
      ensures Value() == View(sessionID, 0, "", false)
    {
      this.sessionID, responseMessageID, lastStatus, finished := sessionID, 0, "", false;
    }

    method SetStatus(status: string)
      modifies this
      ensures Value() == Applied(old(Value()), Status(status))
    {
      var normalized := Trim(status);
      if normalized == "" {
        return;
      }
      lastStatus := normalized;
      if Lower(normalized) == "finished" || Lower(normalized) == "content_filter" {
        TrimTwice(status);
        finished := true;
      }
      TrimTwice(status);
    }

    method ObservePath(c: Codec, path: string, value: Json)
      modifies this
      ensures Value() == AppliedAll(old(Value()), PathSignals(c, path, value))
    {
      var p := TrimSlashes(path);
      if p == "response/status" || p == "status" || p == "response/quasi_status" || p == "quasi_status" {
        SetStatus(AsString(c, value));
        AppliedOne(old(Value()), Status(AsString(c, value)));
      } else if (p == "response/auto_continue" || p == "auto_continue") && value == Bool(true) {
        lastStatus := "AUTO_CONTINUE";
        AppliedOne(old(Value()), AutoContinue);
      }
    }

    method ObserveBatchPatches(c: Codec, parentPath: string, raw: Json)
      modifies this
      ensures Value() == AppliedAll(old(Value()), BatchSignals(c, parentPath, if raw.Arr? then raw.items else []))
    {
      hide PathSignals, Applied;
      if !raw.Arr? {
        return;
      }
      var patches := raw.items;
      for i := 0 to |patches|
        invariant Value() == AppliedAll(old(Value()), BatchSignals(c, parentPath, patches[..i]))
      {
        assert patches[..i + 1][..i] == patches[..i];
        AppliedAppend(old(Value()), BatchSignals(c, parentPath, patches[..i]), PatchSignals(c, parentPath, patches[i]));
        var patch := patches[i];
        if !patch.Obj? {
          continue;
        }
        var path := Trim(AsString(c, Get(patch.fields, "p")));
        if path == "" {
          continue;
        }
        ObservePath(c, FullPath(parentPath, path), Get(patch.fields, "v"));
      }
      assert patches[..|patches|] == patches;
    }

    method ObserveID(v: Json)
      modifies this
      ensures Value() == AppliedAll(old(Value()), IDSignals(v))
    {
      if v.Num? && v.value.Floor > 0 {
        responseMessageID := v.value.Floor;
        AppliedOne(old(Value()), MessageID(v.value.Floor));
      }
    }

    method ObserveResponseObject(c: Codec, raw: Json)
      modifies this
      ensures Value() == AppliedAll(old(Value()), ResponseSignals(c, raw))
    {
      hide Applied, IDSignals;
      if !raw.Obj? {
        return;
      }
      ghost var s := Value();
      var response := raw.fields;
      ghost var ids := IDSignals(Get(response, "message_id"));
      ghost var status := Status(AsString(c, Get(response, "status")));
      ObserveID(Get(response, "message_id"));
      AppliedAppend(s, ids, [status]);
      AppliedOne(Value(), status);
      SetStatus(AsString(c, Get(response, "status")));
      AppliedAppend(s, ids + [status], [AutoContinue]);
      AppliedOne(Value(), AutoContinue);
      AutoContinues(Value());
      assert ids + [status] + [] == ids + [status];
      if Get(response, "auto_continue") == Bool(true) {
        lastStatus := "AUTO_CONTINUE";
      }
    }

    method Observe(c: Codec, data: string)
      modifies this
      ensures Value() == AppliedAll(old(Value()), DataSignals(c, data))
    {
      hide Applied, AppliedAll, IDSignals, PathSignals, BatchSignals, ResponseSignals;
      if Trim(data) == "" {
        NoSignals(Value());
        return;
      }
      var decoding := c.decode(data);
      if decoding.Bad? {
        NoSignals(Value());
        return;
      }
      var chunk := decoding.chunk;
      var v := Get(chunk, "v");
      ghost var s := Value();
      ghost var a := IDSignals(Get(chunk, "response_message_id"));
      ObserveID(Get(chunk, "response_message_id"));
      ghost var b := PathSignals(c, AsString(c, Get(chunk, "p")), v);
      AppliedAppend(s, a, b);
      ObservePath(c, AsString(c, Get(chunk, "p")), v);
      var parent := if Get(chunk, "p") == Str("response") then "response" else "";
      ghost var d := BatchSignals(c, parent, if v.Arr? then v.items else []);
      AppliedAppend(s, a + b, d);
      ObserveBatchPatches(c, parent, v);
      ghost var e := ResponseSignals(c, Inner(v, "response"));
      AppliedAppend(s, a + b + d, e);
      ObserveResponseObject(c, Inner(v, "response"));
      AppliedAppend(s, a + b + d + e, ResponseSignals(c, Inner(Get(chunk, "message"), "response")));
      ObserveResponseObject(c, Inner(Get(chunk, "message"), "response"));
    }

    method ShouldContinue() returns (r: bool)
      ensures r == MayContinue(Value())
    {
      if finished || responseMessageID <= 0 || Trim(sessionID) == "" {
        return false;
      }
      var status := Lower(Trim(lastStatus));
      return status == "incomplete" || status == "auto_continue";
    }

    method PrepareForNextRound()
      modifies this
      ensures Value() == NextRound(old(Value()))
    {
      finished := false;
      lastStatus := "";
    }
  }

  lemma NoSignals(s: View)
    ensures AppliedAll(s, []) == s
  {
  }

  lemma AutoContinues(s: View)
    ensures Applied(s, AutoContinue) == s.(lastStatus := "AUTO_CONTINUE")
  {
  }

  lemma AppliedOne(s: View, signal: Signal)
    ensures AppliedAll(s, [signal]) == Applied(s, signal)
  {
    assert [signal][..0] == [];
  }
}
