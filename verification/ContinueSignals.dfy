/** Which chunks change the state of a continued answer, and how. */
module ContinueSignals {
  import opened Text
  import opened JsonValue
  import opened Continue
  import Splice

  predicate IsStatusPath(path: string) {
    path == "response/status" || path == "status" || path == "response/quasi_status" || path == "quasi_status"
  }

  predicate IsAutoContinuePath(path: string) {
    path == "response/auto_continue" || path == "auto_continue"
  }

  predicate IsFinishing(status: string) {
    Lower(status) == "finished" || Lower(status) == "content_filter"
  }

  /** The state once a status has been noted. */
  function WithStatus(s: View, text: string): View {
    View(s.sessionID, s.responseMessageID, Trim(text), s.finished || IsFinishing(Trim(text)))
  }

  // ---- reading the state off the signals

  lemma StatusApplies(s: View, text: string)
    requires Trim(text) != ""
    ensures Applied(s, Status(text)) == WithStatus(s, text)
  {
    TrimTwice(text);
  }

  lemma StatusSignals(c: Codec, path: string, text: string)
    ensures IsStatusPath(TrimSlashes(path)) ==> PathSignals(c, path, Str(text)) == [Status(text)]
    ensures !IsStatusPath(TrimSlashes(path)) ==> PathSignals(c, path, Str(text)) == []
  {
    hide TrimSlashes;
  }

  /** A chunk that sets the value at a path. */
  function Patch(path: string, value: Json): map<string, Json> {
    map["p" := Str(path), "v" := value]
  }

  lemma PatchOnly(c: Codec, path: string, value: Json)
    requires !value.Arr? && !value.Obj?
    ensures ChunkSignals(c, Patch(path, value)) == PathSignals(c, path, value)
  {
    hide PathSignals;
    var chunk := Patch(path, value);
    assert Get(chunk, "p") == Str(path) && Get(chunk, "v") == value;
    assert Get(chunk, "response_message_id") == Null && Get(chunk, "message") == Null;
    assert BatchSignals(c, if Get(chunk, "p") == Str("response") then "response" else "", []) == [];
  }

  /** A text at one of the four status paths, slashes around them aside, is noted as the status, and marks the round as
      finished if it says so; at any other path it changes nothing. */
  lemma StatusIsNoted(c: Codec, s: View, path: string, text: string)
    requires Trim(text) != ""
    ensures AppliedAll(s, ChunkSignals(c, Patch(path, Str(text))))
         == if IsStatusPath(TrimSlashes(path)) then WithStatus(s, text) else s
  {
    PatchOnly(c, path, Str(text));
    StatusSignals(c, path, text);
    AppliedOne(s, Status(text));
    StatusApplies(s, text);
    hide ChunkSignals, PathSignals, TrimSlashes, Trim;
    NoSignals(s);
  }

  /** A blank status changes nothing. */
  lemma BlankStatus(c: Codec, s: View, path: string, text: string)
    requires Trim(text) == ""
    ensures AppliedAll(s, ChunkSignals(c, Patch(path, Str(text)))) == s
  {
    PatchOnly(c, path, Str(text));
    StatusSignals(c, path, text);
    AppliedOne(s, Status(text));
    hide ChunkSignals, PathSignals, TrimSlashes, Trim;
    NoSignals(s);
  }

  lemma AutoContinueSignals(c: Codec, path: string, on: bool)
    requires !IsStatusPath(TrimSlashes(path))
    ensures PathSignals(c, path, Bool(on)) ==
      if on && IsAutoContinuePath(TrimSlashes(path)) then [AutoContinue] else []
  {
    hide TrimSlashes;
  }

  /** The mark at either auto-continue path counts when it is true, and only there. */
  lemma AutoContinueIsNoted(c: Codec, s: View, path: string, on: bool)
    requires !IsStatusPath(TrimSlashes(path))
    ensures AppliedAll(s, ChunkSignals(c, Patch(path, Bool(on))))
         == if on && IsAutoContinuePath(TrimSlashes(path)) then s.(lastStatus := "AUTO_CONTINUE") else s
  {
    hide *;
    PatchOnly(c, path, Bool(on));
    AutoContinueSignals(c, path, on);
    AppliedOne(s, AutoContinue);
    AutoContinues(s);
    NoSignals(s);
  }

  lemma Unspaced(s: string)
    requires s != "" && !IsSpace(s[0]) && !IsSpace(s[|s| - 1])
    ensures Trim(s) == s
  {
  }

  lemma OnlySlash(c: char)
    ensures c in "/" <==> c == '/'
  {
  }

  lemma LeftSlash(s: string)
    requires s != "" && s[0] != '/'
    ensures TrimLeft(s, "/") == s && TrimLeft("/" + s, "/") == s
  {
    OnlySlash(s[0]);
    OnlySlash('/');
    assert ("/" + s)[1..] == s && ("/" + s)[0] == '/';
    assert TrimLeft(s, "/") == s;
  }

  lemma RightSlash(s: string)
    requires s != "" && s[|s| - 1] != '/'
    ensures TrimRight(s, "/") == s && TrimRight(s + "/", "/") == s
  {
    OnlySlash(s[|s| - 1]);
    OnlySlash('/');
    assert (s + "/")[..|s + "/"| - 1] == s && (s + "/")[|s|] == '/';
    assert TrimRight(s, "/") == s;
  }

  lemma KeepsHead(s: string)
    requires s != "" && s[0] != '/'
    ensures TrimLeft(s + "/", "/") == s + "/"
  {
    OnlySlash(s[0]);
    assert (s + "/")[0] == s[0];
  }

  /** Slashes around a path do not matter. */
  lemma SlashesIgnored(name: string)
    requires name != "" && name[0] != '/' && name[|name| - 1] != '/'
    requires !IsSpace(name[0]) && !IsSpace(name[|name| - 1])
    ensures TrimSlashes(name) == name && TrimSlashes("/" + name) == name && TrimSlashes(name + "/") == name
  {
    var left, right := "/" + name, name + "/";
    assert left[0] == '/' && left[|left| - 1] == name[|name| - 1] && right[0] == name[0] && right[|right| - 1] == '/';
    Unspaced(name);
    Unspaced(left);
    Unspaced(right);
    LeftSlash(name);
    RightSlash(name);
    KeepsHead(name);
    hide Trim, TrimLeft, TrimRight;
  }

  // ---- batches

  lemma PatchAt(c: Codec, parent: string, path: string, value: Json)
    requires Trim(path) == path && path != ""
    ensures PatchSignals(c, parent, Obj(Patch(path, value))) == PathSignals(c, FullPath(parent, path), value)
  {
    PatchHas(path, value);
    hide Trim, FullPath, PathSignals, Get;
  }

  lemma StatusPatch(c: Codec, text: string)
    ensures PatchSignals(c, "response", Obj(Patch("status", Str(text)))) == [Status(text)]
  {
    hide *;
    NamesTrim();
    PatchAt(c, "response", "status", Str(text));
    IsLongStatus();
    StatusSignals(c, "response/status", text);
  }

  lemma IsLongStatus()
    ensures IsStatusPath("response/status")
  {
  }

  lemma EightLong(c: Codec, path: string, v: Json)
    requires |TrimSlashes(path)| == 8
    ensures PathSignals(c, path, v) == []
  {
    hide TrimSlashes;
  }

  lemma ResponsePath(c: Codec, v: Json)
    ensures PathSignals(c, "response", v) == []
  {
    ResponseTrims();
    hide *;
    EightLong(c, "response", v);
  }

  lemma OnePatch(c: Codec, parent: string, patch: Json)
    ensures BatchSignals(c, parent, [patch]) == PatchSignals(c, parent, patch)
  {
    hide PatchSignals;
    assert [patch][..0] == [];
    assert BatchSignals(c, parent, []) == [];
  }

  /** A batch of patches under the path of the response: the path of each is taken below it. */
  lemma BatchStatus(c: Codec, s: View, text: string)
    requires Trim(text) != ""
    ensures AppliedAll(s, ChunkSignals(c, Patch("response", Arr([Obj(Patch("status", Str(text)))]))))
         == WithStatus(s, text)
  {
    var patch := Obj(Patch("status", Str(text)));
    StatusPatch(c, text);
    OnePatch(c, "response", patch);
    ResponseBatch(c, [patch], [Status(text)]);
    hide *;
    AppliedOne(s, Status(text));
    StatusApplies(s, text);
  }

  lemma PatchHas(path: string, value: Json)
    ensures var chunk := Patch(path, value);
      && Get(chunk, "p") == Str(path) && Get(chunk, "v") == value
      && Get(chunk, "response_message_id") == Null && Get(chunk, "message") == Null
  {
  }

  lemma FiveParts(c: Codec, chunk: map<string, Json>, path: string, items: seq<Json>)
    requires Get(chunk, "p") == Str(path) && Get(chunk, "v") == Arr(items)
    requires Get(chunk, "response_message_id") == Null && Get(chunk, "message") == Null
    requires PathSignals(c, path, Arr(items)) == []
    ensures ChunkSignals(c, chunk) == BatchSignals(c, if Str(path) == Str("response") then "response" else "", items)
  {
    NoResponse(c);
    hide PathSignals, BatchSignals, ResponseSignals, Get;
    var parent := if Str(path) == Str("response") then "response" else "";
    assert Inner(Arr(items), "response") == Null && Inner(Null, "response") == Null && IDSignals(Null) == [];
    assert ChunkSignals(c, chunk) == [] + [] + BatchSignals(c, parent, items) + [] + [];
  }

  lemma ResponseBatch(c: Codec, patches: seq<Json>, signals: seq<Signal>)
    requires BatchSignals(c, "response", patches) == signals
    ensures ChunkSignals(c, Patch("response", Arr(patches))) == signals
  {
    hide *;
    PatchHas("response", Arr(patches));
    ResponsePath(c, Arr(patches));
    FiveParts(c, Patch("response", Arr(patches)), "response", patches);
  }

  lemma ResponseTrims()
    ensures TrimSlashes("response") == "response" && |"response"| == 8
  {
    hide TrimSlashes;
    var name := "response";
    assert name[0] == 'r' && name[|name| - 1] == 'e';
    SlashesIgnored(name);
  }

  lemma LongTrims()
    ensures TrimSlashes("response/status") == "response/status"
  {
    hide TrimSlashes;
    var name := "response/status";
    assert name[0] == 'r' && name[|name| - 1] == 's';
    SlashesIgnored(name);
  }

  lemma StatusTrims()
    ensures Trim("status") == "status" && FindFrom("status", 0, "/") == -1 && "status" != ""
  {
    var name := "status";
    assert name[0] == 's' && name[|name| - 1] == 's';
    Unspaced(name);
    hide Trim, FindFrom;
    NoSlash(name, 0);
  }

  lemma Joined()
    ensures "response" + "/" + "status" == "response/status" && "response" != ""
  {
  }

  lemma NamesTrim()
    ensures TrimSlashes("response/status") == "response/status"
    ensures Trim("status") == "status" && "status" != "" && FullPath("response", "status") == "response/status"
  {
    ResponseTrims();
    LongTrims();
    StatusTrims();
    Joined();
    hide TrimSlashes, Trim, FindFrom;
  }

  lemma {:induction false} NoSlash(s: string, i: nat)
    requires forall k :: 0 <= k < |s| ==> s[k] != '/'
    ensures FindFrom(s, i, "/") == -1
    decreases |s| - i
  {
    if i < |s| {
      assert !HasAt(s, i, "/");
      NoSlash(s, i + 1);
    }
  }

  // ---- identifiers and response objects

  /** A positive message identifier is noted. */
  lemma IdIsNoted(c: Codec, s: View, id: real)
    ensures AppliedAll(s, ChunkSignals(c, map["response_message_id" := Num(id)]))
         == if id.Floor > 0 then s.(responseMessageID := id.Floor) else s
  {
    var chunk := map["response_message_id" := Num(id)];
    OnlyId(chunk, Num(id));
    NullPath(c, chunk, Num(id));
    hide ChunkSignals, AppliedAll;
    NoSignals(s);
    AppliedOne(s, MessageID(id.Floor));
  }

  lemma OnlyId(chunk: map<string, Json>, id: Json)
    requires chunk == map["response_message_id" := id]
    ensures Get(chunk, "p") == Null && Get(chunk, "v") == Null && Get(chunk, "message") == Null
    ensures Get(chunk, "response_message_id") == id
  {
  }

  lemma NullPath(c: Codec, chunk: map<string, Json>, id: Json)
    requires Get(chunk, "p") == Null && Get(chunk, "v") == Null && Get(chunk, "message") == Null
    requires Get(chunk, "response_message_id") == id
    ensures ChunkSignals(c, chunk) == IDSignals(id)
  {
    BlankPath(c, Null);
    NoResponse(c);
    hide PathSignals, ResponseSignals, Get, IDSignals;
    assert BatchSignals(c, "", []) == [];
    assert IDSignals(id) + [] + [] + [] + [] == IDSignals(id);
  }

  lemma BlankPath(c: Codec, v: Json)
    ensures PathSignals(c, "", v) == []
  {
    BlankTrims();
    hide TrimSlashes;
  }

  lemma BlankTrims()
    ensures TrimSlashes("") == ""
  {
  }

  /** A response object under v tells its message, its status and its mark, in that order. */
  lemma ResponseIsNoted(c: Codec, s: View, id: real, text: string, on: bool)
    requires id.Floor > 0 && Trim(text) != ""
    ensures var response := map["message_id" := Num(id), "status" := Str(text), "auto_continue" := Bool(on)];
      var noted := WithStatus(s.(responseMessageID := id.Floor), text);
      && AppliedAll(s, ResponseSignals(c, Obj(response)))
         == (if on then noted.(lastStatus := "AUTO_CONTINUE") else noted)
      && ChunkSignals(c, map["v" := Obj(map["response" := Obj(response)])]) == ResponseSignals(c, Obj(response))
      && ChunkSignals(c, map["message" := Obj(map["response" := Obj(response)])]) == ResponseSignals(c, Obj(response))
  {
    var response := map["message_id" := Num(id), "status" := Str(text), "auto_continue" := Bool(on)];
    ResponseState(c, s, id, text, on);
    NothingElse(c, Obj(response));
  }

  lemma ResponseState(c: Codec, s: View, id: real, text: string, on: bool)
    requires id.Floor > 0 && Trim(text) != ""
    ensures var response := map["message_id" := Num(id), "status" := Str(text), "auto_continue" := Bool(on)];
      var noted := WithStatus(s.(responseMessageID := id.Floor), text);
      AppliedAll(s, ResponseSignals(c, Obj(response))) == if on then noted.(lastStatus := "AUTO_CONTINUE") else noted
  {
    var response := map["message_id" := Num(id), "status" := Str(text), "auto_continue" := Bool(on)];
    assert Get(response, "message_id") == Num(id) && Get(response, "status") == Str(text);
    assert Get(response, "auto_continue") == Bool(on);
    var two := [MessageID(id.Floor)] + [Status(text)];
    AppliedAppend(s, [MessageID(id.Floor)], [Status(text)]);
    AppliedOne(s, MessageID(id.Floor));
    AppliedOne(s.(responseMessageID := id.Floor), Status(text));
    StatusApplies(s.(responseMessageID := id.Floor), text);
    var noted := WithStatus(s.(responseMessageID := id.Floor), text);
    AppliedAppend(s, two, [AutoContinue]);
    AppliedOne(noted, AutoContinue);
    hide AppliedAll, Trim;
    assert two + [] == two;
    assert ResponseSignals(c, Obj(response)) == two + (if on then [AutoContinue] else []);
  }

  lemma NothingElse(c: Codec, response: Json)
    requires response.Obj?
    ensures ChunkSignals(c, map["v" := Obj(map["response" := response])]) == ResponseSignals(c, response)
    ensures ChunkSignals(c, map["message" := Obj(map["response" := response])]) == ResponseSignals(c, response)
  {
    var outer := Obj(map["response" := response]);
    OnlyOne("v", outer);
    OnlyOne("message", outer);
    assert Inner(outer, "response") == response;
    hide ChunkSignals, ResponseSignals, Get;
    UnderV(c, map["v" := outer], outer);
    UnderMessage(c, map["message" := outer], outer);
  }

  lemma OnlyOne(key: string, value: Json)
    ensures var chunk := map[key := value];
      Get(chunk, key) == value && forall other :: other != key ==> Get(chunk, other) == Null
  {
  }

  lemma UnderV(c: Codec, chunk: map<string, Json>, v: Json)
    requires Get(chunk, "p") == Null && Get(chunk, "v") == v && Get(chunk, "message") == Null && v.Obj?
    requires Get(chunk, "response_message_id") == Null
    ensures ChunkSignals(c, chunk) == ResponseSignals(c, Inner(v, "response"))
  {
    BlankPath(c, v);
    NoResponse(c);
    hide PathSignals, ResponseSignals, Get;
    assert BatchSignals(c, "", []) == [];
    var more := ResponseSignals(c, Inner(v, "response"));
    assert [] + [] + [] + more + [] == more;
  }

  lemma UnderMessage(c: Codec, chunk: map<string, Json>, message: Json)
    requires Get(chunk, "p") == Null && Get(chunk, "v") == Null && Get(chunk, "message") == message
    requires Get(chunk, "response_message_id") == Null
    ensures ChunkSignals(c, chunk) == ResponseSignals(c, Inner(message, "response"))
  {
    BlankPath(c, Null);
    NoResponse(c);
    hide PathSignals, ResponseSignals, Get;
    assert BatchSignals(c, "", []) == [];
    var more := ResponseSignals(c, Inner(message, "response"));
    assert [] + [] + [] + [] + more == more;
  }

  lemma NoResponse(c: Codec)
    ensures ResponseSignals(c, Null) == []
  {
  }

  // ---- what that means for the round

  /** After a round that ended with this status, the answer is continued exactly when the status is INCOMPLETE or the
      auto-continue mark, in any case of letters, and the session and the message are known. */
  lemma ContinuedAfterStatus(s: View, text: string)
    requires !s.finished && Trim(text) != ""
    ensures MayContinue(WithStatus(s, text)) <==>
      && (Lower(Trim(text)) == "incomplete" || Lower(Trim(text)) == "auto_continue")
      && s.responseMessageID > 0 && Trim(s.sessionID) != ""
  {
    TrimTwice(text);
    var l := Lower(Trim(text));
    hide Trim, Lower;
    assert l == "incomplete" || l == "auto_continue" ==> l != "finished" && l != "content_filter";
  }

  // ---- the lines that carry chunks

  lemma DataLine(data: string)
    requires data != "" && !IsSpace(data[0]) && !IsSpace(data[|data| - 1])
    ensures var line := "data: " + data + "\n"; Splice.IsData(line) && Splice.DataOf(line) == data
  {
    var line := "data: " + data + "\n";
    var bare := "data: " + data;
    assert line == bare + "\n" && bare[|bare| - 1] == data[|data| - 1] && bare[0] == 'd';
    Splice.TrimNewline(bare);
    Unspaced(bare);
    DataPrefix(data);
    LeadingBlank(data);
    hide Trim, HasAt;
    assert bare[5..] == " " + data;
  }

  lemma DataPrefix(data: string)
    ensures HasAt("data: " + data, 0, "data:")
  {
    var bare := "data: " + data;
    assert bare[0] == 'd' && bare[1] == 'a' && bare[2] == 't' && bare[3] == 'a' && bare[4] == ':';
    assert "data:"[1..] == "ata:" && "ata:"[1..] == "ta:" && "ta:"[1..] == "a:" && "a:"[1..] == ":" && ":"[1..] == "";
    assert HasAt(bare, 4, ":");
    assert HasAt(bare, 3, "a:");
    assert HasAt(bare, 2, "ta:");
    assert HasAt(bare, 1, "ata:");
  }

  lemma LeadingBlank(data: string)
    requires data != "" && !IsSpace(data[0]) && !IsSpace(data[|data| - 1])
    ensures Trim(" " + data) == data
  {
    assert (" " + data)[1..] == data && IsSpace((" " + data)[0]);
  }

  /** A data line is observed with what it carries, and passed on; the end marker is neither. */
  lemma DataLineIsRead(c: Codec, data: string)
    requires data != "" && !IsSpace(data[0]) && !IsSpace(data[|data| - 1])
    ensures var line := "data: " + data + "\n";
      && (data != "[DONE]" ==> Splice.LineSignals(c, line) == DataSignals(c, data) && Splice.PassedOn(line))
      && (data == "[DONE]" ==> Splice.LineSignals(c, line) == [] && Splice.IsDone(line) && !Splice.PassedOn(line))
  {
    var line := "data: " + data + "\n";
    DataLine(data);
    Splice.BlankIsNoData(line);
    hide Splice.IsData, Splice.DataOf, DataSignals, Trim;
  }
}
