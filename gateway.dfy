/** The OpenAI-compatible endpoints of the proxy (main.py): the model listing,
    the authentication check and upstream headers of a chat completion, and the
    loop that turns the upstream server-sent-event lines into caller frames.
    The network is left out: the upstream answer is an input (`Upstream`), and
    so is the JSON decoding of a `data:` payload (`decode`). */
module Gateway {
  import opened Wrappers
  import opened Strings
  import opened Seqs
  import opened Translator
  import OAuth

  // ---------------------------------------------------------------------
  // list_models
  // ---------------------------------------------------------------------

  /** One entry of the `/v1/models` listing (its "object" is always "model"). */
  datatype ModelEntry = ModelEntry(id: string, created: int, ownedBy: string, anthropicId: string)

  /** The fixed creation time every listed model carries. */
  const ModelsCreated: int := 1700000000

  /** list_models: one entry per alias of the model table, in table order,
      each naming the upstream model its alias translates to. */
  method ListModels() returns (models: seq<ModelEntry>)
    ensures |models| == |ModelMap|
    ensures forall i :: 0 <= i < |models| ==>
      models[i] == ModelEntry(ModelMap[i].0, ModelsCreated, "anthropic", ModelMap[i].1)
    ensures forall i :: 0 <= i < |models| ==> TranslateModel(models[i].id) == models[i].anthropicId
    ensures forall i, j :: 0 <= i < j < |models| ==> models[i].id != models[j].id
  {
    ModelMapIsDictionary();
    models := [];
    var i := 0;
    while i < |ModelMap|
      invariant 0 <= i <= |ModelMap|
      invariant |models| == i
      invariant forall k :: 0 <= k < i ==>
        models[k] == ModelEntry(ModelMap[k].0, ModelsCreated, "anthropic", ModelMap[k].1)
    {
      var (alias, target) := ModelMap[i];
      models := models + [ModelEntry(alias, ModelsCreated, "anthropic", target)];
      i := i + 1;
    }
  }

  // ---------------------------------------------------------------------
  // chat_completions: authentication and upstream headers
  // ---------------------------------------------------------------------

  /** ANTHROPIC_BETAS: the beta features an OAuth-authenticated call must announce. */
  const AnthropicBetas: seq<string> := [
    "oauth-2025-04-20",
    "claude-code-20250219",
    "interleaved-thinking-2025-05-14",
    "fine-grained-tool-streaming-2025-05-14"
  ]

  /** The headers of every upstream call. */
  datatype Headers = Headers(authorization: string, contentType: string, anthropicVersion: string, anthropicBeta: string)

  /** No beta name contains the ',' that separates them in the header. */
  lemma BetaNamesHaveNoComma()
    ensures forall i :: 0 <= i < |AnthropicBetas| ==> ',' !in AnthropicBetas[i]
  {
    assert ',' !in AnthropicBetas[0];
    assert ',' !in AnthropicBetas[1];
    assert AnthropicBetas[2] == "interleaved-" + "thinking-" + "2025-05-14";
    assert AnthropicBetas[3] == "fine-grained-" + "tool-streaming-" + "2025-05-14";
  }

  /** The headers sent with the access token `token`: a bearer credential, a
      JSON body, API version 2023-06-01 and the comma-separated beta list,
      which a reader splitting on ',' gets back in order. */
  function UpstreamHeaders(token: string): (h: Headers)
    ensures StartsWith(h.authorization, "Bearer ") && h.authorization[7..] == token
    ensures h.contentType == "application/json" && h.anthropicVersion == "2023-06-01"
    ensures Split(h.anthropicBeta, ',') == AnthropicBetas
  {
    BetaNamesHaveNoComma();
    SplitJoin(AnthropicBetas, ',');
    assert "," == [','];
    Headers("Bearer " + token, "application/json", "2023-06-01", Join(",", AnthropicBetas))
  }

  /** An HTTP error answered to the caller. */
  datatype HttpError = HttpError(status: int, detail: string)

  const NotAuthenticated: HttpError :=
    HttpError(401, "Not authenticated. Visit /auth/start to authenticate with Anthropic MAX.")

  /** What chat_completions sends upstream once the caller is authenticated. */
  datatype ForwardPlan = ForwardPlan(request: AnthropicRequest, headers: Headers, originalModel: string, streaming: bool)

  /** The part of chat_completions before the upstream call, given the token
      get_valid_token returned: a missing or empty token is refused with 401
      before the request is translated; otherwise the translated request, its
      headers, the caller's model name and the choice of the streaming path. */
  function Forward(token: Option<string>, body: ChatRequest): (r: Result<ForwardPlan, HttpError>)
    ensures r.Failure? <==> token.None? || token.value == ""
    ensures r.Failure? ==> r.error == NotAuthenticated && r.error.status == 401
    ensures r.Success? ==> r.value.headers == UpstreamHeaders(token.value)
    ensures r.Success? ==> r.value.request == AnthropicRequestOf(body)
    ensures r.Success? ==> r.value.originalModel == body.model.GetOr("")
    ensures r.Success? ==> (r.value.streaming <==> WantsStream(body))
    ensures r.Success? ==> r.value.streaming == r.value.request.stream
  {
    if token.None? || token.value == "" then Failure(NotAuthenticated)
    else
      var request := AnthropicRequestOf(body);
      Success(ForwardPlan(request, UpstreamHeaders(token.value), body.model.GetOr(""), WantsStream(body)))
  }

  /** chat_completions up to the upstream call, against the shared token
      manager: get_valid_token moves the manager from its old cache and file to
      the state StateAfterGetToken gives, and the answer is Forward's for the
      token it hands out; so the caller is refused exactly when no usable token
      is left cached, and otherwise the upstream call carries that token. */
  method ChatCompletions(tm: OAuth.TokenManager, now: int, grant: Option<OAuth.TokenGrant>, body: ChatRequest)
    returns (r: Result<ForwardPlan, HttpError>)
    requires tm.Valid()
    modifies tm`tokens, tm`file
    ensures tm.Valid()
    ensures (tm.tokens, tm.file) == OAuth.StateAfterGetToken(old(tm.tokens), old(tm.file), now, grant)
    ensures r == Forward(OAuth.AccessToken(tm.tokens), body)
    ensures r.Failure? <==> tm.tokens.None? || tm.tokens.value.accessToken == ""
    ensures r.Failure? ==> r.error.status == 401
    ensures r.Success? ==> r.value.headers == UpstreamHeaders(tm.tokens.value.accessToken)
    ensures r.Success? ==> r.value.request == AnthropicRequestOf(body)
  {
    var token, _ := tm.GetValidToken(now, grant);
    if token.None? || token.value == "" {
      return Failure(NotAuthenticated);
    }
    var request := ConvertRequest(body);
    r := Success(ForwardPlan(request, UpstreamHeaders(token.value), body.model.GetOr(""), WantsStream(body)));
  }

  /** A proxy that has never logged in (no cached record, no token file)
      refuses every chat call with 401, whatever the clock and the refresh
      answer. */
  method FreshProxyRefuses(now: int, grant: Option<OAuth.TokenGrant>, body: ChatRequest)
    returns (r: Result<ForwardPlan, HttpError>)
    ensures r == Failure(NotAuthenticated)
  {
    var tm := new OAuth.TokenManager(OAuth.Missing);
    r := ChatCompletions(tm, now, grant, body);
  }

  // ---------------------------------------------------------------------
  // _handle_streaming.generate
  // ---------------------------------------------------------------------

  /** The upstream answer to a streamed call: a non-success status with its
      body text, or the lines of a successful event stream. */
  datatype Upstream = Rejected(errorText: string) | Streamed(lines: seq<string>)

  /** One server-sent event to the caller: a translated chunk, the final
      `[DONE]` marker, or `{"error": text}`. */
  datatype Frame = ChunkFrame(chunk: Chunk) | DoneFrame | ErrorFrame(message: string)

  /** A line naming the type of the events that follow ("event: " is 7 characters). */
  predicate IsEventLine(line: string) {
    StartsWith(line, "event: ")
  }

  /** A line carrying an event payload ("data: " is 6 characters). */
  predicate IsDataLine(line: string) {
    !IsEventLine(line) && StartsWith(line, "data: ")
  }

  /** The loop's state after a prefix of the lines: the current event type
      (None while it is unbound), the chunks yielded so far, and whether the
      loop has ended by reading the unbound event type. */
  datatype ScanState = ScanState(eventType: Option<string>, chunks: seq<Chunk>, raised: bool)

  const Initial: ScanState := ScanState(None, [], false)

  /** One iteration of the line loop. `decode` is json.loads on the payload,
      None when it raises JSONDecodeError. */
  function StepLine(st: ScanState, line: string, decode: string -> Option<EventData>, model: string): (r: ScanState)
    requires !st.raised
    ensures IsEventLine(line) ==> r == st.(eventType := Some(line[7..]))
    ensures !IsEventLine(line) ==> r.eventType == st.eventType
    ensures !IsDataLine(line) ==> r.chunks == st.chunks && !r.raised
    ensures r.raised <==> IsDataLine(line) && decode(line[6..]).Some? && st.eventType.None?
    ensures r.chunks == st.chunks || (|r.chunks| == |st.chunks| + 1 && r.chunks[..|st.chunks|] == st.chunks)
    ensures IsDataLine(line) && decode(line[6..]).Some? && st.eventType.Some? ==>
      !r.raised && r.eventType == st.eventType &&
      r.chunks == st.chunks + (match StreamChunk(st.eventType.value, decode(line[6..]).value, model)
                               case Some(c) => [c]
                               case None => [])
    ensures |r.chunks| == |st.chunks| + 1 ==>
      IsDataLine(line) && decode(line[6..]).Some? && st.eventType.Some? &&
      StreamChunk(st.eventType.value, decode(line[6..]).value, model) == Some(r.chunks[|st.chunks|])
  {
    if line == "" then st
    else if StartsWith(line, "event: ") then st.(eventType := Some(line[7..]))
    else if StartsWith(line, "data: ") then
      match decode(line[6..])
      case None => st
      case Some(data) =>
        if st.eventType.None? then st.(raised := true)
        else
          match StreamChunk(st.eventType.value, data, model)
          case Some(c) => st.(chunks := st.chunks + [c])
          case None => st
    else st
  }

  /** The loop run over `lines`; once it has raised it reads no further line. */
  function Scan(lines: seq<string>, decode: string -> Option<EventData>, model: string): ScanState
    decreases |lines|
  {
    if |lines| == 0 then Initial
    else
      var prev := Scan(lines[..|lines| - 1], decode, model);
      if prev.raised then prev else StepLine(prev, lines[|lines| - 1], decode, model)
  }

  /** The frames `generate` yields and whether it ends by raising: the error
      frame alone for a rejected call; otherwise a frame per yielded chunk,
      followed by `[DONE]` unless the loop raised. */
  function Frames(upstream: Upstream, decode: string -> Option<EventData>, model: string): (seq<Frame>, bool) {
    match upstream
    case Rejected(text) => ([ErrorFrame(text)], false)
    case Streamed(lines) =>
      var st := Scan(lines, decode, model);
      (ChunkFrames(st.chunks) + (if st.raised then [] else [DoneFrame]), st.raised)
  }

  /** A frame per chunk, in order. */
  function ChunkFrames(chunks: seq<Chunk>): seq<Frame> {
    seq(|chunks|, j requires 0 <= j < |chunks| => ChunkFrame(chunks[j]))
  }

  /** Once the loop has raised, later lines change nothing. */
  lemma {:induction false} ScanStopsAfterRaise(lines: seq<string>, decode: string -> Option<EventData>, model: string, k: nat, m: nat)
    requires k <= m <= |lines|
    requires Scan(lines[..k], decode, model).raised
    ensures Scan(lines[..m], decode, model) == Scan(lines[..k], decode, model)
    decreases m
  {
    if m > k {
      ScanStopsAfterRaise(lines, decode, model, k, m - 1);
      assert lines[..m][..m - 1] == lines[..m - 1];
    }
  }

  /** generate: the frames yielded for an upstream answer, and whether the
      generator ends by raising. */
  method Generate(upstream: Upstream, decode: string -> Option<EventData>, model: string)
    returns (frames: seq<Frame>, raised: bool)
    ensures (frames, raised) == Frames(upstream, decode, model)
  {
    if upstream.Rejected? {
      return [ErrorFrame(upstream.errorText)], false;
    }
    var lines := upstream.lines;
    var eventType: Option<string> := None;
    ghost var chunks: seq<Chunk> := [];
    frames, raised := [], false;
    var i := 0;
    while i < |lines|
      invariant 0 <= i <= |lines|
      invariant Scan(lines[..i], decode, model) == ScanState(eventType, chunks, false)
      invariant frames == ChunkFrames(chunks)
    {
      var line := lines[i];
      assert lines[..i + 1][..i] == lines[..i];
      if line == "" {
        i := i + 1;
        continue;
      }
      if StartsWith(line, "event: ") {
        eventType := Some(line[7..]);
      } else if StartsWith(line, "data: ") {
        var data := decode(line[6..]);
        if data.Some? {
          if eventType.None? {
            assert Scan(lines[..i + 1], decode, model) == ScanState(eventType, chunks, true);
            ScanStopsAfterRaise(lines, decode, model, i + 1, |lines|);
            assert lines[..|lines|] == lines;
            assert frames + [] == frames;
            return frames, true;
          }
          var chunk := StreamChunk(eventType.value, data.value, model);
          if chunk.Some? {
            frames := frames + [ChunkFrame(chunk.value)];
            chunks := chunks + [chunk.value];
          }
        }
      }
      i := i + 1;
    }
    assert lines[..i] == lines;
    frames := frames + [DoneFrame];
  }

  // ---------------------------------------------------------------------
  // What the stream loop yields, line by line
  // ---------------------------------------------------------------------

  /** The event type bound after `lines`: the text of the last event line, or
      None when there is none. */
  function LastEvent(lines: seq<string>): Option<string>
    decreases |lines|
  {
    if |lines| == 0 then None
    else
      var last := lines[|lines| - 1];
      if IsEventLine(last) then Some(last[7..]) else LastEvent(lines[..|lines| - 1])
  }

  /** LastEvent is unbound exactly when no line is an event line, and
      otherwise it is the text of an event line that no later event line
      follows. */
  lemma {:induction false} LastEventSpec(lines: seq<string>)
    ensures LastEvent(lines).None? <==> forall i :: 0 <= i < |lines| ==> !IsEventLine(lines[i])
    ensures LastEvent(lines).Some? ==>
      exists i :: 0 <= i < |lines| && IsEventLine(lines[i]) && LastEvent(lines).value == lines[i][7..] &&
        (forall j :: i < j < |lines| ==> !IsEventLine(lines[j]))
    decreases |lines|
  {
    if |lines| > 0 {
      var init := lines[..|lines| - 1];
      LastEventSpec(init);
      assert forall i :: 0 <= i < |init| ==> init[i] == lines[i];
      if IsEventLine(lines[|lines| - 1]) {
        assert LastEvent(lines).value == lines[|lines| - 1][7..];
      } else if LastEvent(init).Some? {
        var i :| 0 <= i < |init| && IsEventLine(init[i]) && LastEvent(init).value == init[i][7..] &&
          (forall j :: i < j < |init| ==> !IsEventLine(init[j]));
        assert LastEvent(lines).value == lines[i][7..];
      }
    }
  }

  /** Line `i` reads the unbound event type: a decodable data line with no
      event line before it. */
  predicate RaisesAt(lines: seq<string>, decode: string -> Option<EventData>, i: int)
    requires 0 <= i < |lines|
  {
    IsDataLine(lines[i]) && decode(lines[i][6..]).Some? && LastEvent(lines[..i]).None?
  }

  /** The chunk line `i` contributes, judged on its own: a decodable data line
      translated under the last event type named before it. */
  function ChunkAt(lines: seq<string>, decode: string -> Option<EventData>, model: string, i: int): Option<Chunk> {
    if 0 <= i < |lines| && IsDataLine(lines[i]) && decode(lines[i][6..]).Some? && LastEvent(lines[..i]).Some? then
      StreamChunk(LastEvent(lines[..i]).value, decode(lines[i][6..]).value, model)
    else None
  }

  function ChunkFn(lines: seq<string>, decode: string -> Option<EventData>, model: string): int -> Option<Chunk> {
    i => ChunkAt(lines, decode, model, i)
  }

  /** The positions 0 .. n-1. */
  function Positions(n: nat): seq<int> {
    seq(n, i => i)
  }

  /** The loop after the first `k` lines agrees with the line-by-line
      reading: it has raised exactly when some line before `k` reads the
      unbound event type, and then it has yielded nothing; otherwise its
      event type is the last one named and its chunks are those the lines
      contribute, in order. */
  predicate Agrees(lines: seq<string>, decode: string -> Option<EventData>, model: string, k: nat)
    requires k <= |lines|
  {
    var st := Scan(lines[..k], decode, model);
    && (st.raised <==> exists i :: 0 <= i < k && RaisesAt(lines, decode, i))
    && (st.raised ==> st.chunks == [])
    && (!st.raised ==> st.eventType == LastEvent(lines[..k]))
    && (!st.raised ==> st.chunks == FilterMap(ChunkFn(lines, decode, model), Positions(k)))
  }

  /** Every prefix of the lines agrees with the line-by-line reading. */
  lemma {:induction false} ScanPrefix(lines: seq<string>, decode: string -> Option<EventData>, model: string, k: nat)
    requires k <= |lines|
    ensures Agrees(lines, decode, model, k)
    decreases k
  {
    if k > 0 {
      ScanPrefix(lines, decode, model, k - 1);
      ScanStep(lines, decode, model, k);
    }
  }

  /** One more line keeps the agreement. */
  lemma ScanStep(lines: seq<string>, decode: string -> Option<EventData>, model: string, k: nat)
    requires 0 < k <= |lines|
    requires Agrees(lines, decode, model, k - 1)
    ensures Agrees(lines, decode, model, k)
  {
    var pre, cur := lines[..k - 1], lines[..k];
    assert cur[..k - 1] == pre;
    var prev, st := Scan(pre, decode, model), Scan(cur, decode, model);
    if prev.raised {
      assert st == prev;
    } else {
      StepAgrees(lines, decode, model, k);
      FirstRaise(lines, decode, k);
      if st.raised {
        NothingBeforeFirstEvent(lines, decode, model, k - 1);
      } else {
        ChunksStep(lines, decode, model, k);
      }
    }
  }

  /** With no raising line before `k - 1`, some line before `k` raises
      exactly when line `k - 1` does. */
  lemma FirstRaise(lines: seq<string>, decode: string -> Option<EventData>, k: nat)
    requires 0 < k <= |lines|
    requires !exists i :: 0 <= i < k - 1 && RaisesAt(lines, decode, i)
    ensures (exists i :: 0 <= i < k && RaisesAt(lines, decode, i)) <==> RaisesAt(lines, decode, k - 1)
  {
  }

  /** The reference chunks of the first `k` lines extend those of the first
      `k - 1` by the chunk of line `k - 1`, if any. */
  lemma ChunksStep(lines: seq<string>, decode: string -> Option<EventData>, model: string, k: nat)
    requires 0 < k <= |lines|
    ensures FilterMap(ChunkFn(lines, decode, model), Positions(k)) ==
      FilterMap(ChunkFn(lines, decode, model), Positions(k - 1)) +
        (match ChunkAt(lines, decode, model, k - 1) case Some(c) => [c] case None => [])
  {
    var f := ChunkFn(lines, decode, model);
    assert Positions(k)[..k - 1] == Positions(k - 1);
    FilterMapStep(f, Positions(k), k - 1);
    assert f(k - 1) == ChunkAt(lines, decode, model, k - 1);
  }

  /** The new line read by a loop that has not raised: the event type it
      binds, whether it raises, and the chunk it adds match the line-by-line
      reading. */
  lemma StepAgrees(lines: seq<string>, decode: string -> Option<EventData>, model: string, k: nat)
    requires 0 < k <= |lines|
    requires !Scan(lines[..k - 1], decode, model).raised
    requires Scan(lines[..k - 1], decode, model).eventType == LastEvent(lines[..k - 1])
    ensures var prev, st := Scan(lines[..k - 1], decode, model), Scan(lines[..k], decode, model);
      && (st.raised <==> RaisesAt(lines, decode, k - 1))
      && (st.raised ==> st.chunks == prev.chunks && LastEvent(lines[..k - 1]).None?)
      && (!st.raised ==> st.eventType == LastEvent(lines[..k]))
      && (!st.raised ==> st.chunks == prev.chunks + (match ChunkAt(lines, decode, model, k - 1)
                                                      case Some(c) => [c]
                                                      case None => []))
  {
    var pre, cur, line := lines[..k - 1], lines[..k], lines[k - 1];
    assert cur[..k - 1] == pre;
    assert cur[k - 1] == line;
    assert LastEvent(cur) == if IsEventLine(line) then Some(line[7..]) else LastEvent(pre);
  }

  /** Before the first event line, no line contributes a chunk. */
  lemma NothingBeforeFirstEvent(lines: seq<string>, decode: string -> Option<EventData>, model: string, k: nat)
    requires k <= |lines|
    requires LastEvent(lines[..k]).None?
    ensures FilterMap(ChunkFn(lines, decode, model), Positions(k)) == []
  {
    var f := ChunkFn(lines, decode, model);
    LastEventSpec(lines[..k]);
    forall i | 0 <= i < k
      ensures f(Positions(k)[i]).None?
    {
      assert forall j :: 0 <= j < i ==> lines[..i][j] == lines[..k][j];
      LastEventSpec(lines[..i]);
    }
  }

  /** The caller-facing promise of generate. A rejected call yields one error
      frame and no [DONE]. A successful stream raises exactly when a
      decodable data line precedes every event line, and then yields
      nothing; otherwise it yields one chunk frame per line that contributes
      a chunk, in line order, and then exactly one [DONE], which is last. */
  lemma GenerateOutcome(upstream: Upstream, decode: string -> Option<EventData>, model: string)
    ensures var (frames, raised) := Frames(upstream, decode, model);
      && (upstream.Rejected? ==> frames == [ErrorFrame(upstream.errorText)] && !raised)
      && (upstream.Streamed? ==> forall j :: 0 <= j < |frames| ==> !frames[j].ErrorFrame?)
      && (upstream.Streamed? ==>
            (raised <==> exists i :: 0 <= i < |upstream.lines| && RaisesAt(upstream.lines, decode, i)))
      && (raised ==> frames == [])
      && (upstream.Streamed? && !raised ==>
            var kept := KeptIndices(ChunkFn(upstream.lines, decode, model), Positions(|upstream.lines|));
            && |frames| == |kept| + 1
            && (forall j :: 0 <= j < |frames| ==> (frames[j] == DoneFrame <==> j == |frames| - 1))
            && (forall j :: 0 <= j < |kept| ==>
                  frames[j] == ChunkFrame(ChunkAt(upstream.lines, decode, model, kept[j]).value)))
  {
    if upstream.Streamed? {
      var lines := upstream.lines;
      ScanPrefix(lines, decode, model, |lines|);
      assert lines[..|lines|] == lines;
      var f := ChunkFn(lines, decode, model);
      FilterMapKept(f, Positions(|lines|));
      var kept := KeptIndices(f, Positions(|lines|));
      forall j | 0 <= j < |kept|
        ensures f(Positions(|lines|)[kept[j]]) == ChunkAt(lines, decode, model, kept[j])
      {
      }
    }
  }

  /** A blank line changes nothing. */
  lemma BlankLineIgnored(lines: seq<string>, decode: string -> Option<EventData>, model: string)
    ensures Scan(lines + [""], decode, model) == Scan(lines, decode, model)
  {
    assert (lines + [""])[..|lines|] == lines;
  }

  /** An event line yields nothing and rebinds the event type to its text after "event: ". */
  lemma EventLineRebinds(lines: seq<string>, decode: string -> Option<EventData>, model: string, t: string)
    requires !Scan(lines, decode, model).raised
    ensures Scan(lines + ["event: " + t], decode, model) == Scan(lines, decode, model).(eventType := Some(t))
  {
    var line := "event: " + t;
    assert (lines + [line])[..|lines|] == lines;
    assert line[..7] == "event: ";
    assert line[7..] == t;
  }

  /** An undecodable data line yields nothing and changes nothing. */
  lemma UndecodableLineSkipped(lines: seq<string>, decode: string -> Option<EventData>, model: string, payload: string)
    requires decode(payload).None?
    ensures Scan(lines + ["data: " + payload], decode, model) == Scan(lines, decode, model)
  {
    var line := "data: " + payload;
    assert (lines + [line])[..|lines|] == lines;
    assert line[..6] == "data: " && line[0] == 'd';
    assert line[6..] == payload;
  }
}
