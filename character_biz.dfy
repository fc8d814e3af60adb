/** The character use case of internal/biz/character.go: translating the
    character agent's gRPC replies (streamed and unary) into biz values and
    errors, and the character lookups and saves it forwards to the store. */
module CharacterBiz {
  import opened Wrappers
  import opened Strs
  import opened BizErr
  import opened CharacterData
  import opened Chan

  // ---- Shapes of the agent's protobuf messages ----

  datatype AgentMessage = AgentMessage(role: string, content: string)
  datatype AgentImageMeta = AgentImageMeta(name: string, thumbnail: string, enable3D: bool, id: string)
  datatype AgentSetting = AgentSetting(name: string, gender: string, description: string,
                                       tags: map<string, string>, introduction: string)
  /** A stream chunk; `chatChunk` may be nil. */
  datatype AgentChunk = AgentChunk(chunkType: nat, chunkSessionIndex: nat, chatChunk: Option<AgentMessage>,
                                   imageChunk: seq<AgentImageMeta>, needConfirmChunk: bool, settingChunk: string)
  /** One received stream message; `chunk` may be nil. */
  datatype AgentStreamResponse = AgentStreamResponse(code: nat, errMsg: string, chunk: Option<AgentChunk>)
  datatype AgentCompletion = AgentCompletion(code: nat, errMsg: string, messages: seq<AgentMessage>,
                                             imageMetas: seq<AgentImageMeta>, needConfirm: bool, confirmType: string)
  datatype AgentConfirm = AgentConfirm(code: nat, errMsg: string, messages: seq<AgentMessage>, needConfirm: bool,
                                       confirmType: string, characterSetting: Option<AgentSetting>)

  /** How a gRPC call can fail: by its deadline, or with another error. */
  datatype CallError = DeadlineExceeded | CallFailed(err: Error)

  // ---- Biz values ----

  const ChatChunkType: nat := 1
  const ImageChunkType: nat := 2
  const NeedConfirmChunkType: nat := 3
  const SettingChunkType: nat := 4

  datatype ChatMessage = ChatMessage(role: string, content: string)

  /** biz.ChatCompletionStreamResponseChunk, one variant per chunk type. */
  datatype Chunk =
    | ChatPiece(index: nat, message: ChatMessage)
    | ImagePiece(index: nat, images: seq<string>, is3D: bool)
    | ConfirmPiece(index: nat, needConfirm: bool)
    | SettingPiece(index: nat, setting: string)
  {
    function ChunkType(): (t: nat)
      ensures 1 <= t <= 4
    {
      match this
      case ChatPiece(_, _) => ChatChunkType
      case ImagePiece(_, _, _) => ImageChunkType
      case ConfirmPiece(_, _) => NeedConfirmChunkType
      case SettingPiece(_, _) => SettingChunkType
    }
  }

  /** The chunks the stream can hand on: an image chunk has at least one image. */
  predicate WellFormed(c: Chunk) {
    c.ImagePiece? ==> |c.images| > 0
  }

  datatype CharacterSetting = CharacterSetting(name: string, gender: string, description: string,
                                               tags: map<string, string>, introduction: string)
  datatype ChatCompletionResponse = ChatCompletionResponse(message: seq<ChatMessage>, imageMetas: seq<string>,
                                                           needConfirm: bool, confirmType: string)
  datatype ConfirmResponse = ConfirmResponse(message: seq<ChatMessage>, needConfirm: bool, confirmType: string,
                                             characterSetting: Option<CharacterSetting>)

  // ---- Mappings ----

  /** makeChatMessages: role and content of each message, in order. */
  function MakeChatMessages(ms: seq<AgentMessage>): (r: seq<ChatMessage>)
    ensures |r| == |ms| && forall i :: 0 <= i < |ms| ==> r[i].role == ms[i].role && r[i].content == ms[i].content
  {
    seq(|ms|, i requires 0 <= i < |ms| => ChatMessage(ms[i].role, ms[i].content))
  }

  /** makeImageMetas: the unary reply names its images by the Name field. */
  function MakeImageMetas(metas: seq<AgentImageMeta>): (r: seq<string>)
    ensures |r| == |metas| && forall i :: 0 <= i < |metas| ==> r[i] == metas[i].name
  {
    seq(|metas|, i requires 0 <= i < |metas| => metas[i].name)
  }

  /** The stream names its images by the Id field. */
  function ImageIDs(metas: seq<AgentImageMeta>): (r: seq<string>)
    ensures |r| == |metas| && forall i :: 0 <= i < |metas| ==> r[i] == metas[i].id
  {
    seq(|metas|, i requires 0 <= i < |metas| => metas[i].id)
  }

  /** The loop over an image chunk: the ids in order, and the Enable3D flag
      of the last image (false for none). */
  method CollectImages(metas: seq<AgentImageMeta>) returns (images: seq<string>, is3D: bool)
    ensures images == ImageIDs(metas)
    ensures is3D == (|metas| > 0 && metas[|metas| - 1].enable3D)
  {
    images := [];
    is3D := false;
    for i := 0 to |metas|
      invariant images == ImageIDs(metas[..i])
      invariant is3D == (i > 0 && metas[i - 1].enable3D)
    {
      images := images + [metas[i].id];
      is3D := metas[i].enable3D;
    }
    assert metas[..|metas|] == metas;
  }

  // ---- The streamed call ----

  /** How the stream ends: at end of stream, with an error, or by a panic
      (a nil chunk, a chat chunk without message, an image chunk without images). */
  datatype Outcome = Completed | Failed(err: Error) | Panicked

  /** What one received message does: hand a chunk on, or end the call. */
  datatype Step = Forward(chunk: Chunk) | Stop(outcome: Outcome)

  const RespErrPrefix := "ChatCompletionsStream: resp err code:"
  const ChunkNotExistText := "ChatCompletionsStream: chunk not exists"
  const RecvFailedPrefix := "ChatCompletionsStream: recv failed err: "

  /** One iteration of the receive loop, for a received message. */
  function Classify(r: AgentStreamResponse): (s: Step)
    ensures s.Forward? ==> WellFormed(s.chunk)
    ensures s.Forward? ==> r.code == 0 && r.chunk.Some?
    ensures s.Forward? ==> s.chunk.ChunkType() == r.chunk.value.chunkType && s.chunk.index == r.chunk.value.chunkSessionIndex
    ensures s.Forward? && s.chunk.ImagePiece? ==>
      s.chunk.images == ImageIDs(r.chunk.value.imageChunk)
      && s.chunk.is3D == r.chunk.value.imageChunk[|r.chunk.value.imageChunk| - 1].enable3D
    ensures r.code != 0 ==> s == Stop(Failed(Errorf(ErrInternalError,
                                RespErrPrefix + IntToString(r.code) + " err:" + r.errMsg + " ")))
    ensures r.code == 0 && r.chunk.Some? && !(1 <= r.chunk.value.chunkType <= 4) ==>
      s == Stop(Failed(Errorf(ErrChunkNotExist, ChunkNotExistText)))
    ensures r.code == 0 && r.chunk.None? ==> s == Stop(Panicked)
    ensures r.code == 0 && r.chunk.Some? && r.chunk.value.chunkType == ChatChunkType && r.chunk.value.chatChunk.None? ==>
      s == Stop(Panicked)
    ensures r.code == 0 && r.chunk.Some? && r.chunk.value.chunkType == ImageChunkType && |r.chunk.value.imageChunk| == 0 ==>
      s == Stop(Panicked)
    ensures s.Forward? && s.chunk.ChatPiece? ==>
      r.chunk.value.chatChunk.Some? && s.chunk.message == ChatMessage(r.chunk.value.chatChunk.value.role, r.chunk.value.chatChunk.value.content)
  {
    if r.code != 0 then Stop(Failed(Errorf(ErrInternalError, RespErrPrefix + IntToString(r.code) + " err:" + r.errMsg + " ")))
    else if r.chunk.None? then Stop(Panicked)
    else
      var c := r.chunk.value;
      if c.chunkType == ChatChunkType then
        if c.chatChunk.None? then Stop(Panicked)
        else Forward(ChatPiece(c.chunkSessionIndex, ChatMessage(c.chatChunk.value.role, c.chatChunk.value.content)))
      else if c.chunkType == ImageChunkType then
        if |c.imageChunk| == 0 then Stop(Panicked)
        else Forward(ImagePiece(c.chunkSessionIndex, ImageIDs(c.imageChunk), c.imageChunk[|c.imageChunk| - 1].enable3D))
      else if c.chunkType == NeedConfirmChunkType then Forward(ConfirmPiece(c.chunkSessionIndex, c.needConfirmChunk))
      else if c.chunkType == SettingChunkType then Forward(SettingPiece(c.chunkSessionIndex, c.settingChunk))
      else Stop(Failed(Errorf(ErrChunkNotExist, ChunkNotExistText)))
  }

  /** How the stream ends after the last message: None is io.EOF. */
  function EndOutcome(end: Option<Error>): (o: Outcome)
    ensures end.None? ==> o == Completed
    ensures end.Some? ==> o == Failed(Wrap(ErrInternalError, Wrapped(RecvFailedPrefix, end.value, " ")))
  {
    if end.None? then Completed else Failed(Wrap(ErrInternalError, Wrapped(RecvFailedPrefix, end.value, " ")))
  }

  datatype Translation = Translation(chunks: seq<Chunk>, outcome: Outcome)

  /** The receive loop over `responses`, then the stream's end `end`: the
      chunks handed on, and how the call ends. */
  function Translate(responses: seq<AgentStreamResponse>, end: Option<Error>): (t: Translation)
    ensures |t.chunks| <= |responses|
    decreases |responses|
  {
    if |responses| == 0 then Translation([], EndOutcome(end))
    else match Classify(responses[0])
      case Stop(o) => Translation([], o)
      case Forward(c) =>
        var rest := Translate(responses[1..], end);
        Translation([c] + rest.chunks, rest.outcome)
  }

  /** The chunks handed on are the first messages, translated, in order; the
      call ends at the first message that stops it, or at the stream's end. */
  lemma {:induction false} TranslateIsPrefix(responses: seq<AgentStreamResponse>, end: Option<Error>)
    ensures var t := Translate(responses, end);
      (forall i :: 0 <= i < |t.chunks| ==> Classify(responses[i]) == Forward(t.chunks[i]))
      && (|t.chunks| < |responses| ==> Classify(responses[|t.chunks|]) == Stop(t.outcome))
      && (|t.chunks| == |responses| ==> t.outcome == EndOutcome(end))
    decreases |responses|
  {
    if |responses| > 0 && Classify(responses[0]).Forward? {
      TranslateIsPrefix(responses[1..], end);
      var rest := Translate(responses[1..], end);
      var t := Translate(responses, end);
      forall i | 1 <= i < |t.chunks| ensures Classify(responses[i]) == Forward(t.chunks[i]) {
        assert responses[1..][i - 1] == responses[i];
        assert t.chunks[i] == rest.chunks[i - 1];
      }
      if |t.chunks| < |responses| {
        assert responses[1..][|rest.chunks|] == responses[|t.chunks|];
      }
    }
  }

  /** Every chunk handed on is well formed. */
  lemma TranslateWellFormed(responses: seq<AgentStreamResponse>, end: Option<Error>)
    ensures forall i :: 0 <= i < |Translate(responses, end).chunks| ==> WellFormed(Translate(responses, end).chunks[i])
  {
    TranslateIsPrefix(responses, end);
  }

  /** A stream of well-formed messages that reaches io.EOF hands every chunk
      on and ends without error. */
  lemma EOFCompletes(responses: seq<AgentStreamResponse>)
    requires forall i :: 0 <= i < |responses| ==> Classify(responses[i]).Forward?
    ensures |Translate(responses, None).chunks| == |responses|
    ensures Translate(responses, None).outcome == Completed
  {
    TranslateIsPrefix(responses, None);
  }

  /** The call's result: its error, and whether it panicked. */
  datatype StreamResult = StreamResult(err: Option<Error>, panicked: bool)

  function Report(o: Outcome): (r: StreamResult)
    ensures r.panicked <==> o.Panicked?
    ensures o.Failed? ==> r.err == Some(o.err)
    ensures !o.Failed? ==> r.err.None?
  {
    match o
    case Completed => StreamResult(None, false)
    case Failed(e) => StreamResult(Some(e), false)
    case Panicked => StreamResult(None, true)
  }

  /** The error of a call that failed; a deadline is replaced by `timeoutText`. */
  function CallErr(c: CallError, timeoutText: string): Error {
    match c
    case DeadlineExceeded => Text(timeoutText)
    case CallFailed(e) => e
  }

  /** The body of the receive loop: the switch on the chunk's type, with the
      image loop of an image chunk. */
  method Receive(resp: AgentStreamResponse) returns (s: Step)
    ensures s == Classify(resp)
  {
    if resp.code != 0 {
      return Stop(Failed(Errorf(ErrInternalError, RespErrPrefix + IntToString(resp.code) + " err:" + resp.errMsg + " ")));
    }
    if resp.chunk.None? {
      return Stop(Panicked);
    }
    var c := resp.chunk.value;
    if c.chunkType == ChatChunkType {
      if c.chatChunk.None? {
        return Stop(Panicked);
      }
      return Forward(ChatPiece(c.chunkSessionIndex, ChatMessage(c.chatChunk.value.role, c.chatChunk.value.content)));
    } else if c.chunkType == ImageChunkType {
      var images, is3D := CollectImages(c.imageChunk);
      if |c.imageChunk| == 0 {
        return Stop(Panicked);
      }
      return Forward(ImagePiece(c.chunkSessionIndex, images, is3D));
    } else if c.chunkType == NeedConfirmChunkType {
      return Forward(ConfirmPiece(c.chunkSessionIndex, c.needConfirmChunk));
    } else if c.chunkType == SettingChunkType {
      return Forward(SettingPiece(c.chunkSessionIndex, c.settingChunk));
    }
    return Stop(Failed(Errorf(ErrChunkNotExist, ChunkNotExistText)));
  }

  const StreamConnPrefix := "ChatCompletionsStream: get grpc conn err: "
  const StreamOpenPrefix := "ChatCompletionsStream: get stream cli err: "
  const StreamTimeoutText := "ChatCompletionsStream: invoke chat agent timeout "

  /** One received message, seen from the position `i`: it stops the
      loop, or its chunk is handed on before the rest. */
  lemma TranslateStep(responses: seq<AgentStreamResponse>, end: Option<Error>, handed: seq<Chunk>, i: nat)
    requires i < |responses|
    requires Translate(responses, end) == Translation(handed + Translate(responses[i..], end).chunks,
                                                      Translate(responses[i..], end).outcome)
    ensures Classify(responses[i]).Stop? ==>
      Translate(responses, end) == Translation(handed, Classify(responses[i]).outcome)
    ensures Classify(responses[i]).Forward? ==>
      var h := handed + [Classify(responses[i]).chunk];
      Translate(responses, end) == Translation(h + Translate(responses[i + 1..], end).chunks,
                                               Translate(responses[i + 1..], end).outcome)
  {
    assert responses[i..][0] == responses[i] && responses[i..][1..] == responses[i + 1..];
    if Classify(responses[i]).Forward? {
      var c := Classify(responses[i]).chunk;
      var rest := Translate(responses[i + 1..], end).chunks;
      assert handed + ([c] + rest) == handed + [c] + rest;
    }
  }

  /** ChatCompletionsStream: dial, open the stream, then receive until the
      end, handing each chunk on to `ch`. `dialFault` is the dial's error,
      `openFault` the opening call's, `responses` the messages received and
      `end` the error that ends the stream (None for io.EOF). However the
      call ends, `ch` is closed exactly once. */
  method ChatCompletionsStream(dialFault: Option<Error>, openFault: Option<CallError>,
                               responses: seq<AgentStreamResponse>, end: Option<Error>, ch: Channel<Chunk>)
    returns (r: StreamResult)
    requires ch.closes == 0
    modifies ch
    ensures ch.closes == 1
    ensures dialFault.Some? ==> ch.sent == old(ch.sent)
    ensures dialFault.Some? ==> r == StreamResult(Some(Wrap(ErrInternalError, Wrapped(StreamConnPrefix, dialFault.value, ""))), false)
    ensures dialFault.None? && openFault.Some? ==> ch.sent == old(ch.sent)
    ensures dialFault.None? && openFault.Some? ==> r == StreamResult(Some(Wrap(ErrInternalError,
                Wrapped(StreamOpenPrefix, CallErr(openFault.value, StreamTimeoutText), " "))), false)
    ensures dialFault.None? && openFault.None? ==> ch.sent == old(ch.sent) + Translate(responses, end).chunks
    ensures dialFault.None? && openFault.None? ==> r == Report(Translate(responses, end).outcome)
  {
    if dialFault.Some? {
      ch.Close();
      return StreamResult(Some(Wrap(ErrInternalError, Wrapped(StreamConnPrefix, dialFault.value, ""))), false);
    }
    if openFault.Some? {
      ch.Close();
      return StreamResult(Some(Wrap(ErrInternalError,
               Wrapped(StreamOpenPrefix, CallErr(openFault.value, StreamTimeoutText), " "))), false);
    }
    ghost var handed: seq<Chunk> := [];
    var i := 0;
    while i < |responses|
      invariant 0 <= i <= |responses|
      invariant ch.closes == 0 && ch.sent == old(ch.sent) + handed
      invariant Translate(responses, end) == Translation(handed + Translate(responses[i..], end).chunks,
                                                         Translate(responses[i..], end).outcome)
    {
      TranslateStep(responses, end, handed, i);
      var step := Receive(responses[i]);
      if step.Stop? {
        ch.Close();
        return Report(step.outcome);
      }
      ch.Send(step.chunk);
      handed := handed + [step.chunk];
      i := i + 1;
    }
    ch.Close();
    return Report(EndOutcome(end));
  }

  // ---- The chat stream ----

  /** One message of the chat agent's stream; its chunk is text. */
  datatype ChatStreamResponse = ChatStreamResponse(code: nat, errMsg: string, chunk: string)

  datatype ChatTranslation = ChatTranslation(chunks: seq<string>, err: Option<Error>)

  const ChatRespErrPrefix := "ChatStream: resp err code:"
  const ChatRecvFailedPrefix := "ChatStream: recv failed err: "
  const ChatConnPrefix := "ChatStream: get grpc conn err: "
  const ChatOpenPrefix := "ChatStream: get stream cli err: "
  const ChatTimeoutText := "ChatStream: invoke chat agent timeout "

  /** The receive loop of ChatStream: every chunk up to the first message
      with a non-zero code is handed on. */
  function ChatTranslate(responses: seq<ChatStreamResponse>, end: Option<Error>): (t: ChatTranslation)
    ensures |t.chunks| <= |responses|
    decreases |responses|
  {
    if |responses| == 0 then ChatTranslation([], ChatEnd(end))
    else if responses[0].code != 0 then ChatTranslation([], Some(ChatRespErr(responses[0])))
    else
      var rest := ChatTranslate(responses[1..], end);
      ChatTranslation([responses[0].chunk] + rest.chunks, rest.err)
  }

  function ChatEnd(end: Option<Error>): Option<Error> {
    if end.None? then None else Some(Wrap(ErrInternalError, Wrapped(ChatRecvFailedPrefix, end.value, " ")))
  }

  function ChatRespErr(r: ChatStreamResponse): Error {
    Errorf(ErrInternalError, ChatRespErrPrefix + IntToString(r.code) + " err:" + r.errMsg + " ")
  }

  /** The chunks handed on are those of the first messages, in order; the
      error is that of the first message with a non-zero code, or the stream's end. */
  lemma {:induction false} ChatTranslateIsPrefix(responses: seq<ChatStreamResponse>, end: Option<Error>)
    ensures var t := ChatTranslate(responses, end);
      (forall i :: 0 <= i < |t.chunks| ==> responses[i].code == 0 && t.chunks[i] == responses[i].chunk)
      && (|t.chunks| < |responses| ==> responses[|t.chunks|].code != 0 && t.err == Some(ChatRespErr(responses[|t.chunks|])))
      && (|t.chunks| == |responses| ==> t.err == ChatEnd(end))
    decreases |responses|
  {
    if |responses| > 0 && responses[0].code == 0 {
      ChatTranslateIsPrefix(responses[1..], end);
      var rest := ChatTranslate(responses[1..], end);
      var t := ChatTranslate(responses, end);
      forall i | 1 <= i < |t.chunks| ensures responses[i].code == 0 && t.chunks[i] == responses[i].chunk {
        assert responses[1..][i - 1] == responses[i];
        assert t.chunks[i] == rest.chunks[i - 1];
      }
      if |t.chunks| < |responses| {
        assert responses[1..][|rest.chunks|] == responses[|t.chunks|];
      }
    }
  }

  /** One received chat message, seen from the position `i`. */
  lemma ChatTranslateStep(responses: seq<ChatStreamResponse>, end: Option<Error>, handed: seq<string>, i: nat)
    requires i < |responses|
    requires ChatTranslate(responses, end) == ChatTranslation(handed + ChatTranslate(responses[i..], end).chunks,
                                                              ChatTranslate(responses[i..], end).err)
    ensures responses[i].code != 0 ==> ChatTranslate(responses, end) == ChatTranslation(handed, Some(ChatRespErr(responses[i])))
    ensures responses[i].code == 0 ==>
      var h := handed + [responses[i].chunk];
      ChatTranslate(responses, end) == ChatTranslation(h + ChatTranslate(responses[i + 1..], end).chunks,
                                                       ChatTranslate(responses[i + 1..], end).err)
  {
    assert responses[i..][0] == responses[i] && responses[i..][1..] == responses[i + 1..];
    if responses[i].code == 0 {
      var rest := ChatTranslate(responses[i + 1..], end).chunks;
      assert handed + ([responses[i].chunk] + rest) == handed + [responses[i].chunk] + rest;
    }
  }

  /** ChatStream: like ChatCompletionsStream for the chat agent, whose
      chunks are handed on as they are. */
  method ChatStream(connFault: Option<Error>, openFault: Option<CallError>,
                    responses: seq<ChatStreamResponse>, end: Option<Error>, ch: Channel<string>)
    returns (err: Option<Error>)
    requires ch.closes == 0
    modifies ch
    ensures ch.closes == 1
    ensures connFault.Some? ==> ch.sent == old(ch.sent)
    ensures connFault.Some? ==> err == Some(Wrap(ErrInternalError, Wrapped(ChatConnPrefix, connFault.value, "")))
    ensures connFault.None? && openFault.Some? ==> ch.sent == old(ch.sent)
    ensures connFault.None? && openFault.Some? ==> err == Some(Wrap(ErrInternalError, Wrapped(ChatOpenPrefix, CallErr(openFault.value, ChatTimeoutText), " ")))
    ensures connFault.None? && openFault.None? ==> ch.sent == old(ch.sent) + ChatTranslate(responses, end).chunks
    ensures connFault.None? && openFault.None? ==> err == ChatTranslate(responses, end).err
  {
    if connFault.Some? {
      ch.Close();
      return Some(Wrap(ErrInternalError, Wrapped(ChatConnPrefix, connFault.value, "")));
    }
    if openFault.Some? {
      ch.Close();
      return Some(Wrap(ErrInternalError, Wrapped(ChatOpenPrefix, CallErr(openFault.value, ChatTimeoutText), " ")));
    }
    ghost var handed: seq<string> := [];
    var i := 0;
    while i < |responses|
      invariant 0 <= i <= |responses|
      invariant ch.closes == 0 && ch.sent == old(ch.sent) + handed
      invariant ChatTranslate(responses, end) == ChatTranslation(handed + ChatTranslate(responses[i..], end).chunks,
                                                                 ChatTranslate(responses[i..], end).err)
    {
      var resp := responses[i];
      ChatTranslateStep(responses, end, handed, i);
      if resp.code != 0 {
        ch.Close();
        return Some(ChatRespErr(resp));
      }
      ch.Send(resp.chunk);
      handed := handed + [resp.chunk];
      i := i + 1;
    }
    ch.Close();
    return ChatEnd(end);
  }

  // ---- Unary calls ----

  /** ChatCompletions: a reply with a non-zero code, like a failed call, is
      an ErrInternalError; a successful reply's images are named by Name. */
  function ChatCompletions(connFault: Option<Error>, call: Result<AgentCompletion, CallError>)
    : (r: Result<ChatCompletionResponse, Error>)
    ensures connFault.Some? ==> r == Err(Wrap(ErrInternalError, Wrapped("ChatCompletions: get grpc conn err: ", connFault.value, "")))
    ensures connFault.None? && call == Err(DeadlineExceeded) ==>
      r == Err(Wrap(ErrInternalError, Wrapped("ChatCompletions: grpc exec failed err: ",
                                              Text("ChatCompletions: invoke chat agent timeout "), " ")))
    ensures connFault.None? && call.Ok? && call.value.code != 0 ==>
      r == Err(Errorf(ErrInternalError, "ChatCompletions: grpc res failed err: " + call.value.errMsg + " "))
    ensures r.Ok? <==> connFault.None? && call.Ok? && call.value.code == 0
    ensures r.Ok? ==> r.value.imageMetas == MakeImageMetas(call.value.imageMetas)
    ensures r.Ok? ==> r.value.message == MakeChatMessages(call.value.messages)
    ensures r.Ok? ==> r.value.needConfirm == call.value.needConfirm && r.value.confirmType == call.value.confirmType
  {
    if connFault.Some? then Err(Wrap(ErrInternalError, Wrapped("ChatCompletions: get grpc conn err: ", connFault.value, "")))
    else match call
      case Err(c) => Err(Wrap(ErrInternalError, Wrapped("ChatCompletions: grpc exec failed err: ",
                                                        CallErr(c, "ChatCompletions: invoke chat agent timeout "), " ")))
      case Ok(resp) =>
        if resp.code != 0 then Err(Errorf(ErrInternalError, "ChatCompletions: grpc res failed err: " + resp.errMsg + " "))
        else Ok(ChatCompletionResponse(MakeChatMessages(resp.messages), MakeImageMetas(resp.imageMetas),
                                       resp.needConfirm, resp.confirmType))
  }

  /** ConfirmCharacterSetting: as ChatCompletions; the setting is copied
      when the reply has one and stays nil when it has none. */
  function ConfirmCharacterSetting(connFault: Option<Error>, call: Result<AgentConfirm, CallError>)
    : (r: Result<ConfirmResponse, Error>)
    ensures connFault.Some? ==>
      r == Err(Wrap(ErrInternalError, Wrapped("ConfirmCharacterSetting: get grpc conn err: ", connFault.value, "")))
    ensures connFault.None? && call == Err(DeadlineExceeded) ==>
      r == Err(Wrap(ErrInternalError, Wrapped("ConfirmCharacterSetting: grpc exec failed err: ",
                                              Text("ConfirmCharacterSetting: invoke chat agent timeout "), " ")))
    ensures connFault.None? && call.Ok? && call.value.code != 0 ==>
      r == Err(Errorf(ErrInternalError, "ConfirmCharacterSetting: grpc res failed err: " + call.value.errMsg + " "))
    ensures r.Ok? <==> connFault.None? && call.Ok? && call.value.code == 0
    ensures r.Ok? ==> (r.value.characterSetting.None? <==> call.value.characterSetting.None?)
    ensures r.Ok? && r.value.characterSetting.Some? ==>
      var s := call.value.characterSetting.value;
      r.value.characterSetting.value == CharacterSetting(s.name, s.gender, s.description, s.tags, s.introduction)
    ensures r.Ok? ==> r.value.message == MakeChatMessages(call.value.messages)
    ensures r.Ok? ==> r.value.needConfirm == call.value.needConfirm && r.value.confirmType == call.value.confirmType
  {
    if connFault.Some? then Err(Wrap(ErrInternalError, Wrapped("ConfirmCharacterSetting: get grpc conn err: ", connFault.value, "")))
    else match call
      case Err(c) => Err(Wrap(ErrInternalError, Wrapped("ConfirmCharacterSetting: grpc exec failed err: ",
                                                        CallErr(c, "ConfirmCharacterSetting: invoke chat agent timeout "), " ")))
      case Ok(resp) =>
        if resp.code != 0 then Err(Errorf(ErrInternalError, "ConfirmCharacterSetting: grpc res failed err: " + resp.errMsg + " "))
        else
          var setting := match resp.characterSetting
            case None => None
            case Some(s) => Some(CharacterSetting(s.name, s.gender, s.description, s.tags, s.introduction));
          Ok(ConfirmResponse(MakeChatMessages(resp.messages), resp.needConfirm, resp.confirmType, setting))
  }

  /** A timeout and any other failed call both come back as ErrInternalError. */
  lemma UnaryFailuresAreInternal(call: Result<AgentCompletion, CallError>)
    requires call.Err? || call.value.code != 0
    ensures var r := ChatCompletions(None, call);
      r.Err? && ErrorToBizError(r.error) == Some(r.error) && r.error.code == InternalError
  {
  }

  // ---- Character lookups and saves ----

  const QueryCharacterPrefix := "QueryCharacterByID: query character to db err: "
  const SaveMyCharacterPrefix := "SaveMyCharacter: save character to db err: "

  /** QueryCharacterByID: the stored character, ErrCharacterNotExist when
      there is none, ErrInternalError around a storage error. */
  function QueryCharacterByID(store: CharacterStore, id: string, fault: Option<Error>): (r: Result<CharacterResponse, Error>)
    reads store
    ensures fault.Some? ==> r == Err(Wrap(ErrInternalError, Wrapped(QueryCharacterPrefix, fault.value, "")))
    ensures fault.None? && id !in store.records ==> r == Err(ErrCharacterNotExist)
    ensures fault.None? && id in store.records ==> r == Ok(MakeBizCharacterResponse(store.records[id]))
  {
    match store.QueryCharacterByID(id, fault)
    case Err(e) => Err(Wrap(ErrInternalError, Wrapped(QueryCharacterPrefix, e, "")))
    case Ok(None) => Err(ErrCharacterNotExist)
    case Ok(Some(c)) => Ok(c)
  }

  /** SaveMyCharacter: the store's upsert, with its error wrapped. */
  method SaveMyCharacter(store: CharacterStore, req: CharacterRequest, lookupFault: Option<Error>,
                         writeFault: Option<Error>, now: int)
    returns (r: Result<string, Error>)
    modifies store
    ensures lookupFault.Some? ==> store.records == old(store.records)
    ensures lookupFault.Some? ==> r == Err(Wrap(ErrInternalError, Wrapped(SaveMyCharacterPrefix, lookupFault.value, "")))
    ensures lookupFault.None? && writeFault.Some? ==> store.records == old(store.records)
    ensures lookupFault.None? && writeFault.Some? ==> r == Err(Wrap(ErrInternalError, Wrapped(SaveMyCharacterPrefix, writeFault.value, "")))
    ensures lookupFault.None? && writeFault.None? ==> r == Ok(req.id)
    ensures lookupFault.None? && writeFault.None? ==> Saved(old(store.records), store.records, req, now)
  {
    var res := store.SaveCharacter(req, lookupFault, writeFault, now);
    if res.Err? {
      return Err(Wrap(ErrInternalError, Wrapped(SaveMyCharacterPrefix, res.error, "")));
    }
    return res;
  }
}
