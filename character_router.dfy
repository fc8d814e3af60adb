/** The character routes of api/http/v1/character_router.go: the admission
    gate in front of character creation, the Server-Sent Events writers of
    createV2 and ChatV2 (the `data: …` framing of section 9.2 of the HTML
    Living Standard), and the image-slot allocation of updateCharacter. */
module CharacterRouter {
  import opened Wrappers
  import opened Strs
  import opened BizErr
  import opened Resp
  import opened Chan
  import opened ServiceTypes
  import opened CharacterData
  import SC = ServiceCharacter
  import VoiceData
  import Common

  const ImageCountLimit: nat := 4
  const QueueMsg := "You're in queue at position 100. Please retry in 10 minutes."
  const QueueCode := "1"

  // ---- The admission gate ----

  /** The buffered channel `q` used as a counter: `held` slots of `limit`. */
  class Gate {
    var held: nat
    const limit: nat

    ghost predicate Valid()
      reads this
    {
      held <= limit
    }

    /** make(chan struct{}, limit): no slot held. */
    constructor (limit: nat)
      ensures Valid() && held == 0 && this.limit == limit
    {
      held := 0;
      this.limit := limit;
    }

    /** The check `len(q) >= limit`, then `q <- struct{}{}` when there is room. */
    method TryAcquire() returns (ok: bool)
      requires Valid()
      modifies this
      ensures Valid()
      ensures ok <==> old(held) < limit
      ensures held == if ok then old(held) + 1 else old(held)
    {
      if held >= limit {
        return false;
      }
      held := held + 1;
      return true;
    }

    /** The deferred `<-q`. */
    method Release()
      requires Valid() && held > 0
      modifies this
      ensures Valid() && held == old(held) - 1
    {
      held := held - 1;
    }
  }

  // ---- Event-stream framing ----

  /** strings.ReplaceAll(s, "\n", "\\n"): a payload never breaks its frame. */
  function Escape(s: string): (r: string)
    ensures '\n' !in r
    ensures '\n' !in s ==> r == s
  {
    ReplaceChar(s, '\n', "\\n")
  }

  /** One event: "data: " and the payload, ended by a blank line. */
  function Frame(payload: string): string {
    "data: " + payload + "\n\n"
  }

  function DataFrames(ms: seq<string>): (fs: seq<string>)
    ensures |fs| == |ms| && forall i :: 0 <= i < |ms| ==> fs[i] == Frame(Escape(ms[i]))
  {
    seq(|ms|, i requires 0 <= i < |ms| => Frame(Escape(ms[i])))
  }

  /** One more message, one more frame at the end. */
  lemma DataFramesSnoc(ms: seq<string>, k: nat)
    requires k < |ms|
    ensures DataFrames(ms[..k + 1]) == DataFrames(ms[..k]) + [Frame(Escape(ms[k]))]
  {
    var a := DataFrames(ms[..k + 1]);
    var b := DataFrames(ms[..k]) + [Frame(Escape(ms[k]))];
    forall i | 0 <= i < |a| ensures a[i] == b[i] {
      assert ms[..k + 1][i] == ms[i];
      if i < k {
        assert ms[..k][i] == ms[i];
      }
    }
  }

  // ---- The createV2 writer ----

  /** The writer's variables: the last message written (`h`), the last
      snapshot written (`data`), and the messages written so far. */
  datatype WriterState = WriterState(last: string, data: Snapshot, written: seq<string>)

  const StartState := WriterState("", ZeroSnapshot, [])

  /** A snapshot as the writer sees it: for a request without session id the
      message is replaced by the session id. */
  function Shown(e: Snapshot, blank: bool): Snapshot {
    if blank then e.(message := e.sessionID) else e
  }

  /** One received snapshot: skipped when its message is empty or repeats
      the last one written, otherwise written and remembered. */
  function WriteStep(st: WriterState, e: Snapshot, blank: bool): WriterState {
    var s := Shown(e, blank);
    if s.message == "" || s.message == st.last then st
    else WriterState(s.message, s, st.written + [s.message])
  }

  function Written(events: seq<Snapshot>, blank: bool): WriterState
    decreases |events|
  {
    if |events| == 0 then StartState
    else WriteStep(Written(events[..|events| - 1], blank), events[|events| - 1], blank)
  }

  /** Everything createV2 writes for the snapshots received before the channel
      closed: a frame per written message, then the JSON of MakeResponse of
      the last snapshot written. `toJSON` stands for json.Marshal. */
  function CreateFrames(events: seq<Snapshot>, blank: bool, toJSON: Body<Snapshot> -> string): (frames: seq<string>)
    ensures |frames| == |Written(events, blank).written| + 1
    ensures frames[|frames| - 1] == Frame(toJSON(MakeResponse(Written(events, blank).data)))
  {
    var st := Written(events, blank);
    DataFrames(st.written) + [Frame(toJSON(MakeResponse(st.data)))]
  }

  /** What the writer has written: no empty message and no message twice in
      a row; the remembered snapshot is the last one written, or the zero
      snapshot when nothing was. */
  lemma {:induction false} WrittenShape(events: seq<Snapshot>, blank: bool)
    ensures var st := Written(events, blank);
      (forall i :: 0 <= i < |st.written| ==> st.written[i] != "")
      && (forall i :: 0 < i < |st.written| ==> st.written[i] != st.written[i - 1])
      && (|st.written| == 0 ==> st.data == ZeroSnapshot && st.last == "")
      && (|st.written| > 0 ==> st.last == st.written[|st.written| - 1] && st.data.message == st.last)
      && |st.written| <= |events|
    decreases |events|
  {
    if |events| > 0 {
      WrittenShape(events[..|events| - 1], blank);
    }
  }

  /** Each written message is the message of a received snapshot, in order. */
  lemma {:induction false} WrittenFromEvents(events: seq<Snapshot>, blank: bool, i: nat)
    requires i < |Written(events, blank).written|
    ensures exists k :: 0 <= k < |events| && Shown(events[k], blank).message == Written(events, blank).written[i]
    decreases |events|
  {
    var front := events[..|events| - 1];
    if i < |Written(front, blank).written| {
      WrittenFromEvents(front, blank, i);
      var k :| 0 <= k < |front| && Shown(front[k], blank).message == Written(front, blank).written[i];
      assert events[k] == front[k];
    } else {
      assert Shown(events[|events| - 1], blank).message == Written(events, blank).written[i];
    }
  }

  /** When no received snapshot has a message, nothing but the final frame is
      written, and it carries the zero snapshot: the confirm stage's create
      response, the voice stage's confirmation flag and the finalize stage's
      session id never reach the client. */
  lemma {:induction false} SilentEventsGiveZero(events: seq<Snapshot>, toJSON: Body<Snapshot> -> string)
    requires forall i :: 0 <= i < |events| ==> events[i].message == ""
    ensures Written(events, false) == StartState
    ensures CreateFrames(events, false, toJSON) == [Frame(toJSON(MakeResponse(ZeroSnapshot)))]
    decreases |events|
  {
    if |events| > 0 {
      SilentEventsGiveZero(events[..|events| - 1], toJSON);
    }
  }

  /** For a request without session id the one event is the fresh session id,
      written as a message and then inside the final envelope. */
  lemma FreshSessionFrames(uuid: string, toJSON: Body<Snapshot> -> string)
    requires uuid != ""
    ensures CreateFrames([ZeroSnapshot.(sessionID := uuid)], true, toJSON)
         == [Frame(Escape(uuid)), Frame(toJSON(MakeResponse(ZeroSnapshot.(sessionID := uuid, message := uuid))))]
  {
    var e := ZeroSnapshot.(sessionID := uuid);
    assert [e][..0] == [];
    assert Written([e], true) == WriterState(uuid, e.(message := uuid), [uuid]);
    assert DataFrames([uuid]) == [Frame(Escape(uuid))];
  }

  /** The createV2 writer loop over the snapshots received until the channel
      closed; the flush after each frame is not modelled. */
  method WriteCreateStream(events: seq<Snapshot>, blank: bool, toJSON: Body<Snapshot> -> string)
    returns (frames: seq<string>)
    ensures frames == CreateFrames(events, blank, toJSON)
  {
    var data := ZeroSnapshot;
    var h := "";
    ghost var written: seq<string> := [];
    frames := [];
    for k := 0 to |events|
      invariant WriterState(h, data, written) == Written(events[..k], blank)
      invariant frames == DataFrames(written)
    {
      assert events[..k + 1][..k] == events[..k];
      var resMessage := events[k];
      if blank {
        resMessage := resMessage.(message := resMessage.sessionID);
      }
      if resMessage.message == "" || h == resMessage.message {
        continue;
      }
      var m := Escape(resMessage.message);
      h := resMessage.message;
      frames := frames + [Frame(m)];
      written := written + [resMessage.message];
      data := resMessage;
    }
    assert events[..|events|] == events;
    frames := frames + [Frame(toJSON(MakeResponse(data)))];
  }

  /** The request body createV2 parses. */
  datatype CreateBody = CreateBody(message: string, sessionID: string, state: int, is3D: bool)

  /** How createV2 answers: at once with a JSON reply, with an event stream,
      never (the stage machine did not close its channel, so the writer
      waits for ever), or not at all (the process ended with a panic). */
  datatype CreateReply = Answered(reply: HttpReply<string>) | Streamed(frames: seq<string>) | Stalled | Aborted

  /** The request createV2 hands the stage machine. */
  function CreateRequest(accountID: string, b: CreateBody): (req: CreateCharacterRequest)
    ensures req.accountID == accountID && req.message == b.message && req.sessionID == b.sessionID
    ensures req.state == b.state && req.is3D == b.is3D
  {
    CreateCharacterRequest(accountID, b.message, b.sessionID, b.state, b.is3D)
  }

  /** createV2: the gate, the body, then the stage machine and the writer.
      The handler returns, giving its slot back, as soon as it has started
      the stage machine and installed the writer; the model gives the slot
      back first. */
  method CreateV2(gate: Gate, svc: SC.CharacterService, accountID: string, body: Result<CreateBody, string>,
                  env: SC.Env, toJSON: Body<Snapshot> -> string)
    returns (r: CreateReply)
    requires gate.Valid()
    modifies gate, svc, svc.characters
    ensures gate.Valid() && gate.held == old(gate.held)
    ensures old(gate.held) >= gate.limit ==>
      r == Answered(HttpReply(StatusOK, MakeResponseWithMsg<string>(QueueMsg).WithCode(QueueCode)))
    ensures old(gate.held) >= gate.limit || body.Err? ==>
      svc.characters.records == old(svc.characters.records) && svc.imageCache == old(svc.imageCache)
    ensures old(gate.held) < gate.limit && body.Err? ==>
      r == Answered(HttpReply(StatusBadRequest, MakeResponseWithMsg<string>(body.error)))
    ensures old(gate.held) < gate.limit && body.Ok? && SC.LimitCheck(env).Some? ==> r == Stalled
    ensures old(gate.held) < gate.limit && body.Ok? && SC.LimitCheck(env).None? ==>
      var req := CreateRequest(accountID, body.value);
      if SC.Crashes(req, env) then r == Aborted
      else r == Streamed(CreateFrames(old(SC.Sent(svc.characters, svc.voices, req, env)), req.sessionID == "", toJSON))
    ensures old(gate.held) < gate.limit && body.Ok? && SC.LimitCheck(env).None? && body.value.sessionID == ""
            && env.freshUUID != "" ==>
      r == Streamed([Frame(Escape(env.freshUUID)),
                     Frame(toJSON(MakeResponse(ZeroSnapshot.(sessionID := env.freshUUID, message := env.freshUUID))))])
  {
    var ok := gate.TryAcquire();
    if !ok {
      var resp := new Response(MakeResponseWithMsg<string>(QueueMsg));
      var coded := resp.SetCode(QueueCode);
      return Answered(HttpReply(StatusOK, coded.body));
    }
    gate.Release();
    if body.Err? {
      return Answered(HttpReply(StatusBadRequest, MakeResponseWithMsg<string>(body.error)));
    }
    r := Serve(svc, CreateRequest(accountID, body.value), env, toJSON);
  }

  /** The stage machine run on a fresh channel, then the writer over what it
      sent: a refused limit leaves the channel open and the writer waiting, a
      crashed agent stream ends the process. */
  method Serve(svc: SC.CharacterService, req: CreateCharacterRequest, env: SC.Env, toJSON: Body<Snapshot> -> string)
    returns (r: CreateReply)
    modifies svc, svc.characters
    ensures SC.LimitCheck(env).Some? ==> r == Stalled
    ensures SC.LimitCheck(env).None? ==>
      if SC.Crashes(req, env) then r == Aborted
      else r == Streamed(CreateFrames(old(SC.Sent(svc.characters, svc.voices, req, env)), req.sessionID == "", toJSON))
    ensures SC.LimitCheck(env).None? && req.sessionID == "" && env.freshUUID != "" ==>
      r == Streamed([Frame(Escape(env.freshUUID)),
                     Frame(toJSON(MakeResponse(ZeroSnapshot.(sessionID := env.freshUUID, message := env.freshUUID))))])
  {
    ghost var expected := SC.Sent(svc.characters, svc.voices, req, env);
    var resCh := new Channel<Snapshot>();
    assert SC.Sent(svc.characters, svc.voices, req, env) == expected;
    var out := svc.CreateCharacterV2(req, env, resCh);
    var events := resCh.sent;
    assert out.Finished? ==> events == expected;
    if out.Crashed? {
      return Aborted;
    }
    if resCh.closes == 0 {
      return Stalled;
    }
    var frames := WriteCreateStream(events, req.sessionID == "", toJSON);
    if req.sessionID == "" && env.freshUUID != "" {
      FreshSessionFrames(env.freshUUID, toJSON);
    }
    return Streamed(frames);
  }

  // ---- The ChatV2 writer ----

  /** The final payload of a chat: the whole reply and its voice file. */
  datatype ChatReply = ChatReply(chatMessage: string, voice: string)

  function Concat(chunks: seq<string>): string
    decreases |chunks|
  {
    if |chunks| == 0 then "" else Concat(chunks[..|chunks| - 1]) + chunks[|chunks| - 1]
  }

  /** Everything ChatV2 writes: every chunk, escaped, in order; then, unless
      MessageToVoice fails, the envelope of the whole text and its voice. */
  function ChatFrames(chunks: seq<string>, characters: CharacterStore, voices: VoiceData.VoiceStore, id: string,
                      characterFault: Option<Error>, voiceFault: Option<Error>, isHan: char -> bool,
                      generate: (string, string) -> Result<string, Error>, voiceEndpoint: string,
                      toJSON: Body<ChatReply> -> string)
    : (frames: seq<string>)
    reads characters, voices
    ensures var v := SC.MessageToVoice(characters, voices, id, Concat(chunks), characterFault, voiceFault, isHan, generate, voiceEndpoint);
      |frames| == |chunks| + (if v.Ok? then 1 else 0)
      && (forall i :: 0 <= i < |chunks| ==> frames[i] == Frame(Escape(chunks[i])))
      && (v.Ok? ==> frames[|chunks|] == Frame(toJSON(MakeResponse(ChatReply(Concat(chunks), v.value)))))
  {
    var content := Concat(chunks);
    match SC.MessageToVoice(characters, voices, id, content, characterFault, voiceFault, isHan, generate, voiceEndpoint)
    case Ok(voice) => DataFrames(chunks) + [Frame(toJSON(MakeResponse(ChatReply(content, voice))))]
    case Err(_) => DataFrames(chunks)
  }

  /** A failed character or voice lookup still ends the stream with the
      text, and an empty voice. */
  lemma LookupFailureStillAnswers(chunks: seq<string>, characters: CharacterStore, voices: VoiceData.VoiceStore,
                                  id: string, characterFault: Option<Error>, isHan: char -> bool,
                                  generate: (string, string) -> Result<string, Error>, voiceEndpoint: string,
                                  toJSON: Body<ChatReply> -> string)
    requires characterFault.Some? || id !in characters.records
    ensures var frames := ChatFrames(chunks, characters, voices, id, characterFault, None, isHan, generate, voiceEndpoint, toJSON);
      |frames| == |chunks| + 1 && frames[|chunks|] == Frame(toJSON(MakeResponse(ChatReply(Concat(chunks), ""))))
  {
  }

  /** The chunk loop of ChatV2: each chunk is written as it comes and added to the text. */
  method StreamChunks(chunks: seq<string>) returns (frames: seq<string>, content: string)
    ensures frames == DataFrames(chunks) && content == Concat(chunks)
  {
    content := "";
    frames := [];
    for k := 0 to |chunks|
      invariant content == Concat(chunks[..k])
      invariant frames == DataFrames(chunks[..k])
    {
      assert chunks[..k + 1][..k] == chunks[..k];
      DataFramesSnoc(chunks, k);
      var message := chunks[k];
      frames := frames + [Frame(Escape(message))];
      content := content + message;
    }
    assert chunks[..|chunks|] == chunks;
  }

  /** The ChatV2 writer: each chunk is written as it comes and added to
      the text; at the close the text is voiced and the envelope written. */
  method WriteChatStream(chunks: seq<string>, characters: CharacterStore, voices: VoiceData.VoiceStore, id: string,
                         characterFault: Option<Error>, voiceFault: Option<Error>, isHan: char -> bool,
                         generate: (string, string) -> Result<string, Error>, voiceEndpoint: string,
                         toJSON: Body<ChatReply> -> string)
    returns (frames: seq<string>)
    ensures frames == ChatFrames(chunks, characters, voices, id, characterFault, voiceFault, isHan, generate, voiceEndpoint, toJSON)
  {
    var content;
    frames, content := StreamChunks(chunks);
    var voice := SC.MessageToVoice(characters, voices, id, content, characterFault, voiceFault, isHan, generate, voiceEndpoint);
    if voice.Err? {
      return;
    }
    frames := frames + [Frame(toJSON(MakeResponse(ChatReply(content, voice.value))))];
  }

  // ---- updateCharacter ----

  /** strconv.Atoi: an optional sign, then one or more decimal digits. */
  function Atoi(s: string): (r: Option<int>)
    ensures r.Some? ==> |s| > 0
  {
    if |s| > 0 && (s[0] == '+' || s[0] == '-') then
      if |s| > 1 && IsDigits(s[1..]) then Some(if s[0] == '-' then 0 - ParseNat(s[1..]) else ParseNat(s[1..]))
      else None
    else if |s| > 0 && IsDigits(s) then Some(ParseNat(s))
    else None
  }

  /** Atoi reads back every printed integer. */
  lemma AtoiReadsIntToString(i: int)
    ensures Atoi(IntToString(i)) == Some(i)
  {
    IntToStringRoundTrip(i);
    var s := IntToString(i);
    if i >= 0 {
      assert s == NatToString(i);
      assert s[0] != '+' && s[0] != '-';
    }
  }

  /** The text of Atoi's syntax error. */
  function AtoiError(s: string): string {
    "strconv.Atoi: parsing \"" + s + "\": invalid syntax"
  }

  /** filepath.Ext: the suffix from the last "." of the final path element, or "". */
  function Ext(path: string): (e: string)
    ensures e == "" || (|e| <= |path| && path[|path| - |e|..] == e && e[0] == '.' && '/' !in e && '.' !in e[1..])
    ensures e == "" ==> forall i :: 0 <= i < |path| && '/' !in path[i..] ==> path[i] != '.'
    decreases |path|
  {
    if |path| == 0 then ""
    else if path[|path| - 1] == '/' then ""
    else if path[|path| - 1] == '.' then [path[|path| - 1]]
    else
      var front := path[..|path| - 1];
      var e := Ext(front);
      if e == "" then
        assert forall i :: 0 <= i < |path| && '/' !in path[i..] ==> path[i] != '.' by {
          forall i | 0 <= i < |path| && '/' !in path[i..] ensures path[i] != '.' {
            if i < |path| - 1 {
              assert path[i..][..|path| - 1 - i] == front[i..];
              assert front[i] == path[i];
            }
          }
        }
        ""
      else
        assert path[|path| - |e| - 1..] == front[|front| - |e|..] + [path[|path| - 1]];
        e + [path[|path| - 1]]
  }

  /** The slot names an uploaded image can get. */
  const Slots: set<string> := {"1", "2", "3", "4"}

  /** The slot an existing image occupies: its file name up to the first ".". */
  function BaseKey(image: string): string {
    Split(Common.URL2FileName(image), '.')[0]
  }

  /** The slots the images occupy. */
  function Taken(images: seq<string>): set<string>
    decreases |images|
  {
    if |images| == 0 then {} else Taken(images[..|images| - 1]) + {BaseKey(images[|images| - 1])}
  }

  function FreeSlots(images: seq<string>): set<string> {
    Slots - Taken(images)
  }

  /** The loop deleting the existing images' slots from imageMap. */
  method FreeSlotsOf(images: seq<string>) returns (free: set<string>)
    ensures free == FreeSlots(images)
  {
    free := Slots;
    for i := 0 to |images|
      invariant free == Slots - Taken(images[..i])
    {
      assert images[..i + 1][..i] == images[..i];
      free := free - {BaseKey(images[i])};
    }
    assert images[..|images|] == images;
  }

  lemma {:induction false} TakenAtMost(images: seq<string>)
    ensures |Taken(images)| <= |images|
    decreases |images|
  {
    if |images| > 0 {
      TakenAtMost(images[..|images| - 1]);
    }
  }

  lemma SlotsSize()
    ensures |Slots| == 4
  {
    assert Slots == {"1", "2", "3"} + {"4"};
    assert {"1", "2", "3"} == {"1", "2"} + {"3"};
    assert {"1", "2"} == {"1"} + {"2"};
  }

  /** Every existing image takes at most one slot, so within the upload limit
      there is a free slot for each file. */
  lemma EnoughSlots(images: seq<string>, nFiles: nat)
    requires |images| + nFiles <= ImageCountLimit
    ensures |FreeSlots(images)| >= nFiles
  {
    TakenAtMost(images);
    SlotsSize();
    var both := Slots * Taken(images);
    assert FreeSlots(images) + both == Slots;
    assert FreeSlots(images) !! both;
    assert both <= Taken(images);
    SubsetSize(both, Taken(images));
  }

  lemma {:induction false} SubsetSize(a: set<string>, b: set<string>)
    requires a <= b
    ensures |a| <= |b|
    decreases |b|
  {
    if a != {} {
      var x :| x in a;
      SubsetSize(a - {x}, b - {x});
    }
  }

  /** The URL an uploaded file is served at; `stamp` is time.Now().Nanosecond(). */
  function UploadURL(endpoint: string, accountID: string, key: string, fileName: string, stamp: int): string {
    endpoint + accountID + "/" + key + Ext(fileName) + "?t=" + IntToString(stamp)
  }

  /** The URLs of the first |keys| files, the j-th saved under keys[j]. */
  function UploadURLs(endpoint: string, accountID: string, keys: seq<string>, files: seq<string>, stamps: nat -> int)
    : (urls: seq<string>)
    requires |keys| <= |files|
    ensures |urls| == |keys|
    ensures forall j :: 0 <= j < |keys| ==> urls[j] == UploadURL(endpoint, accountID, keys[j], files[j], stamps(j))
  {
    seq(|keys|, j requires 0 <= j < |keys| => UploadURL(endpoint, accountID, keys[j], files[j], stamps(j)))
  }

  lemma UploadURLsSnoc(endpoint: string, accountID: string, keys: seq<string>, key: string, files: seq<string>,
                       stamps: nat -> int)
    requires |keys| < |files|
    ensures UploadURLs(endpoint, accountID, keys + [key], files, stamps)
         == UploadURLs(endpoint, accountID, keys, files, stamps) + [UploadURL(endpoint, accountID, key, files[|keys|], stamps(|keys|))]
  {
    assert (keys + [key])[..|keys|] == keys;
  }

  /** Files in different slots get different URLs: the slot names are single
      digits and neither the endpoint nor the account changes. */
  lemma UploadURLsDiffer(endpoint: string, accountID: string, k1: string, k2: string, f1: string, f2: string,
                         s1: int, s2: int)
    requires k1 in Slots && k2 in Slots && k1 != k2
    ensures UploadURL(endpoint, accountID, k1, f1, s1) != UploadURL(endpoint, accountID, k2, f2, s2)
  {
    var p := |endpoint + accountID + "/"|;
    var u1 := UploadURL(endpoint, accountID, k1, f1, s1);
    var u2 := UploadURL(endpoint, accountID, k2, f2, s2);
    assert u1[p] == k1[0];
    assert u2[p] == k2[0];
  }

  /** Distinct slots give distinct URLs. */
  lemma UploadURLsDistinct(endpoint: string, accountID: string, keys: seq<string>, files: seq<string>, stamps: nat -> int)
    requires |keys| <= |files|
    requires forall j :: 0 <= j < |keys| ==> keys[j] in Slots
    requires forall i, j :: 0 <= i < j < |keys| ==> keys[i] != keys[j]
    ensures var urls := UploadURLs(endpoint, accountID, keys, files, stamps);
      forall i, j :: 0 <= i < j < |urls| ==> urls[i] != urls[j]
  {
    var urls := UploadURLs(endpoint, accountID, keys, files, stamps);
    forall i, j | 0 <= i < j < |urls| ensures urls[i] != urls[j] {
      UploadURLsDiffer(endpoint, accountID, keys[i], keys[j], files[i], files[j], stamps(i), stamps(j));
    }
  }

  /** `for key := range imageMap { …; delete(imageMap, key); break }`: some slot is taken. */
  method TakeSlot(left: set<string>) returns (key: string, rest: set<string>)
    requires left != {}
    ensures key in left && rest == left - {key} && |rest| + 1 == |left|
  {
    key :| key in left;
    rest := left - {key};
  }

  predicate Distinct(keys: seq<string>) {
    forall i, j :: 0 <= i < j < |keys| ==> keys[i] != keys[j]
  }

  /** Each key is in `free`, none is in `left`. */
  predicate Spent(keys: seq<string>, free: set<string>, left: set<string>) {
    forall j :: 0 <= j < |keys| ==> keys[j] in free && keys[j] !in left
  }

  /** Taking a slot from `left` keeps the keys distinct and spent. */
  lemma TakeKeeps(keys: seq<string>, free: set<string>, left: set<string>, key: string)
    requires Distinct(keys) && Spent(keys, free, left) && key in left && left <= free
    ensures Distinct(keys + [key]) && Spent(keys + [key], free, left - {key})
  {
    var ks := keys + [key];
    forall i, j | 0 <= i < j < |ks| ensures ks[i] != ks[j] {
      assert ks[i] == keys[i];
      if j < |keys| {
        assert ks[j] == keys[j];
      } else {
        assert keys[i] !in left;
      }
    }
  }

  /** What the upload loop keeps after `k` files: one distinct spent key per
      file, no failed save, and the URLs so far. */
  ghost predicate Uploaded(free: set<string>, left: set<string>, keys: seq<string>, urls: seq<string>,
                           images: seq<string>, files: seq<string>, saveFault: nat -> Option<Error>,
                           stamps: nat -> int, endpoint: string, accountID: string)
  {
    |keys| <= |files| && |left| + |keys| == |free| && left <= free
    && Distinct(keys) && Spent(keys, free, left)
    && (forall j :: 0 <= j < |keys| ==> saveFault(j) == None)
    && urls == images + UploadURLs(endpoint, accountID, keys, files, stamps)
  }

  /** One more file saved under a slot taken from `left`. */
  lemma UploadStep(free: set<string>, left: set<string>, keys: seq<string>, urls: seq<string>, key: string,
                   images: seq<string>, files: seq<string>, saveFault: nat -> Option<Error>,
                   stamps: nat -> int, endpoint: string, accountID: string)
    requires Uploaded(free, left, keys, urls, images, files, saveFault, stamps, endpoint, accountID)
    requires |keys| < |files| && key in left && saveFault(|keys|) == None
    ensures Uploaded(free, left - {key}, keys + [key],
                     urls + [UploadURL(endpoint, accountID, key, files[|keys|], stamps(|keys|))],
                     images, files, saveFault, stamps, endpoint, accountID)
  {
    UploadURLsSnoc(endpoint, accountID, keys, key, files, stamps);
    TakeKeeps(keys, free, left, key);
    assert forall j :: 0 <= j < |keys| + 1 ==> saveFault(j) == None;
  }

  /** The upload loop: each file takes some free slot (Go's map order is
      unspecified), is saved as `dir/slot.ext`, and its URL is appended. A
      failed save (`saveFault(k)` for the k-th file) ends the loop with its error. */
  method AllocateSlots(free: set<string>, images: seq<string>, files: seq<string>, saveFault: nat -> Option<Error>,
                       stamps: nat -> int, endpoint: string, accountID: string)
    returns (r: Result<seq<string>, Error>, keys: seq<string>)
    requires |free| >= |files|
    ensures |keys| <= |files| && Distinct(keys)
    ensures forall j :: 0 <= j < |keys| ==> keys[j] in free && saveFault(j).None?
    ensures r.Ok? ==> |keys| == |files| && r.value == images + UploadURLs(endpoint, accountID, keys, files, stamps)
    ensures r.Err? ==> |keys| < |files| && saveFault(|keys|) == Some(r.error)
  {
    var left := free;
    var urls := images;
    keys := [];
    for k := 0 to |files|
      invariant |keys| == k
      invariant Uploaded(free, left, keys, urls, images, files, saveFault, stamps, endpoint, accountID)
    {
      if left != {} {
        var key, rest := TakeSlot(left);
        if saveFault(k).Some? {
          return Err(saveFault(k).value), keys;
        }
        UploadStep(free, left, keys, urls, key, images, files, saveFault, stamps, endpoint, accountID);
        urls := urls + [UploadURL(endpoint, accountID, key, files[k], stamps(k))];
        left := rest;
        keys := keys + [key];
      } else {
        assert false;
      }
    }
    return Ok(urls), keys;
  }

  /** The index selection as written: a number above the image count and at
      most 9 + the number of files picks images[num % 10 + urlLen]; that can
      lie past the end, a panic (OutOfRange). */
  datatype Selection = Picked(image: string) | Kept | OutOfRange

  function SelectAsWritten(images: seq<string>, urlLen: nat, nFiles: nat, num: int): Selection {
    if num > |images| && num <= 9 + nFiles then
      var k := num % 10 + urlLen;
      if k < |images| then Picked(images[k]) else OutOfRange
    else if num < |images| && num >= 0 then Picked(images[num])
    else Kept
  }

  /** With no images and no files, Image "1" indexes past the end. */
  lemma SelectAsWrittenOverruns()
    ensures SelectAsWritten([], 0, 0, 1) == OutOfRange
  {
  }

  /** Within the upload limit, the selection overruns exactly for a number
      above the image count and below 10. */
  lemma OverrunIff(images: seq<string>, urlLen: nat, nFiles: nat, num: int)
    requires |images| == urlLen + nFiles && |images| <= ImageCountLimit
    ensures SelectAsWritten(images, urlLen, nFiles, num) == OutOfRange <==> |images| < num <= 9
  {
    if 10 <= num <= 9 + nFiles {
      assert num % 10 == num - 10;
    }
  }

  /** The selection as intended: 10 + j names the j-th uploaded file, a
      number below the image count names that image, anything else keeps
      the raw value. The index is always in range. */
  function SelectImage(images: seq<string>, urlLen: nat, nFiles: nat, num: int, raw: string): (image: string)
    requires |images| == urlLen + nFiles
    ensures 10 <= num <= 9 + nFiles ==> image == images[urlLen + num - 10]
    ensures !(10 <= num <= 9 + nFiles) && 0 <= num < |images| ==> image == images[num]
    ensures !(10 <= num <= 9 + nFiles) && !(0 <= num < |images|) ==> image == raw
  {
    if 10 <= num <= 9 + nFiles then images[urlLen + num - 10]
    else if 0 <= num < |images| then images[num]
    else raw
  }

  /** Wherever the code as written does not overrun, the intended selection agrees with it. */
  lemma SelectAgrees(images: seq<string>, urlLen: nat, nFiles: nat, num: int, raw: string)
    requires |images| == urlLen + nFiles && |images| <= ImageCountLimit
    ensures SelectAsWritten(images, urlLen, nFiles, num) == Picked(SelectImage(images, urlLen, nFiles, num, raw))
         || SelectAsWritten(images, urlLen, nFiles, num) == OutOfRange
         || (SelectAsWritten(images, urlLen, nFiles, num) == Kept && SelectImage(images, urlLen, nFiles, num, raw) == raw)
  {
    if 10 <= num <= 9 + nFiles {
      assert num % 10 == num - 10;
    }
  }

  datatype UpdateForm = UpdateForm(description: string, id: string, images: seq<string>, image: string,
                                   name: string, voice: string)

  /** The request updateCharacter hands the service. */
  datatype UpdateCall = UpdateCall(id: string, accountID: string, description: string, name: string,
                                   images: seq<string>, image: string, voice: string)

  const UploadLimitText := " You've reached the limit for upload image"

  /** What updateCharacter answers: a JSON reply, or a panic in the handler,
      which fiber's recover middleware (api/http/http.go:32) turns into a 500
      carrying the panic's text instead of an envelope. */
  datatype UpdateReply = Replied(reply: HttpReply<string>) | Recovered

  /** Every one of the first `n` file saves succeeds. */
  predicate SavesSucceed(saveFault: nat -> Option<Error>, n: nat) {
    forall j :: 0 <= j < n ==> saveFault(j).None?
  }

  /** The form is read, the directory made and the images within the limit. */
  predicate Admitted(form: Result<UpdateForm, string>, files: seq<string>, formFault: Option<Error>,
                     mkdirFault: Option<Error>)
  {
    form.Ok? && Atoi(form.value.image).Some? && formFault.None? && mkdirFault.None?
    && |form.value.images| + |files| <= ImageCountLimit
  }

  /** updateCharacter. `form` is the parsed parameters and body (or the
      parser's message), `files` the uploaded file names, `formFault` and
      `mkdirFault` the errors of reading the multipart form and of creating
      the account's directory, `serviceFault` the service's answer. */
  method UpdateCharacter(form: Result<UpdateForm, string>, files: seq<string>, formFault: Option<Error>,
                         mkdirFault: Option<Error>, saveFault: nat -> Option<Error>, stamps: nat -> int,
                         endpoint: string, accountID: string, serviceFault: Option<Error>)
    returns (reply: UpdateReply, call: Option<UpdateCall>)
    ensures form.Err? ==> reply == Replied(HttpReply(StatusBadRequest, MakeResponseWithMsg(form.error))) && call.None?
    ensures form.Ok? && Atoi(form.value.image).None? ==>
      reply == Replied(HttpReply(StatusBadRequest, MakeResponseWithMsg(AtoiError(form.value.image)))) && call.None?
    ensures form.Ok? && Atoi(form.value.image).Some? && formFault.Some? ==>
      reply == Replied(HttpReply(StatusBadRequest, MakeErrResponse(formFault.value))) && call.None?
    ensures form.Ok? && Atoi(form.value.image).Some? && formFault.None? && mkdirFault.Some? ==>
      reply == Replied(HttpReply(StatusBadRequest, MakeErrResponse(mkdirFault.value))) && call.None?
    ensures form.Ok? && Atoi(form.value.image).Some? && formFault.None? && mkdirFault.None?
            && |form.value.images| + |files| > ImageCountLimit ==>
      reply == Replied(HttpReply(StatusBadRequest, MakeErrResponse(Text(UploadLimitText)))) && call.None?
    ensures Admitted(form, files, formFault, mkdirFault) ==>
      UploadAnswer(form.value, Atoi(form.value.image).value, files, saveFault, stamps, endpoint, accountID,
                   serviceFault, reply, call)
  {
    if form.Err? {
      return Replied(HttpReply(StatusBadRequest, MakeResponseWithMsg(form.error))), None;
    }
    var req := form.value;
    var num := Atoi(req.image);
    if num.None? {
      return Replied(HttpReply(StatusBadRequest, MakeResponseWithMsg(AtoiError(req.image)))), None;
    }
    if formFault.Some? {
      return Replied(HttpReply(StatusBadRequest, MakeErrResponse(formFault.value))), None;
    }
    if mkdirFault.Some? {
      return Replied(HttpReply(StatusBadRequest, MakeErrResponse(mkdirFault.value))), None;
    }
    var free := FreeSlotsOf(req.images);
    if |req.images| + |files| > ImageCountLimit {
      return Replied(HttpReply(StatusBadRequest, MakeErrResponse(Text(UploadLimitText)))), None;
    }
    reply, call := UploadAndCall(req, num.value, free, files, saveFault, stamps, endpoint, accountID, serviceFault);
  }

  /** How the upload half of updateCharacter ends:
      - the first failed save answers 500 with its error envelope;
      - with every save done, a number above the image count and at most 9
        panics, and the recover middleware answers;
      - otherwise the service is called with the existing images followed by
        distinct new URLs and the image the code as written selects, which
        is the intended one; it answers 200 "ok" exactly when the service
        succeeds, and the service's error envelope with 500 otherwise. */
  ghost predicate UploadAnswer(req: UpdateForm, num: int, files: seq<string>, saveFault: nat -> Option<Error>,
                               stamps: nat -> int, endpoint: string, accountID: string,
                               serviceFault: Option<Error>, reply: UpdateReply, call: Option<UpdateCall>)
  {
    var n := |req.images| + |files|;
    (!SavesSucceed(saveFault, |files|) ==>
       call.None? && exists j :: 0 <= j < |files| && SavesSucceed(saveFault, j) && saveFault(j).Some?
                                 && reply == Replied(HttpReply(StatusInternalServerError, MakeErrResponse(saveFault(j).value))))
    && (SavesSucceed(saveFault, |files|) && n < num <= 9 ==> reply == Recovered && call.None?)
    && (SavesSucceed(saveFault, |files|) && !(n < num <= 9) ==>
          call.Some?
          && UploadCall(req, files, stamps, endpoint, accountID, call.value)
          && |call.value.images| == n
          && call.value.images[..|req.images|] == req.images
          && (forall i, j :: |req.images| <= i < j < n ==> call.value.images[i] != call.value.images[j])
          && (SelectAsWritten(call.value.images, |req.images|, |files|, num) == Picked(call.value.image)
              || (SelectAsWritten(call.value.images, |req.images|, |files|, num) == Kept && call.value.image == req.image))
          && call.value.image == SelectImage(call.value.images, |req.images|, |files|, num, req.image)
          && (serviceFault.None? ==> reply == Replied(HttpReply(StatusOK, MakeResponse("ok"))))
          && (serviceFault.Some? ==> reply == Replied(HttpReply(StatusInternalServerError, MakeErrResponse(serviceFault.value)))))
  }

  /** The service call of an upload: the form's id, description, name and
      voice, the handler's account, and the existing images followed by one
      URL per file, each in a distinct free slot. */
  ghost predicate UploadCall(req: UpdateForm, files: seq<string>, stamps: nat -> int, endpoint: string,
                             accountID: string, c: UpdateCall)
  {
    c == UpdateCall(req.id, accountID, req.description, req.name, c.images, c.image, req.voice)
    && exists keys :: |keys| == |files| && Distinct(keys) && (forall k :: k in keys ==> k in FreeSlots(req.images))
                      && c.images == req.images + UploadURLs(endpoint, accountID, keys, files, stamps)
  }

  /** The overrun input of the code as written: no images, no files and
      Image "1" end in the recovered panic, and the service is not called. */
  lemma OverrunIsRecovered(req: UpdateForm, saveFault: nat -> Option<Error>, stamps: nat -> int, endpoint: string,
                           accountID: string, serviceFault: Option<Error>, reply: UpdateReply, call: Option<UpdateCall>)
    requires req.images == [] && UploadAnswer(req, 1, [], saveFault, stamps, endpoint, accountID, serviceFault, reply, call)
    ensures reply == Recovered && call.None?
  {
  }

  /** Appending distinct URLs keeps the existing images in front and leaves
      no repetition among the appended ones. */
  lemma AppendDistinct(prefix: seq<string>, urls: seq<string>)
    requires forall i, j :: 0 <= i < j < |urls| ==> urls[i] != urls[j]
    ensures var all := prefix + urls;
      all[..|prefix|] == prefix && forall i, j :: |prefix| <= i < j < |all| ==> all[i] != all[j]
  {
    var all := prefix + urls;
    forall i, j | |prefix| <= i < j < |all| ensures all[i] != all[j] {
      assert all[i] == urls[i - |prefix|] && all[j] == urls[j - |prefix|];
    }
  }

  /** The second half of updateCharacter, once the form is read and the
      images are within the limit: save the files into free slots, select
      the cover image as the code is written and call the service. */
  method UploadAndCall(req: UpdateForm, num: int, free: set<string>, files: seq<string>,
                       saveFault: nat -> Option<Error>, stamps: nat -> int,
                       endpoint: string, accountID: string, serviceFault: Option<Error>)
    returns (reply: UpdateReply, call: Option<UpdateCall>)
    requires |req.images| + |files| <= ImageCountLimit && free == FreeSlots(req.images)
    ensures UploadAnswer(req, num, files, saveFault, stamps, endpoint, accountID, serviceFault, reply, call)
  {
    EnoughSlots(req.images, |files|);
    var urlLen := |req.images|;
    var uploaded, keys := AllocateSlots(free, req.images, files, saveFault, stamps, endpoint, accountID);
    if uploaded.Err? {
      assert SavesSucceed(saveFault, |keys|);
      return Replied(HttpReply(StatusInternalServerError, MakeErrResponse(uploaded.error))), None;
    }
    var images := uploaded.value;
    UploadURLsDistinct(endpoint, accountID, keys, files, stamps);
    AppendDistinct(req.images, UploadURLs(endpoint, accountID, keys, files, stamps));
    OverrunIff(images, urlLen, |files|, num);
    SelectAgrees(images, urlLen, |files|, num, req.image);
    var selection := SelectAsWritten(images, urlLen, |files|, num);
    if selection.OutOfRange? {
      return Recovered, None;
    }
    var image := if selection.Picked? then selection.image else req.image;
    call := Some(UpdateCall(req.id, accountID, req.description, req.name, images, image, req.voice));
    assert UploadCall(req, files, stamps, endpoint, accountID, call.value) by {
      assert forall k :: k in keys ==> k in FreeSlots(req.images);
    }
    if serviceFault.Some? {
      return Replied(HttpReply(StatusInternalServerError, MakeErrResponse(serviceFault.value))), call;
    }
    return Replied(HttpReply(StatusOK, MakeResponse("ok"))), call;
  }
}
