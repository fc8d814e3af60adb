/** The character-creation stage machine of internal/service/character/character.go
    (CreateCharacterV2), the snapshot aggregator it streams, the gender rule,
    the voice choice of MessageToVoice, and the image cache it keeps. */
module ServiceCharacter {
  import opened Wrappers
  import opened Strs
  import opened BizErr
  import opened Chan
  import opened ServiceTypes
  import opened CharacterData
  import CB = CharacterBiz
  import VoiceData
  import VoiceBiz
  import Activity
  import Common

  /** The stages a create request names by its State. */
  const Stage1: int := 0
  const Stage2: int := 1
  const Stage3: int := 2
  const Stage4: int := 3
  const Stage5: int := 4

  /** The lifetime an image list is cached with, in seconds (one hour). */
  const ImageLifetime: int := 3600

  // ---- Expression-level helpers ----

  /** The gender rule: 1 when the lower-cased text contains "man", else 2. */
  function Gender(toLower: string -> string, g: string): (r: int)
    ensures r == 1 <==> Contains(toLower(g), "man")
    ensures r == 1 || r == 2
  {
    if Contains(toLower(g), "man") then 1 else 2
  }

  /** "woman" contains "man", so the rule gives 1 for it as well. */
  lemma WomanIsOne(toLower: string -> string, g: string)
    requires Contains(toLower(g), "woman")
    ensures Gender(toLower, g) == 1
  {
    var s := toLower(g);
    var i :| Occurs("woman", s, i);
    assert s[i + 2..i + 5] == s[i..i + 5][2..5];
    assert Occurs("man", s, i + 2);
  }

  /** makeChatMessage: the contents of the messages, in order. */
  function MakeChatMessage(ms: seq<CB.ChatMessage>): (r: seq<string>)
    ensures |r| == |ms| && forall i :: 0 <= i < |ms| ==> r[i] == ms[i].content
  {
    seq(|ms|, i requires 0 <= i < |ms| => ms[i].content)
  }

  const GenVoicePrefix := "MessageToVoice: gen voice : "

  /** The speaker a voice uses for a text: the Chinese one when the text has a Han character. */
  function RoleFor(v: VoiceData.CharacterVoice, msg: string, isHan: char -> bool): string {
    if Common.ContainsChinese(msg, isHan) then v.zhRoleID else v.enRoleID
  }

  /** MessageToVoice: a failed character or voice lookup gives ("", nil); else
      the text is spoken by the character's voice, in the speaker its language
      picks, and the generated file's name is put behind `voiceEndpoint`.
      `generate` stands for util.GenerateVoice. */
  function MessageToVoice(characters: CharacterStore, voices: VoiceData.VoiceStore, id: string, msg: string,
                          characterFault: Option<Error>, voiceFault: Option<Error>, isHan: char -> bool,
                          generate: (string, string) -> Result<string, Error>, voiceEndpoint: string)
    : (r: Result<string, Error>)
    reads characters, voices
    ensures CB.QueryCharacterByID(characters, id, characterFault).Err? ==> r == Ok("")
    ensures var c := CB.QueryCharacterByID(characters, id, characterFault);
      c.Ok? && VoiceBiz.QueryCharacterVoice(voices.QueryCharacterVoiceByID(c.value.voice, voiceFault)).Err? ==> r == Ok("")
    ensures var c := CB.QueryCharacterByID(characters, id, characterFault);
      c.Ok? && VoiceBiz.QueryCharacterVoice(voices.QueryCharacterVoiceByID(c.value.voice, voiceFault)).Ok? ==>
      var v := VoiceBiz.QueryCharacterVoice(voices.QueryCharacterVoiceByID(c.value.voice, voiceFault)).value;
      var role := if Common.ContainsChinese(msg, isHan) then v.zhRoleID else v.enRoleID;
      r == match generate(msg, role)
           case Ok(file) => Ok(voiceEndpoint + file)
           case Err(e) => Err(Wrapped(GenVoicePrefix, e, ""))
  {
    match CB.QueryCharacterByID(characters, id, characterFault)
    case Err(_) => Ok("")
    case Ok(ch) =>
      match VoiceBiz.QueryCharacterVoice(voices.QueryCharacterVoiceByID(ch.voice, voiceFault))
      case Err(_) => Ok("")
      case Ok(v) =>
        match generate(msg, RoleFor(v, msg, isHan))
        case Err(e) => Err(Wrapped(GenVoicePrefix, e, ""))
        case Ok(file) => Ok(voiceEndpoint + file)
  }

  // ---- The snapshot aggregator ----

  /** The URL an image id is served at. */
  function ImageURL(endpoint: string, id: string): string {
    endpoint + id + ".png"
  }

  function ImageURLs(endpoint: string, ids: seq<string>): (r: seq<string>)
    ensures |r| == |ids| && forall i :: 0 <= i < |ids| ==> r[i] == ImageURL(endpoint, ids[i])
  {
    seq(|ids|, i requires 0 <= i < |ids| => ImageURL(endpoint, ids[i]))
  }

  /** The loop that turns an image chunk's ids into URLs, in place. */
  method RewriteImages(endpoint: string, ids: seq<string>) returns (urls: seq<string>)
    ensures urls == ImageURLs(endpoint, ids)
  {
    urls := ids;
    for i := 0 to |ids|
      invariant |urls| == |ids|
      invariant forall j :: 0 <= j < i ==> urls[j] == ImageURL(endpoint, ids[j])
      invariant forall j :: i <= j < |ids| ==> urls[j] == ids[j]
    {
      urls := urls[i := ImageURL(endpoint, urls[i])];
    }
  }

  /** A chunk as the stage machine sees it, its image ids turned into URLs. */
  function WithURLs(endpoint: string, c: CB.Chunk): (r: CB.Chunk)
    ensures CB.WellFormed(c) ==> CB.WellFormed(r)
    ensures r.ChunkType() == c.ChunkType()
  {
    if c.ImagePiece? then c.(images := ImageURLs(endpoint, c.images)) else c
  }

  function URLChunks(endpoint: string, cs: seq<CB.Chunk>): (r: seq<CB.Chunk>)
    ensures |r| == |cs| && forall i :: 0 <= i < |cs| ==> r[i] == WithURLs(endpoint, cs[i])
  {
    seq(|cs|, i requires 0 <= i < |cs| => WithURLs(endpoint, cs[i]))
  }

  predicate AllWellFormed(cs: seq<CB.Chunk>) {
    forall i :: 0 <= i < |cs| ==> CB.WellFormed(cs[i])
  }

  /** The snapshot a streaming stage starts from. */
  function Initial(session: string): Snapshot {
    ZeroSnapshot.(sessionID := session, confirmType := CharacterSetting, chatChunk := Some(ChatMessage("", "")))
  }

  /** makeChatCompletionStreamResponseChunk: fold one chunk into the snapshot.
      `settingJSON(s, voice)` stands for decoding the setting text, setting its
      voice and encoding it again. */
  function Absorb(h: Snapshot, voice: string, c: CB.Chunk, settingJSON: (string, string) -> string): (n: Snapshot)
    requires CB.WellFormed(c)
    ensures h.needConfirm ==> n.needConfirm
    ensures n.sessionID == h.sessionID && n.createResponse == h.createResponse && n.chatChunk == h.chatChunk
    ensures n.chunkType == h.chunkType && n.imageChunk == h.imageChunk && n.needConfirmChunk == h.needConfirmChunk
    ensures c.ChatPiece? ==> n == h.(message := c.message.content)
    ensures c.ImagePiece? ==> n.imageMeta == c.images && n.confirmType == ImageSetting && n.needConfirm
    ensures c.ImagePiece? ==> n.is3D == c.is3D && n.message == h.message
    ensures c.ImagePiece? && c.is3D ==> n.objURL == ReplaceFirst(c.images[0], ".png", ".obj")
    ensures c.ConfirmPiece? ==> n == h.(needConfirm := h.needConfirm || c.needConfirm)
    ensures c.SettingPiece? && c.setting == "" ==> n == h.(settingChunk := "")
    ensures c.SettingPiece? && c.setting != "" ==> n == h.(settingChunk := settingJSON(c.setting, voice))
  {
    match c
    case ChatPiece(_, m) => h.(message := m.content)
    case ImagePiece(_, images, is3D) =>
      h.(is3D := is3D, imageMeta := images,
         objURL := if is3D then ReplaceFirst(images[0], ".png", ".obj") else h.objURL,
         confirmType := ImageSetting, needConfirm := true)
    case ConfirmPiece(_, flag) => if !h.needConfirm then h.(needConfirm := flag) else h
    case SettingPiece(_, s) => h.(settingChunk := if s != "" then settingJSON(s, voice) else s)
  }

  /** The snapshot after folding all of `cs` into `h0`. */
  function History(h0: Snapshot, voice: string, cs: seq<CB.Chunk>, settingJSON: (string, string) -> string): Snapshot
    requires AllWellFormed(cs)
    decreases |cs|
  {
    if |cs| == 0 then h0
    else Absorb(History(h0, voice, cs[..|cs| - 1], settingJSON), voice, cs[|cs| - 1], settingJSON)
  }

  /** The snapshots emitted while folding `cs`, one per chunk. */
  function Snapshots(h0: Snapshot, voice: string, cs: seq<CB.Chunk>, settingJSON: (string, string) -> string)
    : (ss: seq<Snapshot>)
    requires AllWellFormed(cs)
    ensures |ss| == |cs|
    decreases |cs|
  {
    if |cs| == 0 then []
    else Snapshots(h0, voice, cs[..|cs| - 1], settingJSON) + [History(h0, voice, cs, settingJSON)]
  }

  /** The concatenated contents of the chat chunks, in order. */
  function ChatText(cs: seq<CB.Chunk>): string
    decreases |cs|
  {
    if |cs| == 0 then ""
    else ChatText(cs[..|cs| - 1]) + (if cs[|cs| - 1].ChatPiece? then cs[|cs| - 1].message.content else "")
  }

  /** The i-th snapshot is the fold of the first i + 1 chunks. */
  lemma {:induction false} SnapshotAt(h0: Snapshot, voice: string, cs: seq<CB.Chunk>,
                                      settingJSON: (string, string) -> string, i: nat)
    requires AllWellFormed(cs) && i < |cs|
    ensures Snapshots(h0, voice, cs, settingJSON)[i] == History(h0, voice, cs[..i + 1], settingJSON)
    decreases |cs|
  {
    if i < |cs| - 1 {
      SnapshotAt(h0, voice, cs[..|cs| - 1], settingJSON, i);
      assert cs[..|cs| - 1][..i + 1] == cs[..i + 1];
    } else {
      assert cs[..i + 1] == cs;
    }
  }

  /** Once a snapshot needs confirmation, every later one does too. */
  lemma {:induction false} NeedConfirmSticks(h0: Snapshot, voice: string, cs: seq<CB.Chunk>,
                                             settingJSON: (string, string) -> string, i: nat, j: nat)
    requires AllWellFormed(cs) && i <= j <= |cs|
    requires History(h0, voice, cs[..i], settingJSON).needConfirm
    ensures History(h0, voice, cs[..j], settingJSON).needConfirm
    decreases j
  {
    if j > i {
      NeedConfirmSticks(h0, voice, cs, settingJSON, i, j - 1);
      assert cs[..j][..j - 1] == cs[..j - 1];
    }
  }

  /** Each snapshot follows the rule for the chunk it was made from: a chat
      chunk sets the message, an image chunk replaces the image list. */
  lemma ChunkRules(h0: Snapshot, voice: string, cs: seq<CB.Chunk>, settingJSON: (string, string) -> string, i: nat)
    requires AllWellFormed(cs) && i < |cs|
    ensures var s := Snapshots(h0, voice, cs, settingJSON)[i];
      (cs[i].ChatPiece? ==> s.message == cs[i].message.content)
      && (cs[i].ImagePiece? ==> s.imageMeta == cs[i].images && s.confirmType == ImageSetting && s.needConfirm
                                && (cs[i].is3D ==> s.objURL == ReplaceFirst(cs[i].images[0], ".png", ".obj")))
      && s.sessionID == h0.sessionID
  {
    SnapshotAt(h0, voice, cs, settingJSON, i);
    assert cs[..i + 1][..i] == cs[..i];
    SessionKept(h0, voice, cs[..i], settingJSON);
  }

  lemma {:induction false} SessionKept(h0: Snapshot, voice: string, cs: seq<CB.Chunk>, settingJSON: (string, string) -> string)
    requires AllWellFormed(cs)
    ensures History(h0, voice, cs, settingJSON).sessionID == h0.sessionID
    decreases |cs|
  {
    if |cs| > 0 {
      SessionKept(h0, voice, cs[..|cs| - 1], settingJSON);
    }
  }

  /** The chat text of a concatenation is the concatenation of the chat texts. */
  lemma {:induction false} ChatTextAppend(a: seq<CB.Chunk>, b: seq<CB.Chunk>)
    ensures ChatText(a + b) == ChatText(a) + ChatText(b)
    decreases |b|
  {
    if |b| > 0 {
      ChatTextAppend(a, b[..|b| - 1]);
      assert (a + b)[..|a + b| - 1] == a + b[..|b| - 1];
      assert (a + b)[|a + b| - 1] == b[|b| - 1];
    } else {
      assert a + b == a;
    }
  }

  // ---- The image cache ----

  /** go-cache Add: the item goes in only when the key is not present. */
  function CacheAdd(cache: map<string, CacheItem>, key: string, images: seq<string>, lifetime: int): map<string, CacheItem> {
    if key in cache then cache else cache[key := CacheItem(images, lifetime)]
  }

  /** The cache after the image chunks of `cs` (URLs already in place) were
      offered to it under `session`. */
  function CacheAfter(cache: map<string, CacheItem>, session: string, cs: seq<CB.Chunk>): map<string, CacheItem>
    decreases |cs|
  {
    if |cs| == 0 then cache
    else
      var before := CacheAfter(cache, session, cs[..|cs| - 1]);
      var c := cs[|cs| - 1];
      if !c.ImagePiece? then before
      else if session in before then CacheAdd(before, session, before[session].images + c.images, ImageLifetime)
      else CacheAdd(before, session, c.images, ImageLifetime)
  }

  /** The images of the first image chunk of `cs`, if there is one. */
  function FirstImages(cs: seq<CB.Chunk>): (r: Option<seq<string>>)
    ensures r.Some? <==> exists i :: 0 <= i < |cs| && cs[i].ImagePiece?
    decreases |cs|
  {
    if |cs| == 0 then None
    else if cs[0].ImagePiece? then Some(cs[0].images)
    else
      var r := FirstImages(cs[1..]);
      assert forall i :: 1 <= i < |cs| ==> cs[i] == cs[1..][i - 1];
      r
  }

  /** Because Add refuses a present key, the "append" branch changes nothing:
      an entry, once made, keeps the first image chunk's URLs with the
      one-hour lifetime, and no other key is touched. */
  lemma {:induction false} CacheKeepsFirstImages(cache: map<string, CacheItem>, session: string, cs: seq<CB.Chunk>)
    ensures session in cache ==> CacheAfter(cache, session, cs) == cache
    ensures session !in cache && FirstImages(cs).None? ==> CacheAfter(cache, session, cs) == cache
    ensures session !in cache && FirstImages(cs).Some? ==>
      CacheAfter(cache, session, cs) == cache[session := CacheItem(FirstImages(cs).value, ImageLifetime)]
    decreases |cs|
  {
    if |cs| > 0 {
      var front := cs[..|cs| - 1];
      CacheKeepsFirstImages(cache, session, front);
      FirstImagesSnoc(front, cs[|cs| - 1]);
      assert front + [cs[|cs| - 1]] == cs;
    }
  }

  lemma {:induction false} FirstImagesSnoc(cs: seq<CB.Chunk>, c: CB.Chunk)
    ensures FirstImages(cs + [c]) == if FirstImages(cs).Some? then FirstImages(cs)
                                     else if c.ImagePiece? then Some(c.images) else None
    decreases |cs|
  {
    if |cs| > 0 {
      FirstImagesSnoc(cs[1..], c);
      assert (cs + [c])[1..] == cs[1..] + [c];
    }
  }

  /** The cached images Finalize deletes: those not named in the chosen message. */
  function Rejected(images: seq<string>, message: string, imagePath: string): set<string> {
    set i | 0 <= i < |images| && !Contains(message, images[i]) :: imagePath + images[i]
  }

  lemma URLChunksSnoc(endpoint: string, chunks: seq<CB.Chunk>, i: nat)
    requires i < |chunks|
    ensures URLChunks(endpoint, chunks[..i + 1]) == URLChunks(endpoint, chunks[..i]) + [WithURLs(endpoint, chunks[i])]
  {
    assert chunks[..i + 1][..i] == chunks[..i];
  }

  /** One more chunk: one more snapshot, the fold, the chat text and the cache step once. */
  lemma FoldStep(h0: Snapshot, voice: string, done: seq<CB.Chunk>, c: CB.Chunk, settingJSON: (string, string) -> string,
                 cache: map<string, CacheItem>, session: string)
    requires AllWellFormed(done) && CB.WellFormed(c)
    ensures AllWellFormed(done + [c])
    ensures History(h0, voice, done + [c], settingJSON) == Absorb(History(h0, voice, done, settingJSON), voice, c, settingJSON)
    ensures Snapshots(h0, voice, done + [c], settingJSON)
         == Snapshots(h0, voice, done, settingJSON) + [Absorb(History(h0, voice, done, settingJSON), voice, c, settingJSON)]
    ensures ChatText(done + [c]) == ChatText(done) + (if c.ChatPiece? then c.message.content else "")
    ensures var before := CacheAfter(cache, session, done);
      CacheAfter(cache, session, done + [c])
      == if !c.ImagePiece? then before
         else if session in before then CacheAdd(before, session, before[session].images + c.images, ImageLifetime)
         else CacheAdd(before, session, c.images, ImageLifetime)
  {
    assert (done + [c])[..|done|] == done;
  }

  /** What the receive loop has produced after the chunks `done`. */
  ghost predicate Folded(h0: Snapshot, voice: string, settingJSON: (string, string) -> string, session: string,
                         cache0: map<string, CacheItem>, sent0: seq<Snapshot>, done: seq<CB.Chunk>,
                         sent: seq<Snapshot>, history: Snapshot, content: string, cache: map<string, CacheItem>)
  {
    AllWellFormed(done)
    && sent == sent0 + Snapshots(h0, voice, done, settingJSON)
    && history == History(h0, voice, done, settingJSON)
    && content == ChatText(done)
    && cache == CacheAfter(cache0, session, done)
  }

  /** One iteration of the receive loop keeps `Folded`. */
  lemma FoldedStep(h0: Snapshot, voice: string, settingJSON: (string, string) -> string, session: string,
                   cache0: map<string, CacheItem>, sent0: seq<Snapshot>, done: seq<CB.Chunk>,
                   sent: seq<Snapshot>, history: Snapshot, content: string, cache: map<string, CacheItem>,
                   c: CB.Chunk, cache': map<string, CacheItem>)
    requires Folded(h0, voice, settingJSON, session, cache0, sent0, done, sent, history, content, cache)
    requires CB.WellFormed(c)
    requires !c.ImagePiece? ==> cache' == cache
    requires c.ImagePiece? && session in cache ==>
      cache' == CacheAdd(cache, session, cache[session].images + c.images, ImageLifetime)
    requires c.ImagePiece? && session !in cache ==> cache' == CacheAdd(cache, session, c.images, ImageLifetime)
    ensures var h := Absorb(history, voice, c, settingJSON);
      Folded(h0, voice, settingJSON, session, cache0, sent0, done + [c], sent + [h], h,
             content + (if c.ChatPiece? then h.message else ""), cache')
  {
    FoldStep(h0, voice, done, c, settingJSON, cache0, session);
  }

  // ---- The stages' effects ----

  datatype AccountInfo = AccountInfo(name: string, avatarURL: string)

  /** Everything CreateCharacterV2 learns from outside: the activity
      service's limit reply; the agent's stream (dial and open errors, the
      messages received and how the stream ends) and its confirm reply; the
      account lookup; storage faults of the character lookup, the voice
      lookup and the save; a fresh uuid; the clock; the configured image
      endpoint and image directory; strings.ToLower; the setting re-encoding. */
  datatype Env = Env(
    limitReply: Activity.Reply<bool>, statusFunc: int,
    dialFault: Option<Error>, openFault: Option<CB.CallError>,
    responses: seq<CB.AgentStreamResponse>, streamEnd: Option<Error>,
    confirmConn: Option<Error>, confirmCall: Result<CB.AgentConfirm, CB.CallError>,
    accountInfo: Result<AccountInfo, Error>,
    characterFault: Option<Error>, voiceFault: Option<Error>,
    saveLookupFault: Option<Error>, saveWriteFault: Option<Error>,
    freshUUID: string, now: int, imagesEndpoint: string, imagePath: string,
    toLower: string -> string, settingJSON: (string, string) -> string)

  /** The limit check's verdict for creating a character. */
  function LimitCheck(env: Env): Option<Error> {
    Activity.QueryActivityLimitResult(env.limitReply, Activity.CreateCharacter, env.statusFunc)
  }

  /** The agent stream panics (its deferred close runs, then the process ends). */
  predicate StreamPanics(env: Env) {
    env.dialFault.None? && env.openFault.None? && CB.Translate(env.responses, env.streamEnd).outcome.Panicked?
  }

  /** The chunks the agent stream hands the stage machine. */
  function AgentChunks(env: Env): (cs: seq<CB.Chunk>)
    ensures AllWellFormed(cs)
  {
    if env.dialFault.Some? || env.openFault.Some? then []
    else
      CB.TranslateWellFormed(env.responses, env.streamEnd);
      CB.Translate(env.responses, env.streamEnd).chunks
  }

  /** The voice a streaming stage puts into setting chunks: the draft's, or "" when the lookup fails. */
  function StreamVoice(characters: CharacterStore, session: string, fault: Option<Error>): string
    reads characters
  {
    match CB.QueryCharacterByID(characters, session, fault)
    case Ok(c) => c.voice
    case Err(_) => ""
  }

  /** What a streaming stage emits: one snapshot per chunk, then the last
      snapshot again with the message set to all chat text. */
  function StreamEvents(session: string, voice: string, cs: seq<CB.Chunk>, settingJSON: (string, string) -> string)
    : (es: seq<Snapshot>)
    requires AllWellFormed(cs)
    ensures |es| == |cs| + 1
    ensures es[|cs|].message == ChatText(cs) && es[|cs|].sessionID == session
  {
    SessionKept(Initial(session), voice, cs, settingJSON);
    Snapshots(Initial(session), voice, cs, settingJSON)
      + [History(Initial(session), voice, cs, settingJSON).(message := ChatText(cs))]
  }

  /** One stage's visible effect: the snapshots it emits, the request it
      saved (if any), and what it returns. */
  datatype Effect = Effect(events: seq<Snapshot>, saved: Option<CharacterRequest>, result: Result<Option<CreateResponse>, Error>)

  /** `after` is `before` with the effect's save applied, or `before` when it saved nothing. */
  ghost predicate Applied(e: Effect, before: map<string, Character>, after: map<string, Character>, now: int) {
    (e.saved.Some? ==> Saved(before, after, e.saved.value, now)) && (e.saved.None? ==> after == before)
  }

  const ConfirmErrPrefix := "CreateCharacterV2: grpc exec ConfirmCharacterSetting err: "
  const FrequentText := "Frequent operation, please try again"
  const AccountErrPrefix := "CreateCharacterV2: query account err: "
  const SaveErrPrefix := "CreateCharacterV2: save character err: "
  const CheckVoicePrefix := "CreateCharacterV2: check voice err: "
  const SaveVoicePrefix := "CreateCharacterV2: save character voice err: "
  const CheckCharacterPrefix := "CreateCharacterV2: check character err: "

  /** The storage error a save meets, if any: the lookup's first. */
  function SaveFault(env: Env): Option<Error> {
    if env.saveLookupFault.Some? then env.saveLookupFault else env.saveWriteFault
  }

  /** Save `req`: on failure nothing is emitted and the error is wrapped in
      `prefix`; on success the stage emits `events` and returns `resp`. */
  function SaveThen(req: CharacterRequest, env: Env, prefix: string, events: seq<Snapshot>, resp: Option<CreateResponse>)
    : (e: Effect)
    ensures SaveFault(env).Some? ==>
      e == Effect([], None, Err(Wrapped(prefix, Wrap(ErrInternalError, Wrapped(CB.SaveMyCharacterPrefix, SaveFault(env).value, "")), "")))
    ensures SaveFault(env).None? ==> e == Effect(events, Some(req), Ok(resp))
  {
    match SaveFault(env)
    case Some(f) => Effect([], None, Err(Wrapped(prefix, Wrap(ErrInternalError, Wrapped(CB.SaveMyCharacterPrefix, f, "")), "")))
    case None => Effect(events, Some(req), Ok(resp))
  }

  /** The draft the confirm stage saves: the agent's setting under the
      session id, the account's name and avatar, unconfirmed. The setting's
      description is not saved. */
  function Draft(req: CreateCharacterRequest, s: CB.CharacterSetting, info: AccountInfo, toLower: string -> string)
    : (d: CharacterRequest)
    ensures d.id == req.sessionID && d.accountID == req.accountID && d.state == Unconfirmed
    ensures d.gender == Gender(toLower, s.gender) && d.name == s.name && d.tags == s.tags
    ensures d.introduction == s.introduction && d.is3D == req.is3D && d.prompt == "" && d.voice == ""
    ensures d.accountName == info.name && d.avatarURL == info.avatarURL
  {
    CharacterRequest(req.sessionID, req.accountID, info.name, info.avatarURL, s.name, Gender(toLower, s.gender),
                     "", "", 0, 0, Unconfirmed, s.tags, "", s.introduction, req.is3D)
  }

  /** The confirm stage (Stage2). */
  function ConfirmEffect(req: CreateCharacterRequest, env: Env): (e: Effect)
    ensures var c := CB.ConfirmCharacterSetting(env.confirmConn, env.confirmCall);
      c.Err? ==> e == Effect([], None, Err(Wrapped(ConfirmErrPrefix, c.error, "")))
    ensures var c := CB.ConfirmCharacterSetting(env.confirmConn, env.confirmCall);
      c.Ok? && c.value.characterSetting.None? ==> e == Effect([], None, Err(Wrap(ErrInternalError, Text(FrequentText))))
    ensures e.result.Ok? <==> e.saved.Some?
    ensures e.saved.Some? ==> var c := CB.ConfirmCharacterSetting(env.confirmConn, env.confirmCall);
      c.Ok? && c.value.characterSetting.Some? && env.accountInfo.Ok?
      && e.saved.value == Draft(req, c.value.characterSetting.value, env.accountInfo.value, env.toLower)
    ensures e.saved.Some? ==> var c := CB.ConfirmCharacterSetting(env.confirmConn, env.confirmCall);
      e.result.value == Some(CreateResponse(MakeChatMessage(c.value.message), c.value.confirmType, [],
                                            c.value.needConfirm, req.sessionID))
      && e.events == [ZeroSnapshot.(createResponse := e.result.value)]
    ensures e.saved.None? ==> e.events == []
  {
    var c := CB.ConfirmCharacterSetting(env.confirmConn, env.confirmCall);
    if c.Err? then Effect([], None, Err(Wrapped(ConfirmErrPrefix, c.error, "")))
    else if c.value.characterSetting.None? then Effect([], None, Err(Wrap(ErrInternalError, Text(FrequentText))))
    else if env.accountInfo.Err? then Effect([], None, Err(Wrapped(AccountErrPrefix, env.accountInfo.error, "")))
    else
      var res := CreateResponse(MakeChatMessage(c.value.message), c.value.confirmType, [], c.value.needConfirm, req.sessionID);
      SaveThen(Draft(req, c.value.characterSetting.value, env.accountInfo.value, env.toLower), env, SaveErrPrefix,
               [ZeroSnapshot.(createResponse := Some(res))], Some(res))
  }

  /** The request the voice stage saves: the voice id under the session id, unconfirmed. */
  function VoiceRequest(req: CreateCharacterRequest): CharacterRequest {
    CharacterRequest(req.sessionID, "", "", "", "", 0, "", "", 0, 0, Unconfirmed, map[], req.message, "", false)
  }

  /** The event the voice stage emits. */
  const VoiceChosen := ZeroSnapshot.(needConfirmChunk := true)

  /** The voice stage (Stage3): the message names the voice. */
  function VoiceEffect(voices: VoiceData.VoiceStore, req: CreateCharacterRequest, env: Env): (e: Effect)
    reads voices
    ensures var v := VoiceBiz.QueryCharacterVoice(voices.QueryCharacterVoiceByID(req.message, env.voiceFault));
      v.Err? ==> e == Effect([], None, Err(Wrapped(CheckVoicePrefix, v.error, "")))
    ensures e.saved.Some? ==> e.saved.value.voice == req.message && e.saved.value.state == Unconfirmed
    ensures e.saved.Some? ==> e.saved.value.id == req.sessionID
    ensures e.saved.Some? <==> e.result.Ok?
    ensures e.saved.Some? ==> e.events == [VoiceChosen] && e.result == Ok(None)
    ensures e.saved.None? ==> e.events == []
  {
    var v := VoiceBiz.QueryCharacterVoice(voices.QueryCharacterVoiceByID(req.message, env.voiceFault));
    if v.Err? then Effect([], None, Err(Wrapped(CheckVoicePrefix, v.error, "")))
    else SaveThen(VoiceRequest(req), env, SaveVoicePrefix, [VoiceChosen], None)
  }

  /** An unknown voice id is refused before anything is saved. */
  lemma UnknownVoiceSavesNothing(voices: VoiceData.VoiceStore, req: CreateCharacterRequest, env: Env)
    requires voices.Valid() && env.voiceFault.None?
    requires forall i :: 0 <= i < |voices.rows| ==> voices.rows[i].uuid != req.message
    ensures VoiceEffect(voices, req, env) == Effect([], None, Err(Wrapped(CheckVoicePrefix, ErrVoiceNotExist, "")))
  {
    VoiceBiz.VoiceAcceptedIff(voices, req.message);
  }

  /** The request the finalize stage saves: the chosen image and the 3-D flag, State 0. */
  function FinalRequest(req: CreateCharacterRequest): CharacterRequest {
    CharacterRequest(req.sessionID, "", "", "", "", 0, "", req.message, 0, 0, 0, map[], "", "", req.is3D)
  }

  /** The finalize stage (Stage5), without its deletions. */
  function FinalizeEffect(characters: CharacterStore, req: CreateCharacterRequest, env: Env): (e: Effect)
    reads characters
    ensures env.characterFault.None? && req.sessionID !in characters.records ==>
      e == Effect([], None, Err(Wrapped(CheckCharacterPrefix, ErrCharacterNotExist, "")))
    ensures env.characterFault.Some? ==>
      e == Effect([], None, Err(Wrapped(CheckCharacterPrefix,
                                        Wrap(ErrInternalError, Wrapped(CB.QueryCharacterPrefix, env.characterFault.value, "")), "")))
    ensures e.saved.Some? ==> req.sessionID in characters.records && e.saved.value.imageURL == req.message
    ensures e.saved.Some? ==> e.saved.value.state == 0 && e.saved.value.is3D == req.is3D
    ensures e.saved.Some? <==> e.result.Ok?
    ensures e.saved.Some? ==> e.events == [ZeroSnapshot.(sessionID := req.sessionID)] && e.result == Ok(None)
    ensures e.saved.None? ==> e.events == []
  {
    var info := CB.QueryCharacterByID(characters, req.sessionID, env.characterFault);
    if info.Err? then Effect([], None, Err(Wrapped(CheckCharacterPrefix, info.error, "")))
    else SaveThen(FinalRequest(req), env, SaveErrPrefix, [ZeroSnapshot.(sessionID := req.sessionID)], None)
  }

  /** Because the update skips zero values, finalizing does not write State
      0: a draft saved by the confirm stage stays unconfirmed. */
  lemma FinalizeKeepsState(before: map<string, Character>, after: map<string, Character>,
                           req: CreateCharacterRequest, now: int)
    requires req.sessionID in before && Saved(before, after, FinalRequest(req), now)
    ensures after[req.sessionID].state == before[req.sessionID].state
    ensures after[req.sessionID].imageURL == (if req.message == "" then before[req.sessionID].imageURL else req.message)
  {
  }

  /** The outcome of CreateCharacterV2: refused by the limit check (before the
      channel's close is deferred), crashed by a panic of the agent stream,
      or returned. */
  datatype Outcome = LimitRefused(err: Error) | Crashed | Finished(result: Result<Option<CreateResponse>, Error>)

  /** The run crashes: a stream stage whose agent stream panics. */
  predicate Crashes(req: CreateCharacterRequest, env: Env) {
    req.sessionID != "" && (req.state == Stage1 || req.state == Stage4) && StreamPanics(env)
  }

  /** The snapshots a run that passes the activity limit sends, stage by
      stage, over the stores as they were when the run began. */
  function Sent(characters: CharacterStore, voices: VoiceData.VoiceStore, req: CreateCharacterRequest, env: Env)
    : (es: seq<Snapshot>)
    reads characters, voices
    ensures req.sessionID == "" ==> es == [ZeroSnapshot.(sessionID := env.freshUUID)]
    ensures req.sessionID != "" && !(0 <= req.state <= 4) ==> es == []
    ensures req.sessionID != "" && (req.state == Stage1 || req.state == Stage4) && !StreamPanics(env) ==>
      |es| == |AgentChunks(env)| + 1 && es[|es| - 1].message == ChatText(URLChunks(env.imagesEndpoint, AgentChunks(env)))
  {
    if req.sessionID == "" then [ZeroSnapshot.(sessionID := env.freshUUID)]
    else if req.state == Stage1 || req.state == Stage4 then
      if StreamPanics(env) then []
      else StreamEvents(req.sessionID, StreamVoice(characters, req.sessionID, env.characterFault),
                        URLChunks(env.imagesEndpoint, AgentChunks(env)), env.settingJSON)
    else if req.state == Stage2 then ConfirmEffect(req, env).events
    else if req.state == Stage3 then VoiceEffect(voices, req, env).events
    else if req.state == Stage5 then FinalizeEffect(characters, req, env).events
    else []
  }

  class CharacterService {
    const characters: CharacterStore
    const voices: VoiceData.VoiceStore
    /** The image cache: session id to the image URLs generated for it. */
    var imageCache: map<string, CacheItem>
    const defaultExpiration: int
    const cleanupInterval: int
    /** The files deleted so far. */
    ghost var removed: set<string>

    /** NewCharacterService: an empty cache with 30-minute expiry and sweep. */
    constructor (characters: CharacterStore, voices: VoiceData.VoiceStore)
      ensures this.characters == characters && this.voices == voices
      ensures imageCache == map[] && removed == {}
      ensures defaultExpiration == DefaultExpiration && cleanupInterval == CleanupInterval
    {
      this.characters := characters;
      this.voices := voices;
      imageCache := map[];
      defaultExpiration := DefaultExpiration;
      cleanupInterval := CleanupInterval;
      removed := {};
    }

    /** go-cache Add on the image cache: refused, with an error, when the key is present. */
    method CacheAddItem(key: string, images: seq<string>, lifetime: int) returns (err: Option<Error>)
      modifies this
      ensures imageCache == CacheAdd(old(imageCache), key, images, lifetime) && removed == old(removed)
      ensures err.Some? <==> key in old(imageCache)
    {
      if key in imageCache {
        return Some(Text("Item " + key + " already exists"));
      }
      imageCache := imageCache[key := CacheItem(images, lifetime)];
      return None;
    }

    /** One chunk's image step: its image ids become URLs, which are
        offered to the cache under the session (added to the list already
        there, which go-cache's `Add` then refuses). */
    method OfferImages(session: string, endpoint: string, c: CB.Chunk) returns (u: CB.Chunk)
      modifies this
      ensures u == WithURLs(endpoint, c) && removed == old(removed)
      ensures !c.ImagePiece? ==> imageCache == old(imageCache)
      ensures c.ImagePiece? && session in old(imageCache) ==>
        imageCache == CacheAdd(old(imageCache), session, old(imageCache)[session].images + u.images, ImageLifetime)
      ensures c.ImagePiece? && session !in old(imageCache) ==>
        imageCache == CacheAdd(old(imageCache), session, u.images, ImageLifetime)
    {
      u := c;
      if c.ImagePiece? {
        var urls := RewriteImages(endpoint, c.images);
        u := c.(images := urls);
        var list := urls;
        if session in imageCache {
          list := imageCache[session].images + urls;
        }
        var _ := CacheAddItem(session, list, ImageLifetime);
      }
    }

    /** The receive loop of a streaming stage: each chunk (its image ids made
        URLs and offered to the cache) is folded into the snapshot, which is
        emitted; chat chunks add their content to the text. */
    method Consume(session: string, voice: string, chunks: seq<CB.Chunk>, env: Env, ch: Channel<Snapshot>)
      returns (history: Snapshot, content: string)
      requires ch.closes == 0 && AllWellFormed(chunks)
      modifies this, ch
      ensures ch.closes == 0 && removed == old(removed)
      ensures var cs := URLChunks(env.imagesEndpoint, chunks);
        ch.sent == old(ch.sent) + Snapshots(Initial(session), voice, cs, env.settingJSON)
        && history == History(Initial(session), voice, cs, env.settingJSON)
        && content == ChatText(cs) && imageCache == CacheAfter(old(imageCache), session, cs)
    {
      history := Initial(session);
      content := "";
      ghost var done: seq<CB.Chunk> := [];
      for i := 0 to |chunks|
        invariant done == URLChunks(env.imagesEndpoint, chunks[..i])
        invariant ch.closes == 0 && removed == old(removed)
        invariant Folded(Initial(session), voice, env.settingJSON, session, old(imageCache), old(ch.sent), done,
                         ch.sent, history, content, imageCache)
      {
        ghost var cache := imageCache;
        var c := OfferImages(session, env.imagesEndpoint, chunks[i]);
        URLChunksSnoc(env.imagesEndpoint, chunks, i);
        FoldedStep(Initial(session), voice, env.settingJSON, session, old(imageCache), old(ch.sent), done,
                   ch.sent, history, content, cache, c, imageCache);
        done := done + [c];
        history := Absorb(history, voice, c, env.settingJSON);
        ch.Send(history);
        if c.ChatPiece? {
          content := content + history.message;
        }
      }
      assert chunks[..|chunks|] == chunks;
    }

    /** The agent stream, run on a channel of its own: whether it panicked,
        and the chunks it handed on. */
    static method RunAgent(env: Env) returns (crashed: bool, chunks: seq<CB.Chunk>)
      ensures crashed <==> StreamPanics(env)
      ensures !crashed ==> chunks == AgentChunks(env)
    {
      var resCh := new Channel<CB.Chunk>();
      var stream := CB.ChatCompletionsStream(env.dialFault, env.openFault, env.responses, env.streamEnd, resCh);
      crashed := stream.panicked;
      chunks := resCh.sent;
    }

    /** The streaming stages (Stage1, Stage4): run the agent stream, fold its
        chunks into the snapshot, emitting one snapshot per chunk and a last
        one carrying all chat text; image chunks are offered to the cache. */
    method StreamStage(req: CreateCharacterRequest, env: Env, ch: Channel<Snapshot>) returns (crashed: bool)
      requires ch.closes == 0
      modifies this, ch
      ensures crashed <==> StreamPanics(env)
      ensures removed == old(removed)
      ensures crashed ==> ch.sent == old(ch.sent) && ch.closes == 0 && imageCache == old(imageCache)
      ensures !crashed ==> ch.closes == 0
      ensures !crashed ==> var cs := URLChunks(env.imagesEndpoint, AgentChunks(env));
        ch.sent == old(ch.sent) + StreamEvents(req.sessionID, StreamVoice(characters, req.sessionID, env.characterFault), cs, env.settingJSON)
        && imageCache == CacheAfter(old(imageCache), req.sessionID, cs)
    {
      var chunks;
      crashed, chunks := RunAgent(env);
      if crashed {
        return;
      }
      var voice := "";
      var found := CB.QueryCharacterByID(characters, req.sessionID, env.characterFault);
      if found.Ok? {
        voice := found.value.voice;
      }
      var history, content := Consume(req.sessionID, voice, chunks, env, ch);
      assert chunks[..|chunks|] == chunks;
      ghost var cs := URLChunks(env.imagesEndpoint, chunks);
      ghost var sent := ch.sent;
      history := history.(message := content);
      ch.Send(history);
      assert ch.sent == sent + [history];
      assert [history] + [] == [History(Initial(req.sessionID), voice, cs, env.settingJSON).(message := ChatText(cs))];
      assert voice == StreamVoice(characters, req.sessionID, env.characterFault);
      return false;
    }

    /** The confirm stage (Stage2). */
    method ConfirmStage(req: CreateCharacterRequest, env: Env, ch: Channel<Snapshot>)
      returns (r: Result<Option<CreateResponse>, Error>)
      requires ch.closes == 0
      modifies characters, ch
      ensures ch.closes == 0
      ensures ch.sent == old(ch.sent) + ConfirmEffect(req, env).events && r == ConfirmEffect(req, env).result
      ensures Applied(ConfirmEffect(req, env), old(characters.records), characters.records, env.now)
    {
      var confirm := CB.ConfirmCharacterSetting(env.confirmConn, env.confirmCall);
      if confirm.Err? {
        return Err(Wrapped(ConfirmErrPrefix, confirm.error, ""));
      }
      var setting := confirm.value.characterSetting;
      if setting.None? {
        return Err(Wrap(ErrInternalError, Text(FrequentText)));
      }
      if env.accountInfo.Err? {
        return Err(Wrapped(AccountErrPrefix, env.accountInfo.error, ""));
      }
      var draft := Draft(req, setting.value, env.accountInfo.value, env.toLower);
      var saved := CB.SaveMyCharacter(characters, draft, env.saveLookupFault, env.saveWriteFault, env.now);
      if saved.Err? {
        return Err(Wrapped(SaveErrPrefix, saved.error, ""));
      }
      var res := CreateResponse(MakeChatMessage(confirm.value.message), confirm.value.confirmType, [],
                                confirm.value.needConfirm, req.sessionID);
      ch.Send(ZeroSnapshot.(createResponse := Some(res)));
      return Ok(Some(res));
    }

    /** The voice stage (Stage3). */
    method VoiceStage(req: CreateCharacterRequest, env: Env, ch: Channel<Snapshot>)
      returns (r: Result<Option<CreateResponse>, Error>)
      requires ch.closes == 0
      modifies characters, ch
      ensures ch.closes == 0
      ensures ch.sent == old(ch.sent) + VoiceEffect(voices, req, env).events && r == VoiceEffect(voices, req, env).result
      ensures Applied(VoiceEffect(voices, req, env), old(characters.records), characters.records, env.now)
    {
      var v := VoiceBiz.QueryCharacterVoice(voices.QueryCharacterVoiceByID(req.message, env.voiceFault));
      if v.Err? {
        return Err(Wrapped(CheckVoicePrefix, v.error, ""));
      }
      var saved := CB.SaveMyCharacter(characters, VoiceRequest(req), env.saveLookupFault, env.saveWriteFault, env.now);
      if saved.Err? {
        return Err(Wrapped(SaveVoicePrefix, saved.error, ""));
      }
      ch.Send(VoiceChosen);
      return Ok(None);
    }

    /** The loop deleting the cached images the message does not name. */
    method RemoveRejected(images: seq<string>, message: string, imagePath: string)
      modifies this
      ensures removed == old(removed) + Rejected(images, message, imagePath)
      ensures imageCache == old(imageCache)
    {
      for i := 0 to |images|
        invariant removed == old(removed) + Rejected(images[..i], message, imagePath)
        invariant imageCache == old(imageCache)
      {
        if !Contains(message, images[i]) {
          removed := removed + {imagePath + images[i]};
        }
        assert forall j :: 0 <= j < i ==> images[..i + 1][j] == images[..i][j];
        assert Rejected(images[..i + 1], message, imagePath)
            == Rejected(images[..i], message, imagePath)
               + (if !Contains(message, images[i]) then {imagePath + images[i]} else {}) by {
          assert images[..i + 1][i] == images[i];
        }
      }
      assert images[..|images|] == images;
    }

    /** The finalize stage (Stage5): save the chosen image, delete the other
        cached images, credit the activity (its failure is only logged). */
    method FinalizeStage(req: CreateCharacterRequest, env: Env, ch: Channel<Snapshot>)
      returns (r: Result<Option<CreateResponse>, Error>)
      requires ch.closes == 0
      modifies this, characters, ch
      ensures ch.closes == 0 && imageCache == old(imageCache)
      ensures ch.sent == old(ch.sent) + old(FinalizeEffect(characters, req, env)).events
      ensures r == old(FinalizeEffect(characters, req, env)).result
      ensures Applied(old(FinalizeEffect(characters, req, env)), old(characters.records), characters.records, env.now)
      ensures r.Ok? && req.sessionID in imageCache ==>
        removed == old(removed) + Rejected(imageCache[req.sessionID].images, req.message, env.imagePath)
      ensures !(r.Ok? && req.sessionID in imageCache) ==> removed == old(removed)
    {
      var info := CB.QueryCharacterByID(characters, req.sessionID, env.characterFault);
      if info.Err? {
        return Err(Wrapped(CheckCharacterPrefix, info.error, ""));
      }
      var saved := CB.SaveMyCharacter(characters, FinalRequest(req), env.saveLookupFault, env.saveWriteFault, env.now);
      if saved.Err? {
        return Err(Wrapped(SaveErrPrefix, saved.error, ""));
      }
      if req.sessionID in imageCache {
        RemoveRejected(imageCache[req.sessionID].images, req.message, env.imagePath);
      }
      ch.Send(ZeroSnapshot.(sessionID := req.sessionID));
      return Ok(None);
    }

    /** CreateCharacterV2: the limit check, then (with the channel's close
        deferred) a fresh session id for an empty session, or the stage the
        request's State names; any other State emits nothing. */
    method CreateCharacterV2(req: CreateCharacterRequest, env: Env, ch: Channel<Snapshot>) returns (out: Outcome)
      requires ch.closes == 0
      modifies this, characters, ch
      ensures LimitCheck(env).Some? ==> out == LimitRefused(LimitCheck(env).value) && ch.closes == 0
      ensures out.Finished? ==> ch.closes == 1
      ensures out.Crashed? ==> ch.closes == 0 && ch.sent == old(ch.sent)
      ensures LimitCheck(env).None? ==> (out.Crashed? <==> Crashes(req, env))
      ensures out.Finished? ==> ch.sent == old(ch.sent) + old(Sent(characters, voices, req, env))
      ensures LimitCheck(env).Some? || req.sessionID == "" || !(0 <= req.state <= 4) ==>
        characters.records == old(characters.records) && imageCache == old(imageCache) && removed == old(removed)
      ensures LimitCheck(env).Some? || (req.sessionID != "" && !(0 <= req.state <= 4)) ==> ch.sent == old(ch.sent)
      ensures LimitCheck(env).None? && req.sessionID != "" && !(0 <= req.state <= 4) ==> out == Finished(Ok(None))
      ensures LimitCheck(env).None? && req.sessionID == "" ==>
        out == Finished(Ok(None)) && ch.sent == old(ch.sent) + [ZeroSnapshot.(sessionID := env.freshUUID)]
      ensures LimitCheck(env).None? && req.sessionID != "" && (req.state == Stage1 || req.state == Stage4) ==>
        characters.records == old(characters.records) && removed == old(removed)
        && (out == Crashed <==> StreamPanics(env))
      ensures LimitCheck(env).None? && req.sessionID != "" && (req.state == Stage1 || req.state == Stage4)
              && !StreamPanics(env) ==>
        var cs := URLChunks(env.imagesEndpoint, AgentChunks(env));
        out == Finished(Ok(Some(CreateResponse([], "", [], false, req.sessionID))))
        && ch.sent == old(ch.sent) + StreamEvents(req.sessionID, StreamVoice(characters, req.sessionID, env.characterFault), cs, env.settingJSON)
        && imageCache == CacheAfter(old(imageCache), req.sessionID, cs)
      ensures LimitCheck(env).None? && req.sessionID != "" && req.state == Stage2 ==>
        out == Finished(ConfirmEffect(req, env).result) && ch.sent == old(ch.sent) + ConfirmEffect(req, env).events
        && Applied(ConfirmEffect(req, env), old(characters.records), characters.records, env.now)
        && imageCache == old(imageCache) && removed == old(removed)
      ensures LimitCheck(env).None? && req.sessionID != "" && req.state == Stage3 ==>
        out == Finished(VoiceEffect(voices, req, env).result) && ch.sent == old(ch.sent) + VoiceEffect(voices, req, env).events
        && Applied(VoiceEffect(voices, req, env), old(characters.records), characters.records, env.now)
        && imageCache == old(imageCache) && removed == old(removed)
      ensures LimitCheck(env).None? && req.sessionID != "" && req.state == Stage5 ==>
        out == Finished(old(FinalizeEffect(characters, req, env)).result)
        && ch.sent == old(ch.sent) + old(FinalizeEffect(characters, req, env)).events
        && Applied(old(FinalizeEffect(characters, req, env)), old(characters.records), characters.records, env.now)
        && imageCache == old(imageCache)
    {
      var limit := LimitCheck(env);
      if limit.Some? {
        return LimitRefused(limit.value);
      }
      if req.sessionID == "" {
        ch.Send(ZeroSnapshot.(sessionID := env.freshUUID));
        ch.Close();
        return Finished(Ok(None));
      }
      var result: Result<Option<CreateResponse>, Error> := Ok(None);
      if req.state == Stage1 || req.state == Stage4 {
        var crashed := StreamStage(req, env, ch);
        if crashed {
          return Crashed;
        }
        result := Ok(Some(CreateResponse([], "", [], false, req.sessionID)));
      } else if req.state == Stage2 {
        result := ConfirmStage(req, env, ch);
      } else if req.state == Stage3 {
        result := VoiceStage(req, env, ch);
      } else if req.state == Stage5 {
        result := FinalizeStage(req, env, ch);
      }
      ch.Close();
      return Finished(result);
    }
  }
}
