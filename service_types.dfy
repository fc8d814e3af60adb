/** The records and constants of internal/service/character/service.go: the
    snapshot the stage machine streams to the router, the create request and
    response, the confirm types and the image cache's settings. */
module ServiceTypes {
  import opened Wrappers

  /** The ConfirmType values. */
  const CharacterSetting := "character_setting"
  const ImageSetting := "image_setting"

  /** The image cache's default expiry and its sweep interval, in seconds (30 minutes each). */
  const DefaultExpiration: int := 1800
  const CleanupInterval: int := 1800

  datatype ChatMessage = ChatMessage(role: string, content: string)

  /** CreateCharacterRequest without its output channel, which is passed on its own. */
  datatype CreateCharacterRequest = CreateCharacterRequest(accountID: string, message: string, sessionID: string,
                                                           state: int, is3D: bool)

  datatype CreateResponse = CreateResponse(chatMessage: seq<string>, confirmType: string, imageMeta: seq<string>,
                                           needConfirm: bool, sessionID: string)

  /** ChatCompletionStreamResponseChunk: the aggregate (session id to obj url),
      the raw chunk fields, and an optional create response (JSON "data"). */
  datatype Snapshot = Snapshot(
    sessionID: string, message: string, chatMessage: seq<string>, confirmType: string,
    imageMeta: seq<string>, needConfirm: bool, is3D: bool, objURL: string,
    chunkType: nat, chunkSessionIndex: nat, chatChunk: Option<ChatMessage>, imageChunk: seq<string>,
    needConfirmChunk: bool, settingChunk: string,
    createResponse: Option<CreateResponse>)

  /** The zero snapshot: every field empty, false or nil. */
  const ZeroSnapshot := Snapshot("", "", [], "", [], false, false, "", 0, 0, None, [], false, "", None)

  /** An image-cache item: the cached image list and the lifetime it was added with. */
  datatype CacheItem = CacheItem(images: seq<string>, lifetime: int)
}
