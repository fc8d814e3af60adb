/** The voice use case of internal/biz/character_voice.go: it passes the
    repository's answers through, turning a missing voice into
    ErrVoiceNotExist and every repository error into ErrInternalError. */
module VoiceBiz {
  import opened Wrappers
  import opened BizErr
  import opened VoiceData

  const QueryVoicePrefix := "QueryCharacterVoice: query all voice err: "
  const QueryAllVoicePrefix := "QueryAllCharacterVoice: query all voice err: "

  /** QueryCharacterVoice, from the repository's answer for the id. */
  function QueryCharacterVoice(found: Result<Option<CharacterVoice>, Error>): (r: Result<CharacterVoice, Error>)
    ensures found.Err? ==> r == Err(Wrap(ErrInternalError, Wrapped(QueryVoicePrefix, found.error, "")))
    ensures found == Ok(None) ==> r == Err(ErrVoiceNotExist)
    ensures found.Ok? && found.value.Some? ==> r == Ok(found.value.value)
  {
    match found
    case Err(e) => Err(Wrap(ErrInternalError, Wrapped(QueryVoicePrefix, e, "")))
    case Ok(None) => Err(ErrVoiceNotExist)
    case Ok(Some(v)) => Ok(v)
  }

  /** QueryAllCharacterVoice: the repository is asked with gender 0 and its
      list comes back unchanged. */
  function QueryAllCharacterVoice(store: VoiceStore, fault: Option<Error>): (r: Result<seq<CharacterVoice>, Error>)
    reads store
    ensures fault.Some? ==> r == Err(Wrap(ErrInternalError, Wrapped(QueryAllVoicePrefix, fault.value, "")))
    ensures fault.None? ==> r.Ok? && |r.value| == |store.rows|
    ensures fault.None? ==> forall i :: 0 <= i < |store.rows| ==> r.value[i] == MakeBizCharacterVoice(store.rows[i])
  {
    match store.QueryAllCharacterVoice(0, fault)
    case Err(e) => Err(Wrap(ErrInternalError, Wrapped(QueryAllVoicePrefix, e, "")))
    case Ok(vs) => Ok(vs)
  }

  /** Without a storage error, a voice id is accepted exactly when a stored
      voice has it, and the accepted voice is that row. */
  lemma VoiceAcceptedIff(store: VoiceStore, id: string)
    requires store.Valid()
    ensures QueryCharacterVoice(store.QueryCharacterVoiceByID(id, None)).Ok?
        <==> exists i :: 0 <= i < |store.rows| && store.rows[i].uuid == id
    ensures forall i :: 0 <= i < |store.rows| && store.rows[i].uuid == id ==>
      QueryCharacterVoice(store.QueryCharacterVoiceByID(id, None)) == Ok(MakeBizCharacterVoice(store.rows[i]))
  {
    forall i | 0 <= i < |store.rows| && store.rows[i].uuid == id
      ensures QueryCharacterVoice(store.QueryCharacterVoiceByID(id, None)) == Ok(MakeBizCharacterVoice(store.rows[i]))
    {
      StoredVoiceFound(store, i);
    }
  }
}
