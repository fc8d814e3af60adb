/** The conversation use case of internal/biz/conversation.go: it forwards
    to the repository and wraps every repository error in ErrInternalError. */
module ConversationBiz {
  import opened Wrappers
  import opened BizErr
  import opened ConversationData

  const QueryConversationPrefix := "QueryConversation: query conversation by id err: "
  const SaveConversationPrefix := "SaveConversation: save conversation to db err: "
  /** Both listing calls use this text, followed by a space after the cause. */
  const QueryConversationsPrefix := "QueryConversations: query conversations by account err: "

  /** ErrInternalError caused by `prefix`, the repository error, then `suffix`. */
  function Internal(prefix: string, e: Error, suffix: string): (b: BizError)
    ensures b.code == InternalError && ErrorToBizError(b) == Some(b)
    ensures Unwrap(b) == Some(Wrapped(prefix, e, suffix))
  {
    Wrap(ErrInternalError, Wrapped(prefix, e, suffix))
  }

  /** QueryConversation: the repository's answer, an absent conversation
      included; only an error is changed. */
  function QueryConversation(store: ConversationStore, account: string, characterID: string, fault: Option<Error>)
    : (r: Result<Option<ConversationResponse>, Error>)
    reads store
    ensures fault.Some? ==> r == Err(Internal(QueryConversationPrefix, fault.value, ""))
    ensures fault.None? ==> r == store.QueryConversationByID(account, characterID, None)
  {
    match store.QueryConversationByID(account, characterID, fault)
    case Err(e) => Err(Internal(QueryConversationPrefix, e, ""))
    case Ok(c) => Ok(c)
  }

  /** QueryConversations: the repository's list and count, or the wrapped error. */
  function QueryConversations(store: ConversationStore, account: string, page: int, limit: int,
                              listFault: Option<Error>, countFault: Option<Error>)
    : (r: Result<(seq<ConversationResponse>, nat), Error>)
    reads store
    ensures listFault.Some? ==> r == Err(Internal(QueryConversationsPrefix, listFault.value, " "))
    ensures listFault.None? && countFault.Some? ==> r == Err(Internal(QueryConversationsPrefix, countFault.value, " "))
    ensures listFault.None? && countFault.None? ==> r == store.QueryConversationsByAccountID(account, page, limit, None, None)
  {
    match store.QueryConversationsByAccountID(account, page, limit, listFault, countFault)
    case Err(e) => Err(Internal(QueryConversationsPrefix, e, " "))
    case Ok(v) => Ok(v)
  }

  /** QueryConversationsCount: `accountID` reaches the repository unchanged,
      which counts the conversations of the character with that id. */
  function QueryConversationsCount(store: ConversationStore, accountID: string, fault: Option<Error>)
    : (r: Result<nat, Error>)
    reads store
    ensures fault.Some? ==> r == Err(Internal(QueryConversationsPrefix, fault.value, " "))
    ensures fault.None? ==> r == Ok(CharacterCount(store.rows, accountID))
  {
    match store.QueryConversationsCountByAccountID(accountID, fault)
    case Err(e) => Err(Internal(QueryConversationsPrefix, e, " "))
    case Ok(n) => Ok(n)
  }

  /** SaveConversation: saves the pair and returns the id it was given, so a
      new conversation yields "" rather than the id the repository generated. */
  method SaveConversation(store: ConversationStore, account: string, characterID: string, conversationID: string,
                          freshID: string, fault: Option<Error>, now: int)
    returns (r: Result<string, Error>)
    modifies store
    ensures fault.Some? ==> r == Err(Internal(SaveConversationPrefix, fault.value, "")) && store.rows == old(store.rows)
    ensures fault.None? ==> r == Ok(conversationID)
    ensures fault.None? && conversationID == "" ==>
      store.rows == old(store.rows) + [Conversation(freshID, account, characterID, now, now)]
    ensures fault.None? && conversationID != "" ==> |store.rows| == |old(store.rows)|
    ensures fault.None? && conversationID != "" ==>
      forall i :: 0 <= i < |store.rows| ==>
        store.rows[i] == UpdateRow(old(store.rows)[i], ConversationRequest(conversationID, account, characterID), now)
  {
    var err := store.SaveConversation(ConversationRequest(conversationID, account, characterID), freshID, fault, now);
    if err.Some? {
      return Err(Internal(SaveConversationPrefix, err.value, ""));
    }
    return Ok(conversationID);
  }
}
