/** The conversation table of internal/data/conversation.go: one record per
    (account, character) chat, created with a fresh id or updated in place. */
module ConversationData {
  import opened Wrappers
  import opened BizErr

  /** A row of the conversations table; the time stamps come from gorm.Model. */
  datatype Conversation = Conversation(conversationID: string, accountID: string, characterID: string,
                                       createdAt: int, updatedAt: int)

  /** biz.ConversationRequest. */
  datatype ConversationRequest = ConversationRequest(conversationID: string, accountID: string, characterID: string)

  /** biz.ConversationResponse. */
  datatype ConversationResponse = ConversationResponse(conversationID: string, accountID: string,
                                                       characterID: string, updateTime: int)

  function MakeBizConversationResponse(c: Conversation): (r: ConversationResponse)
    ensures r.conversationID == c.conversationID && r.accountID == c.accountID
    ensures r.characterID == c.characterID && r.updateTime == c.updatedAt
  {
    ConversationResponse(c.conversationID, c.accountID, c.characterID, c.updatedAt)
  }

  function ConversationResponses(cs: seq<Conversation>): (rs: seq<ConversationResponse>)
    ensures |rs| == |cs| && forall i :: 0 <= i < |cs| ==> rs[i] == MakeBizConversationResponse(cs[i])
  {
    seq(|cs|, i requires 0 <= i < |cs| => MakeBizConversationResponse(cs[i]))
  }

  /** makeBizConversationResponse: a result of the same length, filled index by index. */
  method MakeBizConversationResponses(cs: seq<Conversation>) returns (rs: seq<ConversationResponse>)
    ensures rs == ConversationResponses(cs)
  {
    var res := [];
    for i := 0 to |cs|
      invariant |res| == i && forall j :: 0 <= j < i ==> res[j] == MakeBizConversationResponse(cs[j])
    {
      res := res + [MakeBizConversationResponse(cs[i])];
    }
    rs := res;
  }

  /** The first row, in primary-key order, of `account` with `characterID`. */
  function FirstOf(rows: seq<Conversation>, account: string, characterID: string): (r: Option<Conversation>)
    ensures r.None? <==> forall i :: 0 <= i < |rows| ==> !(rows[i].accountID == account && rows[i].characterID == characterID)
    ensures r.Some? ==> exists i :: 0 <= i < |rows| && rows[i] == r.value
                          && rows[i].accountID == account && rows[i].characterID == characterID
                          && forall j :: 0 <= j < i ==> !(rows[j].accountID == account && rows[j].characterID == characterID)
  {
    if |rows| == 0 then None
    else if rows[0].accountID == account && rows[0].characterID == characterID then Some(rows[0])
    else
      var r := FirstOf(rows[1..], account, characterID);
      if r.Some? then
        var i :| 0 <= i < |rows[1..]| && rows[1..][i] == r.value
                 && rows[1..][i].accountID == account && rows[1..][i].characterID == characterID
                 && forall j :: 0 <= j < i ==> !(rows[1..][j].accountID == account && rows[1..][j].characterID == characterID);
        assert rows[i + 1] == r.value;
        assert forall j :: 1 <= j < i + 1 ==> rows[j] == rows[1..][j - 1];
        r
      else r
  }

  /** The rows of one account. */
  function OfAccount(rows: seq<Conversation>, account: string): (r: seq<Conversation>)
    ensures multiset(r) <= multiset(rows)
    ensures forall c :: c in r <==> c in rows && c.accountID == account
  {
    if |rows| == 0 then []
    else
      assert rows == [rows[0]] + rows[1..];
      (if rows[0].accountID == account then [rows[0]] else []) + OfAccount(rows[1..], account)
  }

  /** Latest update first. */
  predicate NewestFirst(s: seq<Conversation>) {
    forall i, j :: 0 <= i < j < |s| ==> s[i].updatedAt >= s[j].updatedAt
  }

  /** `x` put before the first element it is not older than. */
  function InsertByUpdate(x: Conversation, s: seq<Conversation>): (r: seq<Conversation>)
    ensures multiset(r) == multiset(s) + multiset{x}
  {
    if |s| == 0 then [x]
    else if x.updatedAt >= s[0].updatedAt then [x] + s
    else
      assert s == [s[0]] + s[1..];
      [s[0]] + InsertByUpdate(x, s[1..])
  }

  /** Inserting into an ordered list keeps it ordered. */
  lemma {:induction false} InsertKeepsOrder(x: Conversation, s: seq<Conversation>)
    requires NewestFirst(s)
    ensures NewestFirst(InsertByUpdate(x, s))
    decreases |s|
  {
    if |s| > 0 && x.updatedAt < s[0].updatedAt {
      var rest := InsertByUpdate(x, s[1..]);
      InsertKeepsOrder(x, s[1..]);
      forall k | 0 <= k < |rest| ensures rest[k].updatedAt <= s[0].updatedAt {
        assert rest[k] in multiset(rest);
        assert rest[k] in multiset(s[1..]) + multiset{x};
        if rest[k] != x {
          assert rest[k] in s[1..];
        }
      }
      assert InsertByUpdate(x, s) == [s[0]] + rest;
    }
  }

  /** The rows ordered by UpdatedAt, latest first ("updated_at desc"). Rows
      with equal time stamps keep their table order. */
  function SortByUpdateDesc(s: seq<Conversation>): (r: seq<Conversation>)
    ensures multiset(r) == multiset(s) && NewestFirst(r)
  {
    if |s| == 0 then []
    else
      assert s == [s[0]] + s[1..];
      var rest := SortByUpdateDesc(s[1..]);
      InsertKeepsOrder(s[0], rest);
      InsertByUpdate(s[0], rest)
  }

  /** The number of rows that belong to character `id`. */
  function CharacterCount(rows: seq<Conversation>, id: string): nat {
    |set i | 0 <= i < |rows| && rows[i].characterID == id|
  }

  /** One row of an update with `Updates(Conversation{...})`: a row with the
      request's id gets the request's non-empty account and character and a
      new UpdatedAt; other rows stay. */
  function UpdateRow(c: Conversation, req: ConversationRequest, now: int): (u: Conversation)
    ensures c.conversationID != req.conversationID ==> u == c
    ensures c.conversationID == req.conversationID ==>
      u.conversationID == c.conversationID && u.createdAt == c.createdAt && u.updatedAt == now
      && u.accountID == (if req.accountID == "" then c.accountID else req.accountID)
      && u.characterID == (if req.characterID == "" then c.characterID else req.characterID)
  {
    if c.conversationID != req.conversationID then c
    else Conversation(c.conversationID,
                      if req.accountID == "" then c.accountID else req.accountID,
                      if req.characterID == "" then c.characterID else req.characterID,
                      c.createdAt, now)
  }

  /** The conversations table in primary-key order. */
  class ConversationStore {
    var rows: seq<Conversation>

    constructor ()
      ensures rows == []
    {
      rows := [];
    }

    /** QueryConversationByID: the first conversation of the account with
        the character, or nothing (and no error). */
    function QueryConversationByID(account: string, characterID: string, fault: Option<Error>)
      : (r: Result<Option<ConversationResponse>, Error>)
      reads this
      ensures fault.Some? ==> r == Err(fault.value)
      ensures fault.None? ==> r.Ok?
      ensures fault.None? ==>
        (r.value.None? <==> forall i :: 0 <= i < |rows| ==> !(rows[i].accountID == account && rows[i].characterID == characterID))
      ensures fault.None? && r.value.Some? ==> r.value.value.accountID == account && r.value.value.characterID == characterID
    {
      if fault.Some? then Err(fault.value)
      else match FirstOf(rows, account, characterID)
        case None => Ok(None)
        case Some(c) => Ok(Some(MakeBizConversationResponse(c)))
    }

    /** QueryConversationsByAccountID: all of the account's conversations,
        latest update first, with their number; page and limit are not used.
        `listFault` and `countFault` are the errors of the two queries. */
    function QueryConversationsByAccountID(account: string, page: int, limit: int,
                                           listFault: Option<Error>, countFault: Option<Error>)
      : (r: Result<(seq<ConversationResponse>, nat), Error>)
      reads this
      ensures listFault.Some? ==> r == Err(listFault.value)
      ensures listFault.None? && countFault.Some? ==> r == Err(countFault.value)
      ensures listFault.None? && countFault.None? ==> r.Ok?
      ensures r.Ok? ==> var sorted := SortByUpdateDesc(OfAccount(rows, account));
        r.value.0 == ConversationResponses(sorted) && r.value.1 == |sorted|
        && (forall c :: c in sorted <==> c in rows && c.accountID == account)
        && NewestFirst(sorted)
    {
      if listFault.Some? then Err(listFault.value)
      else if countFault.Some? then Err(countFault.value)
      else
        var sorted := SortByUpdateDesc(OfAccount(rows, account));
        assert forall c :: c in sorted <==> c in multiset(sorted);
        Ok((ConversationResponses(sorted), |sorted|))
    }

    /** QueryConversationsCountByAccountID: despite its name, the number of
        conversations whose character is `id`. */
    function QueryConversationsCountByAccountID(id: string, fault: Option<Error>): (r: Result<nat, Error>)
      reads this
      ensures fault.Some? ==> r == Err(fault.value)
      ensures fault.None? ==> r == Ok(CharacterCount(rows, id))
    {
      if fault.Some? then Err(fault.value) else Ok(CharacterCount(rows, id))
    }

    /** SaveConversation: an empty id creates a conversation under the fresh
        id `freshID`; any other id updates the rows with that id (none, if
        there is no such row). `fault` is the insert's or update's error. */
    method SaveConversation(req: ConversationRequest, freshID: string, fault: Option<Error>, now: int)
      returns (err: Option<Error>)
      modifies this
      ensures err == fault
      ensures fault.Some? ==> rows == old(rows)
      ensures fault.None? && req.conversationID == "" ==>
        rows == old(rows) + [Conversation(freshID, req.accountID, req.characterID, now, now)]
      ensures fault.None? && req.conversationID != "" ==>
        |rows| == |old(rows)| && forall i :: 0 <= i < |rows| ==> rows[i] == UpdateRow(old(rows)[i], req, now)
    {
      if fault.Some? {
        return fault;
      }
      if req.conversationID == "" {
        rows := rows + [Conversation(freshID, req.accountID, req.characterID, now, now)];
      } else {
        rows := seq(|rows|, i requires 0 <= i < |rows| reads this => UpdateRow(rows[i], req, now));
      }
      return None;
    }
  }

  /** A new conversation of a pair that had none is the one the lookup then finds. */
  lemma CreatedConversationFound(store: ConversationStore, before: seq<Conversation>, c: Conversation)
    requires forall i :: 0 <= i < |before| ==> !(before[i].accountID == c.accountID && before[i].characterID == c.characterID)
    requires store.rows == before + [c]
    ensures store.QueryConversationByID(c.accountID, c.characterID, None) == Ok(Some(MakeBizConversationResponse(c)))
  {
    var r := FirstOf(store.rows, c.accountID, c.characterID);
    assert store.rows[|before|] == c;
    var i :| 0 <= i < |store.rows| && store.rows[i] == r.value && store.rows[i].accountID == c.accountID
             && store.rows[i].characterID == c.characterID;
    assert i == |before|;
  }

  /** A new conversation raises its character's count by exactly one. */
  lemma CountAfterCreate(before: seq<Conversation>, c: Conversation)
    ensures CharacterCount(before + [c], c.characterID) == CharacterCount(before, c.characterID) + 1
  {
    var after := before + [c];
    var s := set i | 0 <= i < |before| && before[i].characterID == c.characterID;
    var t := set i | 0 <= i < |after| && after[i].characterID == c.characterID;
    assert t == s + {|before|};
    assert |before| !in s;
  }

  /** An update never changes the number of rows or which id a row has. */
  lemma UpdateKeepsIDs(rows: seq<Conversation>, req: ConversationRequest, now: int, i: nat)
    requires i < |rows|
    ensures UpdateRow(rows[i], req, now).conversationID == rows[i].conversationID
    ensures rows[i].conversationID != req.conversationID ==> UpdateRow(rows[i], req, now) == rows[i]
  {
  }
}
