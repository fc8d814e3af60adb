/** The decision logic of internal/biz/account_activity.go: how the replies of
    the account service are read, which limit error an activity maps to, and
    the login-code check against the Redis store with its three delete tries. */
module Activity {
  import opened Wrappers
  import opened Strs
  import opened BizErr
  import opened Resp

  const Chat: int := 0
  const Like: int := 10001
  const CreateCharacter: int := 10002
  const Login: int := 10003
  /** The reply code the account service uses for "limit reached". */
  const LimitCode := "100"

  const ChatLimitMsg := "You've reached the limit for chatting. Please come back tomorrow."
  const LikeLimitMsg := "You've reached the limit for liking. Please come back tomorrow."
  const CreateLimitMsg := "You've reached the limit for creating Avatars. Please come back tomorrow."

  /** parseActivityCodeToErr: each limited activity has its own message; every
      error it gives carries the Limit code and no cause. */
  function ParseActivityCodeToErr(activityCode: int): (e: BizError)
    ensures e.code == Limit && e.cause.None?
    ensures activityCode == Chat <==> e.msg == ChatLimitMsg
    ensures activityCode == Like <==> e.msg == LikeLimitMsg
    ensures activityCode == CreateCharacter <==> e.msg == CreateLimitMsg
    ensures activityCode !in {Chat, Like, CreateCharacter} <==> e == ErrLimit
  {
    if activityCode == Chat then NewBizError(ChatLimitMsg, Limit)
    else if activityCode == Like then NewBizError(LikeLimitMsg, Limit)
    else if activityCode == CreateCharacter then NewBizError(CreateLimitMsg, Limit)
    else ErrLimit
  }

  /** The outcome of one HTTP exchange with the account service, as far as the
      client reads it. */
  datatype Reply<+T> =
    | Unreachable(cause: Error)              // cl.Do failed
    | BadStatus(status: int)                 // a status other than 200
    | Undecodable(cause: Error)              // the body is not the expected JSON
    | Decoded(code: string, msg: string, data: T)

  /** The texts each call puts in front of the failure it reports. */
  datatype CallTexts = CallTexts(doErr: string, status: string, decode: string, failed: string)

  const PostActivityTexts := CallTexts("Auth: cl.do err: ", "PostActivity: response status code is ",
                                       "PostActivity: response json decode err: ", "PostActivity: response is failed : ")
  const QueryActivityLimitTexts := CallTexts("QueryActivityLimit: cl.do err: ", "QueryActivityLimit: response status code is ",
                                             "QueryActivityLimit: response json decode err: ", "QueryActivityLimit: response is failed : ")
  const ClaimPointsTexts := CallTexts("ClaimPoints: cl.do err: ", "ClaimPoints: response status code is ",
                                      "ClaimPoints: response json decode err: ", "ClaimPoints: response is failed : ")

  /** The `%+v` text of PostActivity's decoded reply struct {Code, Data, Msg}:
      field names and raw values, in declaration order. */
  function ShowPostReply(code: string, msg: string, data: string): (t: string)
    ensures |t| >= 6 + |code| && t[..6 + |code|] == "{Code:" + code
    ensures |t| >= |msg| + 6 && t[|t| - |msg| - 6..] == " Msg:" + msg + "}"
  {
    "{Code:" + code + " Data:" + data + " Msg:" + msg + "}"
  }

  /** The `%+v` text of QueryActivityLimit's reply struct {Code, Data{IsLimit}, Msg}. */
  function ShowLimitReply(code: string, msg: string, isLimit: bool): (t: string)
    ensures |t| >= 6 + |code| && t[..6 + |code|] == "{Code:" + code
    ensures |t| >= |msg| + 6 && t[|t| - |msg| - 6..] == " Msg:" + msg + "}"
  {
    "{Code:" + code + " Data:{IsLimit:" + (if isLimit then "true" else "false") + "} Msg:" + msg + "}"
  }

  /** The `%+v` text of ClaimPoints' reply struct {Code, Msg, Data}. */
  function ShowClaimReply(code: string, msg: string, data: string): (t: string)
    ensures |t| >= 6 + |code| && t[..6 + |code|] == "{Code:" + code
    ensures |t| >= |data| + 7 && t[|t| - |data| - 7..] == " Data:" + data + "}"
  {
    "{Code:" + code + " Msg:" + msg + " Data:" + data + "}"
  }

  /** ErrInternalError wrapping a description of what went wrong with the
      exchange. `printed` is the number the bad-status text shows, `show` the
      `%+v` text of a decoded reply; both reach the client through Error(). */
  function InternalFailure<T>(t: CallTexts, reply: Reply<T>, printed: int, show: (string, string, T) -> string)
    : (e: BizError)
    ensures e.code == InternalError && e.msg == ErrInternalError.msg
    ensures reply.Unreachable? ==> Unwrap(e) == Some(Wrapped(t.doErr, reply.cause, ""))
    ensures reply.Undecodable? ==> Unwrap(e) == Some(Wrapped(t.decode, reply.cause, ""))
    ensures reply.BadStatus? ==> Unwrap(e) == Some(Text(t.status + IntToString(printed) + " "))
    ensures reply.Decoded? ==> Unwrap(e) == Some(Text(t.failed + show(reply.code, reply.msg, reply.data)))
  {
    match reply
    case Unreachable(c) => Wrap(ErrInternalError, Wrapped(t.doErr, c, ""))
    case BadStatus(s) => Wrap(ErrInternalError, Text(t.status + IntToString(printed) + " "))
    case Undecodable(c) => Wrap(ErrInternalError, Wrapped(t.decode, c, ""))
    case Decoded(code, msg, data) => Errorf(ErrInternalError, t.failed + show(code, msg, data))
  }

  predicate Succeeded<T>(reply: Reply<T>) {
    reply.Decoded? && reply.code == "0"
  }

  /** PostActivity: nil on code "0", the activity's limit error on code "100",
      ErrInternalError on any other failure. */
  function PostActivityResult(reply: Reply<string>, activityCode: int): (r: Option<Error>)
    ensures r.None? <==> Succeeded(reply)
    ensures reply.Decoded? && reply.code == LimitCode ==> r == Some(ParseActivityCodeToErr(activityCode))
    ensures r.Some? && !(reply.Decoded? && reply.code == LimitCode) ==>
      r.value.Biz? && r.value.code == InternalError && r.value.msg == ErrInternalError.msg
  {
    if Succeeded(reply) then None
    else if reply.Decoded? && reply.code == LimitCode then Some(ParseActivityCodeToErr(activityCode))
    else Some(InternalFailure(PostActivityTexts, reply, if reply.BadStatus? then reply.status else 0, ShowPostReply))
  }

  /** QueryActivityLimit: ErrInternalError unless the code is "0"; then the
      activity's limit error when is_limit is set and nil otherwise. Its
      bad-status text formats the method value `resp.StatusCode`, not its
      result, so it shows the function's address `statusFunc`. */
  function QueryActivityLimitResult(reply: Reply<bool>, activityCode: int, statusFunc: int): (r: Option<Error>)
    ensures r.None? <==> Succeeded(reply) && !reply.data
    ensures Succeeded(reply) && reply.data ==> r == Some(ParseActivityCodeToErr(activityCode))
    ensures !Succeeded(reply) ==>
      r.Some? && r.value.Biz? && r.value.code == InternalError && r.value.msg == ErrInternalError.msg
  {
    if !Succeeded(reply) then Some(InternalFailure(QueryActivityLimitTexts, reply, statusFunc, ShowLimitReply))
    else if reply.data then Some(ParseActivityCodeToErr(activityCode))
    else None
  }

  const NotEnoughPointsMsg := "Not enough points"

  /** ClaimPoints: the reply's data on success, ErrNotEnoughPoints when the
      service says so, ErrInternalError otherwise. */
  function ClaimPointsResult(reply: Reply<string>): (r: Result<string, Error>)
    ensures r.Ok? <==> Succeeded(reply)
    ensures r.Ok? ==> r.value == reply.data
    ensures reply.Decoded? && reply.code != "0" && reply.msg == NotEnoughPointsMsg ==> r == Err(ErrNotEnoughPoints)
    ensures r.Err? && !(reply.Decoded? && reply.msg == NotEnoughPointsMsg) ==>
      r.error.Biz? && r.error.code == InternalError
  {
    if Succeeded(reply) then Ok(reply.data)
    else if reply.Decoded? && reply.msg == NotEnoughPointsMsg then Err(ErrNotEnoughPoints)
    else Err(InternalFailure(ClaimPointsTexts, reply, if reply.BadStatus? then reply.status else 0, ShowClaimReply))
  }

  lemma IntToString100()
    ensures IntToString(100) == LimitCode
  {
    assert NatToString(1) == "1";
    assert NatToString(10) == "10";
  }

  /** A limit error reaches the client as the envelope code "100", the code the
      account service itself used. */
  lemma LimitErrorEnvelope(activityCode: int)
    ensures MakeErrResponse(ParseActivityCodeToErr(activityCode)).code == LimitCode
  {
    IntToString100();
  }

  /** A failed PostActivity answers with envelope code "100" exactly when the service did. */
  lemma PostActivityEnvelopeCode(reply: Reply<string>, activityCode: int)
    requires !Succeeded(reply)
    ensures var r := PostActivityResult(reply, activityCode);
      r.Some? && (MakeErrResponse(r.value).code == LimitCode <==> reply.Decoded? && reply.code == LimitCode)
  {
    var r := PostActivityResult(reply, activityCode);
    IntToString100();
    if !(reply.Decoded? && reply.code == LimitCode) {
      IntToStringRoundTrip(InternalError as int);
      IntToStringRoundTrip(100);
    }
  }

  /** QueryActivityLimit does not read code "100" as "limit reached": it is an internal error there. */
  lemma QueryActivityLimitIgnoresLimitCode(msg: string, isLimit: bool, activityCode: int, statusFunc: int)
    ensures QueryActivityLimitResult(Decoded(LimitCode, msg, isLimit), activityCode, statusFunc).value.code == InternalError
    ensures PostActivityResult(Decoded(LimitCode, msg, ""), activityCode).value.code == Limit
  {
  }

  /** ErrInternalError around a plain text reaches the client with that text
      after its own in the envelope's data. */
  lemma InternalTextReachesClient(t: string)
    ensures MakeErrResponse(Wrap(ErrInternalError, Text(t))).data == Some(ErrorString(ErrInternalError) + ": " + t)
  {
    WrapErrorString(ErrInternalError, Text(t));
  }

  /** A limit query the service answers with a failure code reaches the
      client with the `%+v` text of the reply in the envelope's data. */
  lemma FailureTextReachesClient(code: string, msg: string, isLimit: bool, activityCode: int, statusFunc: int)
    requires code != "0"
    ensures MakeErrResponse(QueryActivityLimitResult(Decoded(code, msg, isLimit), activityCode, statusFunc).value).data
         == Some(ErrorString(ErrInternalError) + ": " + (QueryActivityLimitTexts.failed + ShowLimitReply(code, msg, isLimit)))
  {
    InternalTextReachesClient(QueryActivityLimitTexts.failed + ShowLimitReply(code, msg, isLimit));
  }

  /** A bad status of the limit query reaches the client with the printed
      function address, whatever the status was. */
  lemma StatusAddressReachesClient(status: int, activityCode: int, statusFunc: int)
    ensures MakeErrResponse(QueryActivityLimitResult(BadStatus(status), activityCode, statusFunc).value).data
         == Some(ErrorString(ErrInternalError) + ": " + (QueryActivityLimitTexts.status + IntToString(statusFunc) + " "))
  {
    InternalTextReachesClient(QueryActivityLimitTexts.status + IntToString(statusFunc) + " ");
  }

  /** Two activities get the same limit error exactly when they are the same
      activity or neither is one of the three with a message of its own
      (Login among them). */
  lemma LimitMessagesDistinct(a: int, b: int)
    ensures ParseActivityCodeToErr(a) == ParseActivityCodeToErr(b)
        <==> a == b || (a !in {Chat, Like, CreateCharacter} && b !in {Chat, Like, CreateCharacter})
  {
  }

  // ---- The login-code store (the Redis repository of internal/data/account.go) ----

  /** A stored login code and the expiration it was set with, in seconds. */
  datatype Entry = Entry(code: string, expiration: int)

  /** redis.Nil, the error Get gives for a missing key. */
  const RedisNil := Text("redis: nil")

  class LoginCodeStore {
    var entries: map<string, Entry>
    /** How many deletes have been issued against the store. */
    ghost var delCalls: nat

    constructor ()
      ensures entries == map[] && delCalls == 0
    {
      entries := map[];
      delCalls := 0;
    }

    /** SET email code EX expiration; `fault` is the error Redis answers with, if any. */
    method Set(email: string, code: string, expiration: int, fault: Option<Error>) returns (err: Option<Error>)
      modifies this
      ensures err == fault && delCalls == old(delCalls)
      ensures fault.Some? ==> entries == old(entries)
      ensures fault.None? ==> entries == old(entries)[email := Entry(code, expiration)]
    {
      if fault.None? {
        entries := entries[email := Entry(code, expiration)];
      }
      err := fault;
    }

    /** GET email: the stored code, redis.Nil when there is none. */
    method Get(email: string, fault: Option<Error>) returns (r: Result<string, Error>)
      ensures fault.Some? ==> r == Err(fault.value)
      ensures fault.None? && email in entries ==> r == Ok(entries[email].code)
      ensures fault.None? && email !in entries ==> r == Err(RedisNil)
    {
      if fault.Some? {
        r := Err(fault.value);
      } else if email in entries {
        r := Ok(entries[email].code);
      } else {
        r := Err(RedisNil);
      }
    }

    /** DEL email. */
    method Del(email: string, fault: Option<Error>) returns (err: Option<Error>)
      modifies this
      ensures err == fault && delCalls == old(delCalls) + 1
      ensures fault.Some? ==> entries == old(entries)
      ensures fault.None? ==> entries == old(entries) - {email}
    {
      if fault.None? {
        entries := entries - {email};
      }
      delCalls := delCalls + 1;
      err := fault;
    }
  }

  const GetCodePrefix := "CheckLoginCode: get login code err: "
  const DelCodePrefix := "CheckLoginCode: del login code err: "
  const MaxDelTries := 3

  /** The first of the delete attempts i .. 2 that succeeds, if one does;
      `delFault(k)` is the error the k-th attempt meets. */
  function FirstDelSuccess(delFault: nat -> Option<Error>, i: nat): (r: Option<nat>)
    requires i <= MaxDelTries
    ensures r.Some? ==> i <= r.value < MaxDelTries && delFault(r.value).None?
                        && forall j :: i <= j < r.value ==> delFault(j).Some?
    ensures r.None? ==> forall j :: i <= j < MaxDelTries ==> delFault(j).Some?
    decreases MaxDelTries - i
  {
    if i == MaxDelTries then None
    else if delFault(i).None? then Some(i)
    else FirstDelSuccess(delFault, i + 1)
  }

  /** What CheckLoginCode answers, the store it leaves and the deletes it issues. */
  datatype CheckOutcome = CheckOutcome(err: Option<Error>, entries: map<string, Entry>, deletes: nat)

  /** CheckLoginCode as a function of the store: a failed lookup (redis.Nil
      included) is reported wrapped; a different code is
      ErrVerificationCodeFailed; a matching code is deleted with up to three
      tries, and only when all three fail is the last failure reported. */
  function CheckLoginCodeSpec(entries: map<string, Entry>, email: string, code: string,
                              getFault: Option<Error>, delFault: nat -> Option<Error>): (o: CheckOutcome)
    ensures o.deletes <= MaxDelTries
  {
    if getFault.Some? then CheckOutcome(Some(Wrapped(GetCodePrefix, getFault.value, "")), entries, 0)
    else if email !in entries then CheckOutcome(Some(Wrapped(GetCodePrefix, RedisNil, "")), entries, 0)
    else if entries[email].code != code then CheckOutcome(Some(ErrVerificationCodeFailed), entries, 0)
    else match FirstDelSuccess(delFault, 0)
      case Some(k) => CheckOutcome(None, entries - {email}, k + 1)
      case None => CheckOutcome(Some(Wrapped(DelCodePrefix, delFault(MaxDelTries - 1).value, "")), entries, MaxDelTries)
  }

  /** CheckLoginCode with its retry loop. */
  method CheckLoginCode(store: LoginCodeStore, email: string, code: string,
                        getFault: Option<Error>, delFault: nat -> Option<Error>) returns (err: Option<Error>)
    modifies store
    ensures var o := CheckLoginCodeSpec(old(store.entries), email, code, getFault, delFault);
      err == o.err && store.entries == o.entries && store.delCalls == old(store.delCalls) + o.deletes
  {
    var res := store.Get(email, getFault);
    if res.Err? {
      return Some(Wrapped(GetCodePrefix, res.error, ""));
    }
    if res.value == code {
      var retry := 0;
      var delErr: Option<Error> := None;
      var deleted := false;
      while retry < MaxDelTries
        invariant 0 <= retry <= MaxDelTries && !deleted
        invariant forall j :: 0 <= j < retry ==> delFault(j).Some?
        invariant retry > 0 ==> delErr == delFault(retry - 1)
        invariant store.entries == old(store.entries)
        invariant store.delCalls == old(store.delCalls) + retry
        invariant FirstDelSuccess(delFault, 0) == FirstDelSuccess(delFault, retry)
        decreases MaxDelTries - retry
      {
        delErr := store.Del(email, delFault(retry));
        if delErr.Some? {
          retry := retry + 1;
          continue;
        }
        deleted := true;
        break;
      }
      if delErr.Some? {
        return Some(Wrapped(DelCodePrefix, delErr.value, ""));
      }
      return None;
    }
    return Some(ErrVerificationCodeFailed);
  }

  /** A matching code is accepted exactly when one of the three deletes succeeds. */
  lemma CheckSucceedsIff(entries: map<string, Entry>, email: string, code: string, delFault: nat -> Option<Error>)
    ensures CheckLoginCodeSpec(entries, email, code, None, delFault).err.None? <==>
      email in entries && entries[email].code == code && exists k :: 0 <= k < MaxDelTries && delFault(k).None?
  {
    if email in entries && entries[email].code == code && exists k :: 0 <= k < MaxDelTries && delFault(k).None? {
      var k :| 0 <= k < MaxDelTries && delFault(k).None?;
      assert FirstDelSuccess(delFault, 0).Some?;
    }
  }

  /** A wrong code deletes nothing and leaves the store as it was. */
  lemma MismatchDeletesNothing(entries: map<string, Entry>, email: string, code: string, delFault: nat -> Option<Error>)
    requires email in entries && entries[email].code != code
    ensures CheckLoginCodeSpec(entries, email, code, None, delFault)
         == CheckOutcome(Some(ErrVerificationCodeFailed), entries, 0)
  {
  }

  /** A code can be used once: after a successful check, checking again fails on the lookup. */
  lemma CodeIsSingleUse(entries: map<string, Entry>, email: string, code: string, code2: string,
                        delFault: nat -> Option<Error>, delFault2: nat -> Option<Error>)
    requires CheckLoginCodeSpec(entries, email, code, None, delFault).err.None?
    ensures var after := CheckLoginCodeSpec(entries, email, code, None, delFault).entries;
      CheckLoginCodeSpec(after, email, code2, None, delFault2).err == Some(Wrapped(GetCodePrefix, RedisNil, ""))
  {
  }

  const SetCodePrefix := "SetLoginCode: set login code err: "

  /** SetLoginCode: store the code for `tokenExpires` seconds; a store failure
      becomes ErrInternalError wrapping it. */
  method SetLoginCode(store: LoginCodeStore, email: string, code: string, tokenExpires: int, fault: Option<Error>)
    returns (err: Option<Error>)
    modifies store
    ensures fault.None? ==> err.None? && store.entries == old(store.entries)[email := Entry(code, tokenExpires)]
    ensures fault.Some? ==> err == Some(Wrap(ErrInternalError, Wrapped(SetCodePrefix, fault.value, "")))
                            && store.entries == old(store.entries)
    ensures store.delCalls == old(store.delCalls)
  {
    var e := store.Set(email, code, tokenExpires, fault);
    if e.Some? {
      return Some(Wrap(ErrInternalError, Wrapped(SetCodePrefix, e.value, "")));
    }
    return None;
  }

  /** A code that was set, and not set again since, passes the check. */
  lemma SetThenCheck(entries: map<string, Entry>, email: string, code: string, ttl: int, delFault: nat -> Option<Error>)
    requires delFault(0).None?
    ensures CheckLoginCodeSpec(entries[email := Entry(code, ttl)], email, code, None, delFault).err.None?
  {
  }
}
