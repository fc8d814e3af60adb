/** The account endpoints of api/http/v1/account_router.go that decide
    something: the sign-in mail (address check, retry throttle, sending and
    storing the code), the owner checks of `activity` and `savePointsAddr`,
    and the provider `auth` registers. */
module AccountRouter {
  import opened Wrappers
  import opened Strs
  import opened BizErr
  import opened Resp
  import opened Mail
  import opened Activity
  import opened Snowflake

  // ---- The e-mail address grammar (section 4.10.5.1.5 of the HTML Living Standard) ----

  predicate IsAlnum(c: char) {
    'a' <= c <= 'z' || 'A' <= c <= 'Z' || '0' <= c <= '9'
  }

  /** The characters allowed before the "@". */
  predicate IsLocalChar(c: char) {
    IsAlnum(c) || c in ".!#$%&'*+/=?^_`{|}~-"
  }

  predicate IsLocalPart(s: string) {
    |s| >= 1 && forall i :: 0 <= i < |s| ==> IsLocalChar(s[i])
  }

  /** A domain label: 1 to 63 letters, digits or hyphens, starting and ending
      with a letter or digit. */
  predicate IsLabel(l: string) {
    1 <= |l| <= 63 && IsAlnum(l[0]) && IsAlnum(l[|l| - 1])
    && forall i :: 0 <= i < |l| ==> IsAlnum(l[i]) || l[i] == '-'
  }

  /** The recogniser: exactly one "@", a local part before it, and after it
      dot-separated labels. */
  predicate IsValidEmail(s: string) {
    var parts := Split(s, '@');
    |parts| == 2 && IsLocalPart(parts[0])
    && forall k :: 0 <= k < |Split(parts[1], '.')| ==> IsLabel(Split(parts[1], '.')[k])
  }

  /** The grammar itself: local-part "@" label *("." label). */
  ghost predicate MatchesGrammar(s: string) {
    exists local: string, labels: seq<string> ::
      IsLocalPart(local) && |labels| >= 1
      && (forall k :: 0 <= k < |labels| ==> IsLabel(labels[k]))
      && s == local + "@" + Join(labels, '.')
  }

  /** The recogniser accepts exactly the addresses the grammar derives. */
  lemma EmailRecogniserCorrect(s: string)
    ensures IsValidEmail(s) <==> MatchesGrammar(s)
  {
    if IsValidEmail(s) {
      var parts := Split(s, '@');
      var labels := Split(parts[1], '.');
      JoinSplit(s, '@');
      JoinSplit(parts[1], '.');
      assert Join(parts, '@') == parts[0] + "@" + parts[1];
      assert s == parts[0] + "@" + Join(labels, '.');
    }
    if MatchesGrammar(s) {
      var local: string, labels: seq<string> :|
        IsLocalPart(local) && |labels| >= 1
        && (forall k :: 0 <= k < |labels| ==> IsLabel(labels[k]))
        && s == local + "@" + Join(labels, '.');
      var domain := Join(labels, '.');
      assert forall k :: 0 <= k < |labels| ==> '@' !in labels[k] && '.' !in labels[k];
      JoinAvoids(labels, '.', '@');
      assert '@' !in local;
      SplitFront(local, '@', domain);
      SplitPiece(domain, '@');
      assert s == local + ['@'] + domain;
      assert Split(s, '@') == [local, domain];
      SplitJoin(labels, '.');
    }
  }

  // ---- LoginSendMail (internal/service/account/account.go) ----

  const LoginSendMailPrefix := "LoginSendMail: set login code err: "
  const CodeWidth := 6

  /** A six-digit code, sent through the pool and then stored for `tokenExpires`
      seconds; a store failure comes back wrapped, after the mail has gone. */
  method LoginSendMail(pool: MailPool, codes: LoginCodeStore, mail: string, tokenExpires: int,
                       draw: nat -> nat, setFault: Option<Error>) returns (err: Option<Error>, code: string)
    requires pool.Valid() && |pool.clients| > 0
    requires forall i :: draw(i) < 10
    modifies pool, codes
    ensures |code| == CodeWidth && IsDigits(code)
    ensures forall i :: 0 <= i < CodeWidth ==> code[i] == DigitChar(draw(i))
    ensures pool.Valid() && pool.clients == old(pool.clients) && pool.index == old(pool.index) + 1
    ensures pool.dispatched == old(pool.dispatched) + Sends(pool.clients, old(pool.index), [(mail, code)])
    ensures pool.dispatched == old(pool.dispatched) + [Dispatch(old(pool.index) % |pool.clients|,
                                 MakeMessage(pool.clients[old(pool.index) % |pool.clients|], mail, code))]
    ensures setFault.None? ==> err.None? && codes.entries == old(codes.entries)[mail := Entry(code, tokenExpires)]
    ensures setFault.Some? ==>
      codes.entries == old(codes.entries) && err == Some(Wrapped(LoginSendMailPrefix, Wrap(ErrInternalError, Wrapped(SetCodePrefix, setFault.value, "")), ""))
    ensures codes.delCalls == old(codes.delCalls)
  {
    code := GenValidateCode(CodeWidth, draw);
    pool.SendMail(mail, code);
    assert [(mail, code)][..0] == [];
    var e := SetLoginCode(codes, mail, code, tokenExpires, setFault);
    if e.Some? {
      return Some(Wrapped(LoginSendMailPrefix, e.value, "")), code;
    }
    return None, code;
  }

  // ---- sendSigninMail ----

  /** EmailExpires of internal/pkg/middlewares/jwt.go: 30, read as minutes
      for the login code and as seconds for the throttle entry. */
  const EmailExpires := 30
  const TokenExpiresSeconds := EmailExpires * 60
  const ThrottleSeconds := EmailExpires

  const BadEmailMsg := " Email format is incorrect"
  const TooManyMsg := " Too many retry attempts, please wait"
  const SentPrefix := "email send successfully to "

  /** The handler's state: the in-memory throttle storage, the mail pool and
      the login-code store. */
  class SigninMailer {
    /** Address -> lifetime in seconds of its "ok" entry. */
    var throttle: map<string, int>
    const pool: MailPool
    const codes: LoginCodeStore

    ghost predicate Valid()
      reads this, pool
    {
      pool.Valid() && |pool.clients| > 0
    }

    constructor (pool: MailPool, codes: LoginCodeStore)
      requires pool.Valid() && |pool.clients| > 0
      ensures Valid() && this.pool == pool && this.codes == codes && throttle == map[]
    {
      this.pool := pool;
      this.codes := codes;
      throttle := map[];
    }

    /** sendSigninMail: `body` is the form's address, or the body parser's
        message, which gets 400. A malformed address gets 400 and a throttled
        one a polite refusal; none of these sends anything. Otherwise the mail
        goes out, and only when the code was also stored is the address
        throttled for 30 seconds. */
    method SendSigninMail(body: Result<string, string>, draw: nat -> nat, setFault: Option<Error>)
      returns (r: HttpReply<string>)
      requires Valid() && forall i :: draw(i) < 10
      modifies this, pool, codes
      ensures Valid()
      ensures body.Err? ==>
        r == HttpReply(StatusBadRequest, MakeResponseWithMsg(body.error))
        && unchanged(this) && unchanged(pool) && unchanged(codes)
      ensures body.Ok? && !IsValidEmail(body.value) ==>
        r == HttpReply(StatusBadRequest, MakeErrResponse(Text(BadEmailMsg)))
        && unchanged(this) && unchanged(pool) && unchanged(codes)
      ensures body.Ok? && IsValidEmail(body.value) && body.value in old(throttle) ==>
        r == HttpReply(StatusOK, MakeErrResponse(Text(TooManyMsg)))
        && unchanged(this) && unchanged(pool) && unchanged(codes)
      ensures body.Ok? && IsValidEmail(body.value) && body.value !in old(throttle) ==>
        var mail := body.value;
        pool.index == old(pool.index) + 1 && pool.clients == old(pool.clients)
        && |pool.dispatched| == |old(pool.dispatched)| + 1
        && var sent := pool.dispatched[|pool.dispatched| - 1];
           sent.client == old(pool.index) % |pool.clients| && sent.msg.to == mail
           && |sent.msg.code| == CodeWidth && IsDigits(sent.msg.code)
           && (setFault.None? ==>
                 r == HttpReply(StatusOK, Body("0", "", Some(SentPrefix + mail)))
                 && codes.entries == old(codes.entries)[mail := Entry(sent.msg.code, TokenExpiresSeconds)]
                 && throttle == old(throttle)[mail := ThrottleSeconds])
           && (setFault.Some? ==>
                 r.status == StatusInternalServerError && throttle == old(throttle)
                 && codes.entries == old(codes.entries)
                 && r.body == MakeErrResponse(Wrapped(LoginSendMailPrefix,
                      Wrap(ErrInternalError, Wrapped(SetCodePrefix, setFault.value, "")), "")))
    {
      if body.Err? {
        return HttpReply(StatusBadRequest, MakeResponseWithMsg(body.error));
      }
      var mail := body.value;
      if !IsValidEmail(mail) {
        return HttpReply(StatusBadRequest, MakeErrResponse(Text(BadEmailMsg)));
      }
      if mail in throttle {
        return HttpReply(StatusOK, MakeErrResponse(Text(TooManyMsg)));
      }
      var err, code := LoginSendMail(pool, codes, mail, TokenExpiresSeconds, draw, setFault);
      if err.Some? {
        return HttpReply(StatusInternalServerError, MakeErrResponse(err.value));
      }
      throttle := throttle[mail := ThrottleSeconds];
      var resp := new Response(MakeResponse(SentPrefix + mail));
      var same := resp.SetCode("0");
      return HttpReply(StatusOK, same.body);
    }
  }

  /** A store failure during sign-in reaches the client as the internal-error code. */
  lemma SigninStoreFailureEnvelope(fault: Error)
    ensures MakeErrResponse(Wrapped(LoginSendMailPrefix, Wrap(ErrInternalError, Wrapped(SetCodePrefix, fault, "")), "")).code
         == IntToString(InternalError as int)
  {
    FoundThroughWrappers(Wrap(ErrInternalError, Wrapped(SetCodePrefix, fault, "")), LoginSendMailPrefix, "");
  }

  // ---- activity and savePointsAddr ----

  const NotAuthMsg := "not auth"
  const ActivityPrefix := "Activity: post activity err: "
  const SavePointsAddrPrefix := "SavePointsAddr: save addr err: "

  /** The account service's Activity: the limit check first, then the post,
      whose failure is wrapped. `statusFunc` is the address the limit
      check's bad-status text prints. */
  function ActivityService(limitReply: Reply<bool>, postReply: Reply<string>, activityCode: int, statusFunc: int)
    : (r: Option<Error>)
    ensures QueryActivityLimitResult(limitReply, activityCode, statusFunc).Some? ==> r == QueryActivityLimitResult(limitReply, activityCode, statusFunc)
    ensures QueryActivityLimitResult(limitReply, activityCode, statusFunc).None? ==>
      (r.None? <==> PostActivityResult(postReply, activityCode).None?)
      && (r.Some? ==> r == Some(Wrapped(ActivityPrefix, PostActivityResult(postReply, activityCode).value, " ")))
  {
    var limited := QueryActivityLimitResult(limitReply, activityCode, statusFunc);
    if limited.Some? then limited
    else match PostActivityResult(postReply, activityCode)
      case None => None
      case Some(e) => Some(Wrapped(ActivityPrefix, e, " "))
  }

  /** What a handler that checks the owner produced, and whether it called the service. */
  datatype Handled = Handled(reply: HttpReply<string>, serviceCalled: bool)

  /** activity: `pathAccount` is the parsed path account, or the body or
      params parser's message, which gets 500. The path account must be the
      token's account; then the service's error, if any, becomes a 500 error
      envelope. */
  function ActivityHandler(pathAccount: Result<string, string>, tokenAccount: string, serviceErr: Option<Error>)
    : (h: Handled)
    ensures h.serviceCalled <==> pathAccount == Ok(tokenAccount)
    ensures pathAccount.Err? ==> h.reply == HttpReply(StatusInternalServerError, MakeResponseWithMsg(pathAccount.error))
    ensures pathAccount.Ok? && !h.serviceCalled ==> h.reply == HttpReply(StatusInternalServerError, MakeResponseWithMsg(NotAuthMsg))
    ensures h.serviceCalled && serviceErr.None? ==> h.reply == HttpReply(StatusOK, MakeResponse("ok"))
    ensures h.serviceCalled && serviceErr.Some? ==>
      h.reply == HttpReply(StatusInternalServerError, MakeErrResponse(serviceErr.value))
  {
    if pathAccount.Err? then Handled(HttpReply(StatusInternalServerError, MakeResponseWithMsg(pathAccount.error)), false)
    else if pathAccount.value != tokenAccount then
      Handled(HttpReply(StatusInternalServerError, MakeResponseWithMsg(NotAuthMsg)), false)
    else match serviceErr
      case None => Handled(HttpReply(StatusOK, MakeResponse("ok")), true)
      case Some(e) => Handled(HttpReply(StatusInternalServerError, MakeErrResponse(e)), true)
  }

  /** savePointsAddr: the same parse failures and owner check; a service
      failure is reported as a bare message. */
  function SavePointsAddrHandler(pathAccount: Result<string, string>, tokenAccount: string, serviceErr: Option<Error>)
    : (h: Handled)
    ensures h.serviceCalled <==> pathAccount == Ok(tokenAccount)
    ensures pathAccount.Err? ==> h.reply == HttpReply(StatusInternalServerError, MakeResponseWithMsg(pathAccount.error))
    ensures pathAccount.Ok? && !h.serviceCalled ==> h.reply == HttpReply(StatusInternalServerError, MakeResponseWithMsg(NotAuthMsg))
    ensures h.serviceCalled && serviceErr.None? ==> h.reply == HttpReply(StatusOK, MakeResponse("ok"))
    ensures h.serviceCalled && serviceErr.Some? ==>
      h.reply == HttpReply(StatusInternalServerError,
                           MakeResponseWithMsg(ErrorString(Wrapped(SavePointsAddrPrefix, serviceErr.value, " "))))
  {
    if pathAccount.Err? then Handled(HttpReply(StatusInternalServerError, MakeResponseWithMsg(pathAccount.error)), false)
    else if pathAccount.value != tokenAccount then
      Handled(HttpReply(StatusInternalServerError, MakeResponseWithMsg(NotAuthMsg)), false)
    else match serviceErr
      case None => Handled(HttpReply(StatusOK, MakeResponse("ok")), true)
      case Some(e) =>
        Handled(HttpReply(StatusInternalServerError, MakeResponseWithMsg(ErrorString(Wrapped(SavePointsAddrPrefix, e, " ")))), true)
  }

  /** A chat over its daily limit reaches the client as envelope code "100"
      with the chat message, whichever of the two service calls reported it. */
  lemma ChatLimitReachesClient(account: string, limitReply: Reply<bool>, postReply: Reply<string>, statusFunc: int)
    requires (Succeeded(limitReply) && limitReply.data)
          || (Succeeded(limitReply) && !limitReply.data && postReply.Decoded? && postReply.code == LimitCode)
    ensures var h := ActivityHandler(Ok(account), account, ActivityService(limitReply, postReply, Chat, statusFunc));
      h.reply.status == StatusInternalServerError && h.reply.body.code == LimitCode
      && h.reply.body.msg == ChatLimitMsg
  {
    LimitErrorEnvelope(Chat);
    if !(Succeeded(limitReply) && limitReply.data) {
      FoundThroughWrappers(ParseActivityCodeToErr(Chat), ActivityPrefix, " ");
    }
  }

  // ---- auth ----

  /** The fields of account.AccountRequest that auth fills in. */
  datatype AccountRequest = AccountRequest(accountID: string, email: string, name: string,
                                           provider: string, avatarURL: string, claimPoints: string)

  const BlockchainProvider := "Blockchain"

  /** auth registers the body's id with the "Blockchain" provider and nothing else. */
  function AuthRequestFor(id: string): (r: AccountRequest)
    ensures r.accountID == id && r.provider == BlockchainProvider
    ensures r.email == "" && r.name == "" && r.avatarURL == "" && r.claimPoints == ""
  {
    AccountRequest(id, "", "", BlockchainProvider, "", "")
  }
}
