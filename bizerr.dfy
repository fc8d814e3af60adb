/** The business-error values of internal/pkg/bizerr: a numbered code, a
    message and an optional cause; and the other Go error values the core
    passes around (plain texts and `fmt.Errorf` wrappers), so that the
    unwrap chain `errors.As` walks is part of the model. */
module BizErr {
  import opened Wrappers
  import opened Strs

  /** ErrCode is a Go int32. */
  newtype ErrCode = x: int | -0x8000_0000 <= x < 0x8000_0000

  const AuthenticationFailed: ErrCode := 401
  const BadRequest: ErrCode := 65531
  const InternalError: ErrCode := 65534
  const TimeOut: ErrCode := 65539
  const VerificationCodeFailed: ErrCode := 65540
  const NotExist: ErrCode := 65541
  const PostureNotExist: ErrCode := 65542
  const NotEnoughPoints: ErrCode := 65543
  const NoEntitlement: ErrCode := 65544
  const Limit: ErrCode := 100

  /** A Go error value. */
  datatype Error =
    /** *BizError */
    | Biz(msg: string, code: ErrCode, cause: Option<Error>)
    /** errors.New, or fmt.Errorf without a %w verb */
    | Text(text: string)
    /** fmt.Errorf whose format has one %w verb: text before it, the wrapped error, text after it */
    | Wrapped(prefix: string, inner: Error, suffix: string)

  /** The values that have the *BizError type. */
  type BizError = e: Error | e.Biz? witness Biz("", 0, None)

  /** The Go `Int32` conversion of a code. */
  function Int32(c: ErrCode): (r: int)
    ensures -0x8000_0000 <= r < 0x8000_0000 && r as ErrCode == c
  {
    c as int
  }

  /** NewBizError: a business error with no cause; its text is the
      parenthesised code and the message. */
  function NewBizError(msg: string, code: ErrCode): (e: BizError)
    ensures e.msg == msg && e.code == code && Unwrap(e).None?
    ensures ErrorString(e) == "(" + IntToString(code as int) + ") " + msg
  {
    Biz(msg, code, None)
  }

  const ErrInternalError: BizError := NewBizError("internal bizerr", InternalError)
  const ErrCheckQrResultError: BizError := NewBizError("qr code check bizerr", InternalError)
  const ErrVerificationCodeFailed: BizError := NewBizError("check verification code failed", VerificationCodeFailed)
  const ErrModelNotExist: BizError := NewBizError("model not exists", NotExist)
  const ErrPostureNotExist: BizError := NewBizError("posture not exists", NotExist)
  const ErrClothingNotExist: BizError := NewBizError("clothing not exists", NotExist)
  const ErrAccountNotExist: BizError := NewBizError("internal bizerr", NotExist)
  const ErrCharacterNotExist: BizError := NewBizError("character not exists", NotExist)
  const ErrLimit: BizError := NewBizError("limit err", Limit)
  const ErrNotEnoughPoints: BizError := NewBizError("not enough points", NotEnoughPoints)
  const ErrChunkNotExist: BizError := NewBizError("chunk not exists", NotExist)
  const ErrVoiceNotExist: BizError := NewBizError("voice not exists", NotExist)
  const ErrNoPermissionToModify: BizError := NewBizError("no permission to modify", NoEntitlement)

  /** The text that Go's Error() method gives: a business error's starts
      with its parenthesised code and message, a wrapper's with its prefix. */
  function ErrorString(e: Error): (t: string)
    ensures e.Biz? ==> var head := "(" + IntToString(e.code as int) + ") " + e.msg;
      |head| <= |t| && t[..|head|] == head
    ensures e.Wrapped? ==> |e.prefix| + |e.suffix| <= |t| && t[..|e.prefix|] == e.prefix
                           && t[|t| - |e.suffix|..] == e.suffix
  {
    match e
    case Biz(msg, code, cause) =>
      if cause.Some? then "(" + IntToString(code as int) + ") " + msg + ": " + ErrorString(cause.value)
      else "(" + IntToString(code as int) + ") " + msg
    case Text(t) => t
    case Wrapped(p, inner, s) => p + ErrorString(inner) + s
  }

  /** errors.Unwrap: the cause of a business error, the wrapped error of a
      wrapper; it is the next error on the unwrap chain. */
  function Unwrap(e: Error): (r: Option<Error>)
    ensures r.None? <==> |Chain(e)| == 1
    ensures r.Some? ==> |Chain(e)| >= 2 && Chain(e)[1] == r.value && Chain(e)[1..] == Chain(r.value)
  {
    match e
    case Biz(_, _, cause) => cause
    case Text(_) => None
    case Wrapped(_, inner, _) => Some(inner)
  }

  /** The unwrap chain: `e`, then what it wraps, and so on. */
  function Chain(e: Error): seq<Error> {
    match e
    case Biz(_, _, cause) => if cause.Some? then [e] + Chain(cause.value) else [e]
    case Text(_) => [e]
    case Wrapped(_, inner, _) => [e] + Chain(inner)
  }

  /** The text of every error on the unwrap chain occurs in the outermost
      error's text: Error() never hides a cause. */
  lemma {:induction false} ErrorTextMentionsChain(e: Error, k: nat)
    requires k < |Chain(e)|
    ensures Contains(ErrorString(e), ErrorString(Chain(e)[k]))
    decreases e
  {
    if k == 0 {
      assert Occurs(ErrorString(e), ErrorString(e), 0);
    } else {
      var inner := Unwrap(e).value;
      assert Chain(e)[k] == Chain(inner)[k - 1];
      ErrorTextMentionsChain(inner, k - 1);
      if e.Biz? {
        ContainsInContext(ErrorString(Chain(inner)[k - 1]), ErrorString(inner),
                          "(" + IntToString(e.code as int) + ") " + e.msg + ": ", "");
        assert ErrorString(e) == "(" + IntToString(e.code as int) + ") " + e.msg + ": " + ErrorString(inner) + "";
      } else {
        ContainsInContext(ErrorString(Chain(inner)[k - 1]), ErrorString(inner), e.prefix, e.suffix);
      }
    }
  }

  /** A text contained in `s` is contained in any text around `s`. */
  lemma ContainsInContext(sub: string, s: string, pre: string, post: string)
    requires Contains(s, sub)
    ensures Contains(pre + s + post, sub)
  {
    var i :| Occurs(sub, s, i);
    var t := pre + s + post;
    assert t[|pre| + i..|pre| + i + |sub|] == s[i..i + |sub|];
    assert Occurs(sub, t, |pre| + i);
  }

  /** Wrap: a new business error with the same message and code, caused by `err`. */
  function Wrap(b: BizError, err: Error): (r: BizError)
    ensures r.code == b.code && r.msg == b.msg
    ensures Unwrap(r) == Some(err)
  {
    Biz(b.msg, b.code, Some(err))
  }

  /** Wrapf: as Wrap, with `formatted` (the already formatted text) appended to the message. */
  function Wrapf(b: BizError, err: Error, formatted: string): (r: BizError)
    ensures r.code == b.code && r.msg == b.msg + ": " + formatted
    ensures Unwrap(r) == Some(err)
  {
    Biz(b.msg + ": " + formatted, b.code, Some(err))
  }

  /** Errorf: the business error caused by a new error whose text is `formatted`. */
  function Errorf(b: BizError, formatted: string): (r: BizError)
    ensures r.code == b.code && r.msg == b.msg
    ensures Unwrap(r) == Some(Text(formatted))
  {
    Wrap(b, Text(formatted))
  }

  /** ErrorToBizError (errors.As with a *BizError target): the first business
      error on the unwrap chain of `e`, if there is one. */
  function ErrorToBizError(e: Error): (r: Option<BizError>)
    ensures r.Some? ==> exists k :: 0 <= k < |Chain(e)| && Chain(e)[k] == r.value
                                   && forall j :: 0 <= j < k ==> !Chain(e)[j].Biz?
    ensures r.None? ==> forall k :: 0 <= k < |Chain(e)| ==> !Chain(e)[k].Biz?
  {
    match e
    case Biz(_, _, _) => assert Chain(e)[0] == e; Some(e)
    case Text(_) => None
    case Wrapped(_, inner, _) =>
      var r := ErrorToBizError(inner);
      assert forall k :: 1 <= k < |Chain(e)| ==> Chain(e)[k] == Chain(inner)[k - 1];
      if r.Some? then
        var k :| 0 <= k < |Chain(inner)| && Chain(inner)[k] == r.value
                 && forall j :: 0 <= j < k ==> !Chain(inner)[j].Biz?;
        assert Chain(e)[k + 1] == r.value;
        r
      else r
  }

  /** A business error found through wrappers keeps the code and message it was made with. */
  lemma {:induction false} FoundThroughWrappers(b: BizError, prefix: string, suffix: string)
    ensures ErrorToBizError(Wrapped(prefix, b, suffix)) == Some(b)
    ensures ErrorToBizError(Wrap(ErrInternalError, b)).value.code == InternalError
  {
  }

  /** The error text of a wrapped business error: its own text, a colon, then the cause's text. */
  lemma WrapErrorString(b: BizError, err: Error)
    requires b.cause.None?
    ensures ErrorString(Wrap(b, err)) == ErrorString(b) + ": " + ErrorString(err)
  {
  }

  /** The not-found sentinels share one code; PostureNotExist is not that code. */
  lemma NotFoundSentinelsShareCode()
    ensures ErrModelNotExist.code == ErrPostureNotExist.code == ErrClothingNotExist.code
            == ErrAccountNotExist.code == ErrCharacterNotExist.code == ErrChunkNotExist.code
            == ErrVoiceNotExist.code == NotExist
    ensures ErrPostureNotExist.code != PostureNotExist
    ensures ErrAccountNotExist.msg == ErrInternalError.msg && ErrAccountNotExist.code != ErrInternalError.code
  {
  }
}
