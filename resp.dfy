/** The JSON envelope every HTTP handler answers with (internal/pkg/util/resp.go):
    a code, a message and a payload. */
module Resp {
  import opened Wrappers
  import opened Strs
  import opened BizErr

  /** What a Response serialises to: `code`, `msg`, `data` (None is JSON null). */
  datatype Body<+D> = Body(code: string, msg: string, data: Option<D>) {
    /** The same envelope with another code. */
    function WithCode(c: string): (r: Body<D>)
      ensures r.code == c && r.msg == msg && r.data == data
    {
      Body(c, msg, data)
    }
  }

  /** MakeResponse: the success envelope, code "0" and an empty message. */
  function MakeResponse<D>(data: D): (r: Body<D>)
    ensures r.code == "0" && r.msg == "" && r.data == Some(data)
  {
    Body("0", "", Some(data))
  }

  /** MakeErrResponse: when the unwrap chain holds a business error, its code
      in decimal, its message and its full error text; otherwise code "-1",
      the error text as message and no payload. */
  function MakeErrResponse(err: Error): (r: Body<string>)
    ensures r.data.Some? <==> ErrorToBizError(err).Some?
    ensures ErrorToBizError(err).Some? ==>
      var b := ErrorToBizError(err).value;
      r.msg == b.msg && r.data == Some(ErrorString(b))
      && |r.code| >= 1 && IsDigits(if r.code[0] == '-' then r.code[1..] else r.code)
      && ParseInt(r.code) == b.code as int
    ensures ErrorToBizError(err).None? ==> r.code == "-1" && r.msg == ErrorString(err)
  {
    match ErrorToBizError(err)
    case Some(b) =>
      IntToStringRoundTrip(b.code as int);
      Body(IntToString(b.code as int), b.msg, Some(ErrorString(b)))
    case None => Body("-1", ErrorString(err), None)
  }

  /** MakeResponseWithMsg: empty code, the message, no payload. */
  function MakeResponseWithMsg<D>(msg: string): (r: Body<D>)
    ensures r.code == "" && r.msg == msg && r.data.None?
  {
    Body("", msg, None)
  }

  /** What a handler answers: an HTTP status and the JSON envelope. */
  datatype HttpReply<+D> = HttpReply(status: int, body: Body<D>)

  const StatusOK := 200
  const StatusBadRequest := 400
  const StatusInternalServerError := 500

  /** A *Response value, shared by reference: SetCode changes its code in place and returns it. */
  class Response<D> {
    var body: Body<D>

    constructor (b: Body<D>)
      ensures body == b
    {
      body := b;
    }

    method SetCode(code: string) returns (r: Response<D>)
      modifies this
      ensures r == this
      ensures body == old(body).WithCode(code)
    {
      body := body.WithCode(code);
      r := this;
    }
  }

  /** A business error's envelope carries the code of the outermost business
      error, however deeply it is wrapped in plain wrappers. */
  lemma {:induction false} ErrResponseOfWrappedBiz(b: BizError, prefix: string, suffix: string)
    ensures MakeErrResponse(Wrapped(prefix, b, suffix)) == MakeErrResponse(b)
    ensures MakeErrResponse(Wrap(ErrInternalError, b)).msg == ErrInternalError.msg
  {
    FoundThroughWrappers(b, prefix, suffix);
  }

  /** A plain error never yields a decimal business code: its envelope is code "-1". */
  lemma PlainErrorResponse(t: string)
    ensures MakeErrResponse(Text(t)) == Body("-1", t, None)
  {
  }
}
