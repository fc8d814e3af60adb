/** FiberGothAdapter of internal/pkg/util/goth.go: which OAuth provider a
    login URL names. */
module Goth {
  import opened Wrappers
  import opened Strs

  /** The part of an http.Request the adapter reads and writes: its URL path
      and the "provider" value of its context. */
  datatype Request = Request(path: string, provider: Option<string>)

  /** The position of the first segment equal to "auth". */
  function FirstAuth(parts: seq<string>): (r: Option<nat>)
    ensures r.Some? ==> r.value < |parts| && parts[r.value] == "auth"
                        && forall j :: 0 <= j < r.value ==> parts[j] != "auth"
    ensures r.None? ==> forall j :: 0 <= j < |parts| ==> parts[j] != "auth"
  {
    if |parts| == 0 then None
    else if parts[0] == "auth" then Some(0)
    else match FirstAuth(parts[1..])
      case None => None
      case Some(k) => Some(k + 1)
  }

  /** The segment the adapter reads: after the first "auth", or segment 0
      when there is none. A last segment "auth" would be read past the end,
      which the precondition rules out. */
  predicate InRange(path: string) {
    var parts := Split(path, '/');
    FirstAuth(parts).None? || FirstAuth(parts).value + 1 < |parts|
  }

  method FiberGothAdapter(req: Request, registered: set<string>) returns (out: Request, provider: string)
    requires InRange(req.path)
    ensures var parts := Split(req.path, '/');
      provider == (if FirstAuth(parts).Some? then parts[FirstAuth(parts).value + 1] else parts[0])
    ensures out == if provider in registered then req.(provider := Some(provider)) else req
  {
    var pathParts := Split(req.path, '/');
    var index := 0;
    var i := 0;
    while i < |pathParts|
      invariant 0 <= i <= |pathParts|
      invariant forall j :: 0 <= j < i ==> pathParts[j] != "auth"
      invariant index == 0
    {
      if pathParts[i] == "auth" {
        index := i + 1;
        break;
      }
      i := i + 1;
    }
    provider := pathParts[index];
    out := req;
    if provider in registered {
      out := req.(provider := Some(provider));
    }
  }

  /** An absolute path without an "auth" segment names the provider "". */
  lemma NoAuthSegment(path: string)
    requires |path| > 0 && path[0] == '/'
    requires FirstAuth(Split(path, '/')).None?
    ensures Split(path, '/')[0] == ""
  {
  }
}
