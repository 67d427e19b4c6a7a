/** The error predicates of pkg/ovh/errors.go. */
module Errors {
  import opened Sequences

  /** An API error with its HTTP status, any other error text, or either one wrapped in a context. */
  datatype Error =
    | Api(code: int, message: string)
    | Text(message: string)
    | Wrap(context: string, cause: Error)

  datatype Result<+T> = Ok(value: T) | Err(error: Error)

  function Render(e: Error): string {
    match e
    case Api(_, message) => message
    case Text(message) => message
    case Wrap(context, cause) => context + Render(cause)
  }

  /** The API status found by unwrapping, if the chain ends in an API error. */
  function ApiCode(e: Error): Option<int> {
    match e
    case Api(code, _) => Some(code)
    case Text(_) => None
    case Wrap(_, cause) => ApiCode(cause)
  }

  predicate Contains(s: string, sub: string) {
    sub <= s || (s != [] && Contains(s[1..], sub))
  }

  predicate IsNotFound(e: Error) {
    match ApiCode(e)
    case Some(code) => code == 404
    case None => Contains(Render(e), "404") || Contains(Render(e), "not found")
  }

  predicate IsConflict(e: Error) {
    ApiCode(e) == Some(409)
  }

  predicate IsForbidden(e: Error) {
    ApiCode(e) == Some(403)
  }

  predicate IsUnauthorized(e: Error) {
    ApiCode(e) == Some(401)
  }

  predicate IsAlreadyDeleting(e: Error) {
    IsConflict(e) && (Contains(Render(e), "PENDING_DELETE") || Contains(Render(e), "PENDING_UPDATE"))
  }

  predicate IsRetryable(e: Error) {
    match ApiCode(e)
    case Some(code) => code in {429, 500, 502, 503, 504}
    case None =>
      || Contains(Render(e), "connection refused")
      || Contains(Render(e), "connection reset")
      || Contains(Render(e), "timeout")
      || Contains(Render(e), "temporary failure")
  }

  // ----- what the predicates mean

  predicate At(s: string, i: nat, sub: string) {
    i <= |s| && sub <= s[i..]
  }

  /** A text contains another exactly if that begins somewhere in it. */
  lemma {:induction false} ContainsMeans(s: string, sub: string)
    ensures Contains(s, sub) <==> exists i: nat :: At(s, i, sub)
  {
    if sub <= s {
      assert s[0..] == s;
      assert At(s, 0, sub);
    } else if s == [] {
      assert forall i: nat :: At(s, i, sub) ==> s[i..] == s;
    } else {
      ContainsMeans(s[1..], sub);
      forall i: nat ensures At(s, i + 1, sub) <==> At(s[1..], i, sub) {
        if i < |s| { assert s[i + 1..] == s[1..][i..]; }
      }
      if i: nat :| At(s, i, sub) {
        assert s[0..] == s;
        assert At(s[1..], i - 1, sub);
      }
      if i: nat :| At(s[1..], i, sub) {
        assert At(s, i + 1, sub);
      }
    }
  }

  /** An error in a chain of contexts, the outermost first. */
  function WrapAll(contexts: seq<string>, e: Error): Error {
    if contexts == [] then e else Wrap(contexts[0], WrapAll(contexts[1..], e))
  }

  function Prefix(contexts: seq<string>): string {
    if contexts == [] then "" else contexts[0] + Prefix(contexts[1..])
  }

  lemma {:induction false} WrapAllShape(contexts: seq<string>, e: Error)
    ensures ApiCode(WrapAll(contexts, e)) == ApiCode(e)
    ensures Render(WrapAll(contexts, e)) == Prefix(contexts) + Render(e)
  {
    if contexts == [] {
      assert Prefix(contexts) + Render(e) == Render(e);
    } else {
      WrapAllShape(contexts[1..], e);
      assert contexts[0] + (Prefix(contexts[1..]) + Render(e)) == Prefix(contexts) + Render(e);
    }
  }

  /** In whatever chain of contexts, an API error is judged by its status, and a conflict also by the whole text. */
  lemma VerdictsByCode(contexts: seq<string>, code: int, message: string)
    ensures var e := WrapAll(contexts, Api(code, message));
            && (IsNotFound(e) <==> code == 404)
            && (IsConflict(e) <==> code == 409)
            && (IsForbidden(e) <==> code == 403)
            && (IsUnauthorized(e) <==> code == 401)
            && (IsRetryable(e) <==> code == 429 || code == 500 || code == 502 || code == 503 || code == 504)
            && (IsAlreadyDeleting(e) <==>
                code == 409 && (Contains(Prefix(contexts) + message, "PENDING_DELETE")
                                || Contains(Prefix(contexts) + message, "PENDING_UPDATE")))
  {
    WrapAllShape(contexts, Api(code, message));
  }

  /** Any other error is judged by its whole text. */
  lemma VerdictsByText(contexts: seq<string>, message: string)
    ensures var e := WrapAll(contexts, Text(message));
            var text := Prefix(contexts) + message;
            && (IsNotFound(e) <==> Contains(text, "404") || Contains(text, "not found"))
            && !IsConflict(e) && !IsForbidden(e) && !IsUnauthorized(e) && !IsAlreadyDeleting(e)
            && (IsRetryable(e) <==>
                Contains(text, "connection refused") || Contains(text, "connection reset")
                || Contains(text, "timeout") || Contains(text, "temporary failure"))
  {
    WrapAllShape(contexts, Text(message));
  }

  // ----- what wrapping and retrying rely on

  lemma {:induction false} ContainsAfter(context: string, text: string, sub: string)
    requires Contains(text, sub)
    ensures Contains(context + text, sub)
  {
    if context == "" {
      assert context + text == text;
    } else {
      assert (context + text)[1..] == context[1..] + text;
      ContainsAfter(context[1..], text, sub);
    }
  }

  /** Whatever contexts wrap it, an API error is judged by its code; only the text of a conflict can gain a match. */
  lemma WrappingKeepsVerdicts(context: string, e: Error)
    ensures var w := Wrap(context, e);
            && IsConflict(w) == IsConflict(e) && IsForbidden(w) == IsForbidden(e)
                && IsUnauthorized(w) == IsUnauthorized(e)
            && (IsNotFound(e) ==> IsNotFound(w)) && (IsRetryable(e) ==> IsRetryable(w))
            && (IsAlreadyDeleting(e) ==> IsAlreadyDeleting(w))
            && (ApiCode(e).Some? ==> IsNotFound(w) == IsNotFound(e) && IsRetryable(w) == IsRetryable(e))
  {
    forall sub | Contains(Render(e), sub) ensures Contains(context + Render(e), sub) {
      ContainsAfter(context, Render(e), sub);
    }
  }
}
