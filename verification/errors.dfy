/** The client's errors (src/error.rs).

    `Error` is a closed sum: `ApiError` for failures the client raises itself, `ClientError` for
    whatever the underlying `json_api_client` reports. `ErrorKind` has one variant,
    `ScopeNotEnabled`, carrying the scope that was missing. Both variants of `Error` are
    `#[error(transparent)]`: an `Error` shows the message of what it wraps.
 */
module Errors {
  import opened Wrappers
  import opened Json
  import Scopes

  datatype ErrorKind = ScopeNotEnabled(scope: Scopes.Scope)

  /** A failure of `json_api_client`. That library is not part of this model: a failure is either
      one it reports with its own message, or a response body that does not deserialize into the
      expected response type, kept as the body that was received. */
  datatype ClientFailure =
    | Failed(message: string)
    | Undecodable(body: Json)

  datatype Error = ApiError(kind: ErrorKind) | ClientError(cause: ClientFailure)

  const ScopeMessagePrefix: string := "Scope not enabled: '"
  const ScopeMessageSuffix: string := "'"

  /** `#[error("Scope not enabled: '{0}'")]`: the scope is formatted with its `Display`. */
  function KindMessage(k: ErrorKind): (m: string)
    ensures |m| == |ScopeMessagePrefix| + |Scopes.Display(k.scope)| + |ScopeMessageSuffix|
    ensures m[..|ScopeMessagePrefix|] == ScopeMessagePrefix
    ensures m[|m| - |ScopeMessageSuffix|..] == ScopeMessageSuffix
    ensures m[|ScopeMessagePrefix|..|m| - |ScopeMessageSuffix|] == Scopes.Display(k.scope)
  {
    var m := ScopeMessagePrefix + Scopes.Display(k.scope) + ScopeMessageSuffix;
    assert m[..|ScopeMessagePrefix|] == ScopeMessagePrefix;
    assert m[|ScopeMessagePrefix|..|m| - |ScopeMessageSuffix|] == Scopes.Display(k.scope);
    m
  }

  /** The message of an `Error`: transparently that of the wrapped error. The text of a
      deserialization failure is `serde_json`'s and is not modelled. */
  function Message(e: Error): (m: Option<string>)
    ensures e.ApiError? ==> m == Some(KindMessage(e.kind))
    ensures e.ClientError? && e.cause.Failed? ==> m == Some(e.cause.message)
    ensures e.ClientError? && e.cause.Undecodable? ==> m.None?
  {
    match e
    case ApiError(k) => Some(KindMessage(k))
    case ClientError(Failed(message)) => Some(message)
    case ClientError(Undecodable(_)) => None
  }

  /** The scope named by a scope error's message: the partner of `KindMessage`. */
  function ScopeOfMessage(m: string): (r: Option<Scopes.Scope>)
    ensures r.Some? ==> KindMessage(ScopeNotEnabled(r.value)) == m
  {
    if |m| >= |ScopeMessagePrefix| + |ScopeMessageSuffix|
       && m[..|ScopeMessagePrefix|] == ScopeMessagePrefix
       && m[|m| - |ScopeMessageSuffix|..] == ScopeMessageSuffix
    then
      var name := m[|ScopeMessagePrefix|..|m| - |ScopeMessageSuffix|];
      match Scopes.DecodeScope(name)
      case None => None
      case Some(s) =>
        Scopes.DisplayIsWireName(s);
        assert m == ScopeMessagePrefix + name + ScopeMessageSuffix;
        Some(s)
    else None
  }

  /** A scope error's message names the missing scope, and only that one. */
  lemma MessageNamesScope(k: ErrorKind)
    ensures ScopeOfMessage(KindMessage(k)) == Some(k.scope)
  {
    Scopes.DisplayIsWireName(k.scope);
  }

  /** Different missing scopes give different messages. */
  lemma KindMessageInjective(a: ErrorKind, b: ErrorKind)
    ensures KindMessage(a) == KindMessage(b) ==> a == b
  {
    MessageNamesScope(a);
    MessageNamesScope(b);
  }

  /** An `ApiError` shows its kind's message, and that message names the missing scope. */
  lemma ApiErrorMessageNamesScope(e: Error)
    requires e.ApiError?
    ensures Message(e).Some? && ScopeOfMessage(Message(e).value) == Some(e.kind.scope)
  {
    MessageNamesScope(e.kind);
  }

  /** For example, a missing identity scope reads "Scope not enabled: 'identity'". */
  lemma IdentityScopeMessage()
    ensures KindMessage(ScopeNotEnabled(Scopes.Identity)) == "Scope not enabled: 'identity'"
  {
  }
}
