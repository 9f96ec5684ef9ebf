/** The chat completion client: one attempt, and the bounded retry loop around it. */
module OpenRouter {
  import opened Common

  datatype ErrorType = MissingApiKey | InvalidPayload | Timeout | Network | Http | InvalidJson | MissingContent

  datatype Failure = Failure(errorType: ErrorType, status: int, retryable: bool)

  datatype Attempt = Content(text: string) | Failed(failure: Failure)

  // ----- one attempt

  datatype Json =
    | JNull
    | JNumber(int)
    | JString(text: string)
    | JArray(items: seq<Json>)
    | JObject(fields: map<string, Json>)

  /** What fetch does: it is aborted, it fails otherwise, or it answers with a status and perhaps a JSON body. */
  datatype Exchange = Aborted | Broken | Response(status: int, body: Option<Json>)

  predicate IsOk(status: int) {
    200 <= status <= 299
  }

  function Field(j: Json, name: string): Option<Json> {
    if j.JObject? && name in j.fields then Some(j.fields[name]) else None
  }

  /** choices[0].message.content, when each of them has the expected shape. */
  function ExtractContent(raw: Json): Option<string> {
    match Field(raw, "choices")
    case Some(JArray(items)) =>
      if items == [] then None
      else (match Field(items[0], "message")
            case Some(message) =>
              (match Field(message, "content")
               case Some(JString(text)) => Some(text)
               case _ => None)
            case None => None)
    case _ => None
  }

  function AttemptOf(e: Exchange): Attempt {
    match e
    case Aborted => Failed(Failure(Timeout, 0, true))
    case Broken => Failed(Failure(Network, 0, true))
    case Response(status, body) =>
      if !IsOk(status) then Failed(Failure(Http, status, status == 429 || status >= 500))
      else match body
        case None => Failed(Failure(InvalidJson, 0, false))
        case Some(raw) =>
          match ExtractContent(raw)
          case None => Failed(Failure(MissingContent, 0, false))
          case Some(text) => Content(text)
  }

  /** The outcomes after which another attempt may follow: an abort, a network error, 429 or a server error. */
  predicate TriedAgain(e: Exchange) {
    e == Aborted || e == Broken || (e.Response? && (e.status == 429 || e.status >= 500))
  }

  lemma WhatIsRetried(e: Exchange)
    ensures AttemptOf(e).Failed? && AttemptOf(e).failure.retryable <==> TriedAgain(e)
  {
  }

  /** The server answered 2xx with a JSON object whose choices[0].message.content is this string. */
  predicate Delivers(e: Exchange, text: string) {
    && e.Response? && 200 <= e.status <= 299 && e.body.Some? && e.body.value.JObject?
    && "choices" in e.body.value.fields && e.body.value.fields["choices"].JArray?
    && e.body.value.fields["choices"].items != []
    && var choice := e.body.value.fields["choices"].items[0];
       && choice.JObject? && "message" in choice.fields && choice.fields["message"].JObject?
       && "content" in choice.fields["message"].fields
       && choice.fields["message"].fields["content"] == JString(text)
  }

  /** Which exchange is reported as which error; only an HTTP error carries the status. */
  ghost predicate FailsAs(e: Exchange, t: ErrorType, status: int) {
    match t
    case Timeout => e == Aborted && status == 0
    case Network => e == Broken && status == 0
    case Http => e.Response? && e.status == status && (status < 200 || status > 299)
    case InvalidJson => e.Response? && 200 <= e.status <= 299 && e.body.None? && status == 0
    case MissingContent =>
      e.Response? && 200 <= e.status <= 299 && e.body.Some? && status == 0 && forall text :: !Delivers(e, text)
    case MissingApiKey => false
    case InvalidPayload => false
  }

  /** An attempt yields what the server delivered, or the error that fits the exchange. */
  lemma WhatAnAttemptYields(e: Exchange)
    ensures match AttemptOf(e)
            case Content(text) => Delivers(e, text)
            case Failed(f) => FailsAs(e, f.errorType, f.status)
  {
  }

  // ----- the retry loop

  datatype Message = Message(role: string, content: string)

  /** What String.prototype.trim removes: the white space and line terminators of ECMAScript. */
  predicate IsSpace(c: char) {
    c in {'\t', '\U{B}', '\U{C}', ' ', '\U{A0}', '\U{1680}', '\U{202F}', '\U{205F}', '\U{3000}', '\U{FEFF}'}
    || '\U{2000}' <= c <= '\U{200A}'
    || c in {'\n', '\r', '\U{2028}', '\U{2029}'}
  }

  function TrimStart(s: string): string {
    if s != "" && IsSpace(s[0]) then TrimStart(s[1..]) else s
  }

  function TrimEnd(s: string): string {
    if s != "" && IsSpace(s[|s| - 1]) then TrimEnd(s[..|s| - 1]) else s
  }

  function Trim(s: string): string {
    TrimEnd(TrimStart(s))
  }

  predicate HasVisible(s: string) {
    exists i :: 0 <= i < |s| && !IsSpace(s[i])
  }

  lemma {:induction false} TrimStartKeeps(s: string)
    ensures TrimStart(s) == "" || !IsSpace(TrimStart(s)[0])
    ensures HasVisible(s) <==> TrimStart(s) != ""
  {
    if s != "" && IsSpace(s[0]) {
      TrimStartKeeps(s[1..]);
      assert forall i :: 0 < i < |s| ==> s[i] == s[1..][i - 1];
    }
  }

  lemma {:induction false} TrimEndKeeps(s: string)
    requires s != "" && !IsSpace(s[0])
    ensures TrimEnd(s) != ""
  {
    if IsSpace(s[|s| - 1]) {
      TrimEndKeeps(s[..|s| - 1]);
    }
  }

  /** Nothing is left after trimming exactly when every character is white space. */
  lemma TrimIsEmptyIffBlank(s: string)
    ensures Trim(s) == "" <==> !HasVisible(s)
  {
    TrimStartKeeps(s);
    if TrimStart(s) != "" {
      TrimEndKeeps(TrimStart(s));
    }
  }

  predicate KnownRole(role: string) {
    role == "system" || role == "user" || role == "assistant"
  }

  datatype Completion = Completed(text: string) | Fallback(errorType: ErrorType, status: int)

  predicate ValidPayload(messages: seq<Message>) {
    messages != []
    && forall i :: 0 <= i < |messages| ==> KnownRole(messages[i].role) && HasVisible(messages[i].content)
  }

  const RETRY_DELAYS_MS := [250, 500]

  /** The sleep before attempt `i`: its own entry of the table, or the last one. */
  function Delay(i: nat): (ms: nat)
    requires i >= 1
    ensures ms == if i == 1 then 250 else 500
  {
    if i - 1 < |RETRY_DELAYS_MS| then RETRY_DELAYS_MS[i - 1] else RETRY_DELAYS_MS[|RETRY_DELAYS_MS| - 1]
  }

  /** The attempt after which the loop ends: the first that is not tried again, or the last that is allowed. */
  ghost predicate IsLast(exchanges: nat -> Exchange, maxRetries: nat, last: nat) {
    && last <= maxRetries
    && (forall i: nat :: i < last ==> TriedAgain(exchanges(i)))
    && (last == maxRetries || !TriedAgain(exchanges(last)))
  }

  lemma LastIsUnique(exchanges: nat -> Exchange, maxRetries: nat, a: nat, b: nat)
    requires IsLast(exchanges, maxRetries, a) && IsLast(exchanges, maxRetries, b)
    ensures a == b
  {
  }

  function ResultOf(a: Attempt): Completion {
    match a case Content(text) => Completed(text) case Failed(f) => Fallback(f.errorType, f.status)
  }

  function Total(sleeps: seq<nat>): nat {
    if sleeps == [] then 0 else Total(sleeps[..|sleeps| - 1]) + sleeps[|sleeps| - 1]
  }

  /** The sleeps before attempts 1, 2, ... of one call. */
  ghost predicate Delays(sleeps: seq<nat>) {
    forall i :: 0 <= i < |sleeps| ==> sleeps[i] == Delay(i + 1)
  }

  lemma {:induction false} DelaysAddUp(sleeps: seq<nat>)
    requires Delays(sleeps)
    ensures Total(sleeps) == if sleeps == [] then 0 else 500 * |sleeps| - 250
  {
    if sleeps != [] {
      DelaysAddUp(sleeps[..|sleeps| - 1]);
      assert sleeps[|sleeps| - 1] == Delay(|sleeps|);
    }
  }

  /** `exchanges(i)` is what attempt `i` would meet; `sleeps` lists the waits in order. */
  method CreateChatCompletion(
      messages: seq<Message>, hasApiKey: bool, maxRetries: nat, exchanges: nat -> Exchange)
    returns (result: Completion, attempts: nat, sleeps: seq<nat>)
    ensures !ValidPayload(messages) ==> result == Fallback(InvalidPayload, 0) && attempts == 0 && sleeps == []
    ensures ValidPayload(messages) && !hasApiKey ==>
              result == Fallback(MissingApiKey, 0) && attempts == 0 && sleeps == []
    ensures ValidPayload(messages) && hasApiKey ==>
              && 1 <= attempts <= maxRetries + 1
              && IsLast(exchanges, maxRetries, attempts - 1)
              && result == ResultOf(AttemptOf(exchanges(attempts - 1)))
              && (match result
                  case Completed(text) => Delivers(exchanges(attempts - 1), text)
                  case Fallback(t, status) => FailsAs(exchanges(attempts - 1), t, status))
              && |sleeps| == attempts - 1
    ensures Delays(sleeps)
    ensures Total(sleeps) <= 500 * maxRetries
  {
    hide Total, Delay, ValidPayload, AttemptOf, TriedAgain, Delivers, FailsAs;
    sleeps, attempts := [], 0;
    DelaysAddUp([]);
    var valid := ValidatePayload(messages);
    if !valid {
      return Fallback(InvalidPayload, 0), 0, [];
    }
    if !hasApiKey {
      return Fallback(MissingApiKey, 0), 0, [];
    }
    var lastFailure: Option<Failure> := None;
    while attempts < maxRetries + 1
      invariant attempts <= maxRetries + 1
      invariant forall i: nat :: i < attempts ==> TriedAgain(exchanges(i))
      invariant attempts > 0 ==> lastFailure.Some? && AttemptOf(exchanges(attempts - 1)) == Failed(lastFailure.value)
      invariant |sleeps| == if attempts == 0 then 0 else attempts - 1
      invariant Delays(sleeps)
    {
      if attempts > 0 {
        sleeps := sleeps + [Delay(attempts)];
      }
      var outcome := AttemptOf(exchanges(attempts));
      WhatIsRetried(exchanges(attempts));
      WhatAnAttemptYields(exchanges(attempts));
      attempts := attempts + 1;
      if outcome.Content? {
        DelaysAddUp(sleeps);
        return Completed(outcome.text), attempts, sleeps;
      }
      lastFailure := Some(outcome.failure);
      if !outcome.failure.retryable {
        break;
      }
    }
    WhatAnAttemptYields(exchanges(attempts - 1));
    DelaysAddUp(sleeps);
    result := Fallback(lastFailure.value.errorType, lastFailure.value.status);
  }

  method ValidatePayload(messages: seq<Message>) returns (valid: bool)
    ensures valid <==> ValidPayload(messages)
    ensures valid <==> messages != [] && forall m :: m in messages ==>
              (m.role == "system" || m.role == "user" || m.role == "assistant")
              && exists i :: 0 <= i < |m.content| && !IsSpace(m.content[i])
  {
    assert forall m :: m in messages ==> exists i :: 0 <= i < |messages| && messages[i] == m;
    hide Trim;
    if messages == [] {
      return false;
    }
    for i := 0 to |messages|
      invariant forall j :: 0 <= j < i ==> KnownRole(messages[j].role) && HasVisible(messages[j].content)
    {
      var message := messages[i];
      TrimIsEmptyIffBlank(message.content);
      if (message.role != "system" && message.role != "user" && message.role != "assistant")
         || Trim(message.content) == ""
      {
        return false;
      }
    }
    return true;
  }
}
