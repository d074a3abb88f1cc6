/** How one API call is fanned out (src/TelegramHandler.php, `process`):
    the endpoint string, the per-recipient request body, the sequence of
    requests issued for a recipient list, and the output collected from the
    responses. The curl subprocess is replaced by an abstract transport that
    logs every request and answers from a response oracle. */
module Delivery {
  import opened Values
  import opened Payload

  const ApiBase: string := "https://api.telegram.org/bot"

  /** `https://api.telegram.org/bot{token}/{method}`, before shell quoting. */
  function Endpoint(token: string, apiMethod: string): string
  {
    ApiBase + token + "/" + apiMethod
  }

  /** One HTTP POST: the endpoint and the JSON body as a map. */
  datatype Request = Request(uri: string, body: map<string, Value>)

  /** PHP array union `left + right`: every key of `left` keeps its value;
      keys only in `right` are added. (Dafny's map `+` lets its right
      operand win, hence the swap.) */
  function Union(left: map<string, Value>, right: map<string, Value>): (u: map<string, Value>)
    ensures u.Keys == left.Keys + right.Keys
    ensures forall k :: k in left ==> u[k] == left[k]
    ensures forall k :: k in right && k !in left ==> u[k] == right[k]
  {
    right + left
  }

  /** The body sent to one recipient: `$params + ['chat_id' => $recipient]`. */
  function WithChatId(params: map<string, Value>, recipient: Value): map<string, Value>
  {
    Union(params, map["chat_id" := recipient])
  }

  /** The requests issued for the recipients, in their order. */
  function Requests(uri: string, params: map<string, Value>, recipients: seq<Value>): seq<Request>
  {
    if recipients == [] then []
    else [Request(uri, WithChatId(params, recipients[0]))] + Requests(uri, params, recipients[1..])
  }

  /** PHP `.=` of a backtick result: a null result (no output) appends "". */
  function Text(response: Option<string>): string
  {
    if response.Some? then response.value else ""
  }

  /** The output accumulated from the responses to requests number
      `start`, ..., `start + n - 1` of the transport's log. */
  function Collected(reply: nat -> Option<string>, start: nat, n: nat): string
  {
    if n == 0 then "" else Collected(reply, start, n - 1) + Text(reply(start + n - 1))
  }

  // ---------------------------------------------------------------------
  // Properties of the endpoint.

  /** If two ways of splitting a string at a slash disagree, the longer
      last segment contains the other split's slash. */
  lemma SlashInLongerSegment(a1: string, n1: string, a2: string, n2: string)
    requires a1 + "/" + n1 == a2 + "/" + n2
    requires |n1| < |n2|
    ensures '/' in n2
  {
    var s := a1 + "/" + n1;
    assert s[|a1|] == '/';
    assert s[|a1|] == n2[|a1| - |a2| - 1];
  }

  /** A string split at its last slash has one prefix and one last
      segment: neither part can differ when the segments hold no slash. */
  lemma {:induction false} LastSegment(a1: string, n1: string, a2: string, n2: string)
    requires a1 + "/" + n1 == a2 + "/" + n2
    requires '/' !in n1 && '/' !in n2
    ensures a1 == a2 && n1 == n2
  {
    var s := a1 + "/" + n1;
    assert |s| == |a1| + 1 + |n1| == |a2| + 1 + |n2|;
    if |n1| < |n2| {
      SlashInLongerSegment(a1, n1, a2, n2);
      assert false;
    } else if |n2| < |n1| {
      SlashInLongerSegment(a2, n2, a1, n1);
      assert false;
    } else {
      assert a1 == s[..|a1|] == a2;
      assert n1 == s[|a1| + 1..] == n2;
    }
  }

  /** The endpoint determines both the token and the API method: two calls
      reach the same URI only with the same token and the same method. */
  lemma EndpointDeterminesTokenAndMethod(t1: string, m1: ApiMethod, t2: string, m2: ApiMethod)
    requires Endpoint(t1, Name(m1)) == Endpoint(t2, Name(m2))
    ensures t1 == t2 && m1 == m2
  {
    NamesDistinctWithoutSlash(m1, m2);
    NamesDistinctWithoutSlash(m2, m1);
    LastSegment(ApiBase + t1, Name(m1), ApiBase + t2, Name(m2));
    assert t1 == (ApiBase + t1)[|ApiBase|..] == (ApiBase + t2)[|ApiBase|..] == t2;
  }

  // ---------------------------------------------------------------------
  // Properties of the fan-out.

  /** Handling one more recipient issues exactly one more request, last. */
  lemma {:induction false} RequestsAppend(uri: string, params: map<string, Value>, recipients: seq<Value>, r: Value)
    ensures Requests(uri, params, recipients + [r])
         == Requests(uri, params, recipients) + [Request(uri, WithChatId(params, r))]
  {
    if recipients == [] {
      assert recipients + [r] == [r];
    } else {
      assert (recipients + [r])[1..] == recipients[1..] + [r];
      RequestsAppend(uri, params, recipients[1..], r);
    }
  }

  /** The loop of `process` after handling recipient i: a log holding the
      requests of the recipients before i, followed by the request for i,
      holds the requests of the prefix up to and including i. */
  lemma RequestsPrefixStep(log: seq<Request>, before: seq<Request>, uri: string,
                           params: map<string, Value>, recipients: seq<Value>, i: nat)
    requires i < |recipients|
    requires log == before + Requests(uri, params, recipients[..i])
    ensures log + [Request(uri, WithChatId(params, recipients[i]))]
         == before + Requests(uri, params, recipients[..i + 1])
  {
    assert recipients[..i + 1] == recipients[..i] + [recipients[i]];
    RequestsAppend(uri, params, recipients[..i], recipients[i]);
  }

  /** The same step for the wait flags: one more post in the same mode
      extends the run of equal flags by one. */
  lemma FlagsStep(flags: seq<bool>, before: seq<bool>, i: nat, wait: bool)
    requires flags == before + seq(i, _ => wait)
    ensures flags + [wait] == before + seq(i + 1, _ => wait)
  {
    assert seq(i + 1, _ => wait) == seq(i, _ => wait) + [wait];
  }

  /** One request per recipient, the i-th addressed to the i-th recipient. */
  lemma {:induction false} RequestsAt(uri: string, params: map<string, Value>, recipients: seq<Value>)
    ensures |Requests(uri, params, recipients)| == |recipients|
    ensures forall i :: 0 <= i < |recipients| ==>
              Requests(uri, params, recipients)[i] == Request(uri, WithChatId(params, recipients[i]))
  {
    if recipients != [] {
      RequestsAt(uri, params, recipients[1..]);
      forall i | 0 < i < |recipients|
        ensures Requests(uri, params, recipients)[i] == Request(uri, WithChatId(params, recipients[i]))
      {
        assert recipients[i] == recipients[1..][i - 1];
      }
    }
  }

  /** What each request of a fan-out carries: the one endpoint, the
      builder's parameters unchanged, and the chat_id of its recipient in
      the recipients' order. With no recipients nothing is issued. */
  lemma FanOut(uri: string, params: map<string, Value>, recipients: seq<Value>)
    requires "chat_id" !in params
    ensures |Requests(uri, params, recipients)| == |recipients|
    ensures recipients == [] ==> Requests(uri, params, recipients) == []
    ensures forall i :: 0 <= i < |recipients| ==>
              var req := Requests(uri, params, recipients)[i];
              req.uri == uri &&
              req.body.Keys == params.Keys + {"chat_id"} &&
              req.body["chat_id"] == recipients[i] &&
              forall k :: k in params ==> req.body[k] == params[k]
  {
    RequestsAt(uri, params, recipients);
  }

  // ---------------------------------------------------------------------
  // Properties of the collected output.

  /** Read front to back: the output is the first response followed by the
      output of the rest, so the responses appear in request order. */
  lemma {:induction false} CollectedInOrder(reply: nat -> Option<string>, start: nat, n: nat)
    requires n > 0
    ensures Collected(reply, start, n) == Text(reply(start)) + Collected(reply, start + 1, n - 1)
  {
    if n > 1 {
      CollectedInOrder(reply, start, n - 1);
    }
  }

  // ---------------------------------------------------------------------

  /** The network as the handler sees it: every POST it issues is appended
      to `log`, and whether the caller waited for its output is appended to
      `waited` at the same position (a silent post runs in the background
      with its output sent to /dev/null). When the caller waits, the
      response to the request at position i of the log is `reply(i)` (None
      when the command printed nothing); a discarded post answers None. */
  class Transport {
    var log: seq<Request>
    var waited: seq<bool>
    const reply: nat -> Option<string>

    constructor (reply: nat -> Option<string>)
      ensures log == [] && waited == [] && this.reply == reply
    {
      log := [];
      waited := [];
      this.reply := reply;
    }

    method Post(request: Request, wait: bool) returns (response: Option<string>)
      modifies this
      ensures log == old(log) + [request]
      ensures waited == old(waited) + [wait]
      ensures response == if wait then reply(|old(log)|) else None
    {
      response := if wait then reply(|log|) else None;
      log := log + [request];
      waited := waited + [wait];
    }
  }
}
