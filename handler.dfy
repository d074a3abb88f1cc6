/** The handler object (src/TelegramHandler.php, class TelegramHandler):
    a bot token and a list of recipients fixed at construction, the Monolog
    entry point `handle`, the dispatcher `send`, the four builders, and the
    fan-out loop `process`. Every request goes through a Transport. */
module Handler {
  import opened Values
  import opened Payload
  import opened Delivery

  class TelegramHandler {
    // Private in PHP and never reassigned after the constructor.
    const token: string
    const recipients: seq<Value>

    constructor (token: string, recipients: seq<Value>)
      ensures GetToken() == token && GetRecipients() == recipients
    {
      this.token := token;
      this.recipients := recipients;
    }

    function GetToken(): string
    {
      token
    }

    function GetRecipients(): seq<Value>
    {
      recipients
    }

    /** The requests one call of `process` issues for `apiMethod` and
        `params`, one per configured recipient. */
    function Outbox(apiMethod: string, params: map<string, Value>): seq<Request>
    {
      Requests(Endpoint(token, apiMethod), params, recipients)
    }

    /** Monolog's entry point: always dispatches silently (no request it
        issues is waited for) and always reports the record as handled. */
    method Handle(record: LogRecord, net: Transport) returns (handled: bool)
      modifies net
      ensures handled
      ensures net.waited == old(net.waited) + seq(|recipients|, _ => false)
      ensures net.log == old(net.log) +
                Outbox(Name(Classify(record)), Params(Classify(record), record))
    {
      var _ := Send(record, true, net);
      handled := true;
    }

    /** Classifies the record and hands it to the matching builder. */
    method Send(record: LogRecord, silent: bool, net: Transport) returns (output: Option<string>)
      modifies net
      ensures net.waited == old(net.waited) + seq(|recipients|, _ => !silent)
      ensures net.log == old(net.log) +
                Outbox(Name(Classify(record)), Params(Classify(record), record))
      ensures output == if silent then None
                        else Some(Collected(net.reply, |old(net.log)|, |recipients|))
    {
      if IsSet(record, "photo") {
        output := SendPhoto(record, silent, net);
        return;
      }
      if IsSet(record, "animation") {
        output := SendAnimation(record, silent, net);
        return;
      }
      if IsSet(record, "video") {
        output := SendVideo(record, silent, net);
        return;
      }
      output := SendMessage(record, silent, net);
    }

    method SendMessage(record: LogRecord, silent: bool, net: Transport) returns (output: Option<string>)
      modifies net
      ensures net.waited == old(net.waited) + seq(|recipients|, _ => !silent)
      ensures net.log == old(net.log) + Outbox("sendMessage", Params(ApiMethod.SendMessage, record))
      ensures output == if silent then None
                        else Some(Collected(net.reply, |old(net.log)|, |recipients|))
    {
      output := Process(Name(ApiMethod.SendMessage), Params(ApiMethod.SendMessage, record), silent, net);
    }

    method SendPhoto(record: LogRecord, silent: bool, net: Transport) returns (output: Option<string>)
      modifies net
      ensures net.waited == old(net.waited) + seq(|recipients|, _ => !silent)
      ensures net.log == old(net.log) + Outbox("sendPhoto", Params(ApiMethod.SendPhoto, record))
      ensures output == if silent then None
                        else Some(Collected(net.reply, |old(net.log)|, |recipients|))
    {
      output := Process(Name(ApiMethod.SendPhoto), Params(ApiMethod.SendPhoto, record), silent, net);
    }

    method SendAnimation(record: LogRecord, silent: bool, net: Transport) returns (output: Option<string>)
      modifies net
      ensures net.waited == old(net.waited) + seq(|recipients|, _ => !silent)
      ensures net.log == old(net.log) + Outbox("sendAnimation", Params(ApiMethod.SendAnimation, record))
      ensures output == if silent then None
                        else Some(Collected(net.reply, |old(net.log)|, |recipients|))
    {
      output := Process(Name(ApiMethod.SendAnimation), Params(ApiMethod.SendAnimation, record), silent, net);
    }

    method SendVideo(record: LogRecord, silent: bool, net: Transport) returns (output: Option<string>)
      modifies net
      ensures net.waited == old(net.waited) + seq(|recipients|, _ => !silent)
      ensures net.log == old(net.log) + Outbox("sendVideo", Params(ApiMethod.SendVideo, record))
      ensures output == if silent then None
                        else Some(Collected(net.reply, |old(net.log)|, |recipients|))
    {
      output := Process(Name(ApiMethod.SendVideo), Params(ApiMethod.SendVideo, record), silent, net);
    }

    /** Posts `params` plus the recipient's chat_id to the method's endpoint,
        once per recipient in order. Silent posts discard their output and
        the call returns None; otherwise the responses are concatenated in
        request order. */
    method Process(apiMethod: string, params: map<string, Value>, silent: bool, net: Transport)
      returns (output: Option<string>)
      modifies net
      ensures net.waited == old(net.waited) + seq(|recipients|, _ => !silent)
      ensures net.log == old(net.log) + Outbox(apiMethod, params)
      ensures output == if silent then None
                        else Some(Collected(net.reply, |old(net.log)|, |recipients|))
    {
      var uri := Endpoint(token, apiMethod);
      ghost var start := |net.log|;
      var collected := "";
      for i := 0 to |recipients|
        invariant net.log == old(net.log) + Requests(uri, params, recipients[..i])
        invariant |net.log| == start + i
        invariant !silent ==> collected == Collected(net.reply, start, i)
        invariant net.waited == old(net.waited) + seq(i, _ => !silent)
      {
        var request := Request(uri, WithChatId(params, recipients[i]));
        RequestsPrefixStep(net.log, old(net.log), uri, params, recipients, i);
        FlagsStep(net.waited, old(net.waited), i, !silent);
        var response := net.Post(request, !silent);
        if !silent {
          collected := collected + Text(response);
        }
      }
      assert recipients[..|recipients|] == recipients;
      output := if !silent then Some(collected) else None;
    }
  }

  // -----------------------------------------------------------------------
  // What a caller of `send` can rely on, stated over the handler's fields.

  /** Every request of one `send` goes to the endpoint of the classified
      method, carries the builder's parameters unchanged plus the chat_id of
      its recipient, and there is exactly one per recipient, in order. */
  lemma SendRequests(h: TelegramHandler, record: LogRecord)
    ensures var m := Classify(record);
            var out := h.Outbox(Name(m), Params(m, record));
            |out| == |h.recipients| &&
            forall i :: 0 <= i < |out| ==>
              out[i].uri == Endpoint(h.token, Name(m)) &&
              out[i].body.Keys == Params(m, record).Keys + {"chat_id"} &&
              out[i].body["chat_id"] == h.recipients[i] &&
              forall k :: k in Params(m, record) ==> out[i].body[k] == Params(m, record)[k]
  {
    var m := Classify(record);
    ParamsShape(m, record);
    FanOut(Endpoint(h.token, Name(m)), Params(m, record), h.recipients);
  }

  /** A plain record to one recipient: one request to sendMessage whose body
      is the message as text, Markdown parse mode and the chat_id. */
  lemma MessageScenario()
    ensures var record := LogRecord("hello", map[]);
            var m := Classify(record);
            m == ApiMethod.SendMessage &&
            Requests(Endpoint("T", Name(m)), Params(m, record), [Str("123")])
              == [Request("https://api.telegram.org/botT/sendMessage",
                          map["text" := Str("hello"), "parse_mode" := Str("Markdown"),
                              "chat_id" := Str("123")])]
  {
    var record := LogRecord("hello", map[]);
    var body := WithChatId(Params(ApiMethod.SendMessage, record), Str("123"));
    assert body == map["text" := Str("hello"), "parse_mode" := Str("Markdown"),
                       "chat_id" := Str("123")];
    assert [Str("123")][1..] == [];
    assert Endpoint("T", "sendMessage") == "https://api.telegram.org/botT/sendMessage";
  }

  /** A record whose context carries both a photo and a video: the photo
      wins, and the caption is the message. */
  lemma PhotoScenario()
    ensures var record := LogRecord("cap", map["video" := Str("v.mp4"), "photo" := Str("y.jpg")]);
            var m := Classify(record);
            m == ApiMethod.SendPhoto &&
            Requests(Endpoint("T", Name(m)), Params(m, record), [Int(7)])
              == [Request("https://api.telegram.org/botT/sendPhoto",
                          map["photo" := Str("y.jpg"), "caption" := Str("cap"),
                              "parse_mode" := Str("Markdown"), "chat_id" := Int(7)])]
  {
    var record := LogRecord("cap", map["video" := Str("v.mp4"), "photo" := Str("y.jpg")]);
    var body := WithChatId(Params(ApiMethod.SendPhoto, record), Int(7));
    assert body == map["photo" := Str("y.jpg"), "caption" := Str("cap"),
                       "parse_mode" := Str("Markdown"), "chat_id" := Int(7)];
    assert [Int(7)][1..] == [];
    assert Endpoint("T", "sendPhoto") == "https://api.telegram.org/botT/sendPhoto";
  }
}
