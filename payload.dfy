/** What a log record becomes: which Telegram Bot API method it is sent
    with, and the parameters of that method (src/TelegramHandler.php,
    `send` and the four `send*` builders). Everything here is pure. */
module Payload {
  import opened Values

  /** The parts of a Monolog record the handler reads: the message text and
      the context map. */
  datatype LogRecord = LogRecord(message: string, context: map<string, Value>)

  /** The four Bot API methods the handler can call. */
  datatype ApiMethod = SendMessage | SendPhoto | SendAnimation | SendVideo

  /** The method name as it appears in the endpoint path (the PHP builders
      pass their own function name). */
  function Name(m: ApiMethod): string
  {
    match m
    case SendMessage => "sendMessage"
    case SendPhoto => "sendPhoto"
    case SendAnimation => "sendAnimation"
    case SendVideo => "sendVideo"
  }

  /** The context key, and request parameter, carrying the media of a media
      method. */
  function MediaKey(m: ApiMethod): string
    requires m != SendMessage
  {
    match m
    case SendPhoto => "photo"
    case SendAnimation => "animation"
    case SendVideo => "video"
  }

  const ParseMode: string := "Markdown"

  /** PHP `isset($record['context'][key])`: present and not null. */
  predicate IsSet(record: LogRecord, key: string)
  {
    key in record.context && record.context[key] != Null
  }

  /** PHP `$record['context'][key]`: an undefined index reads as null. */
  function ContextField(record: LogRecord, key: string): Value
  {
    if key in record.context then record.context[key] else Null
  }

  /** The classification done by `send`: the first `isset` test of the
      if-chain that succeeds picks the method. A media method is only ever
      chosen when its media key is set. */
  function Classify(record: LogRecord): (m: ApiMethod)
    ensures m != SendMessage ==> IsSet(record, MediaKey(m))
  {
    if IsSet(record, "photo") then SendPhoto
    else if IsSet(record, "animation") then SendAnimation
    else if IsSet(record, "video") then SendVideo
    else SendMessage
  }

  /** The parameters each builder hands to `process`. */
  function Params(m: ApiMethod, record: LogRecord): map<string, Value>
  {
    if m == SendMessage then
      map["text" := Str(record.message), "parse_mode" := Str(ParseMode)]
    else
      map[MediaKey(m) := ContextField(record, MediaKey(m)),
          "caption" := Str(record.message),
          "parse_mode" := Str(ParseMode)]
  }

  // ---------------------------------------------------------------------
  // An independent reading of the precedence: walk a priority list of
  // media methods and take the first whose key is set.

  const Precedence: seq<ApiMethod> := [SendPhoto, SendAnimation, SendVideo]

  function FirstSet(record: LogRecord, kinds: seq<ApiMethod>): ApiMethod
    requires SendMessage !in kinds
  {
    if kinds == [] then SendMessage
    else if IsSet(record, MediaKey(kinds[0])) then kinds[0]
    else FirstSet(record, kinds[1..])
  }

  /** FirstSet picks the earliest kind in the list whose key is set, and
      falls back to a plain message exactly when no key in the list is set. */
  lemma {:induction false} FirstSetIsEarliest(record: LogRecord, kinds: seq<ApiMethod>)
    requires SendMessage !in kinds
    ensures FirstSet(record, kinds) == SendMessage <==>
              forall j :: 0 <= j < |kinds| ==> !IsSet(record, MediaKey(kinds[j]))
    ensures FirstSet(record, kinds) != SendMessage ==>
              exists j :: 0 <= j < |kinds| && kinds[j] == FirstSet(record, kinds) &&
                IsSet(record, MediaKey(kinds[j])) &&
                forall i :: 0 <= i < j ==> !IsSet(record, MediaKey(kinds[i]))
  {
    if kinds != [] {
      assert SendMessage !in kinds[1..] by {
        forall x | x in kinds[1..] ensures x != SendMessage { assert x in kinds; }
      }
      FirstSetIsEarliest(record, kinds[1..]);
      if !IsSet(record, MediaKey(kinds[0])) {
        var r := FirstSet(record, kinds);
        if r != SendMessage {
          var j :| 0 <= j < |kinds[1..]| && kinds[1..][j] == r &&
                   IsSet(record, MediaKey(kinds[1..][j])) &&
                   forall i :: 0 <= i < j ==> !IsSet(record, MediaKey(kinds[1..][i]));
          assert kinds[j + 1] == r;
          forall i | 0 <= i < j + 1 ensures !IsSet(record, MediaKey(kinds[i])) {
            if i > 0 { assert kinds[i] == kinds[1..][i - 1]; }
          }
        } else {
          forall j | 0 <= j < |kinds| ensures !IsSet(record, MediaKey(kinds[j])) {
            if j > 0 { assert kinds[j] == kinds[1..][j - 1]; }
          }
        }
      } else {
        assert kinds[0] != SendMessage;
      }
    }
  }

  /** `send`'s if-chain is the priority walk over photo, animation, video. */
  lemma ClassifyIsFirstSet(record: LogRecord)
    ensures Classify(record) == FirstSet(record, Precedence)
  {
    var rest1, rest2: seq<ApiMethod> := [SendAnimation, SendVideo], [SendVideo];
    assert Precedence[1..] == rest1 && rest1[1..] == rest2 && rest2[1..] == [];
    assert FirstSet(record, rest2) == (if IsSet(record, "video") then SendVideo else SendMessage);
    assert FirstSet(record, rest1) ==
           (if IsSet(record, "animation") then SendAnimation else FirstSet(record, rest2));
  }

  /** The precedence of `send`, as an if-and-only-if for each outcome: a set
      photo wins whatever else is set; then animation; then video; a plain
      message exactly when none of the three is set. */
  lemma ClassifyPrecedence(record: LogRecord)
    ensures Classify(record) == SendPhoto <==> IsSet(record, "photo")
    ensures Classify(record) == SendAnimation <==>
              !IsSet(record, "photo") && IsSet(record, "animation")
    ensures Classify(record) == SendVideo <==>
              !IsSet(record, "photo") && !IsSet(record, "animation") && IsSet(record, "video")
    ensures Classify(record) == SendMessage <==>
              !IsSet(record, "photo") && !IsSet(record, "animation") && !IsSet(record, "video")
  {
  }

  /** A context entry whose value is null counts as absent. */
  lemma NullCountsAsAbsent(record: LogRecord, key: string)
    ensures Classify(LogRecord(record.message, record.context[key := Null]))
         == Classify(LogRecord(record.message, record.context - {key}))
  {
  }

  /** Classification depends on nothing but whether the three media keys are
      set: neither the message nor any other context entry matters. */
  lemma ClassifyReadsOnlyMediaKeys(r1: LogRecord, r2: LogRecord)
    requires IsSet(r1, "photo") == IsSet(r2, "photo")
    requires IsSet(r1, "animation") == IsSet(r2, "animation")
    requires IsSet(r1, "video") == IsSet(r2, "video")
    ensures Classify(r1) == Classify(r2)
  {
  }

  /** The shape of every builder's parameters: `sendMessage` gives exactly
      text and parse_mode; a media builder gives exactly its media key,
      caption and parse_mode. The text or caption is the record's message,
      the media value is read from the context, parse_mode is Markdown, and
      no builder supplies a chat_id. */
  lemma ParamsShape(m: ApiMethod, record: LogRecord)
    ensures m == SendMessage ==>
              Params(m, record).Keys == {"text", "parse_mode"} &&
              Params(m, record)["text"] == Str(record.message)
    ensures m != SendMessage ==>
              Params(m, record).Keys == {MediaKey(m), "caption", "parse_mode"} &&
              Params(m, record)[MediaKey(m)] == ContextField(record, MediaKey(m)) &&
              Params(m, record)["caption"] == Str(record.message)
    ensures Params(m, record)["parse_mode"] == Str(ParseMode)
    ensures "chat_id" !in Params(m, record)
  {
  }

  /** For the method `send` picks, the media parameter is never null: the
      `isset` guard that chose the method is what guarantees it. */
  lemma ClassifiedMediaIsPresent(record: LogRecord)
    ensures Classify(record) != SendMessage ==>
              Params(Classify(record), record)[MediaKey(Classify(record))] != Null
  {
  }

  /** Method names are pairwise distinct and contain no slash, so the name is
      a clean last segment of the endpoint path. */
  lemma NamesDistinctWithoutSlash(m1: ApiMethod, m2: ApiMethod)
    ensures Name(m1) == Name(m2) ==> m1 == m2
    ensures '/' !in Name(m1)
  {
  }
}
