# Telegram log handler, modelled in Dafny

This project models `TelegramHandler`, a Monolog handler that turns each log
record into a call of the Telegram Bot API and sends it to every configured
chat.

- **Classification** (`send`). The record's `context` decides the API method.
  A set `photo` gives `sendPhoto`. Otherwise a set `animation` gives
  `sendAnimation`, and otherwise a set `video` gives `sendVideo`. Anything else
  gives `sendMessage`. "Set" means PHP `isset`: the key is present and its
  value is not null.
- **Payloads** (`sendMessage`, `sendPhoto`, `sendAnimation`, `sendVideo`). Each
  builder makes a small string-keyed map. It holds `text` (for a message) or
  the media key and `caption` (for media), plus `parse_mode = Markdown`. The
  text and the caption are the record's `message`.
- **Fan-out** (`process`). The endpoint is
  `https://api.telegram.org/bot{token}/{method}`. For each recipient, in order,
  one POST is issued. Its body is the parameters plus `chat_id`, joined with
  PHP's `+`, so the parameters keep their keys and values. A silent call
  discards the output and returns null. Otherwise the responses are
  concatenated in request order.

Files:

- `values.dfy` (module `Values`): `Option` and the PHP scalar `Value`.
- `payload.dfy` (module `Payload`): the record, the four API methods,
  `Classify`, `Params`, and a priority-list reference `FirstSet` for the
  precedence.
- `delivery.dfy` (module `Delivery`): `Endpoint`, PHP array union, the requests
  of one fan-out, the collected output, and `Transport`. `Transport` stands for
  the network. It keeps a log of issued requests and, beside it, whether
  each was waited for. A response oracle `reply(i)` answers the request at
  position i of the log.
- `handler.dfy` (module `Handler`): class `TelegramHandler` with the
  constructor, `Handle`, `Send`, the four builders and the `Process` loop.

The recipient list may be empty, and then nothing is sent. A silent call runs
curl in the background and discards its output. `Transport` therefore records,
for each request, whether the caller waited for the answer.

## Model

| member | source | states |
|---|---|---|
| `Payload.Classify` | src/TelegramHandler.php:79-94 | a media method is chosen only when its media key is set in the context |
| `Payload.FirstSetIsEarliest` | src/TelegramHandler.php:81-93 | the priority walk returns the earliest kind whose key is set, and falls back to a plain message exactly when no key is set |
| `Payload.ClassifyIsFirstSet` | src/TelegramHandler.php:81-93 | the if-chain of `send` equals the priority walk over photo, animation, video |
| `Payload.ClassifyPrecedence` | src/TelegramHandler.php:81-93 | for each outcome, an if-and-only-if: photo wins whatever else is set, then animation, then video; plain message exactly when none is set |
| `Payload.NullCountsAsAbsent` | src/TelegramHandler.php:81-89 | a context key whose value is null classifies the same as a missing key (`isset`) |
| `Payload.ClassifyReadsOnlyMediaKeys` | src/TelegramHandler.php:81-93 | classification depends only on whether photo, animation and video are set |
| `Payload.ParamsShape` | src/TelegramHandler.php:104-161 | sendMessage builds exactly {text, parse_mode}; each media builder builds exactly {media key, caption, parse_mode}; text/caption is the message, media is read from the context, parse_mode is Markdown, no chat_id |
| `Payload.ClassifiedMediaIsPresent` | src/TelegramHandler.php:81-91 | for the method `send` picks, the media parameter is never null |
| `Payload.NamesDistinctWithoutSlash` | src/TelegramHandler.php:106-156 | the four method names are pairwise distinct and contain no slash |
| `Delivery.Union` | src/TelegramHandler.php:177 | PHP `+` on arrays: keys of both sides, left values kept, right values only for new keys |
| `Delivery.EndpointDeterminesTokenAndMethod` | src/TelegramHandler.php:172 | two endpoints are equal only for the same token and the same API method |
| `Delivery.RequestsAppend` | src/TelegramHandler.php:176-184 | one more recipient adds exactly one request, at the end, for that recipient |
| `Delivery.RequestsAt` | src/TelegramHandler.php:176-184 | one request per recipient; the i-th goes to the endpoint with the params plus the i-th recipient's chat_id |
| `Delivery.FanOut` | src/TelegramHandler.php:172-184 | every request uses the same endpoint; its body has the params' keys plus chat_id, chat_id is its recipient in order, params unchanged; no recipients, no requests |
| `Delivery.CollectedInOrder` | src/TelegramHandler.php:174-186 | the collected output is the text of the first response followed by the output collected from the following ones, so the responses appear in request order |
| `Delivery.Transport.Post` | src/TelegramHandler.php:180-182 | a POST is appended to the log and its wait flag to `waited`; a waited-for call returns the oracle's answer for its position, a discarded one returns none |
| `Handler.TelegramHandler.constructor` | src/TelegramHandler.php:39-61 | the token and the recipients' values, in iteration order, are stored unchanged and the getters return them |
| `Handler.TelegramHandler.Handle` | src/TelegramHandler.php:66-71 | always returns true, issues exactly the requests of `send`, and waits for none of them (silent mode) |
| `Handler.TelegramHandler.Send` | src/TelegramHandler.php:79-94 | issues the requests of the classified method and its params, each waited for exactly when not silent; returns none when silent, else the collected responses |
| `Handler.TelegramHandler.SendMessage` | src/TelegramHandler.php:104-110 | issues the requests of `process` for `sendMessage` and the message params, waited for exactly when not silent, with the same output |
| `Handler.TelegramHandler.SendPhoto` | src/TelegramHandler.php:120-127 | issues the requests of `process` for `sendPhoto` and the photo params, waited for exactly when not silent, with the same output |
| `Handler.TelegramHandler.SendAnimation` | src/TelegramHandler.php:137-144 | issues the requests of `process` for `sendAnimation` and the animation params, waited for exactly when not silent, with the same output |
| `Handler.TelegramHandler.SendVideo` | src/TelegramHandler.php:154-161 | issues the requests of `process` for `sendVideo` and the video params, waited for exactly when not silent, with the same output |
| `Handler.TelegramHandler.Process` | src/TelegramHandler.php:170-187 | the log grows by exactly one request per recipient, in order, each to the same endpoint, each waited for exactly when not silent; returns none when silent, else the in-order concatenation of the responses ("" with no recipients) |
| `Handler.SendRequests` | src/TelegramHandler.php:79-187 | one `send` yields exactly one request per recipient, each to the classified method's endpoint, with the builder's params unchanged plus that recipient's chat_id |
| `Handler.MessageScenario` | src/TelegramHandler.php:104-110 | a plain "hello" to recipient "123" is one request to sendMessage with body {text, parse_mode, chat_id} |
| `Handler.PhotoScenario` | src/TelegramHandler.php:81-83 | a record with both photo and video goes to sendPhoto with body {photo, caption, parse_mode, chat_id} |

## Left out

- Shell execution: `curl` in backticks, the background `&` and the redirect to `/dev/null`. The network is the `Transport` log plus its reply oracle.
- `escapeshellarg` and `json_encode`. The endpoint is modelled as the unquoted string and the body as a map, so the key order of the JSON text and its encoding are not modelled. `escapeshellarg` also fails on a token holding a NUL byte (a ValueError on PHP 8, a fatal error on PHP 7), and then no request is issued; the model has no such failure.
- Handler.TelegramHandler.constructor: the keys of the PHP `$recipients` array are dropped. The model keeps only its values, in iteration order, which is all the `foreach` in `process` reads. PHP's `getRecipients` returns the array with its keys (for `['admin' => '123', 'ops' => '456']` it returns both keys), while `GetRecipients` returns only `[Str("123"), Str("456")]`.
- The `$silent = true` default arguments of `send`, the four builders and `process`. The model makes `silent` an explicit argument of each.
- The failure of `json_encode`. It returns `false` for a message, media value or recipient that is not valid UTF-8 or is NAN/INF. Under `strict_types`, `escapeshellarg(false)` then throws a TypeError, so the recipients before it are posted and those after it are not. The model has no such failure and always issues one request per recipient.
- PHP values other than null, booleans, integers and strings. `Value` has no float, array or object, although a Monolog context or a recipient list can hold them.
- The "Undefined array key" warning PHP raises when `sendPhoto`, `sendAnimation` or `sendVideo` is called directly on a record without its media key. `ContextField` reads the missing key as null, as PHP does, but records no warning.
- Monolog's `level` and `bubble` constructor arguments. They go to `AbstractHandler`, which is not part of this model.
- Record fields other than `message` and `context`. The handler reads no others. A record without `message`, or with a `context` that is not an array, is excluded by the type of `LogRecord`.
- Response decoding, the `ok`/`description` check, a configurable base URL, `getRecipient`, `getUrl` and `setUrl`. `src/TelegramHandler.php` does not define them.
- Concurrency. Background curl processes may reach the API in any order; the log records the order in which they are started.
