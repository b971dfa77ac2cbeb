# landogenerator_bot: the webhook handler, modelled in Dafny

The bot is a Flask webhook for a Telegram image-generation bot. Each POST
carries one Telegram update. The handler keeps an in-memory map
`chat_model` from chat id to the image model the chat picked. A `/start`
message gets a greeting with a two-button keyboard (`model:nano`,
`model:kling`). A button press stores the chosen model. Any other text is a
prompt: the handler acknowledges it, asks the Freepik API for an image with
the chat's model ("nano" by default), and relays the photo or an error text.

The model has four modules:

- `Builtins` (builtins.dfy): the Python built-ins the handler relies on.
  These are `str.strip()` (with Python's whitespace set), `str.split(sep, 1)`,
  `str(n)` and the truthiness of decoded JSON values.
- `Telegram` (telegram.dfy): the decoded update and the outbound Bot API calls
  (`sendMessage`, `sendPhoto`, `answerCallbackQuery`). These calls are plain
  `Action` records.
- `Freepik` (freepik.dfy): `generate_image_with_freepik` as a pure function.
  The HTTP exchange is an oracle `backend` that maps the request to the reply.
  The reply is a status, a body and its decoding, or a transport exception.
- `Bot` (bot.dfy): `Step` is the specification of one request: (map, update,
  generator) to (map', status, actions). Class `ChatBot` holds `chatModel`
  and updates it in place in `Webhook`. That method is proved equal to `Step`.
  Lemmas state the handler's rules about `Step` and about sequences of
  requests (`SessionsAfter`).

Inside the handler, the generator is a parameter `(prompt, model) ->
Generated`. It either returns a value, truthy or falsy, or raises with a text.
`FreepikGenerator` plugs the real client in. The lemmas `DemoModeSendsPlaceholder`
and `BackendErrorBecomesChatMessage` are stated with it.

Three behaviours of the handler that are easy to misread:
- A callback is a selection when its data merely *starts with* `model:`.
  The remainder is stored unchecked: it may be empty or contain more colons.
- An update may carry both a message and a callback query. A message without
  text falls through to the callback check.
- The API key is "absent" when it is unset or empty. An unset key is modelled
  as `""`, since `not FREEPIK_API_KEY` treats both the same.

## Model

| member | source | states |
|---|---|---|
| Builtins.Strip | app.py:61 | the prompt is a slice of the text that neither starts nor ends with whitespace, and only whitespace was cut off on each side |
| Builtins.SplitOnce | app.py:82 | `split(":", 1)` gives `[s]` without a colon, else a colon-free head and the whole rest, rejoining to `s` |
| Builtins.SplitAfterPrefix | app.py:81-82 | for data starting with a colon-free head and a colon, the second part is everything after that first colon |
| Builtins.NatToString | app.py:118 | `str(status)` is a non-empty digit string with no leading zero |
| Builtins.NatToStringRoundTrip | app.py:118 | reading the printed status back gives the status |
| Builtins.NatToStringInjective | app.py:118 | different statuses print differently |
| Freepik.GenerateImage | app.py:92-126 | a URL is returned exactly when no key is set or the reply is a 200 with an object holding `image_url`; otherwise an error is raised |
| Freepik.DemoModeReturnsPlaceholder | app.py:97-100 | without a key the placeholder URL is returned for every prompt, model and backend |
| Freepik.RequestCarriesPromptAndModel | app.py:103-116 | the outcome depends on the backend only through its answer to one request, which carries the prompt and model, the bearer key, size 1024x1024, one image and a 120 s timeout |
| Freepik.NonOkStatusRaisesApiError | app.py:117-118 | a non-200 status raises "Freepik API error: {status} {body}" |
| Freepik.ImageUrlReturnedVerbatim | app.py:120-123 | a 200 object body with `image_url` yields that value unchanged, whatever its type |
| Freepik.UnrecognizedBodyRaises | app.py:120-126 | a 200 body that is not an object with `image_url` raises the "format tidak dikenali" error |
| Freepik.LibraryErrorsPropagate | app.py:116-120 | a failed request or an undecodable 200 body raises the library's own exception text |
| Freepik.ApiErrorDeterminesReply | app.py:118 | the API error text determines both the status and the body it was built from |
| Bot.ChatBot.constructor | app.py:16-17 | a fresh process has an empty chat-to-model map |
| Bot.ChatBot.Webhook | app.py:37-90 | the new map, status and emitted calls are those of `Step` on the old map; the status is 200 or 400; no chat loses its entry |
| Bot.ChatBot.HandleText | app.py:48-73 | a text message is answered as `OnText` says, without touching the map |
| Bot.ChatBot.HandleCallback | app.py:75-90 | a callback updates the map and answers as `OnCallback` says |
| Bot.StatusCodes | app.py:38-90 | 400 exactly for a missing or empty update, which emits nothing and leaves the map alone; 200 in every other case |
| Bot.StartCommandShowsKeyboard | app.py:48-57 | text starting with `/start` gets exactly the greeting with the model keyboard; map unchanged; status 200; no generation |
| Bot.StartIsRawPrefixMatch | app.py:49-73 | the `/start` test is a prefix test on the untrimmed text: "/start foo" gets the greeting, while " /start" is handled as a prompt and the generator gets the stripped "/start" |
| Bot.TextIsPrompt | app.py:59-73 | other text: acknowledgement naming the model, then exactly one of photo with caption, "no image URL" or "Error saat generate: " + error; map unchanged; status 200 |
| Bot.PromptActions | app.py:60-72 | a plain-text update's two actions use the chat's stored model, or "nano" |
| Bot.EffectiveModel | app.py:62 | the model is the stored one when present, even "", and "nano" otherwise |
| Bot.TextlessMessageFallsThrough | app.py:43-78 | a message without text is handled as if only its callback query were present |
| Bot.SelectedKey | app.py:81-82 | the key of a "model:" callback is everything after "model:" |
| Bot.OnlySelectionWritesMap | app.py:76-83 | the map changes only on a "model:" callback, which stores the remainder for that chat and leaves every other chat's model as it was |
| Bot.SelectionIsAcknowledged | app.py:81-88 | a selection answers the callback ("Model diset ke …") and then confirms in the chat; status 200 |
| Bot.OtherUpdatesIgnored | app.py:76-90 | callback data that is missing (read as "") or does not start with "model:", or no callback at all: status 200, no calls, map unchanged |
| Bot.KeyboardButtonsSelectTheirModels | app.py:50-54 | pressing the greeting's buttons selects "nano" and "kling" respectively |
| Bot.DemoModeSendsPlaceholder | app.py:65-68 | without a key every prompt is answered with the placeholder photo |
| Bot.BackendErrorBecomesChatMessage | app.py:65-72 | a non-200 backend status becomes the chat message "Error saat generate: Freepik API error: …"; the webhook still returns 200 |
| Bot.SelectionPersists | app.py:62-83 | a chat's model is unchanged by requests that do not select a model for it |
| Bot.NeverSelectedMeansNano | app.py:17-62 | a chat that never selected a model since start-up gets "nano" |
| Bot.SelectionStored | app.py:81-83 | a "model:<key>" callback stores exactly `key` for its chat |
| Bot.SelectionUsedByLaterPrompt | app.py:62-83 | after "model:<key>" (e.g. kling) and no reselection, the chat's next prompt is acknowledged and generated with that key |

## Left out

- Flask routing, the secret webhook path and `request.get_json`: the update arrives already decoded. `None` stands for a missing or falsy JSON document. A truthy JSON document that is not an object is not modelled.
- Environment loading, the start-up `RuntimeError` for a missing bot token, the `/` liveness route and `__main__`: configuration and process glue. The Freepik key is a parameter.
- The HTTP calls to Telegram and Freepik: network I/O. Telegram calls become `Action` records. The Freepik exchange is the `backend` oracle, and nothing is posted when no key is set.
- Exceptions from the Telegram calls. Outside the `try`, such an exception would give a 500. Inside it (the photo or apology after generation), it would be caught and reported as "Error saat generate". The model assumes these calls return.
- Malformed updates that make the handler raise (a 500): a message or callback without `chat.id`, a selecting callback without `id`, a non-string `text` or `data`, and a `data` that is JSON `null`. The model's records always have these fields with the right types.
- JSON floating-point numbers: a float `image_url` is not modelled.
- `json.dumps` of the keyboard and the HTML parse mode: serialisation. The keyboard stays a structured value.
- Races on `chat_model` between concurrent requests: requests are handled one after another.
