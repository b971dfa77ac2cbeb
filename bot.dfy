/** The webhook handler: one request turns the decoded update and the current
    chat-to-model map into a status code, an ordered list of Bot API calls
    and possibly an updated map. `Step` states what one request does;
    `ChatBot.Webhook` does it in place on the bot's map. */
module Bot {
  import opened Builtins
  import opened Telegram
  import opened Freepik

  const DefaultModel := "nano"
  const StartCommand := "/start"
  const ModelPrefix := "model:"
  const Greeting := "Halo Gy! Pilih model AI untuk generate gambar:"
  const NoImageUrl := "Maaf, gagal membuat gambar (no image URL)."

  /** The keyboard sent with the greeting: one button per row. */
  const ModelKeyboard: Keyboard := [
    [Button("\U{1F3A8} Nano Banana", "model:nano")],
    [Button("\U{26A1} Kling Pro", "model:kling")]
  ]

  function Acknowledgement(model: string): (text: string) {
    "Generate gambar dengan model <b>" + model + "</b>. Sedang diproses... Mohon tunggu."
  }

  function Caption(model: string, prompt: string): (caption: string) {
    "Model: " + model + "\nPrompt: " + prompt
  }

  function GenerationError(message: string): (text: string) {
    "Error saat generate: " + message
  }

  function ModelSetNotice(key: string): (text: string) {
    "Model diset ke " + key
  }

  function ModelChosen(key: string): (text: string) {
    "Kamu memilih model: " + key + "\nKirim prompt (deskripsi gambar) sekarang."
  }

  /** The image generator as the handler sees it: prompt and model in, a
      returned value or a raised error's text out. */
  type Generator = (string, string) -> Generated

  /** The generator the deployed bot uses: `generate_image_with_freepik`
      with the configured key, over the given backend. */
  function FreepikGenerator(apiKey: string, backend: FreepikRequest -> BackendReply): (generate: Generator) {
    (prompt: string, model: string) => GenerateImage(apiKey, prompt, model, backend)
  }

  /** `chat_model.get(chat, "nano")`. */
  function ModelOf(sessions: map<ChatId, string>, chat: ChatId): (model: string) {
    if chat in sessions then sessions[chat] else DefaultModel
  }

  /** The reply that follows the acknowledgement of a prompt. */
  function ReplyTo(chat: ChatId, model: string, prompt: string, outcome: Generated): (reply: Action) {
    match outcome
    case Url(url) =>
      if Truthy(url) then SendPhoto(chat, url, Caption(model, prompt))
      else SendMessage(chat, NoImageUrl, None)
    case Raised(message) => SendMessage(chat, GenerationError(message), None)
  }

  /** What one request leaves behind: the chat-to-model map, the HTTP status
      and the Bot API calls made, in order. */
  datatype Handled = Handled(sessions: map<ChatId, string>, status: int, actions: seq<Action>)

  /** `not update`: no JSON document, or an empty one. */
  predicate Rejected(update: Option<Update>) {
    update.None? || update.value.IsEmpty()
  }

  /** One webhook request. `update` is the decoded body (`None` when
      `get_json` yields nothing); `generate` answers the image request. A
      message with text is handled as such; otherwise the callback query,
      if any, is looked at. */
  function Step(sessions: map<ChatId, string>, update: Option<Update>, generate: Generator): (r: Handled) {
    if Rejected(update) then Handled(sessions, 400, [])
    else
      var u := update.value;
      if u.message.Some? && u.message.value.text.Some? then
        OnText(sessions, u.message.value.chat, u.message.value.text.value, generate)
      else if u.callbackQuery.Some? then
        OnCallback(sessions, u.callbackQuery.value)
      else
        Handled(sessions, 200, [])
  }

  /** A text message: the `/start` command, or else a prompt. */
  function OnText(sessions: map<ChatId, string>, chat: ChatId, text: string, generate: Generator): (r: Handled) {
    if StartCommand <= text then
      Handled(sessions, 200, [SendMessage(chat, Greeting, Some(ModelKeyboard))])
    else
      var prompt, model := Strip(text), ModelOf(sessions, chat);
      Handled(sessions, 200, [SendMessage(chat, Acknowledgement(model), None),
                              ReplyTo(chat, model, prompt, generate(prompt, model))])
  }

  /** A button press: a "model:" selection, or else nothing. */
  function OnCallback(sessions: map<ChatId, string>, cb: CallbackQuery): (r: Handled) {
    var data := cb.data.GetOr("");
    if ModelPrefix <= data then
      assert data[5] == ':';
      var key := SplitOnce(data, ':')[1];
      Handled(sessions[cb.chat := key], 200,
              [AnswerCallback(cb.id, ModelSetNotice(key)), SendMessage(cb.chat, ModelChosen(key), None)])
    else
      Handled(sessions, 200, [])
  }

  /** The process: the in-memory chat-to-model map that lives as long as it
      does, and the webhook handler that reads and writes it. */
  class ChatBot {
    var chatModel: map<ChatId, string>

    /** A fresh process knows no selection. */
    constructor ()
      ensures chatModel == map[]
    {
      chatModel := map[];
    }

    /** Handles one POST to the webhook path. */
    method Webhook(update: Option<Update>, generate: Generator) returns (status: int, actions: seq<Action>)
      modifies this
      ensures Handled(chatModel, status, actions) == Step(old(chatModel), update, generate)
      ensures status == 200 || status == 400
      ensures old(chatModel).Keys <= chatModel.Keys
    {
      if update.None? || update.value.IsEmpty() {
        return 400, [];
      }
      var u := update.value;
      if u.message.Some? && u.message.value.text.Some? {
        status, actions := HandleText(u.message.value.chat, u.message.value.text.value, generate);
        return;
      }
      if u.callbackQuery.Some? {
        status, actions := HandleCallback(u.callbackQuery.value);
        return;
      }
      return 200, [];
    }

    /** A message with text: the greeting for `/start`, otherwise the prompt
        is generated with the chat's model and the outcome relayed. */
    method HandleText(chat: ChatId, text: string, generate: Generator) returns (status: int, actions: seq<Action>)
      ensures Handled(chatModel, status, actions) == OnText(chatModel, chat, text, generate)
    {
      actions := [];
      if StartCommand <= text {
        actions := actions + [SendMessage(chat, Greeting, Some(ModelKeyboard))];
        return 200, actions;
      }
      var prompt := Strip(text);
      var model := ModelOf(chatModel, chat);
      actions := actions + [SendMessage(chat, Acknowledgement(model), None)];
      var outcome := generate(prompt, model);
      if outcome.Raised? {
        actions := actions + [SendMessage(chat, GenerationError(outcome.message), None)];
      } else if Truthy(outcome.value) {
        actions := actions + [SendPhoto(chat, outcome.value, Caption(model, prompt))];
      } else {
        actions := actions + [SendMessage(chat, NoImageUrl, None)];
      }
      return 200, actions;
    }

    /** A button press: a "model:" callback stores the selection in place,
        answers the callback and confirms in the chat; any other is ignored. */
    method HandleCallback(cb: CallbackQuery) returns (status: int, actions: seq<Action>)
      modifies this
      ensures Handled(chatModel, status, actions) == OnCallback(old(chatModel), cb)
    {
      actions := [];
      var data := cb.data.GetOr("");
      if ModelPrefix <= data {
        assert data[5] == ':';
        var key := SplitOnce(data, ':')[1];
        chatModel := chatModel[cb.chat := key];
        actions := actions + [AnswerCallback(cb.id, ModelSetNotice(key))];
        actions := actions + [SendMessage(cb.chat, ModelChosen(key), None)];
      }
      return 200, actions;
    }
  }

  // ---------------------------------------------------------------------
  // Properties of one request

  /** 400 is returned exactly for a missing or empty update, which is
      otherwise ignored; everything else gets 200, even a failed generation. */
  lemma StatusCodes(sessions: map<ChatId, string>, update: Option<Update>, generate: Generator)
    ensures var r := Step(sessions, update, generate);
      && (r.status == 400 <==> Rejected(update))
      && (r.status != 400 ==> r.status == 200)
      && (Rejected(update) ==> r.actions == [] && r.sessions == sessions)
  {
  }

  /** A message whose text starts with `/start` (before any trimming, so
      "/start foo" counts and " /start" does not) gets the greeting with the
      model keyboard and nothing else; the map is untouched and no image is
      generated, whatever else the update holds. */
  lemma StartCommandShowsKeyboard(sessions: map<ChatId, string>, u: Update, generate: Generator)
    requires u.message.Some? && u.message.value.text.Some?
    requires StartCommand <= u.message.value.text.value
    ensures Step(sessions, Some(u), generate)
         == Handled(sessions, 200, [SendMessage(u.message.value.chat, Greeting, Some(ModelKeyboard))])
  {
  }

  /** The `/start` test is on the raw text: "/start foo" is the command,
      while " /start" is a prompt, and the generator is asked for the
      stripped "/start". */
  lemma StartIsRawPrefixMatch(sessions: map<ChatId, string>, chat: ChatId, generate: Generator)
    ensures Step(sessions, Some(Update(Some(Message(chat, Some("/start foo"))), None, 1)), generate)
         == Handled(sessions, 200, [SendMessage(chat, Greeting, Some(ModelKeyboard))])
    ensures var model := ModelOf(sessions, chat);
      Step(sessions, Some(Update(Some(Message(chat, Some(" /start"))), None, 1)), generate)
        == Handled(sessions, 200, [SendMessage(chat, Acknowledgement(model), None),
                                   ReplyTo(chat, model, "/start", generate("/start", model))])
  {
    assert StartCommand <= "/start foo";
    assert " /start"[0] != StartCommand[0];
    assert LStripStart(" /start", 0) == 1;
    assert RStripEnd(" /start", 1, 7) == 7;
    assert " /start"[1..7] == "/start";
  }

  /** Any other text is a prompt: the stripped text is sent to the generator
      with the chat's model, the chat is told which model is used, and then
      gets exactly one of the photo, the "no image URL" apology or the
      error text; the map is untouched and the status is 200. */
  lemma TextIsPrompt(sessions: map<ChatId, string>, u: Update, generate: Generator)
    requires u.message.Some? && u.message.value.text.Some?
    requires !(StartCommand <= u.message.value.text.value)
    ensures var chat := u.message.value.chat;
      var prompt, model := Strip(u.message.value.text.value), ModelOf(sessions, chat);
      var outcome := generate(prompt, model);
      var r := Step(sessions, Some(u), generate);
      && r.sessions == sessions && r.status == 200 && |r.actions| == 2
      && r.actions[0] == SendMessage(chat, Acknowledgement(model), None)
      && (outcome.Url? && Truthy(outcome.value) ==>
            r.actions[1] == SendPhoto(chat, outcome.value, Caption(model, prompt)))
      && (outcome.Url? && !Truthy(outcome.value) ==>
            r.actions[1] == SendMessage(chat, NoImageUrl, None))
      && (outcome.Raised? ==>
            r.actions[1] == SendMessage(chat, GenerationError(outcome.message), None))
  {
  }

  /** The model used is the stored selection when there is one, even an
      empty one, and "nano" otherwise. */
  lemma EffectiveModel(sessions: map<ChatId, string>, chat: ChatId)
    ensures chat !in sessions ==> ModelOf(sessions, chat) == "nano"
    ensures chat in sessions ==> ModelOf(sessions, chat) == sessions[chat]
    ensures ModelOf(sessions[chat := ""], chat) == ""
  {
  }

  /** A message without text is not answered by the message branch; the
      update is handled by its callback query alone, as if no message were
      there (but it keeps the update from being empty). */
  lemma TextlessMessageFallsThrough(sessions: map<ChatId, string>, u: Update, generate: Generator)
    requires u.message.Some? && u.message.value.text.None?
    ensures Step(sessions, Some(u), generate)
         == Step(sessions, Some(u.(message := None, otherFields := u.otherFields + 1)), generate)
  {
  }

  /** A model selection carried by the update, if any: the chat of a callback
      whose data starts with "model:", and everything after that first colon. */
  function Selection(update: Option<Update>): (selection: Option<(ChatId, string)>) {
    if Rejected(update) then None
    else
      var u := update.value;
      if u.message.Some? && u.message.value.text.Some? then None
      else if u.callbackQuery.Some? && ModelPrefix <= u.callbackQuery.value.data.GetOr("") then
        Some((u.callbackQuery.value.chat, u.callbackQuery.value.data.GetOr("")[|ModelPrefix|..]))
      else None
  }

  /** The text `data.split(":", 1)[1]` of a "model:" callback is everything
      after the prefix. */
  lemma SelectedKey(data: string)
    requires ModelPrefix <= data
    ensures var parts := SplitOnce(data, ':'); |parts| == 2 && parts[1] == data[|ModelPrefix|..]
  {
    SplitAfterPrefix(data, "model", ':');
  }

  /** The map is written only by a model selection, which stores the text
      after "model:" unchecked (it may be empty or hold more colons) for that
      chat and leaves every other chat as it was. */
  lemma {:induction false} OnlySelectionWritesMap(sessions: map<ChatId, string>, update: Option<Update>, generate: Generator)
    ensures var r := Step(sessions, update, generate);
      && (Selection(update).None? ==> r.sessions == sessions)
      && (Selection(update).Some? ==>
            var (chat, key) := Selection(update).value;
            && r.sessions == sessions[chat := key]
            && forall c :: c != chat ==> ModelOf(r.sessions, c) == ModelOf(sessions, c))
  {
    if Selection(update).Some? {
      SelectedKey(update.value.callbackQuery.value.data.GetOr(""));
    }
  }

  /** A model selection answers the callback and then confirms the choice in
      the chat, with status 200. */
  lemma SelectionIsAcknowledged(sessions: map<ChatId, string>, u: Update, generate: Generator)
    requires Selection(Some(u)).Some?
    ensures var cb := u.callbackQuery.value;
      var key := Selection(Some(u)).value.1;
      Step(sessions, Some(u), generate)
        == Handled(sessions[cb.chat := key], 200,
                   [AnswerCallback(cb.id, ModelSetNotice(key)), SendMessage(cb.chat, ModelChosen(key), None)])
  {
    SelectedKey(u.callbackQuery.value.data.GetOr(""));
  }

  /** A non-empty update that is neither a text message nor a model
      selection (callback data absent, defaulting to "", or not starting with
      "model:"; no callback at all) is acknowledged with 200 and nothing else. */
  lemma OtherUpdatesIgnored(sessions: map<ChatId, string>, u: Update, generate: Generator)
    requires !u.IsEmpty()
    requires u.message.None? || u.message.value.text.None?
    requires Selection(Some(u)).None?
    ensures Step(sessions, Some(u), generate) == Handled(sessions, 200, [])
  {
  }

  /** Pressing either button of the greeting keyboard selects the model the
      button names. */
  lemma {:induction false} KeyboardButtonsSelectTheirModels(id: string, chat: ChatId, generate: Generator,
                                                            sessions: map<ChatId, string>)
    ensures var pressNano := Update(None, Some(CallbackQuery(id, chat, Some(ModelKeyboard[0][0].callbackData))), 1);
      Step(sessions, Some(pressNano), generate).sessions == sessions[chat := "nano"]
    ensures var pressKling := Update(None, Some(CallbackQuery(id, chat, Some(ModelKeyboard[1][0].callbackData))), 1);
      Step(sessions, Some(pressKling), generate).sessions == sessions[chat := "kling"]
  {
    assert ModelKeyboard[0][0].callbackData == "model:nano" && ModelPrefix <= "model:nano";
    assert ModelKeyboard[1][0].callbackData == "model:kling" && ModelPrefix <= "model:kling";
    var pressNano := Update(None, Some(CallbackQuery(id, chat, Some("model:nano"))), 1);
    var pressKling := Update(None, Some(CallbackQuery(id, chat, Some("model:kling"))), 1);
    assert Selection(Some(pressNano)) == Some((chat, "nano"));
    assert Selection(Some(pressKling)) == Some((chat, "kling"));
    OnlySelectionWritesMap(sessions, Some(pressNano), generate);
    OnlySelectionWritesMap(sessions, Some(pressKling), generate);
  }

  // ---------------------------------------------------------------------
  // The deployed generator inside the handler

  /** Without an API key every prompt is answered with the placeholder photo,
      whatever the prompt, the model and the backend. */
  lemma DemoModeSendsPlaceholder(sessions: map<ChatId, string>, u: Update,
                                 backend: FreepikRequest -> BackendReply)
    requires u.message.Some? && u.message.value.text.Some?
    requires !(StartCommand <= u.message.value.text.value)
    ensures var chat := u.message.value.chat;
      var prompt, model := Strip(u.message.value.text.value), ModelOf(sessions, chat);
      Step(sessions, Some(u), FreepikGenerator("", backend)).actions
        == [SendMessage(chat, Acknowledgement(model), None),
            SendPhoto(chat, JString(PlaceholderUrl), Caption(model, prompt))]
  {
  }

  /** A backend that answers with a non-200 status (a 500, say) becomes an
      error message in the chat naming the status and the body; the webhook
      still answers 200. */
  lemma BackendErrorBecomesChatMessage(sessions: map<ChatId, string>, u: Update, apiKey: string,
                                       backend: FreepikRequest -> BackendReply)
    requires apiKey != ""
    requires u.message.Some? && u.message.value.text.Some?
    requires !(StartCommand <= u.message.value.text.value)
    requires var chat := u.message.value.chat;
      var reply := backend(RequestFor(apiKey, Strip(u.message.value.text.value), ModelOf(sessions, chat)));
      reply.Response? && reply.status != 200
    ensures var chat := u.message.value.chat;
      var reply := backend(RequestFor(apiKey, Strip(u.message.value.text.value), ModelOf(sessions, chat)));
      var r := Step(sessions, Some(u), FreepikGenerator(apiKey, backend));
      && r.status == 200 && |r.actions| == 2
      && r.actions[1] == SendMessage(chat, GenerationError(ApiError(reply.status, reply.text)), None)
  {
    var chat := u.message.value.chat;
    TextIsPrompt(sessions, u, FreepikGenerator(apiKey, backend));
    NonOkStatusRaisesApiError(apiKey, Strip(u.message.value.text.value), ModelOf(sessions, chat), backend);
  }

  // ---------------------------------------------------------------------
  // Properties of a sequence of requests

  /** One request as it reaches the handler: the decoded body and how the
      generator answers during it. */
  datatype Delivery = Delivery(update: Option<Update>, generate: Generator)

  /** The map after handling the deliveries in order. */
  function SessionsAfter(sessions: map<ChatId, string>, ds: seq<Delivery>): (after: map<ChatId, string>)
    decreases |ds|
  {
    if ds == [] then sessions
    else SessionsAfter(Step(sessions, ds[0].update, ds[0].generate).sessions, ds[1..])
  }

  /** Whether a delivery selects a model for `chat`. */
  predicate SelectsFor(d: Delivery, chat: ChatId) {
    Selection(d.update).Some? && Selection(d.update).value.0 == chat
  }

  /** A chat's model stays what it was across requests that do not select a
      model for that chat. */
  lemma {:induction false} SelectionPersists(sessions: map<ChatId, string>, ds: seq<Delivery>, chat: ChatId)
    requires forall i :: 0 <= i < |ds| ==> !SelectsFor(ds[i], chat)
    ensures ModelOf(SessionsAfter(sessions, ds), chat) == ModelOf(sessions, chat)
    decreases |ds|
  {
    if ds != [] {
      OnlySelectionWritesMap(sessions, ds[0].update, ds[0].generate);
      assert !SelectsFor(ds[0], chat);
      SelectionPersists(Step(sessions, ds[0].update, ds[0].generate).sessions, ds[1..], chat);
    }
  }

  /** A chat that never selected a model since the process started gets "nano". */
  lemma NeverSelectedMeansNano(ds: seq<Delivery>, chat: ChatId)
    requires forall i :: 0 <= i < |ds| ==> !SelectsFor(ds[i], chat)
    ensures ModelOf(SessionsAfter(map[], ds), chat) == "nano"
  {
    SelectionPersists(map[], ds, chat);
  }

  /** After a "model:<key>" callback for a chat, and any requests that do
      not select again for it, the chat's next prompt is generated with `key`
      and acknowledged as such (for "model:kling", with "kling"). */
  lemma SelectionUsedByLaterPrompt(sessions: map<ChatId, string>, cb: CallbackQuery, key: string,
                                   select: Generator, ds: seq<Delivery>, text: string, generate: Generator)
    requires cb.data == Some(ModelPrefix + key)
    requires forall i :: 0 <= i < |ds| ==> !SelectsFor(ds[i], cb.chat)
    requires !(StartCommand <= text)
    ensures var s1 := Step(sessions, Some(Update(None, Some(cb), 1)), select).sessions;
      var r := Step(SessionsAfter(s1, ds), Some(Update(Some(Message(cb.chat, Some(text))), None, 1)), generate);
      && r.actions[0] == SendMessage(cb.chat, Acknowledgement(key), None)
      && r.actions[1] == ReplyTo(cb.chat, key, Strip(text), generate(Strip(text), key))
  {
    var s1 := Step(sessions, Some(Update(None, Some(cb), 1)), select).sessions;
    SelectionStored(sessions, cb, key, select);
    SelectionPersists(s1, ds, cb.chat);
    var s2 := SessionsAfter(s1, ds);
    assert ModelOf(s2, cb.chat) == key;
    PromptActions(s2, cb.chat, text, generate);
  }

  /** A plain-text update's two actions, in terms of the chat's stored model. */
  lemma PromptActions(sessions: map<ChatId, string>, chat: ChatId, text: string, generate: Generator)
    requires !(StartCommand <= text)
    ensures var model := ModelOf(sessions, chat);
      Step(sessions, Some(Update(Some(Message(chat, Some(text))), None, 1)), generate).actions
        == [SendMessage(chat, Acknowledgement(model), None), ReplyTo(chat, model, Strip(text), generate(Strip(text), model))]
  {
  }

  /** A "model:<key>" callback stores exactly `key` for its chat. */
  lemma SelectionStored(sessions: map<ChatId, string>, cb: CallbackQuery, key: string, select: Generator)
    requires cb.data == Some(ModelPrefix + key)
    ensures ModelOf(Step(sessions, Some(Update(None, Some(cb), 1)), select).sessions, cb.chat) == key
  {
    SelectedKey(ModelPrefix + key);
    assert (ModelPrefix + key)[|ModelPrefix|..] == key;
  }
}
