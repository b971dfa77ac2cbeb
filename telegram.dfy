/** What the bot receives from and sends to the Telegram Bot API, as values.
    An update arrives already decoded; the outbound API calls become
    `Action` records that the handler emits in order. */
module Telegram {
  import opened Builtins

  datatype Option<T> = None | Some(value: T) {
    function GetOr(default: T): T {
      match this
      case Some(v) => v
      case None => default
    }
  }

  /** `message.chat.id` / `callback_query.message.chat.id`. */
  type ChatId = int

  /** An incoming chat message: the chat it came from and its `text` field,
      absent for photos, stickers and other non-text messages. */
  datatype Message = Message(chat: ChatId, text: Option<string>)

  /** A press on an inline button: the callback's own `id` (needed to answer
      it), the chat of the message the button belongs to, and the button's
      `data`, which may be absent. */
  datatype CallbackQuery = CallbackQuery(id: string, chat: ChatId, data: Option<string>)

  /** A decoded update object. `otherFields` counts its top-level keys other
      than `message` and `callback_query` (such as `update_id` or
      `edited_message`), which the handler never looks at but which make the
      object non-empty. */
  datatype Update = Update(message: Option<Message>, callbackQuery: Option<CallbackQuery>, otherFields: nat) {
    /** `not update` for a decoded JSON object: it has no keys at all. */
    predicate IsEmpty() {
      message.None? && callbackQuery.None? && otherFields == 0
    }
  }

  /** One inline-keyboard button: its text and the opaque `callback_data`
      Telegram hands back when it is pressed. */
  datatype Button = Button(text: string, callbackData: string)

  /** `inline_keyboard`: rows of buttons. */
  type Keyboard = seq<seq<Button>>

  /** The outbound Bot API calls the handler makes: `sendMessage` (with an
      optional reply markup), `sendPhoto` by URL with a caption, and
      `answerCallbackQuery`. A photo's URL is whatever value the generator
      returned, not necessarily a string. */
  datatype Action =
    | SendMessage(chat: ChatId, text: string, keyboard: Option<Keyboard>)
    | SendPhoto(chat: ChatId, photo: Json, caption: string)
    | AnswerCallback(callbackId: string, text: string)
}
