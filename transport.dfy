/** The slice of the Telegram client library and of Go's `context` package that the
    bot reads and writes. Sending is external: a send's outcome is always an input. */
module Transport {
  import opened Wrappers

  datatype TgUser = TgUser(id: int, userName: string)
  datatype Chat = Chat(id: int)

  /** An inbound chat message; `command` is `Command()` when `IsCommand()` holds. */
  datatype TgMessage = TgMessage(from: TgUser, chat: Chat, text: string, command: Option<string>)

  /** An inline-button tap; `message` is nil for inline-mode messages. */
  datatype CallbackQuery = CallbackQuery(from: TgUser, message: Option<TgMessage>, data: string)

  /** `context.Context` as far as the bot uses it: `context.WithValue` chains. */
  datatype Context = Background | WithValue(parent: Context, key: string, val: int)

  /** `ctx.Value(key)`: the innermost binding of `key`, or nil. */
  function Value(ctx: Context, key: string): (r: Option<int>)
    ensures ctx.WithValue? && ctx.key == key ==> r == Some(ctx.val)
    ensures ctx.Background? ==> r == None
  {
    match ctx
    case Background => None
    case WithValue(parent, k, v) => if k == key then Some(v) else Value(parent, key)
  }

  /** The reply markup of an outgoing message: none, a reply keyboard given by its rows
      of button labels, the keyboard-hiding markup, or inline buttons (label, callback data). */
  datatype Markup =
    | NoMarkup
    | ReplyKeyboard(rows: seq<seq<string>>)
    | HideKeyboard
    | InlineKeyboard(buttons: seq<seq<(string, string)>>)

  /** What an outgoing message says, by the translation key of its text and the data
      it lists. The exact wording comes from the translation tables. */
  datatype Body =
    | Prompt(key: string)
    | Limit(key: string, limit: int)
    | ChosenCategories(items: seq<string>)
    | Summary(locality: string, region: string, items: seq<string>, description: string)
    | HelpCard(helpID: int)
    | Raw(text: string)

  /** One call of `Api.Send`. */
  datatype Outgoing = Outgoing(chat: int, body: Body, markup: Markup)
}
