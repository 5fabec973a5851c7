/**
 * The incoming Telegram message as the three bots see it.
 */
module Messages {
  import opened Common

  datatype IncomingMessage = IncomingMessage(
    userId: int,              // the sender's Telegram id
    text: string,
    firstName: Option<string>,
    lastName: Option<string>,
    username: Option<string>)

  /** The cancel button every dialog honours. */
  const CANCEL: string := "❌ Отмена"
}
