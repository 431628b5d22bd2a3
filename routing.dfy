/**
 * The handler table of `main`: which handler an inbound update reaches,
 * given the conversation state of the update's chat. Handlers are tried
 * in registration order and the first whose filter accepts the update
 * takes it; the reply conversation comes first.
 *
 * The conversation handler behaves as the bot framework's does with the
 * options `main` passes: its entry point is tried only while the chat has
 * no active conversation (re-entry is off), and while one is active its
 * state handlers are tried before its fallbacks.
 */
module Routing {
  import opened Wrappers
  import opened CallbackToken
  import opened Relay

  /** The reply conversation of one chat: none active, or awaiting the reply text. */
  datatype Conv = Idle | TypingReply

  /** An inbound update. Every chat is a private chat, so the chat is the sender's. */
  datatype Event =
    | Command(from: User, name: string)        // a bot command "/<name>"
    | Text(from: User, text: string)           // a plain text message, not a command
    | Media(from: User, caption: Option<string>) // a message with no text, possibly captioned
    | Press(from: User, data: string)          // an inline button press with its callback data

  /** The handler an update reaches, with the message fields it reads. */
  datatype Handler =
    | OnClickReply(data: string)
    | OnSendReply(reply: string)
    | OnCancel
    | OnStart
    | OnFeedback(text: Option<string>, caption: Option<string>)
    | Unhandled

  /** `message.text` of the update; a button press carries no message. */
  function MessageText(e: Event): Option<string> {
    match e
    case Command(_, name) => Some("/" + name)
    case Text(_, text) => Some(text)
    case _ => None
  }

  /** `message.caption` of the update. */
  function MessageCaption(e: Event): Option<string> {
    if e.Media? then e.caption else None
  }

  /** `filters.TEXT`: a message whose text is not empty, commands included. */
  predicate HasText(e: Event) {
    Present(MessageText(e))
  }

  /**
   * The handler table. `replyFilterExcludesCommands` selects the filter of
   * the TYPING_REPLY state handler: `filters.TEXT & filters.User(ADMIN_ID)`
   * as written when false, with `& ~filters.COMMAND` added when true.
   *
   * Whatever that filter, the administrator's messages never reach the
   * feedback handler, a reply is only taken from the administrator while a
   * reply is awaited, and a button press only opens a conversation from
   * Idle with data matching `^reply:\d+$`.
   */
  function Dispatch(admin: UserId, s: Conv, e: Event, replyFilterExcludesCommands: bool): (h: Handler)
    ensures e.from.id == admin ==> !h.OnFeedback?
    ensures h.OnFeedback? ==> Present(h.text) || Present(h.caption)
    ensures h.OnFeedback? ==> e.from.id != admin && !e.Command? && h == OnFeedback(MessageText(e), MessageCaption(e))
    ensures h.OnStart? ==> e.Command? && e.name == "start"
    ensures h.OnSendReply? && replyFilterExcludesCommands ==> e.Text?
    ensures h.OnSendReply? ==> s == TypingReply && e.from.id == admin && h.reply != [] && MessageText(e) == Some(h.reply)
    ensures h.OnClickReply? ==> s == Idle && e == Press(e.from, h.data) && IsReplyData(h.data)
    ensures h.OnCancel? ==> s == TypingReply && e.Command? && e.name == "cancel"
    ensures s == Idle && e.from.id == admin && !e.Press? && !(e.Command? && e.name == "start") ==> h == Unhandled
    // and each handler is reached by the updates it is registered for
    ensures s == Idle && e.Press? && IsReplyData(e.data) ==> h == OnClickReply(e.data)
    ensures s == TypingReply && e.Text? && e.from.id == admin && e.text != [] ==> h == OnSendReply(e.text)
    ensures s == TypingReply && e.Command? && e.name == "cancel" && (replyFilterExcludesCommands || e.from.id != admin) ==> h == OnCancel
    ensures e.Text? && e.from.id != admin && e.text != [] ==> h == OnFeedback(Some(e.text), None)
    ensures e.Media? && e.from.id != admin && Present(e.caption) ==> h == OnFeedback(None, e.caption)
    ensures e.Command? && e.name == "start" && !(s == TypingReply && e.from.id == admin && !replyFilterExcludesCommands) ==> h == OnStart
  {
    // reply_conv: entry point, then state handlers, then fallbacks
    if s == Idle && e.Press? && IsReplyData(e.data) then OnClickReply(e.data)
    else if s == TypingReply && HasText(e) && e.from.id == admin && !(replyFilterExcludesCommands && e.Command?) then
      OnSendReply(MessageText(e).value)
    else if s == TypingReply && e.Command? && e.name == "cancel" then OnCancel
    // CommandHandler("start", start)
    else if e.Command? && e.name == "start" then OnStart
    // filters.TEXT & ~filters.COMMAND & ~filters.User(ADMIN_ID)
    else if HasText(e) && !e.Command? && e.from.id != admin then OnFeedback(MessageText(e), MessageCaption(e))
    // filters.CaptionRegex(".*") & ~filters.User(ADMIN_ID)
    else if Present(MessageCaption(e)) && e.from.id != admin then OnFeedback(MessageText(e), MessageCaption(e))
    else Unhandled
  }

  /**
   * The handler table exactly as `main` builds it: while a reply is awaited
   * every text of the administrator's, commands included, is taken as the
   * reply, so the administrator never reaches the cancel handler.
   */
  function RouteAsWritten(admin: UserId, s: Conv, e: Event): (h: Handler)
    ensures s == TypingReply && e.from.id == admin && HasText(e) ==> h == OnSendReply(MessageText(e).value)
    ensures h.OnCancel? ==> e.from.id != admin
  {
    Dispatch(admin, s, e, false)
  }

  /**
   * The handler table with the TYPING_REPLY state handler ignoring
   * commands: "/cancel" reaches its fallback, and only plain text is taken
   * as the reply.
   */
  function Route(admin: UserId, s: Conv, e: Event): (h: Handler)
    ensures s == TypingReply && e.Command? && e.name == "cancel" ==> h == OnCancel
    ensures h.OnSendReply? ==> e.Text?
  {
    Dispatch(admin, s, e, true)
  }

  /**
   * As written, the administrator's "/cancel" while a reply is awaited is
   * taken as the reply text and never reaches `admin_cancel`; with the
   * corrected filter it cancels.
   */
  lemma CancelWhileTyping(admin: User)
    ensures RouteAsWritten(admin.id, TypingReply, Command(admin, "cancel")) == OnSendReply("/cancel")
    ensures Route(admin.id, TypingReply, Command(admin, "cancel")) == OnCancel
  {
  }

  /** The two tables differ exactly on the administrator's commands while a reply is awaited. */
  lemma RoutesDiffer(admin: UserId, s: Conv, e: Event)
    ensures RouteAsWritten(admin, s, e) != Route(admin, s, e) <==> s == TypingReply && e.Command? && e.from.id == admin
  {
  }

  /** While a reply is awaited, a further Reply press reaches no handler (re-entry is off). */
  lemma PressWhileTyping(admin: UserId, e: Event)
    requires e.Press?
    ensures Route(admin, TypingReply, e) == Unhandled
  {
  }
}
