/**
 * Whole conversations driven through `Bot.HandleEvent`, from a freshly
 * started bot, stated for all administrators, senders and texts.
 */
module Scenarios {
  import opened Wrappers
  import opened CallbackToken
  import opened Relay
  import opened Routing
  import opened Correlator

  /** The administrator's log after a user's question is forwarded and the administrator presses its Reply button. */
  function AwaitingLog(admin: UserId, sender: User, question: string): seq<Outbound> {
    [
      Message(admin, Notification(sender, question), Some(CallbackData(sender.id))),
      Message(sender.id, FeedbackSent, None),
      Answer(admin, None, false),
      Edit(admin, ReplyPrompt(Decimal(sender.id)))
    ]
  }

  /** A fresh bot after a user's question is forwarded and the administrator presses its Reply button. */
  method ForwardAndPress(admin: User, sender: User, question: string) returns (bot: Bot)
    requires sender.id != admin.id && question != []
    ensures fresh(bot) && bot.admin == admin.id && bot.Valid()
    ensures bot.state == TypingReply && bot.target == Some(Decimal(sender.id))
    ensures bot.outbox == AwaitingLog(admin.id, sender, question)
  {
    bot := Forward(admin.id, sender, question);
    TokenRoundTrip(sender.id);
    var h := bot.HandleEvent(Press(admin, CallbackData(sender.id)), true, "");
    assert h == OnClickReply(CallbackData(sender.id));
    assert bot.outbox == AwaitingLog(admin.id, sender, question)[..2] + AwaitingLog(admin.id, sender, question)[2..];
  }

  /** A fresh bot after a user's question is forwarded to the administrator. */
  method Forward(admin: UserId, sender: User, question: string) returns (bot: Bot)
    requires sender.id != admin && question != []
    ensures fresh(bot) && bot.admin == admin && bot.Valid()
    ensures bot.state == Idle && bot.target == None
    ensures bot.outbox == AwaitingLog(admin, sender, question)[..2]
  {
    bot := new Bot(admin);
    var h := bot.HandleEvent(Text(sender, question), true, "");
    assert h == OnFeedback(Some(question), None);
  }

  /**
   * A user's question is forwarded with a Reply button, the administrator
   * presses it and types an answer: the answer goes to that user (or the
   * administrator hears that it could not), and the chat is back to Idle
   * with no pending target.
   */
  method ReplyRoundTrip(admin: User, sender: User, question: string, answer: string, replyDelivered: bool, error: string)
    returns (log: seq<Outbound>, finalState: Conv, finalTarget: Option<string>)
    requires sender.id != admin.id && question != [] && answer != []
    ensures finalState == Idle && finalTarget == None
    ensures log == AwaitingLog(admin.id, sender, question)
      + (if replyDelivered then [Message(sender.id, AdminReplied(answer), None), Message(admin.id, ReplySent, None)]
         else [Message(admin.id, ReplyFailed(error), None)])
  {
    var bot := ForwardAndPress(admin, sender, question);
    ParseDecimalOfDecimal(sender.id);
    var h := bot.HandleEvent(Text(admin, answer), replyDelivered, error);
    assert h == OnSendReply(answer);
    log, finalState, finalTarget := bot.outbox, bot.state, bot.target;
  }

  /** A fresh bot after the administrator presses the Reply button of a sender. */
  method Pressed(admin: User, sender: UserId) returns (bot: Bot)
    ensures fresh(bot) && bot.admin == admin.id && bot.Valid()
    ensures bot.state == TypingReply && bot.target == Some(Decimal(sender))
    ensures bot.outbox == [Answer(admin.id, None, false), Edit(admin.id, ReplyPrompt(Decimal(sender)))]
  {
    bot := new Bot(admin.id);
    TokenRoundTrip(sender);
    var h := bot.HandleEvent(Press(admin, CallbackData(sender)), true, "");
    assert h == OnClickReply(CallbackData(sender));
  }

  /** Pressing Reply and then sending "/cancel" clears the target and sends nothing to any user. */
  method CancelRoundTrip(admin: User, sender: UserId)
    returns (log: seq<Outbound>, finalState: Conv, finalTarget: Option<string>)
    ensures finalState == Idle && finalTarget == None
    ensures ToUsers(admin.id, log) == []
    ensures log == [Answer(admin.id, None, false), Edit(admin.id, ReplyPrompt(Decimal(sender))), Message(admin.id, Cancelled, None)]
  {
    var bot := Pressed(admin, sender);
    var h := bot.HandleEvent(Command(admin, "cancel"), true, "");
    assert h == OnCancel;
    log, finalState, finalTarget := bot.outbox, bot.state, bot.target;
    var last := [Message(admin.id, Cancelled, None)];
    assert ToUsers(admin.id, last) == [] + ToUsers(admin.id, last[1..]);
    assert log[1..][1..] == last;
    assert ToUsers(admin.id, log) == ToUsers(admin.id, log[1..]) == ToUsers(admin.id, last);
  }

  /**
   * While a reply is awaited, pressing a second Reply button reaches no
   * handler: the first target stays pending and nothing is emitted.
   */
  method SecondPressIgnored(admin: User, first: UserId, second: UserId)
    returns (log: seq<Outbound>, finalState: Conv, finalTarget: Option<string>)
    ensures finalState == TypingReply && finalTarget == Some(Decimal(first))
    ensures log == [Answer(admin.id, None, false), Edit(admin.id, ReplyPrompt(Decimal(first)))]
  {
    var bot := Pressed(admin, first);
    var h := bot.HandleEvent(Press(admin, CallbackData(second)), true, "");
    assert h == Unhandled;
    log, finalState, finalTarget := bot.outbox, bot.state, bot.target;
  }

  /** Anyone but the administrator pressing a Reply button gets an alert and leaves the correlator untouched. */
  method UnauthorizedPress(admin: UserId, intruder: User, victim: UserId)
    returns (log: seq<Outbound>, finalState: Conv, finalTarget: Option<string>)
    requires intruder.id != admin
    ensures finalState == Idle && finalTarget == None
    ensures log == [Answer(intruder.id, Some(Unauthorized), true)]
  {
    var bot := new Bot(admin);
    TokenRoundTrip(victim);
    var h := bot.HandleEvent(Press(intruder, CallbackData(victim)), true, "");
    log, finalState, finalTarget := bot.outbox, bot.state, bot.target;
  }

  /** The administrator's own text outside a conversation is forwarded nowhere. */
  method AdminTextWhileIdle(admin: User, text: string)
    returns (log: seq<Outbound>, finalState: Conv, finalTarget: Option<string>)
    ensures finalState == Idle && finalTarget == None && log == []
  {
    var bot := new Bot(admin.id);
    var h := bot.HandleEvent(Text(admin, text), true, "");
    log, finalState, finalTarget := bot.outbox, bot.state, bot.target;
  }
}
