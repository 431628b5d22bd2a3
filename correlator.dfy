/**
 * The reply correlator: the bot's per-chat conversation state and the
 * pending reply target kept in the chat's data, the handlers that move
 * them, and the messages the bot emits.
 */
module Correlator {
  import opened Wrappers
  import opened CallbackToken
  import opened Relay
  import opened Routing

  /** One thing the bot emits through the messaging platform. */
  datatype Outbound =
    | Message(chat: UserId, body: string, button: Option<string>) // a text message, with the callback data of its Reply button if any
    | Answer(to: UserId, notice: Option<string>, alert: bool)       // the answer to a button press
    | Edit(chat: UserId, body: string)                              // the pressed message's text replaced

  const Greeting: string := "Hello! Send your feedback or queries to the admin."
  const FeedbackSent: string := "\U{2705} Your feedback has been sent to the admin."
  const FeedbackFailed: string := "\U{274C} Failed to send feedback. Please try again later."
  const Unauthorized: string := "Unauthorized."
  const NoTarget: string := "\U{26A0}\U{FE0F} No reply target found. Tap a Reply button again."
  const ReplySent: string := "\U{2705} Reply sent to the user."
  const Cancelled: string := "\U{1F6AB} Reply cancelled."

  function ReplyPrompt(target: string): string {
    "\U{270D}\U{FE0F} Replying to user " + target + ".  Type your message and /cancel to cancel."
  }

  function AdminReplied(reply: string): string {
    "\U{1F4AC} Admin replied:\n\n" + reply
  }

  function ReplyFailed(error: string): string {
    "\U{274C} Could not deliver reply (maybe the user blocked the bot).\nError: " + error
  }

  /** What forwarding one piece of feedback emits: the notification and the sender's acknowledgement, or the failure notice. */
  function FeedbackSends(admin: UserId, user: User, body: string, delivered: bool): (out: seq<Outbound>)
    ensures |out| == if delivered then 2 else 1
    ensures out[|out| - 1] == Message(user.id, if delivered then FeedbackSent else FeedbackFailed, None)
    ensures delivered ==> out[0].Message? && out[0].chat == admin && out[0].button == Some(CallbackData(user.id))
    ensures delivered ==> EndsWith(out[0].body, body)
  {
    if delivered then [Message(admin, Notification(user, body), Some(CallbackData(user.id))), Message(user.id, FeedbackSent, None)]
    else [Message(user.id, FeedbackFailed, None)]
  }

  /** What sending the administrator's reply emits, given the pending target. */
  function ReplySends(admin: UserId, target: Option<string>, reply: string, delivered: bool, error: string): (out: seq<Outbound>)
    requires target.Some? ==> IsDigits(target.value)
    ensures |out| == if target.Some? && delivered then 2 else 1
    ensures out[|out| - 1].Message? && out[|out| - 1].chat == admin
    ensures target.Some? && delivered ==> out[0] == Message(ParseDecimal(target.value), AdminReplied(reply), None)
  {
    if target.None? then [Message(admin, NoTarget, None)]
    else if delivered then [Message(ParseDecimal(target.value), AdminReplied(reply), None), Message(admin, ReplySent, None)]
    else [Message(admin, ReplyFailed(error), None)]
  }

  /** The messages of a log addressed to chats other than the administrator's. */
  function ToUsers(admin: UserId, log: seq<Outbound>): (r: seq<Outbound>)
    ensures forall o :: o in r ==> o in log && o.Message? && o.chat != admin
    ensures forall o :: o in log && o.Message? && o.chat != admin ==> o in r
  {
    if log == [] then []
    else (if log[0].Message? && log[0].chat != admin then [log[0]] else []) + ToUsers(admin, log[1..])
  }

  /**
   * Forwarding feedback reaches the administrator once, with the body at
   * the end of the notification and a Reply button whose data decodes back
   * to the sender; the only other message goes to the sender.
   */
  lemma FeedbackReachesAdmin(admin: UserId, user: User, body: string, delivered: bool)
    requires user.id != admin
    ensures var out := FeedbackSends(admin, user, body, delivered);
      && |out| == (if delivered then 2 else 1)
      && ToUsers(admin, out) == [Message(user.id, if delivered then FeedbackSent else FeedbackFailed, None)]
      && (delivered ==>
            && out[0].Message? && out[0].chat == admin && out[0].button.Some?
            && EndsWith(out[0].body, body)
            && ReplyTarget(out[0].button.value) == Some(Decimal(user.id))
            && ParseDecimal(Decimal(user.id)) == user.id)
  {
    var out := FeedbackSends(admin, user, body, delivered);
    TokenRoundTrip(user.id);
    if delivered {
      assert out[1..] == [Message(user.id, FeedbackSent, None)];
      assert ToUsers(admin, out[1..]) == [Message(user.id, FeedbackSent, None)] + ToUsers(admin, []);
    } else {
      assert ToUsers(admin, out) == [Message(user.id, FeedbackFailed, None)] + ToUsers(admin, out[1..]);
    }
  }

  /**
   * Sending the reply puts exactly one message in a user's chat, the
   * "Admin replied" text to the pending target, and only when a target is
   * pending and delivery succeeds; every other message goes to the
   * administrator.
   */
  lemma ReplyReachesOnlyTarget(admin: UserId, target: Option<string>, reply: string, delivered: bool, error: string)
    requires target.Some? ==> IsDigits(target.value)
    requires target.Some? ==> ParseDecimal(target.value) != admin
    ensures ToUsers(admin, ReplySends(admin, target, reply, delivered, error))
      == if target.Some? && delivered then [Message(ParseDecimal(target.value), AdminReplied(reply), None)] else []
  {
    var out := ReplySends(admin, target, reply, delivered, error);
    if target.Some? && delivered {
      assert out[1..] == [Message(admin, ReplySent, None)];
      assert ToUsers(admin, out[1..]) == [] + ToUsers(admin, []);
    } else {
      assert ToUsers(admin, out) == [] + ToUsers(admin, out[1..]);
    }
  }

  /**
   * The bot as seen from the administrator's private chat: the chat's
   * conversation state, the pending reply target kept in its chat data
   * (the decimal text of a user id), and everything the bot has emitted.
   * Every other chat is a user's private chat, whose conversation never
   * leaves Idle.
   */
  class Bot {
    const admin: UserId
    var state: Conv
    var target: Option<string>
    var outbox: seq<Outbound>

    /** The pending target is always text the entry pattern accepted after "reply:". */
    ghost predicate Valid()
      reads this
    {
      target.Some? ==> IsDigits(target.value)
    }

    /** A reply is awaited exactly while a target is pending. */
    ghost predicate Synced()
      reads this
    {
      state == TypingReply <==> target.Some?
    }

    /** The conversation state of the sender's chat. */
    function ChatState(sender: UserId): Conv
      reads this
    {
      if sender == admin then state else Idle
    }

    constructor (admin: UserId)
      ensures this.admin == admin && state == Idle && target == None && outbox == []
      ensures Valid() && Synced()
    {
      this.admin := admin;
      state := Idle;
      target := None;
      outbox := [];
    }

    /** `start`: greet the sender. */
    method Start(user: User)
      requires Valid()
      modifies this`outbox
      ensures Valid()
      ensures outbox == old(outbox) + [Message(user.id, Greeting, None)]
    {
      outbox := outbox + [Message(user.id, Greeting, None)];
    }

    /**
     * `handle_feedback_from_user`: forward the body to the administrator with
     * a Reply button whose data names the sender, then acknowledge the
     * sender; if the forward fails, tell the sender instead.
     */
    method HandleFeedback(user: User, text: Option<string>, caption: Option<string>, delivered: bool)
      requires Valid()
      modifies this`outbox
      ensures Valid()
      ensures outbox == old(outbox) + FeedbackSends(admin, user, FeedbackBody(text, caption), delivered)
    {
      var body := FeedbackBody(text, caption);
      var button := CallbackData(user.id);
      if delivered {
        outbox := outbox + [Message(admin, Notification(user, body), Some(button))];
        outbox := outbox + [Message(user.id, FeedbackSent, None)];
      } else {
        outbox := outbox + [Message(user.id, FeedbackFailed, None)];
      }
    }

    /**
     * `admin_click_reply`: for the administrator, acknowledge the press,
     * store the decoded target (overwriting any earlier one), prompt for the
     * reply and await it; for anyone else, answer with an alert and end.
     */
    method ClickReply(user: User, data: string) returns (next: Conv)
      requires Valid() && IsReplyData(data)
      modifies this`target, this`outbox
      ensures Valid()
      ensures user.id == admin ==>
        && next == TypingReply
        && target.Some? && target == ReplyTarget(data) && data == Prefix + target.value
        && outbox == old(outbox) + [Answer(admin, None, false), Edit(admin, ReplyPrompt(target.value))]
      ensures user.id != admin ==>
        && next == Idle
        && target == old(target)
        && outbox == old(outbox) + [Answer(user.id, Some(Unauthorized), true)]
    {
      if user.id == admin {
        outbox := outbox + [Answer(admin, None, false)];
        var decoded := ReplyTarget(data).value;
        target := Some(decoded);
        outbox := outbox + [Edit(admin, ReplyPrompt(decoded))];
        next := TypingReply;
      } else {
        outbox := outbox + [Answer(user.id, Some(Unauthorized), true)];
        next := Idle;
      }
    }

    /**
     * `admin_send_reply`: with no pending target, warn the administrator;
     * otherwise send the reply to the target, report the outcome to the
     * administrator, and clear the target whether delivery worked or not.
     * The conversation ends either way.
     */
    method SendReply(reply: string, delivered: bool, error: string) returns (next: Conv)
      requires Valid()
      modifies this`target, this`outbox
      ensures Valid()
      ensures next == Idle && target == None
      ensures outbox == old(outbox) + ReplySends(admin, old(target), reply, delivered, error)
    {
      if target.None? || target.value == [] {
        outbox := outbox + [Message(admin, NoTarget, None)];
        return Idle;
      }
      var to := ParseDecimal(target.value);
      if delivered {
        outbox := outbox + [Message(to, AdminReplied(reply), None)];
        outbox := outbox + [Message(admin, ReplySent, None)];
      } else {
        outbox := outbox + [Message(admin, ReplyFailed(error), None)];
      }
      target := None;
      next := Idle;
    }

    /** `admin_cancel`: the administrator's cancel clears the target; anyone else's does nothing. Both end the conversation. */
    method Cancel(user: User) returns (next: Conv)
      requires Valid()
      modifies this`target, this`outbox
      ensures Valid()
      ensures next == Idle
      ensures user.id == admin ==> target == None && outbox == old(outbox) + [Message(admin, Cancelled, None)]
      ensures user.id != admin ==> target == old(target) && outbox == old(outbox)
    {
      if user.id == admin {
        target := None;
        outbox := outbox + [Message(admin, Cancelled, None)];
      }
      next := Idle;
    }

    /**
     * One inbound update: route it by the sender's chat state, run the
     * handler, and store the state a conversation handler returns.
     * `delivered` and `error` stand for the outcome of the one send to
     * another chat that the handler may attempt.
     */
    method HandleEvent(e: Event, delivered: bool, error: string) returns (h: Handler)
      requires Valid()
      modifies this
      ensures Valid()
      ensures old(Synced()) ==> Synced()
      ensures h == Route(admin, old(ChatState(e.from.id)), e)
      ensures e.from.id != admin ==> state == old(state) && target == old(target)
      ensures e.from.id == admin && old(state) == Idle && (e.Text? || e.Media?) ==> outbox == old(outbox)
      ensures h.Unhandled? ==> state == old(state) && target == old(target) && outbox == old(outbox)
      ensures h.OnStart? ==>
        && state == old(state) && target == old(target)
        && outbox == old(outbox) + [Message(e.from.id, Greeting, None)]
      ensures h.OnFeedback? ==>
        && state == old(state) && target == old(target)
        && outbox == old(outbox) + FeedbackSends(admin, e.from, FeedbackBody(h.text, h.caption), delivered)
      ensures h.OnClickReply? && e.from.id == admin ==>
        && state == TypingReply
        && target.Some? && target == ReplyTarget(h.data) && h.data == Prefix + target.value
        && outbox == old(outbox) + [Answer(admin, None, false), Edit(admin, ReplyPrompt(target.value))]
      ensures h.OnClickReply? && e.from.id != admin ==>
        outbox == old(outbox) + [Answer(e.from.id, Some(Unauthorized), true)]
      ensures h.OnSendReply? ==>
        && state == Idle && target == None
        && outbox == old(outbox) + ReplySends(admin, old(target), h.reply, delivered, error)
      ensures h.OnCancel? ==> state == Idle && target == None && outbox == old(outbox) + [Message(admin, Cancelled, None)]
    {
      var sender := e.from;
      h := Route(admin, ChatState(sender.id), e);
      match h
      case OnClickReply(data) =>
        var next := ClickReply(sender, data);
        if sender.id == admin {
          state := next;
        }
      case OnSendReply(reply) =>
        state := SendReply(reply, delivered, error);
      case OnCancel =>
        state := Cancel(sender);
      case OnStart =>
        Start(sender);
      case OnFeedback(text, caption) =>
        HandleFeedback(sender, text, caption, delivered);
      case Unhandled =>
    }
  }
}
