/**
 * The feedback relay: what `handle_feedback_from_user` builds from a
 * user's message before sending it to the administrator.
 */
module Relay {
  import opened Wrappers
  import opened CallbackToken

  /** The sender of an update, as far as the bot reads it. */
  datatype User = User(id: UserId, username: Option<string>, firstName: string, lastName: Option<string>)

  /** Python truthiness of an optional string: present and not empty. */
  predicate Present(s: Option<string>) {
    s.Some? && s.value != []
  }

  const NoText: string := "No text provided"

  /**
   * `message.text or message.caption or "No text provided"`: the text when
   * present, otherwise the caption, otherwise the placeholder.
   */
  function FeedbackBody(text: Option<string>, caption: Option<string>): (body: string)
    ensures body != []
    ensures Present(text) ==> body == text.value
    ensures !Present(text) && Present(caption) ==> body == caption.value
    ensures !Present(text) && !Present(caption) ==> body == NoText
  {
    if Present(text) then text.value
    else if Present(caption) then caption.value
    else NoText
  }

  /** Python's `f"{x}"` of an optional string: a missing value prints as "None". */
  function Show(s: Option<string>): string {
    if s.Some? then s.value else "None"
  }

  /** `x or ''` of an optional string. */
  function OrEmpty(s: Option<string>): string {
    if Present(s) then s.value else ""
  }

  predicate EndsWith(s: string, suffix: string) {
    |s| >= |suffix| && s[|s| - |suffix|..] == suffix
  }

  /** The header line naming the sender, ending just before the sender's id. */
  function SenderLine(user: User): string {
    "\U{1F4AC} New Feedback from @" + Show(user.username) + " (" + user.firstName + " " + OrEmpty(user.lastName)
  }

  /**
   * The text of the notification sent to the administrator: a header with
   * the sender's handle and names, then the sender's id, a blank line and
   * the feedback body, which ends the text.
   */
  function Notification(user: User, body: string): (text: string)
    ensures EndsWith(text, body)
    ensures exists header :: text == header + ", ID: " + Decimal(user.id) + "):\n\n" + body
  {
    var header := SenderLine(user);
    var text := header + ", ID: " + Decimal(user.id) + "):\n\n" + body;
    assert text == header + ", ID: " + Decimal(user.id) + "):\n\n" + body;
    text
  }
}
