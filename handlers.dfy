/**
 * The bot's handlers (main.py:26-189) as methods of one object that owns the
 * process-wide state: the conversation state and cached phone per user
 * (main.py:18-19), the block list (main.py:20) and the fixed admin set
 * (main.py:16). Each handler takes the parts of the inbound update it reads
 * and returns, in order, what it would have sent to the platform.
 */
module Handlers {
  import opened Options
  import opened Text
  import opened Payload
  import Directory
  import opened Outputs

  /** ADMIN_IDS as configured in main.py:16. */
  const DefaultAdmins: set<UserId> := {7355079609, 6468400089}

  /**
   * The value `user_states` holds for a user: `Idle` is the `None` that
   * text_handler stores after a comment, `WaitingForComment` the string
   * "waiting_for_comment".
   */
  datatype ConvState = Idle | WaitingForComment

  /** Whether the button handler ran to its end or was cut short by the ValueError of `int` (main.py:149). */
  datatype Outcome = Completed | ValueError

  /** `user_states.get(user_id) == "waiting_for_comment"`: a missing entry reads as `None`. */
  predicate IsWaiting(states: map<UserId, ConvState>, id: UserId)
    ensures id !in states ==> !IsWaiting(states, id)
    ensures id in states && states[id] == Idle ==> !IsWaiting(states, id)
  {
    id in states && states[id] == WaitingForComment
  }

  /** `user_phones.get(user_id, "No phone number")` */
  function PhoneOrSentinel(phones: map<UserId, string>, id: UserId): (p: string)
    ensures id in phones ==> p == phones[id]
    ensures id !in phones ==> p == NoPhone
  {
    if id in phones then phones[id] else NoPhone
  }

  /** A set is empty or has a member (the step that lets a loop over a set pick its next element). */
  lemma EmptyOrMember(s: set<UserId>)
    ensures s == {} || exists x :: x in s
  {
    if forall x :: x !in s {
      assert s == {};
    }
  }

  class Bot {
    const admins: set<UserId>
    var states: map<UserId, ConvState>
    var phones: map<UserId, string>
    var blocked: set<UserId>

    /** A user only waits for a comment after the bot has stored the phone number they shared. */
    ghost predicate Valid()
      reads this
      ensures Valid() ==> forall id | IsWaiting(states, id) :: id in phones && PhoneOrSentinel(phones, id) == phones[id]
    {
      forall id | id in states :: states[id] == WaitingForComment ==> id in phones
    }

    /** The process at start-up: nothing stored, nobody blocked. */
    constructor (admins: set<UserId>)
      ensures Valid()
      ensures this.admins == admins
      ensures states == map[] && phones == map[] && blocked == {}
    {
      this.admins := admins;
      states, phones, blocked := map[], map[], {};
    }

    /** One copy of `text` with `markup` to every admin (the loops at main.py:110-119 and main.py:130-139). */
    method Broadcast(text: string, markup: Markup) returns (sends: seq<Output>)
      ensures IsFanOut(sends, admins, text, markup)
      ensures |sends| == |admins|
    {
      sends := [];
      var rest := admins;
      while rest != {}
        invariant rest <= admins
        invariant forall i | 0 <= i < |sends| ::
          sends[i].Send? && sends[i].chat in admins - rest && sends[i].text == text && sends[i].markup == markup
        invariant forall a | a in admins - rest :: SendsTo(sends, a) == 1
        invariant forall a | a in rest :: SendsTo(sends, a) == 0
        decreases rest
      {
        EmptyOrMember(rest);
        var admin: UserId :| admin in rest;
        var next := sends + [Send(admin, text, markup)];
        assert next[..|sends|] == sends;
        sends, rest := next, rest - {admin};
      }
      FanOutSize(sends, admins, text, markup);
    }

    /** /start (main.py:26-54): the block notice, or the command list and the category menu. */
    method Start(id: UserId) returns (outs: seq<Output>)
      ensures id in blocked ==> outs == [Reply(BlockedNotice, NoMarkup)]
      ensures id !in blocked ==> outs == [RegisterCommands, Reply(MenuPrompt, CategoryMenu)]
    {
      if id in blocked {
        return [Reply(BlockedNotice, NoMarkup)];
      }
      outs := [RegisterCommands, Reply(MenuPrompt, CategoryMenu)];
    }

    /** /help (main.py:58-64) */
    method Help(id: UserId) returns (outs: seq<Output>)
      ensures outs == [Reply(if id in blocked then BlockedNotice else HelpText, NoMarkup)]
    {
      if id in blocked {
        return [Reply(BlockedNotice, NoMarkup)];
      }
      outs := [Reply(HelpText, NoMarkup)];
    }

    /** /info (main.py:189): answers everyone, blocked or not. */
    method Info(id: UserId) returns (outs: seq<Output>)
      ensures outs == [Reply(InfoText, NoMarkup)]
    {
      outs := [Reply(InfoText, NoMarkup)];
    }

    /** /comment (main.py:68-81): asks for the phone number; does not touch any state. */
    method Comment(id: UserId) returns (outs: seq<Output>)
      ensures id in blocked ==> outs == [Reply(BlockedNotice, NoMarkup)]
      ensures id !in blocked ==> outs == [Reply(CommentPrompt, ContactRequest)]
    {
      if id in blocked {
        return [Reply(BlockedNotice, NoMarkup)];
      }
      outs := [Reply(CommentPrompt, ContactRequest)];
    }

    /** /admin (main.py:176-180): no block check, only the admin check. */
    method AdminPanel(id: UserId) returns (outs: seq<Output>)
      ensures |outs| == 1
      ensures outs[0] == Reply(NotAuthorized, NoMarkup) <==> id !in admins
      ensures id in admins ==> outs[0] == Reply(AdminWelcome, NoMarkup)
    {
      if id !in admins {
        return [Reply(NotAuthorized, NoMarkup)];
      }
      outs := [Reply(AdminWelcome, NoMarkup)];
    }

    /**
     * A contact share (main.py:84-96). The phone comes from the contact and is
     * stored under the sender's id, whether or not /comment came first.
     */
    method ShareContact(id: UserId, contact: Option<string>) returns (outs: seq<Output>)
      requires Valid()
      modifies this
      ensures Valid()
      ensures blocked == old(blocked)
      ensures contact.None? ==> outs == [] && states == old(states) && phones == old(phones)
      ensures contact.Some? && id in blocked ==>
        outs == [Reply(BlockedNotice, NoMarkup)] && states == old(states) && phones == old(phones)
      ensures contact.Some? && id !in blocked ==>
        && outs == [Reply(PhoneReceived, NoMarkup)]
        && states == old(states)[id := WaitingForComment]
        && phones == old(phones)[id := contact.value]
    {
      if contact.None? {
        return [];
      }
      if id in blocked {
        return [Reply(BlockedNotice, NoMarkup)];
      }
      states := states[id := WaitingForComment];
      phones := phones[id := contact.value];
      outs := [Reply(PhoneReceived, NoMarkup)];
    }

    /**
     * Free text (main.py:99-140). While the sender waits, the text goes to every
     * admin as a comment with a block button for the sender, the sender is
     * thanked and stops waiting; otherwise the sender is turned down and every
     * admin hears of the invalid text.
     */
    method FreeText(user: User, text: string) returns (outs: seq<Output>)
      requires Valid()
      modifies this
      ensures Valid()
      ensures blocked == old(blocked) && phones == old(phones)
      ensures user.id in blocked ==> outs == [Reply(BlockedNotice, NoMarkup)] && states == old(states)
      ensures user.id !in blocked && IsWaiting(old(states), user.id) ==>
        && user.id in phones
        && |outs| == |admins| + 1
        && IsFanOut(outs[..|admins|], admins,
                    CommentNotice(user, phones[user.id], text), BlockUserButton(BlockPayload(user.id)))
        && outs[|admins|] == Reply(ThanksText, NoMarkup)
        && states == old(states)[user.id := Idle]
      ensures user.id !in blocked && !IsWaiting(old(states), user.id) ==>
        && |outs| == |admins| + 1
        && outs[0] == Reply(SorryText, NoMarkup)
        && IsFanOut(outs[1..], admins, InvalidTextNotice(user, PhoneOrSentinel(phones, user.id), text), NoMarkup)
        && states == old(states)
    {
      if user.id in blocked {
        return [Reply(BlockedNotice, NoMarkup)];
      }
      var phone := PhoneOrSentinel(phones, user.id);
      if IsWaiting(states, user.id) {
        var sends := Broadcast(CommentNotice(user, phone, text), BlockUserButton(BlockPayload(user.id)));
        outs := sends + [Reply(ThanksText, NoMarkup)];
        assert outs[..|admins|] == sends;
        states := states[user.id := Idle];
      } else {
        var sends := Broadcast(InvalidTextNotice(user, phone, text), NoMarkup);
        outs := [Reply(SorryText, NoMarkup)] + sends;
        assert outs[1..] == sends;
      }
    }

    /**
     * A button press (main.py:144-172). The press is answered first. A `block_`
     * payload pressed by an admin blocks the decoded id, tells that id and
     * confirms to the admin; a malformed id raises before anything else
     * happens. Every other press is looked up in the emergency directory.
     */
    method ButtonPress(presser: UserId, data: string) returns (outs: seq<Output>, outcome: Outcome)
      requires Valid()
      modifies this
      ensures Valid()
      ensures states == old(states) && phones == old(phones)
      ensures |outs| >= 1 && outs[0] == AnswerCallback
      ensures BlockPrefix <= data && presser in admins ==>
        match DecodeBlock(data)
        case Some(target) =>
          && blocked == old(blocked) + {target}
          && (target in old(blocked) ==> blocked == old(blocked))
          && outs == [AnswerCallback, Send(target, YouAreBlockedNotice, NoMarkup), Reply(BlockedConfirmation(target), NoMarkup)]
          && outcome == Completed
        case None =>
          blocked == old(blocked) && outs == [AnswerCallback] && outcome == ValueError
      ensures !(BlockPrefix <= data && presser in admins) ==>
        && blocked == old(blocked)
        && outcome == Completed
        && outs == [AnswerCallback] + (match Directory.Lookup(data) case Some(t) => [Reply(t, NoMarkup)] case None => [])
      ensures BlockPrefix <= data && presser !in admins ==> outs == [AnswerCallback] && blocked == old(blocked)
    {
      outs := [AnswerCallback];
      if BlockPrefix <= data && presser in admins {
        match DecodeBlock(data)
        case None =>
          return outs, ValueError;
        case Some(target) =>
          blocked := blocked + {target};
          outs := outs + [Send(target, YouAreBlockedNotice, NoMarkup), Reply(BlockedConfirmation(target), NoMarkup)];
          return outs, Completed;
      }
      if BlockPrefix <= data {
        Directory.BlockPayloadIsNoCategory(data);
      }
      outcome := Completed;
      match Directory.Lookup(data)
      case Some(t) =>
        outs := outs + [Reply(t, NoMarkup)];
      case None =>
    }
  }

  // ------------------------------------------------------------ conversations

  /**
   * The comment flow on a fresh process: /comment, a contact share, then the
   * comment itself. Every admin gets the comment once, with a button that
   * blocks exactly this sender, and the sender is thanked.
   */
  method CommentConversation(user: User, phone: string, text: string)
    returns (prompt: seq<Output>, ack: seq<Output>, final: seq<Output>)
    ensures prompt == [Reply(CommentPrompt, ContactRequest)]
    ensures ack == [Reply(PhoneReceived, NoMarkup)]
    ensures |final| == |DefaultAdmins| + 1
    ensures IsFanOut(final[..|DefaultAdmins|], DefaultAdmins, CommentNotice(user, phone, text), BlockUserButton(BlockPayload(user.id)))
    ensures final[|DefaultAdmins|] == Reply(ThanksText, NoMarkup)
  {
    var bot := new Bot(DefaultAdmins);
    prompt := bot.Comment(user.id);
    ack := bot.ShareContact(user.id, Some(phone));
    final := bot.FreeText(user, text);
  }

  /**
   * A contact share is captured for the sharer only: text from another user
   * right afterwards is answered as invalid text, and the sharer's next text
   * is still taken as their comment.
   */
  method OnlySharerIsCaptured(sharer: User, other: User, phone: string, text: string)
    returns (otherOuts: seq<Output>, sharerOuts: seq<Output>)
    requires sharer.id != other.id
    ensures |otherOuts| == |DefaultAdmins| + 1 && otherOuts[0] == Reply(SorryText, NoMarkup)
    ensures IsFanOut(otherOuts[1..], DefaultAdmins, InvalidTextNotice(other, NoPhone, text), NoMarkup)
    ensures |sharerOuts| == |DefaultAdmins| + 1 && sharerOuts[|DefaultAdmins|] == Reply(ThanksText, NoMarkup)
    ensures IsFanOut(sharerOuts[..|DefaultAdmins|], DefaultAdmins, CommentNotice(sharer, phone, text), BlockUserButton(BlockPayload(sharer.id)))
  {
    var bot := new Bot(DefaultAdmins);
    var _ := bot.ShareContact(sharer.id, Some(phone));
    otherOuts := bot.FreeText(other, text);
    sharerOuts := bot.FreeText(sharer, text);
  }

  /**
   * An admin presses the "Block User" button forwarded with a comment: the
   * sender is blocked, and from then on every gated handler answers them with
   * the block notice only, whatever their conversation state. Pressing the
   * button again changes nothing.
   */
  method BlockFromCommentButton(admin: UserId, user: User, phone: string, text: string)
    returns (startOuts: seq<Output>, helpOuts: seq<Output>, commentOuts: seq<Output>,
             contactOuts: seq<Output>, textOuts: seq<Output>, blockedOnce: set<UserId>, blockedTwice: set<UserId>)
    requires admin in DefaultAdmins
    ensures blockedOnce == {user.id} && blockedTwice == blockedOnce
    ensures startOuts == helpOuts == commentOuts == contactOuts == textOuts == [Reply(BlockedNotice, NoMarkup)]
  {
    var bot := new Bot(DefaultAdmins);
    var _ := bot.ShareContact(user.id, Some(phone));
    BlockPayloadRoundTrip(user.id);
    var _, _ := bot.ButtonPress(admin, BlockPayload(user.id));
    blockedOnce := bot.blocked;
    var _, _ := bot.ButtonPress(admin, BlockPayload(user.id));
    blockedTwice := bot.blocked;
    startOuts := bot.Start(user.id);
    helpOuts := bot.Help(user.id);
    commentOuts := bot.Comment(user.id);
    contactOuts := bot.ShareContact(user.id, Some(phone));
    textOuts := bot.FreeText(user, text);
  }
}
