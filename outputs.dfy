/**
 * What a handler sends back to the platform, as records instead of calls,
 * the fixed texts of the bot, the two notices formatted for admins
 * (main.py:113-115, main.py:133-138) and the shape of an admin fan-out.
 */
module Outputs {
  import opened Options
  import opened Text
  import opened Payload

  /** The user attached to an inbound message. `fullName` is computed by the platform library. */
  datatype User = User(
    id: UserId,
    firstName: string,
    lastName: Option<string>,
    username: Option<string>,
    fullName: string)

  /** The keyboard attached to an outgoing text. */
  datatype Markup =
    | NoMarkup
    | CategoryMenu                       // the six emergency buttons (main.py:40-47)
    | ContactRequest                     // the one-shot "share phone number" keyboard (main.py:74-78)
    | BlockUserButton(payload: string)   // one inline button "Block User" (main.py:116-118)

  datatype Output =
    | RegisterCommands                   // set_my_commands with the five commands (main.py:31-38)
    | Reply(text: string, markup: Markup)  // a reply in the chat the event came from
    | Send(chat: UserId, text: string, markup: Markup)  // a message to a given chat id
    | AnswerCallback                     // query.answer(), which clears the button's pending state

  // ------------------------------------------------------------- fixed texts

  const BlockedNotice: string := "\U{1F6AB} Siz botdan foydalanishdan bloklangansiz."
  const YouAreBlockedNotice: string := "\U{1F6AB} Siz botdan foydalanishdan bloklandingiz."
  const MenuPrompt: string := "Choose the button from the following list:"
  const HelpText: string := "For using bot please type /start!"
  const InfoText: string := "Bot info."
  const CommentPrompt: string :=
    "\U{1F4CC} Iltimos, komment yozishda hurmatli bo\U{2018}ling.\n\U{2757} Haqoratli so\U{2018}z ishlatsangiz bloklanasiz.\n\n\U{260E} Telefon raqamingizni ulashing:"
  const PhoneReceived: string := "\U{2705} Phone number received!\n\U{270F}\U{FE0F} Now please write your comment:"
  const ThanksText: string := "\U{2705} Thank you for commenting. Your comment has been sent to the admin."
  const SorryText: string := "Sorry, I can't do that."
  const NotAuthorized: string := "\U{274C} You are not authorized to use this command."
  const AdminWelcome: string := "\U{2705} Welcome to Admin Panel."
  const NoPhone: string := "No phone number"
  const NoLastName: string := "No lastname"
  const NoUsername: string := "No username"

  /** `f"✅ User {block_id} blocked."` */
  function BlockedConfirmation(id: UserId): (r: string)
    ensures IsInfix(IntToString(id), r)
  {
    InfixOfConcat("\U{2705} User ", IntToString(id), " blocked.");
    "\U{2705} User " + IntToString(id) + " blocked."
  }

  // ------------------------------------------------------------------ notices

  /** The lines of the comment forwarded to each admin (main.py:113-115). */
  function CommentLines(user: User, phone: string, text: string): seq<string> {
    [ "\U{1F4E9} New comment from " + user.fullName + " (" + IntToString(user.id) + "):",
      "\U{1F4DE} Phone: " + phone,
      "",
      text ]
  }

  /**
   * The comment notice: its lines joined by newlines. It names the sender's display name,
   * the sender's id, the phone and the comment.
   */
  function CommentNotice(user: User, phone: string, text: string): (n: string)
    ensures IsInfix(user.fullName, n)
    ensures IsInfix(IntToString(user.id), n)
    ensures IsInfix(phone, n)
    ensures IsInfix(text, n)
  {
    var lines := CommentLines(user, phone, text);
    JoinMentions(lines, '\n', 0, "\U{1F4E9} New comment from ", user.fullName, " (" + IntToString(user.id) + "):");
    JoinMentions(lines, '\n', 0, "\U{1F4E9} New comment from " + user.fullName + " (", IntToString(user.id), "):");
    JoinMentions(lines, '\n', 1, "\U{1F4DE} Phone: ", phone, "");
    JoinMentions(lines, '\n', 3, "", text, "");
    Join(lines, '\n')
  }

  /** The lines of the notice each admin gets about free text outside a comment (main.py:133-138). */
  function InvalidTextLines(user: User, phone: string, text: string): seq<string> {
    [ "\U{1F6AB} Invalid text from @EmergencyNumbersBot:",
      "First name: " + user.firstName,
      "Last name: " + OrElse(user.lastName, NoLastName),
      "Username: " + OrElse(user.username, NoUsername),
      "\U{1F4DE} Phone: " + phone,
      "Message: " + text ]
  }

  /**
   * The invalid-text notice: its lines joined by newlines. It names the first name,
   * the last name or "No lastname", the username or "No username", the phone and the message.
   */
  function InvalidTextNotice(user: User, phone: string, text: string): (n: string)
    ensures IsInfix(user.firstName, n)
    ensures IsInfix(OrElse(user.lastName, NoLastName), n)
    ensures IsInfix(OrElse(user.username, NoUsername), n)
    ensures (user.lastName.None? || user.lastName.value == "") ==> IsInfix(NoLastName, n)
    ensures (user.username.None? || user.username.value == "") ==> IsInfix(NoUsername, n)
    ensures IsInfix(phone, n)
    ensures IsInfix(text, n)
  {
    var lines := InvalidTextLines(user, phone, text);
    JoinMentions(lines, '\n', 1, "First name: ", user.firstName, "");
    JoinMentions(lines, '\n', 2, "Last name: ", OrElse(user.lastName, NoLastName), "");
    JoinMentions(lines, '\n', 3, "Username: ", OrElse(user.username, NoUsername), "");
    JoinMentions(lines, '\n', 4, "\U{1F4DE} Phone: ", phone, "");
    JoinMentions(lines, '\n', 5, "Message: ", text, "");
    Join(lines, '\n')
  }

  /** Whatever one line of a joined text contains, the whole text contains. */
  lemma {:induction false} JoinMentions(parts: seq<string>, sep: char, k: nat, pre: string, x: string, post: string)
    requires k < |parts| && parts[k] == pre + x + post
    ensures IsInfix(x, Join(parts, sep))
    decreases k
  {
    if k == 0 {
      if |parts| == 1 {
        InfixOfConcat(pre, x, post);
      } else {
        assert Join(parts, sep) == pre + x + (post + [sep] + Join(parts[1..], sep));
        InfixOfConcat(pre, x, post + [sep] + Join(parts[1..], sep));
      }
    } else {
      JoinMentions(parts[1..], sep, k - 1, pre, x, post);
      InfixOfSuffix(x, parts[0] + [sep], Join(parts[1..], sep));
    }
  }

  // ------------------------------------------------------------------ fan-out

  /** How many of the outputs are messages sent to `chat`. */
  function SendsTo(outs: seq<Output>, chat: UserId): nat
    decreases |outs|
  {
    if outs == [] then 0
    else SendsTo(outs[..|outs| - 1], chat) + (if outs[|outs| - 1].Send? && outs[|outs| - 1].chat == chat then 1 else 0)
  }

  /**
   * `outs` is one broadcast of `text` with `markup` to the admin set:
   * every output is that message sent to an admin, and every admin gets it exactly once.
   */
  ghost predicate IsFanOut(outs: seq<Output>, admins: set<UserId>, text: string, markup: Markup) {
    && (forall i | 0 <= i < |outs| :: outs[i].Send? && outs[i].chat in admins && outs[i].text == text && outs[i].markup == markup)
    && (forall a | a in admins :: SendsTo(outs, a) == 1)
  }

  /** In a broadcast every admin actually receives the message. */
  lemma FanOutReachesEveryAdmin(outs: seq<Output>, admins: set<UserId>, text: string, markup: Markup)
    requires IsFanOut(outs, admins, text, markup)
    ensures forall a | a in admins :: exists i | 0 <= i < |outs| :: outs[i] == Send(a, text, markup)
  {
    forall a | a in admins ensures exists i | 0 <= i < |outs| :: outs[i] == Send(a, text, markup) {
      SomeSendTo(outs, a);
    }
  }

  /** A chat with at least one message sent to it appears at some position. */
  lemma {:induction false} SomeSendTo(outs: seq<Output>, chat: UserId)
    requires SendsTo(outs, chat) > 0
    ensures exists i | 0 <= i < |outs| :: outs[i].Send? && outs[i].chat == chat
    decreases |outs|
  {
    var init := outs[..|outs| - 1];
    if !(outs[|outs| - 1].Send? && outs[|outs| - 1].chat == chat) {
      SomeSendTo(init, chat);
      var i :| 0 <= i < |init| && init[i].Send? && init[i].chat == chat;
      assert outs[i] == init[i];
    }
  }

  lemma {:induction false} NoSendsToAbsent(outs: seq<Output>, chat: UserId)
    requires SendsTo(outs, chat) == 0
    ensures forall i | 0 <= i < |outs| :: !(outs[i].Send? && outs[i].chat == chat)
    decreases |outs|
  {
    if outs != [] {
      var init := outs[..|outs| - 1];
      NoSendsToAbsent(init, chat);
      assert forall i | 0 <= i < |init| :: outs[i] == init[i];
    }
  }

  /** A broadcast holds exactly one message per admin, so as many messages as admins. */
  lemma {:induction false} FanOutSize(outs: seq<Output>, admins: set<UserId>, text: string, markup: Markup)
    requires IsFanOut(outs, admins, text, markup)
    ensures |outs| == |admins|
    decreases |outs|
  {
    if outs == [] {
      forall a ensures a !in admins {
        assert SendsTo(outs, a) == 0;
      }
      assert admins == {};
    } else {
      var init := outs[..|outs| - 1];
      var last := outs[|outs| - 1].chat;
      assert SendsTo(outs, last) == SendsTo(init, last) + 1;
      assert SendsTo(init, last) == 0;
      NoSendsToAbsent(init, last);
      var rest := admins - {last};
      forall i | 0 <= i < |init|
        ensures init[i].Send? && init[i].chat in rest && init[i].text == text && init[i].markup == markup
      {
        assert init[i] == outs[i];
      }
      forall a | a in rest ensures SendsTo(init, a) == 1 {
        assert SendsTo(outs, a) == SendsTo(init, a);
      }
      FanOutSize(init, rest, text, markup);
    }
  }
}
