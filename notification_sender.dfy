/**
 * The Telegram side of the notification pipeline: the bot as a record of the HTML messages it
 * delivered, and `TelegramNotificationSender`, which finds the scrum masters to notify and sends
 * each one a message without letting a delivery failure escape.
 */
module NotificationSender {
  import opened Wrappers
  import opened Json
  import opened NotificationModels
  import opened UserRepository

  /** One HTML message (`parse_mode="HTML"`) delivered to one chat. */
  datatype Delivery = Delivery(chatId: Json, text: string)

  /**
   * The Telegram bot. A send that `refuses` (a blocked bot, an unknown or `None` chat id, a text
   * whose HTML Telegram cannot parse, a text over the length limit) raises in the library; every
   * other send is delivered.
   */
  class HtmlBot {
    var delivered: seq<Delivery>
    const refuses: (Json, string) -> bool

    constructor(refuses: (Json, string) -> bool)
      ensures this.refuses == refuses && delivered == []
    {
      this.refuses := refuses;
      delivered := [];
    }

    /** `bot.send_message(chat_id=..., text=..., parse_mode="HTML")`; `sent` is false where it raises. */
    method SendMessage(chatId: Json, text: string) returns (sent: bool)
      modifies this
      ensures sent <==> !refuses(chatId, text)
      ensures delivered == old(delivered) + Sent([chatId], text, refuses)
    {
      sent := !refuses(chatId, text);
      if sent {
        delivered := delivered + [Delivery(chatId, text)];
      }
    }
  }

  /** What a bot with refusal rule `refuses` delivers when `text` is sent to `chats` in turn. */
  function Sent(chats: seq<Json>, text: string, refuses: (Json, string) -> bool): seq<Delivery> {
    if |chats| == 0 then []
    else Sent(chats[..|chats| - 1], text, refuses)
         + (if refuses(chats[|chats| - 1], text) then [] else [Delivery(chats[|chats| - 1], text)])
  }

  lemma {:induction false} SentAppend(a: seq<Json>, b: seq<Json>, text: string, refuses: (Json, string) -> bool)
    ensures Sent(a + b, text, refuses) == Sent(a, text, refuses) + Sent(b, text, refuses)
    decreases |b|
  {
    if |b| == 0 {
      assert a + b == a;
    } else {
      assert (a + b)[..|a + b| - 1] == a + b[..|b| - 1];
      SentAppend(a, b[..|b| - 1], text, refuses);
    }
  }

  /**
   * Every delivery carries the same text, and a chat gets a delivery exactly when it is one of the
   * chats sent to and the bot does not refuse that text there.
   */
  lemma {:induction false} SentDeliveries(chats: seq<Json>, text: string, refuses: (Json, string) -> bool)
    ensures forall d :: d in Sent(chats, text, refuses) ==> d.text == text
    ensures forall c :: Delivery(c, text) in Sent(chats, text, refuses) <==> c in chats && !refuses(c, text)
    ensures |Sent(chats, text, refuses)| <= |chats|
  {
    if |chats| > 0 {
      var init := chats[..|chats| - 1];
      SentDeliveries(init, text, refuses);
      assert chats == init + [chats[|chats| - 1]];
    }
  }

  /** `[user["telegram_id"] for user in users if user.get("telegram_id")]`. */
  function Recipients(users: seq<Dict>): (r: seq<Json>)
    ensures forall x :: x in r ==> Truthy(x)
    ensures |r| <= |users|
  {
    if |users| == 0 then []
    else
      var id := Field(users[|users| - 1], "telegram_id");
      Recipients(users[..|users| - 1]) + (if Truthy(id) then [id] else [])
  }

  /** The filter keeps the order of the rows: the recipients of two runs of rows are concatenated. */
  lemma {:induction false} RecipientsAppend(a: seq<Dict>, b: seq<Dict>)
    ensures Recipients(a + b) == Recipients(a) + Recipients(b)
    decreases |b|
  {
    if |b| == 0 {
      assert a + b == a;
    } else {
      assert (a + b)[..|a + b| - 1] == a + b[..|b| - 1];
      RecipientsAppend(a, b[..|b| - 1]);
    }
  }

  /** A chat id is a recipient exactly when some row carries it as a truthy `telegram_id`. */
  lemma {:induction false} RecipientsMembership(users: seq<Dict>, x: Json)
    ensures x in Recipients(users) <==>
      Truthy(x) && exists i :: 0 <= i < |users| && Field(users[i], "telegram_id") == x
  {
    if |users| > 0 {
      var init := users[..|users| - 1];
      RecipientsMembership(init, x);
      if x in Recipients(init) {
        var i :| 0 <= i < |init| && Field(init[i], "telegram_id") == x;
        assert Field(users[i], "telegram_id") == x;
      }
      if Truthy(x) && exists i :: 0 <= i < |users| && Field(users[i], "telegram_id") == x {
        var i :| 0 <= i < |users| && Field(users[i], "telegram_id") == x;
        if i < |init| {
          assert Field(init[i], "telegram_id") == x;
        }
      }
    }
  }

  /** `TelegramNotificationSender`: the repository's storage and the bot it sends through. */
  class TelegramNotificationSender {
    const storage: Storage
    const bot: HtmlBot

    constructor(storage: Storage, bot: HtmlBot)
      ensures this.storage == storage && this.bot == bot
    {
      this.storage := storage;
      this.bot := bot;
    }

    /** `get_recipients()`: the truthy Telegram ids of the scrum masters, in the order storage lists them. */
    function GetRecipients(): (r: seq<Json>)
      ensures r == Recipients(storage.usersByRole(ScrumMasterRole))
      ensures |storage.usersByRole(ScrumMasterRole)| == 0 ==> r == []
    {
      var users := UsersByRole(storage, ScrumMasterRole);
      if |users| == 0 then [] else Recipients(users)
    }

    /** `send_message(recipient_id, message)`: at most one delivery, and a failure is swallowed. */
    method SendMessage(recipientId: Json, message: string)
      modifies bot
      ensures bot.delivered == old(bot.delivered) + Sent([recipientId], message, bot.refuses)
    {
      var sent := bot.SendMessage(recipientId, message);
    }
  }
}
