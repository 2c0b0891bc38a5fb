/**
 * `NotifyTaskChangeUseCase` and `NotifyUserStoryChangeUseCase`: format the message once, then send
 * it to every scrum master except, when asked, the author of the change. The two classes differ
 * only in which formatter entry point they call, so one class carries the item kind.
 */
module NotificationUseCases {
  import opened Json
  import opened NotificationModels
  import opened NotificationFormatter
  import opened NotificationSender
  import opened Text

  /** `skip_author and author_telegram_id and recipient_id == author_telegram_id`. */
  predicate Skipped(recipient: Json, author: Json, skipAuthor: bool) {
    skipAuthor && Truthy(author) && recipient == author
  }

  /** The recipients the loop does not `continue` past, in recipient order. */
  function Audience(recipients: seq<Json>, author: Json, skipAuthor: bool): seq<Json> {
    if |recipients| == 0 then []
    else
      var last := recipients[|recipients| - 1];
      Audience(recipients[..|recipients| - 1], author, skipAuthor) + (if Skipped(last, author, skipAuthor) then [] else [last])
  }

  /** The audience of two runs of recipients is the two audiences in turn: the order is kept. */
  lemma {:induction false} AudienceAppend(a: seq<Json>, b: seq<Json>, author: Json, skipAuthor: bool)
    ensures Audience(a + b, author, skipAuthor) == Audience(a, author, skipAuthor) + Audience(b, author, skipAuthor)
    decreases |b|
  {
    if |b| == 0 {
      assert a + b == a;
    } else {
      assert (a + b)[..|a + b| - 1] == a + b[..|b| - 1];
      AudienceAppend(a, b[..|b| - 1], author, skipAuthor);
    }
  }

  /** A recipient is messaged exactly when it is not the author being skipped. */
  lemma {:induction false} AudienceMembership(recipients: seq<Json>, author: Json, skipAuthor: bool, x: Json)
    ensures x in Audience(recipients, author, skipAuthor) <==> x in recipients && !Skipped(x, author, skipAuthor)
  {
    if |recipients| > 0 {
      var init := recipients[..|recipients| - 1];
      AudienceMembership(init, author, skipAuthor, x);
      assert recipients == init + [recipients[|recipients| - 1]];
    }
  }

  /** With `skip_author=False`, or an author without a Telegram id, everyone is messaged. */
  lemma {:induction false} AudienceEveryone(recipients: seq<Json>, author: Json, skipAuthor: bool)
    requires !skipAuthor || !Truthy(author)
    ensures Audience(recipients, author, skipAuthor) == recipients
  {
    if |recipients| > 0 {
      AudienceEveryone(recipients[..|recipients| - 1], author, skipAuthor);
      assert recipients == recipients[..|recipients| - 1] + [recipients[|recipients| - 1]];
    }
  }

  /** The use case for one item kind, with its formatter's base URL and its sender. */
  class NotifyChangeUseCase {
    const kind: ItemKind
    const baseUrl: string
    const sender: TelegramNotificationSender

    constructor(kind: ItemKind, baseUrl: string, sender: TelegramNotificationSender)
      ensures this.kind == kind && this.baseUrl == baseUrl && this.sender == sender
    {
      this.kind := kind;
      this.baseUrl := baseUrl;
      this.sender := sender;
    }

    /** The deliveries one `execute` makes: the formatted message to each messaged recipient. */
    function Deliveries(item: Item, project: Project, event: EventData, user: TaigaUser, skipAuthor: bool): seq<Delivery> {
      Sent(Audience(sender.GetRecipients(), user.telegramId, skipAuthor),
           NotificationText(kind, item, project, event, user, baseUrl), sender.bot.refuses)
    }

    /** `execute(item, project, event, user, skip_author)`: format once, then the sending loop. */
    method Execute(item: Item, project: Project, event: EventData, user: TaigaUser, skipAuthor: bool)
      modifies sender.bot
      ensures sender.bot.delivered == old(sender.bot.delivered) + Deliveries(item, project, event, user, skipAuthor)
    {
      var message := FormatNotification(kind, item, project, event, user, baseUrl);
      var recipients := sender.GetRecipients();
      SendToRecipients(recipients, user.telegramId, skipAuthor, message);
    }

    /** The `for recipient_id in recipients` loop of `execute`, with its `continue` past the author. */
    method SendToRecipients(recipients: seq<Json>, author: Json, skipAuthor: bool, message: string)
      modifies sender.bot
      ensures sender.bot.delivered == old(sender.bot.delivered) + Sent(Audience(recipients, author, skipAuthor), message, sender.bot.refuses)
    {
      var bot := sender.bot;
      ghost var before := bot.delivered;
      var i := 0;
      while i < |recipients|
        invariant 0 <= i <= |recipients|
        invariant bot.delivered == before + Sent(Audience(recipients[..i], author, skipAuthor), message, bot.refuses)
      {
        var recipient := recipients[i];
        ghost var sentSoFar := Sent(Audience(recipients[..i], author, skipAuthor), message, bot.refuses);
        assert recipients[..i + 1] == recipients[..i] + [recipient];
        SentAudienceStep(recipients[..i], recipient, author, skipAuthor, message, bot.refuses);
        if !Skipped(recipient, author, skipAuthor) {
          sender.SendMessage(recipient, message);
          Assoc(before, sentSoFar, Sent([recipient], message, bot.refuses));
        } else {
          assert sentSoFar + [] == sentSoFar;
        }
        i := i + 1;
      }
      assert recipients[..i] == recipients;
    }
  }

  /** One more recipient adds its delivery unless it is the skipped author. */
  lemma SentAudienceStep(recipients: seq<Json>, recipient: Json, author: Json, skipAuthor: bool, message: string,
                         refuses: (Json, string) -> bool)
    ensures Sent(Audience(recipients + [recipient], author, skipAuthor), message, refuses) ==
      Sent(Audience(recipients, author, skipAuthor), message, refuses)
      + (if Skipped(recipient, author, skipAuthor) then [] else Sent([recipient], message, refuses))
  {
    AudienceAppend(recipients, [recipient], author, skipAuthor);
    SentAppend(Audience(recipients, author, skipAuthor), Audience([recipient], author, skipAuthor), message, refuses);
    if Skipped(recipient, author, skipAuthor) {
      assert Audience([recipient], author, skipAuthor) == [];
    } else {
      assert Audience([recipient], author, skipAuthor) == [recipient];
    }
  }

  /** Each messaged recipient gets the one formatted message, and the author is left out when skipped. */
  lemma ExecuteMessages(useCase: NotifyChangeUseCase, item: Item, project: Project, event: EventData, user: TaigaUser,
                        skipAuthor: bool, chat: Json)
    ensures forall d :: d in useCase.Deliveries(item, project, event, user, skipAuthor) ==>
      d.text == NotificationText(useCase.kind, item, project, event, user, useCase.baseUrl)
    ensures Delivery(chat, NotificationText(useCase.kind, item, project, event, user, useCase.baseUrl))
              in useCase.Deliveries(item, project, event, user, skipAuthor) <==>
            chat in useCase.sender.GetRecipients() && !Skipped(chat, user.telegramId, skipAuthor)
            && !useCase.sender.bot.refuses(chat, NotificationText(useCase.kind, item, project, event, user, useCase.baseUrl))
  {
    var message := NotificationText(useCase.kind, item, project, event, user, useCase.baseUrl);
    var audience := Audience(useCase.sender.GetRecipients(), user.telegramId, skipAuthor);
    SentDeliveries(audience, message, useCase.sender.bot.refuses);
    AudienceMembership(useCase.sender.GetRecipients(), user.telegramId, skipAuthor, chat);
  }
}
