/**
 * `DefaultNotificationProcessor` of `notification_listener/processor.py`: every registered sender
 * gets the payload once, in list order, and an exception from one sender is logged and does not
 * keep the later ones from running.
 */
module NotificationProcessor {
  import opened Wrappers
  import Text
  import opened Json
  import opened NotificationSender
  import opened LegacySender

  /** The deliveries of a run of senders, sender after sender. */
  function AllDeliveries(senders: seq<LegacyTelegramSender>, payload: Json): seq<Delivery> {
    if |senders| == 0 then []
    else AllDeliveries(senders[..|senders| - 1], payload) + senders[|senders| - 1].Deliveries(payload)
  }

  /** What each sender of a run raises, in sender order. */
  function AllErrors(senders: seq<LegacyTelegramSender>, payload: Json): seq<Option<string>> {
    if |senders| == 0 then []
    else AllErrors(senders[..|senders| - 1], payload) + [senders[|senders| - 1].Raised(payload)]
  }

  /** One entry per sender, and an entry is an error exactly when that sender raised. */
  lemma {:induction false} AllErrorsIndex(senders: seq<LegacyTelegramSender>, payload: Json)
    ensures |AllErrors(senders, payload)| == |senders|
    ensures forall i :: 0 <= i < |senders| ==> AllErrors(senders, payload)[i] == senders[i].Raised(payload)
  {
    if |senders| > 0 {
      var init := senders[..|senders| - 1];
      AllErrorsIndex(init, payload);
      var errors := AllErrors(senders, payload);
      assert errors == AllErrors(init, payload) + [senders[|senders| - 1].Raised(payload)];
      forall i | 0 <= i < |senders|
        ensures errors[i] == senders[i].Raised(payload)
      {
        if i < |init| {
          assert errors[i] == AllErrors(init, payload)[i];
          assert senders[i] == init[i];
        } else {
          assert errors[i] == senders[|senders| - 1].Raised(payload);
        }
      }
    }
  }

  lemma {:induction false} AllDeliveriesAppend(a: seq<LegacyTelegramSender>, b: seq<LegacyTelegramSender>, payload: Json)
    ensures AllDeliveries(a + b, payload) == AllDeliveries(a, payload) + AllDeliveries(b, payload)
    decreases |b|
  {
    if |b| == 0 {
      assert a + b == a;
    } else {
      assert (a + b)[..|a + b| - 1] == a + b[..|b| - 1];
      AllDeliveriesAppend(a, b[..|b| - 1], payload);
      Text.Assoc(AllDeliveries(a, payload), AllDeliveries(b[..|b| - 1], payload), b[|b| - 1].Deliveries(payload));
    }
  }

  /**
   * A sender that raises contributes no delivery, and the senders after it still contribute theirs:
   * the deliveries of a run are those of the senders before, of this one, and of the senders after.
   */
  lemma RaisingSenderIsIsolated(before: seq<LegacyTelegramSender>, sender: LegacyTelegramSender,
                                after: seq<LegacyTelegramSender>, payload: Json)
    ensures AllDeliveries(before + [sender] + after, payload) ==
      AllDeliveries(before, payload) + sender.Deliveries(payload) + AllDeliveries(after, payload)
    ensures sender.Plan(payload).Err? ==>
      AllDeliveries(before + [sender] + after, payload) == AllDeliveries(before, payload) + AllDeliveries(after, payload)
  {
    AllDeliveriesAppend(before + [sender], after, payload);
    assert (before + [sender])[..|before + [sender]| - 1] == before;
    if sender.Plan(payload).Err? {
      assert sender.Deliveries(payload) == [];
      assert AllDeliveries(before, payload) + [] == AllDeliveries(before, payload);
    }
  }

  /** The processor and the bot its senders share, as the listener wires them. */
  class DefaultNotificationProcessor {
    const senders: seq<LegacyTelegramSender>
    const bot: HtmlBot

    predicate Wired() {
      forall s :: s in senders ==> s.bot == bot
    }

    /** `senders or []`: no list, or an empty one, leaves the processor without senders. */
    constructor(senders: Option<seq<LegacyTelegramSender>>, bot: HtmlBot)
      requires senders.Some? ==> forall s :: s in senders.value ==> s.bot == bot
      ensures this.senders == (if senders.Some? then senders.value else [])
      ensures this.bot == bot && Wired()
    {
      this.senders := if senders.Some? then senders.value else [];
      this.bot := bot;
    }

    /** `process(payload)`; `logged` holds what each sender raised, and nothing propagates. */
    method Process(payload: Json) returns (logged: seq<Option<string>>)
      requires Wired()
      modifies bot
      ensures logged == AllErrors(senders, payload)
      ensures bot.delivered == old(bot.delivered) + AllDeliveries(senders, payload)
    {
      logged := [];
      var i := 0;
      while i < |senders|
        invariant 0 <= i <= |senders|
        invariant logged == AllErrors(senders[..i], payload)
        invariant bot.delivered == old(bot.delivered) + AllDeliveries(senders[..i], payload)
      {
        var sender := senders[i];
        assert senders[..i + 1] == senders[..i] + [sender];
        assert senders[..i + 1][..i] == senders[..i];
        var raised := sender.SendNotification(payload);
        Text.Assoc(old(bot.delivered), AllDeliveries(senders[..i], payload), sender.Deliveries(payload));
        logged := logged + [raised];
        i := i + 1;
      }
      assert senders[..i] == senders;
    }
  }
}
