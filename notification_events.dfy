/**
 * From a payload to the handlers: `EventFactory.create_event`, `ProcessEventUseCase.execute`
 * (consult every handler in order, run each that claims the event) and `EventProcessor.process`
 * (create the event once, run the use case, swallow whatever it raises).
 */
module NotificationEvents {
  import opened Wrappers
  import Text
  import opened Json
  import opened NotificationModels
  import opened NotificationSender
  import opened NotificationHandlers

  /** The event `create_event` falls back to when the payload cannot be read. */
  const UnknownEvent: EventData := EventData(JStr("unknown"), EmptyDict)

  /** `EventFactory.create_event(payload)`: never raises. */
  function CreateEvent(payload: Json, decode: string -> Option<Json>): (r: EventData)
    ensures EventFromDict(payload, decode).Ok? ==> r == EventFromDict(payload, decode).value
    ensures EventFromDict(payload, decode).Err? ==> r == UnknownEvent
  {
    match EventFromDict(payload, decode)
    case Ok(event) => event
    case Err(_) => UnknownEvent
  }

  /** The fallback is what an empty payload reads as. */
  lemma FallbackIsEmptyPayload(decode: string -> Option<Json>)
    ensures EventFromDict(JObj(map[]), decode) == Ok(UnknownEvent)
  {
    assert EventDataField(map[], decode) == EmptyDict;
  }

  /** Neither shipped handler claims the fallback event. */
  lemma FallbackIsUnclaimed(kind: ItemKind)
    ensures CanHandle(kind, UnknownEvent) == Ok(false)
  {
    assert "unknown"[0] == 'u' && "unknown"[1] == 'n';
  }

  /** `handler.can_handle(event)` is true. */
  predicate Claims(h: EventHandler, event: EventData) {
    CanHandle(h.Kind(), event) == Ok(true)
  }

  /** The handlers that claim the event, in list order. */
  function Claiming(hs: seq<EventHandler>, event: EventData): seq<EventHandler> {
    if |hs| == 0 then []
    else Claiming(hs[..|hs| - 1], event) + (if Claims(hs[|hs| - 1], event) then [hs[|hs| - 1]] else [])
  }

  /**
   * The handlers `execute(event)` runs. `can_handle` raises for an event type that is not text, and
   * it does so in the first handler already, so then none runs; otherwise every claiming one runs.
   */
  function Run(hs: seq<EventHandler>, event: EventData): seq<EventHandler> {
    if event.eventType.JStr? then Claiming(hs, event) else []
  }

  /** The service calls of a run of handlers, handler after handler. */
  function RunCalls(hs: seq<EventHandler>, event: EventData): seq<ServiceCall> {
    if |hs| == 0 then [] else RunCalls(hs[..|hs| - 1], event) + hs[|hs| - 1].Calls(event)
  }

  /** The deliveries of a run of handlers, handler after handler. */
  function RunDeliveries(hs: seq<EventHandler>, event: EventData): seq<Delivery> {
    if |hs| == 0 then [] else RunDeliveries(hs[..|hs| - 1], event) + hs[|hs| - 1].Deliveries(event)
  }

  /** A handler runs exactly when it is listed and claims the event: there is no first-match stop. */
  lemma {:induction false} ClaimingMembership(hs: seq<EventHandler>, event: EventData, h: EventHandler)
    ensures h in Claiming(hs, event) <==> h in hs && Claims(h, event)
  {
    if |hs| > 0 {
      var init := hs[..|hs| - 1];
      ClaimingMembership(init, event, h);
      assert hs == init + [hs[|hs| - 1]];
    }
  }

  /** When no handler claims the event none runs; when all do, all run, in list order. */
  lemma {:induction false} ClaimingExtremes(hs: seq<EventHandler>, event: EventData)
    ensures (forall g :: g in hs ==> !Claims(g, event)) ==> Claiming(hs, event) == []
    ensures (forall g :: g in hs ==> Claims(g, event)) ==> Claiming(hs, event) == hs
  {
    if |hs| > 0 {
      var init := hs[..|hs| - 1];
      ClaimingExtremes(init, event);
      assert hs == init + [hs[|hs| - 1]];
      assert forall g :: g in init ==> g in hs;
    }
  }

  /** `ProcessEventUseCase`: the handlers, sharing one service log and one bot as the listener wires them. */
  class ProcessEventUseCase {
    const handlers: seq<EventHandler>
    const log: ServiceLog
    const bot: HtmlBot

    predicate Wired() {
      forall h :: h in handlers ==> h.service == log && h.usecase.sender.bot == bot
    }

    constructor(handlers: seq<EventHandler>, log: ServiceLog, bot: HtmlBot)
      requires forall h :: h in handlers ==> h.service == log && h.usecase.sender.bot == bot
      ensures this.handlers == handlers && this.log == log && this.bot == bot && Wired()
    {
      this.handlers := handlers;
      this.log := log;
      this.bot := bot;
    }

    /** `execute(event)`; `error` is what `can_handle` raised, if anything. */
    method Execute(event: EventData) returns (error: Option<string>)
      requires Wired()
      modifies log, bot
      ensures error.Some? <==> |handlers| > 0 && !event.eventType.JStr?
      ensures log.calls == old(log.calls) + RunCalls(Run(handlers, event), event)
      ensures bot.delivered == old(bot.delivered) + RunDeliveries(Run(handlers, event), event)
    {
      ghost var calls0, delivered0 := log.calls, bot.delivered;
      var i := 0;
      assert handlers[..0] == [];
      while i < |handlers|
        invariant 0 <= i <= |handlers|
        invariant i > 0 ==> event.eventType.JStr?
        invariant log.calls == calls0 + RunCalls(Claiming(handlers[..i], event), event)
        invariant bot.delivered == delivered0 + RunDeliveries(Claiming(handlers[..i], event), event)
      {
        var h := handlers[i];
        ghost var ran := Claiming(handlers[..i], event);
        var claim := Consult(h, event, ran, calls0, delivered0);
        if claim.Err? {
          assert ran == [] && ran + [] == [];
          return Some(claim.error);
        }
        ClaimingPrefixStep(handlers, i, event);
        i := i + 1;
      }
      assert handlers[..i] == handlers;
      return None;
    }

    /** One turn of the loop: ask the handler, and run it when it claims the event. */
    method Consult(h: EventHandler, event: EventData, ghost ran: seq<EventHandler>,
                   ghost calls0: seq<ServiceCall>, ghost delivered0: seq<Delivery>) returns (claim: Result<bool>)
      requires h.service == log && h.usecase.sender.bot == bot
      requires log.calls == calls0 + RunCalls(ran, event)
      requires bot.delivered == delivered0 + RunDeliveries(ran, event)
      modifies log, bot
      ensures claim == CanHandle(h.Kind(), event)
      ensures log.calls == calls0 + RunCalls(ran + (if claim == Ok(true) then [h] else []), event)
      ensures bot.delivered == delivered0 + RunDeliveries(ran + (if claim == Ok(true) then [h] else []), event)
    {
      claim := CanHandle(h.Kind(), event);
      if claim == Ok(true) {
        h.Handle(event);
        RunStep(ran, h, event);
        Text.Assoc(calls0, RunCalls(ran, event), h.Calls(event));
        Text.Assoc(delivered0, RunDeliveries(ran, event), h.Deliveries(event));
      } else {
        assert ran + [] == ran;
      }
    }
  }

  /** Asking the handler at index `i` adds it to the run of the first `i` exactly when it claims the event. */
  lemma ClaimingPrefixStep(hs: seq<EventHandler>, i: nat, event: EventData)
    requires i < |hs|
    ensures Claiming(hs[..i + 1], event) == Claiming(hs[..i], event) + (if Claims(hs[i], event) then [hs[i]] else [])
  {
    assert hs[..i + 1] == hs[..i] + [hs[i]];
    ClaimingStep(hs[..i], hs[i], event);
  }

  /** Asking one more handler adds it to the run exactly when it claims the event. */
  lemma ClaimingStep(hs: seq<EventHandler>, h: EventHandler, event: EventData)
    ensures Claiming(hs + [h], event) == Claiming(hs, event) + (if Claims(h, event) then [h] else [])
  {
    assert (hs + [h])[..|hs + [h]| - 1] == hs;
  }

  /** Running one more handler appends its calls and its deliveries. */
  lemma RunStep(hs: seq<EventHandler>, h: EventHandler, event: EventData)
    ensures RunCalls(hs + [h], event) == RunCalls(hs, event) + h.Calls(event)
    ensures RunDeliveries(hs + [h], event) == RunDeliveries(hs, event) + h.Deliveries(event)
  {
    assert (hs + [h])[..|hs + [h]| - 1] == hs;
  }

  /** `EventProcessor`: the factory's JSON decoder and the use case built once from the handler list. */
  class EventProcessor {
    const decode: string -> Option<Json>
    const usecase: ProcessEventUseCase

    constructor(decode: string -> Option<Json>, handlers: seq<EventHandler>, log: ServiceLog, bot: HtmlBot)
      requires forall h :: h in handlers ==> h.service == log && h.usecase.sender.bot == bot
      ensures this.decode == decode && fresh(usecase) && usecase.handlers == handlers
      ensures usecase.log == log && usecase.bot == bot && usecase.Wired()
    {
      this.decode := decode;
      usecase := new ProcessEventUseCase(handlers, log, bot);
    }

    /** `process(payload)`: one event, one run of the use case, and nothing propagates. */
    method Process(payload: Json)
      requires usecase.Wired()
      modifies usecase.log, usecase.bot
      ensures usecase.log.calls ==
        old(usecase.log.calls) + RunCalls(Run(usecase.handlers, CreateEvent(payload, decode)), CreateEvent(payload, decode))
      ensures usecase.bot.delivered ==
        old(usecase.bot.delivered) + RunDeliveries(Run(usecase.handlers, CreateEvent(payload, decode)), CreateEvent(payload, decode))
    {
      var event := CreateEvent(payload, decode);
      var error := usecase.Execute(event);
    }
  }

  /** A payload that cannot be read runs no handler of either shipped kind: nothing is called or sent. */
  lemma UnreadablePayloadRunsNothing(hs: seq<EventHandler>, payload: Json, decode: string -> Option<Json>)
    requires EventFromDict(payload, decode).Err?
    ensures Run(hs, CreateEvent(payload, decode)) == []
  {
    forall g | g in hs
      ensures !Claims(g, UnknownEvent)
    {
      FallbackIsUnclaimed(g.Kind());
    }
    ClaimingExtremes(hs, UnknownEvent);
  }
}
