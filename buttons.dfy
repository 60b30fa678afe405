/**
 * Buttons on a reply: which edit strips them (removeButtons), and the
 * collector that dispatches clicks to handlers (listenForButtons).
 * Every effect the collector causes is recorded, in order, in an action log.
 */
module Buttons {
  import opened Basics

  /** INTERACTION_MAX_TIMEOUT: fifteen minutes, in milliseconds. */
  const InteractionMaxTimeout: int := 15 * 60 * 1000

  datatype MessageType = DefaultMessage | OtherMessageType

  /**
   * A reply message. `hydrated` tells a full message object (which has an
   * `edit` method and a `channel`) from a raw API message (which has neither).
   * A full message's `channel` is None when its channel is not in the
   * client's cache.
   */
  datatype Message = Message(id: string, hydrated: bool, editable: bool, kind: MessageType, channel: Option<string>)

  /** The slash-command interaction; `replyId` is the id `fetchReply` yields. */
  datatype Interaction = Interaction(createdTimestamp: int, channel: Option<string>, replyId: string)

  datatype ActionRow = ActionRow(buttonIds: seq<string>)

  /** The one edit removeButtons makes, with the components it sets. */
  datatype Edit =
    | EditMessage(messageId: string, components: seq<ActionRow>)
    | EditFollowUp(messageId: string, components: seq<ActionRow>)
    | EditReply(components: seq<ActionRow>)
    | NoEdit

  /** A channel message the bot can still edit itself. */
  predicate EditableChannelMessage(m: Message) {
    m.hydrated && m.editable && m.kind == DefaultMessage
  }

  /** removeButtons: pick the edit that strips the buttons from where the reply lives. */
  function RemoveButtons(interaction: Option<Interaction>, message: Option<Message>): (e: Edit)
    ensures e.EditMessage? <==> interaction.None? && message.Some? && EditableChannelMessage(message.value)
    ensures e.EditFollowUp? <==> interaction.Some? && message.Some?
    ensures e.EditReply? <==> interaction.Some? && message.None?
    ensures e.NoEdit? <==> interaction.None? && (message.None? || !EditableChannelMessage(message.value))
    ensures (e.EditMessage? || e.EditFollowUp?) ==> e.messageId == message.value.id
    ensures e != NoEdit ==> e.components == []
  {
    if interaction.None? && message.Some? && EditableChannelMessage(message.value) then
      EditMessage(message.value.id, [])
    else if interaction.Some? && message.Some? then
      EditFollowUp(message.value.id, [])
    else if interaction.Some? then
      EditReply([])
    else
      NoEdit
  }

  /** The collector's `time`: what is left of the interaction's window, or no limit. */
  function CollectorTime(interaction: Option<Interaction>, now: int): (t: Option<int>)
    ensures t.Some? <==> interaction.Some?
    // the collector expires fifteen minutes after the interaction was created, whenever it is set up
    ensures t.Some? ==> now + t.value == interaction.value.createdTimestamp + InteractionMaxTimeout
  {
    if interaction.Some? then Some(interaction.value.createdTimestamp + InteractionMaxTimeout - now) else None
  }

  /** The id of the message whose clicks are collected. */
  function WatchedMessageId(interaction: Option<Interaction>, message: Option<Message>): (id: string)
    requires interaction.Some? || message.Some?
    ensures message.Some? ==> id == message.value.id
    ensures message.None? ==> id == interaction.value.replyId
  {
    if message.Some? then message.value.id else interaction.value.replyId
  }

  /** The interaction's channel when there is an interaction, else the message's. */
  function FindChannel(interaction: Option<Interaction>, message: Option<Message>): (c: Option<string>)
    ensures interaction.Some? ==> c == interaction.value.channel
    ensures interaction.None? && message.Some? && message.value.hydrated ==> c == message.value.channel
    ensures interaction.None? && (message.None? || !message.value.hydrated) ==> c.None?
  {
    if interaction.Some? then interaction.value.channel
    else if message.Some? && message.value.hydrated then message.value.channel
    else None
  }

  datatype Action =
    | Acknowledge(customId: string)     // deferUpdate on the click
    | RunHandler(customId: string)
    | HandlerThrew(customId: string)    // the handler threw synchronously; the listener stops there
    | RunCleanupCallback
    | StripButtons(edit: Edit)          // a call of removeButtons

  datatype Tag = AcknowledgeTag | HandlerTag | ThrowTag | CallbackTag | StripTag

  function TagOf(a: Action): Tag {
    match a
    case Acknowledge(_) => AcknowledgeTag
    case RunHandler(_) => HandlerTag
    case HandlerThrew(_) => ThrowTag
    case RunCleanupCallback => CallbackTag
    case StripButtons(_) => StripTag
  }

  /** How many actions of the log carry the tag. */
  function Count(log: seq<Action>, tag: Tag): nat {
    if log == [] then 0 else CountOne(log[0], tag) + Count(log[1..], tag)
  }

  lemma {:induction false} CountOfConcat(a: seq<Action>, b: seq<Action>, tag: Tag)
    ensures Count(a + b, tag) == Count(a, tag) + Count(b, tag)
  {
    if a == [] {
      assert a + b == b;
    } else {
      assert (a + b)[0] == a[0];
      assert (a + b)[1..] == a[1..] + b;
      CountOfConcat(a[1..], b, tag);
    }
  }

  function CountOne(a: Action, tag: Tag): nat {
    if TagOf(a) == tag then 1 else 0
  }

  lemma CountSingle(a: Action, tag: Tag)
    ensures Count([a], tag) == CountOne(a, tag)
  {
    assert [a][1..] == [];
  }

  /** What follows a handler run: the throw that ends the listener, else the cleanup callback if there is one. */
  function AfterHandler(customId: string, hasCleanupCallback: bool, handlerThrows: bool): seq<Action> {
    if handlerThrows then [HandlerThrew(customId)]
    else if hasCleanupCallback then [RunCleanupCallback]
    else []
  }

  /** The actions one collected click causes. `handlerThrows` says whether the
      handler, if one is registered, throws before returning. */
  function ClickActions(customId: string, handlers: set<string>, hasCleanupCallback: bool, handlerThrows: bool): seq<Action> {
    [Acknowledge(customId)]
    + if customId in handlers then [RunHandler(customId)] + AfterHandler(customId, hasCleanupCallback, handlerThrows)
      else []
  }

  /** A click never strips the buttons; it runs a handler exactly when its id is
      registered, and the cleanup callback exactly when a handler ran, returned
      normally and there is one. */
  lemma ClickActionCounts(customId: string, handlers: set<string>, hasCleanupCallback: bool, handlerThrows: bool)
    ensures var log := ClickActions(customId, handlers, hasCleanupCallback, handlerThrows);
      && Count(log, StripTag) == 0
      && Count(log, AcknowledgeTag) == 1
      && Count(log, HandlerTag) == (if customId in handlers then 1 else 0)
      && Count(log, ThrowTag) == (if customId in handlers && handlerThrows then 1 else 0)
      && Count(log, CallbackTag) == (if customId in handlers && hasCleanupCallback && !handlerThrows then 1 else 0)
  {
    var after := AfterHandler(customId, hasCleanupCallback, handlerThrows);
    var tail := if customId in handlers then [RunHandler(customId)] + after else [];
    forall tag | true
      ensures Count(ClickActions(customId, handlers, hasCleanupCallback, handlerThrows), tag)
              == CountOne(Acknowledge(customId), tag) + Count(tail, tag)
      ensures Count(after, tag) == if handlerThrows then CountOne(HandlerThrew(customId), tag)
                                   else if hasCleanupCallback then CountOne(RunCleanupCallback, tag) else 0
      ensures customId in handlers ==> Count(tail, tag) == CountOne(RunHandler(customId), tag) + Count(after, tag)
      ensures customId !in handlers ==> Count(tail, tag) == 0
    {
      CountOfConcat([Acknowledge(customId)], tail, tag);
      CountOfConcat([RunHandler(customId)], after, tag);
      CountSingle(Acknowledge(customId), tag);
      CountSingle(RunHandler(customId), tag);
      CountSingle(HandlerThrew(customId), tag);
      CountSingle(RunCleanupCallback, tag);
    }
  }

  /** No channel: nothing ever listens. SetupFailed: creating the collector threw.
      Listening: the collector is open. Ended: its `end` event has fired. */
  datatype Phase = NoChannel | SetupFailed | Listening | Ended

  class ButtonCollector {
    const interaction: Option<Interaction>
    const message: Option<Message>
    /** The custom ids that have a handler. */
    const handlers: set<string>
    const hasCleanupCallback: bool
    const time: Option<int>
    const watchedId: string
    var phase: Phase
    var actions: seq<Action>

    ghost predicate Valid()
      reads this
    {
      && Count(actions, StripTag) == (if phase == SetupFailed || phase == Ended then 1 else 0)
      && (forall a :: a in actions && a.StripButtons? ==> a.edit == RemoveButtons(interaction, message))
      && (forall a :: a in actions && a.RunHandler? ==> a.customId in handlers)
      && (if hasCleanupCallback then Count(actions, CallbackTag) + Count(actions, ThrowTag) == Count(actions, HandlerTag)
          else Count(actions, CallbackTag) == 0)
      && (phase == NoChannel ==> actions == [])
    }

    /** listenForButtons, up to the point where it returns. `setupThrows` says
        whether creating the collector or registering its listeners threw. */
    constructor Listen(interaction: Option<Interaction>, message: Option<Message>, handlers: set<string>,
                       hasCleanupCallback: bool, now: int, setupThrows: bool)
      requires interaction.Some? || message.Some?
      ensures Valid()
      ensures this.interaction == interaction && this.message == message
      ensures this.handlers == handlers && this.hasCleanupCallback == hasCleanupCallback
      ensures time == CollectorTime(interaction, now)
      ensures watchedId == WatchedMessageId(interaction, message)
      ensures phase == if FindChannel(interaction, message).None? then NoChannel
                       else if setupThrows then SetupFailed
                       else Listening
      ensures actions == if phase == SetupFailed then [StripButtons(RemoveButtons(interaction, message))] else []
    {
      this.interaction := interaction;
      this.message := message;
      this.handlers := handlers;
      this.hasCleanupCallback := hasCleanupCallback;
      time := CollectorTime(interaction, now);
      watchedId := WatchedMessageId(interaction, message);
      var channel := FindChannel(interaction, message);
      if channel.None? {
        phase := NoChannel;
        actions := [];
      } else if setupThrows {
        phase := SetupFailed;
        actions := [StripButtons(RemoveButtons(interaction, message))];
      } else {
        phase := Listening;
        actions := [];
      }
    }

    /** A `collect` event: a click on message `messageId` on button `customId`,
        whose handler throws when `handlerThrows`. The collector stays open
        after dispatching, whether or not the handler threw. */
    method Collect(messageId: string, customId: string, handlerThrows: bool)
      requires Valid()
      modifies this`actions
      ensures Valid()
      ensures actions == old(actions) +
                if phase == Listening && messageId == watchedId then ClickActions(customId, handlers, hasCleanupCallback, handlerThrows)
                else []
      ensures Count(actions, StripTag) == old(Count(actions, StripTag))
    {
      if phase == Listening && messageId == watchedId {
        var added := ClickActions(customId, handlers, hasCleanupCallback, handlerThrows);
        ClickActionCounts(customId, handlers, hasCleanupCallback, handlerThrows);
        CountOfConcat(actions, added, StripTag);
        CountOfConcat(actions, added, HandlerTag);
        CountOfConcat(actions, added, ThrowTag);
        CountOfConcat(actions, added, CallbackTag);
        actions := actions + added;
      }
    }

    /** The `end` event (time limit reached or collector stopped): strip the buttons once. */
    method End()
      requires Valid()
      modifies this
      ensures Valid()
      ensures phase == if old(phase) == Listening then Ended else old(phase)
      ensures actions == old(actions) + if old(phase) == Listening then [StripButtons(RemoveButtons(interaction, message))] else []
      ensures Count(actions, StripTag) <= 1
    {
      if phase == Listening {
        var added := [StripButtons(RemoveButtons(interaction, message))];
        CountOfConcat(actions, added, StripTag);
        CountOfConcat(actions, added, HandlerTag);
        CountOfConcat(actions, added, ThrowTag);
        CountOfConcat(actions, added, CallbackTag);
        actions := actions + added;
        phase := Ended;
      }
    }
  }

  /** What can reach a collector: a click on some message, or its end. */
  datatype Event = Click(messageId: string, customId: string, handlerThrows: bool) | EndEvent

  /** Without a channel, no sequence of events ever strips the buttons. */
  method NoChannelNeverStrips(c: ButtonCollector, events: seq<Event>)
    requires c.Valid() && c.phase == NoChannel
    modifies c
    ensures c.Valid() && c.actions == [] && Count(c.actions, StripTag) == 0
  {
    var i := 0;
    while i < |events|
      invariant 0 <= i <= |events|
      invariant c.Valid() && c.phase == NoChannel
    {
      match events[i] {
        case Click(messageId, customId, handlerThrows) => c.Collect(messageId, customId, handlerThrows);
        case EndEvent => c.End();
      }
      i := i + 1;
    }
  }

  /** Clicking a registered button twice dispatches twice: the collector is not
      stopped, not even by a handler that threw on the first click. */
  method RepeatedClicksRedispatch(c: ButtonCollector, customId: string, firstThrows: bool, secondThrows: bool)
    requires c.Valid() && c.phase == Listening && customId in c.handlers
    modifies c
    ensures c.Valid()
    ensures Count(c.actions, HandlerTag) == old(Count(c.actions, HandlerTag)) + 2
  {
    ghost var before := c.actions;
    c.Collect(c.watchedId, customId, firstThrows);
    c.Collect(c.watchedId, customId, secondThrows);
    var first := ClickActions(customId, c.handlers, c.hasCleanupCallback, firstThrows);
    var second := ClickActions(customId, c.handlers, c.hasCleanupCallback, secondThrows);
    ClickActionCounts(customId, c.handlers, c.hasCleanupCallback, firstThrows);
    ClickActionCounts(customId, c.handlers, c.hasCleanupCallback, secondThrows);
    assert c.actions == (before + first) + second;
    CountOfConcat(before, first, HandlerTag);
    CountOfConcat(before + first, second, HandlerTag);
  }
}
