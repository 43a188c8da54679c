/**
 The onboarding state machine: the bot's `userProgress` map and the three
 event listeners that read or change it (the button listener, the message
 listener and the slash-command listener).

 Each listener is first given as a pure transition function from the old map
 and the event to the new map and the reply; the class `Bot` then holds the
 map as a mutable field and its methods update it in place, each proved to
 agree with its transition function. The properties of the state machine are
 stated as lemmas about the transition functions.
 */
module Onboarding {
  import opened Wrappers
  import opened Platform
  import opened Progress

  /** The contents of `userProgress`: one record per user onboarding. */
  type Store = map<UserId, Progress>

  /** What a listener sends back, with the presentation left out. */
  datatype Reply =
    | NoReply
      /** Ephemeral "onboarding started" card with the three step buttons. */
    | StepMenu
      /** Ephemeral prompt for one step, headed "Step <number>". */
    | StepPrompt(number: nat, prompt: string)
      /** The "onboarding complete" card. */
    | Completion
      /** A check-mark reaction and the "please complete the remaining steps" reply. */
    | Acknowledgement
      /** The "manual onboarding" card offering the start button. */
    | ManualOnboarding

  datatype Outcome = Outcome(store: Store, reply: Reply)

  const StartButtonId: string := "start_onboarding"
  const OnboardCommand: string := "onboard"

  predicate StoreWellFormed(store: Store) {
    forall u :: u in store ==> store[u].WellFormed()
  }

  /** `userProgress.get(userId) || { step: 0 }`. */
  function RecordOrFresh(store: Store, user: UserId): Progress {
    if user in store then store[user] else Fresh
  }

  /** The button listener. Non-button interactions are ignored. The start
      button overwrites the user's record with a started one; a step button
      answers with that step's prompt and sets the step's flag on the user's
      record, creating a `step` 0 record if there was none. Any other custom id
      changes nothing. */
  function ButtonHandler(store: Store, user: UserId, interaction: Interaction, now: int): Outcome {
    if !interaction.Button? then Outcome(store, NoReply)
    else if interaction.customId == StartButtonId then Outcome(store[user := Started(now)], StepMenu)
    else match ParseStep(interaction.customId)
      case Some(s) =>
        Outcome(store[user := SetFlag(RecordOrFresh(store, user), s)],
                StepPrompt(StepNumber(interaction.customId), PromptText(s)))
      case None => Outcome(store, NoReply)
  }

  /** The message listener. Bot authors are ignored; so are users without a
      record and channels other than a direct message. Otherwise a record
      whose count reaches three is completed and removed, and any other record
      is acknowledged and left as it is. */
  function MessageHandler(store: Store, msg: Message): Outcome {
    if msg.authorIsBot then Outcome(store, NoReply)
    else if msg.author in store && msg.channelType == DMChannelType then
      if CompletedSteps(store[msg.author]) >= 3 then Outcome(store - {msg.author}, Completion)
      else Outcome(store, Acknowledgement)
    else Outcome(store, NoReply)
  }

  /** The slash-command listener: only the `onboard` command is answered, and
      the map is never consulted. */
  function CommandReply(interaction: Interaction): (r: Reply)
    ensures r != NoReply <==> interaction == ChatInputCommand(OnboardCommand)
    ensures r != NoReply ==> r == ManualOnboarding
  {
    if !interaction.ChatInputCommand? then NoReply
    else if interaction.commandName == OnboardCommand then ManualOnboarding
    else NoReply
  }

  // ----- The event loop -----

  /** An event delivered to the bot, with the press time of an interaction. */
  datatype Event =
    | InteractionCreate(user: UserId, interaction: Interaction, now: int)
    | MessageCreate(msg: Message)

  /** The user an event comes from. */
  function Actor(ev: Event): UserId {
    match ev
    case InteractionCreate(user, _, _) => user
    case MessageCreate(msg) => msg.author
  }

  datatype Effect = Effect(store: Store, replies: seq<Reply>)

  function Sent(r: Reply): seq<Reply> {
    if r == NoReply then [] else [r]
  }

  /** One event handled to completion. An interaction goes to both
      `interactionCreate` listeners, the button listener first. */
  function Step(store: Store, ev: Event): Effect {
    match ev
    case InteractionCreate(user, interaction, now) =>
      var o := ButtonHandler(store, user, interaction, now);
      Effect(o.store, Sent(o.reply) + Sent(CommandReply(interaction)))
    case MessageCreate(msg) =>
      var o := MessageHandler(store, msg);
      Effect(o.store, Sent(o.reply))
  }

  /** A sequence of events handled one after the other, with every reply sent. */
  function Run(store: Store, evs: seq<Event>): Effect
    decreases |evs|
  {
    if evs == [] then Effect(store, [])
    else
      var e := Step(store, evs[0]);
      var rest := Run(e.store, evs[1..]);
      Effect(rest.store, e.replies + rest.replies)
  }

  // ----- The bot and its mutable map -----

  class Bot {
    var userProgress: Store

    ghost predicate Valid()
      reads this
    {
      StoreWellFormed(userProgress)
    }

    /** The bot starts with no one onboarding. */
    constructor ()
      ensures Valid() && userProgress == map[]
    {
      userProgress := map[];
    }

    method OnButton(user: UserId, interaction: Interaction, now: int) returns (reply: Reply)
      requires Valid()
      modifies this
      ensures Valid()
      ensures Outcome(userProgress, reply) == ButtonHandler(old(userProgress), user, interaction, now)
    {
      reply := NoReply;
      if !interaction.Button? {
        return;
      }
      if interaction.customId == StartButtonId {
        userProgress := userProgress[user := Started(now)];
        reply := StepMenu;
      }
      var step := ParseStep(interaction.customId);
      if step.Some? {
        reply := StepPrompt(StepNumber(interaction.customId), PromptText(step.value));
        var progress := RecordOrFresh(userProgress, user);
        progress := SetFlag(progress, step.value);
        userProgress := userProgress[user := progress];
      }
    }

    method OnMessage(msg: Message) returns (reply: Reply)
      requires Valid()
      modifies this
      ensures Valid()
      ensures Outcome(userProgress, reply) == MessageHandler(old(userProgress), msg)
    {
      reply := NoReply;
      if msg.authorIsBot {
        return;
      }
      if msg.author in userProgress && msg.channelType == DMChannelType {
        var completedSteps := CompletedSteps(userProgress[msg.author]);
        if completedSteps >= 3 {
          reply := Completion;
          userProgress := userProgress - {msg.author};
        } else {
          reply := Acknowledgement;
        }
      }
    }

    /** Delivers one event to every listener registered for its kind. */
    method Dispatch(ev: Event) returns (replies: seq<Reply>)
      requires Valid()
      modifies this
      ensures Valid()
      ensures Effect(userProgress, replies) == Step(old(userProgress), ev)
    {
      match ev
      case InteractionCreate(user, interaction, now) =>
        var buttonReply := OnButton(user, interaction, now);
        var commandReply := CommandReply(interaction);
        replies := Sent(buttonReply) + Sent(commandReply);
      case MessageCreate(msg) =>
        var messageReply := OnMessage(msg);
        replies := Sent(messageReply);
    }
  }
}
