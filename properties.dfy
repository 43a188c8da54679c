/**
 What the onboarding state machine guarantees, stated over its transition
 functions: the effect of each kind of event, isolation between users,
 growth of a record's flags while it lives, removal exactly on completion,
 and a few complete conversations.
 */
module OnboardingProperties {
  import opened Wrappers
  import opened Platform
  import opened Progress
  import opened Onboarding

  /** A button press by `user` on the button with custom id `id`. */
  function Press(user: UserId, id: string, now: int): Event {
    InteractionCreate(user, Button(id), now)
  }

  /** A text message from a person in a direct-message channel. */
  function DirectText(user: UserId): Event {
    MessageCreate(Message(user, false, DMChannelType))
  }

  predicate IsStartPress(ev: Event) {
    ev.InteractionCreate? && ev.interaction == Button(StartButtonId)
  }

  predicate IsDirectText(ev: Event) {
    ev.MessageCreate? && !ev.msg.authorIsBot && ev.msg.channelType == DMChannelType
  }

  /** `later` is `earlier` with possibly more flags set: same `step`, same
      `startTime`, and the old flags kept in place. */
  predicate Extends(earlier: Progress, later: Progress) {
    && later.step == earlier.step
    && later.startTime == earlier.startTime
    && |earlier.flags| <= |later.flags|
    && later.flags[..|earlier.flags|] == earlier.flags
  }

  // ----- One event at a time -----

  /** The start button overwrites the record, whatever was there, with `step`
      1, the press time and no flags, and shows the step menu. */
  lemma StartResetsRecord(store: Store, user: UserId, now: int)
    ensures ButtonHandler(store, user, Button(StartButtonId), now)
         == Outcome(store[user := Progress(1, Some(now), [])], StepMenu)
    ensures CompletedSteps(Progress(1, Some(now), [])) == 0
  {
    CompletedStepsIsFlagCount(Progress(1, Some(now), []));
  }

  /** A step button sets that step's flag and keeps every other field of the
      record; with no record, it creates one with `step` 0 and no start time.
      The reply is the step's prompt, numbered by the step's position. */
  lemma StepButtonSetsFlag(store: Store, user: UserId, s: StepId, now: int)
    ensures var o := ButtonHandler(store, user, Button(CustomId(s)), now);
      && user in o.store
      && s in o.store[user].flags
      && (forall t :: t in o.store[user].flags <==> t == s || (user in store && t in store[user].flags))
      && (user in store ==> Extends(store[user], o.store[user]))
      && (user !in store ==> o.store[user] == Progress(0, None, [s]))
      && o.reply.StepPrompt?
      && 1 <= o.reply.number <= 3 && AllSteps[o.reply.number - 1] == s
      && o.reply.prompt == PromptText(s)
  {
    assert ParseStep(CustomId(s)) == Some(s);
  }

  /** Bot messages, messages outside a direct-message channel and messages
      from users without a record change nothing and get no reply. */
  lemma IgnoredMessages(store: Store, msg: Message)
    requires msg.authorIsBot || msg.channelType != DMChannelType || msg.author !in store
    ensures MessageHandler(store, msg) == Outcome(store, NoReply)
  {
  }

  /** A direct message from a user with a record completes the onboarding,
      removing the record, exactly when all three step flags are set; with
      fewer flags it is acknowledged and nothing changes. */
  lemma DirectMessageOutcome(store: Store, msg: Message)
    requires StoreWellFormed(store)
    requires !msg.authorIsBot && msg.channelType == DMChannelType && msg.author in store
    ensures AllStepsSet(store[msg.author]) ==>
      MessageHandler(store, msg) == Outcome(store - {msg.author}, Completion)
    ensures !AllStepsSet(store[msg.author]) ==>
      MessageHandler(store, msg) == Outcome(store, Acknowledgement)
  {
    CompletionCriterion(store[msg.author]);
  }

  /** Interactions that are not buttons, buttons with an unknown custom id,
      and slash commands never change the map; of these, only the `onboard`
      command is answered, with the card offering the start button. */
  lemma OtherInteractionsKeepStore(store: Store, user: UserId, interaction: Interaction, now: int)
    requires !interaction.Button? || (interaction.customId != StartButtonId && ParseStep(interaction.customId).None?)
    ensures Step(store, InteractionCreate(user, interaction, now)).store == store
    ensures Step(store, InteractionCreate(user, interaction, now)).replies
         == if interaction == ChatInputCommand(OnboardCommand) then [ManualOnboarding] else []
  {
  }

  /** An event changes at most the record of the user it comes from. */
  lemma StepIsolation(store: Store, ev: Event, v: UserId)
    requires v != Actor(ev)
    ensures var after := Step(store, ev).store;
      (v in after <==> v in store) && (v in store ==> after[v] == store[v])
  {
  }

  /** A record appears only through a start or step button press. */
  lemma CreationIff(store: Store, ev: Event)
    ensures var u := Actor(ev);
      (u !in store && u in Step(store, ev).store) <==>
      (u !in store && ev.InteractionCreate? && ev.interaction.Button?
        && (ev.interaction.customId == StartButtonId || ParseStep(ev.interaction.customId).Some?))
  {
  }

  /** A record disappears exactly when its user sends a direct message while
      all three step flags are set. */
  lemma RemovalIff(store: Store, ev: Event)
    requires StoreWellFormed(store)
    ensures var u := Actor(ev);
      (u in store && u !in Step(store, ev).store) <==>
      (IsDirectText(ev) && u in store && AllStepsSet(store[u]))
  {
    var u := Actor(ev);
    if IsDirectText(ev) && u in store {
      DirectMessageOutcome(store, ev.msg);
    }
  }

  /** Except for a start press, an event that leaves a record in place only
      adds flags to it. */
  lemma FlagsOnlyGrow(store: Store, ev: Event)
    requires !IsStartPress(ev)
    ensures var u := Actor(ev); var after := Step(store, ev).store;
      u in store && u in after ==> Extends(store[u], after[u])
  {
  }

  lemma StepPreservesWellFormed(store: Store, ev: Event)
    requires StoreWellFormed(store)
    ensures StoreWellFormed(Step(store, ev).store)
  {
  }

  // ----- Sequences of events -----

  lemma {:induction false} RunPreservesWellFormed(store: Store, evs: seq<Event>)
    requires StoreWellFormed(store)
    ensures StoreWellFormed(Run(store, evs).store)
    decreases |evs|
  {
    if evs != [] {
      StepPreservesWellFormed(store, evs[0]);
      RunPreservesWellFormed(Step(store, evs[0]).store, evs[1..]);
    }
  }

  /** Events from other users never touch a user's record. */
  lemma {:induction false} RunIsolation(store: Store, evs: seq<Event>, v: UserId)
    requires forall i :: 0 <= i < |evs| ==> Actor(evs[i]) != v
    ensures var after := Run(store, evs).store;
      (v in after <==> v in store) && (v in store ==> after[v] == store[v])
    decreases |evs|
  {
    if evs != [] {
      StepIsolation(store, evs[0], v);
      RunIsolation(Step(store, evs[0]).store, evs[1..], v);
    }
  }

  lemma ExtendsTransitive(a: Progress, b: Progress, c: Progress)
    requires Extends(a, b) && Extends(b, c)
    ensures Extends(a, c)
  {
    assert c.flags[..|a.flags|] == c.flags[..|b.flags|][..|a.flags|];
  }

  /** Between a start press and completion, a record's flags never decrease:
      as long as the record survives every prefix of a sequence of events and
      its user does not press start, every event only adds flags to it. */
  lemma {:induction false} RunFlagsOnlyGrow(store: Store, evs: seq<Event>, u: UserId)
    requires forall i :: 0 <= i <= |evs| ==> u in Run(store, evs[..i]).store
    requires forall i :: 0 <= i < |evs| && Actor(evs[i]) == u ==> !IsStartPress(evs[i])
    ensures u in store && u in Run(store, evs).store && Extends(store[u], Run(store, evs).store[u])
    decreases |evs|
  {
    assert evs[..0] == [];
    assert evs[..|evs|] == evs;
    if evs != [] {
      var next := Step(store, evs[0]).store;
      forall i | 0 <= i <= |evs| - 1
        ensures u in Run(next, evs[1..][..i]).store
      {
        assert evs[..i + 1] == [evs[0]] + evs[1..][..i];
        RunCons(store, evs[0], evs[1..][..i]);
      }
      assert evs[1..][..0] == [];
      if Actor(evs[0]) == u {
        FlagsOnlyGrow(store, evs[0]);
      } else {
        StepIsolation(store, evs[0], u);
      }
      assert Extends(store[u], next[u]);
      RunFlagsOnlyGrow(next, evs[1..], u);
      ExtendsTransitive(store[u], next[u], Run(next, evs[1..]).store[u]);
    }
  }

  // ----- Whole conversations -----

  lemma RunCons(store: Store, ev: Event, rest: seq<Event>)
    ensures var e := Step(store, ev); var r := Run(e.store, rest);
      Run(store, [ev] + rest) == Effect(r.store, e.replies + r.replies)
  {
    assert ([ev] + rest)[1..] == rest;
  }

  lemma PressStart(store: Store, u: UserId, t: int)
    ensures Step(store, Press(u, StartButtonId, t)) == Effect(store[u := Started(t)], [StepMenu])
  {
  }

  lemma PressStep(store: Store, u: UserId, s: StepId, t: int)
    ensures Step(store, Press(u, CustomId(s), t))
         == Effect(store[u := SetFlag(RecordOrFresh(store, u), s)], [StepPrompt(StepNumber(CustomId(s)), PromptText(s))])
  {
    assert ParseStep(CustomId(s)) == Some(s);
  }

  lemma CompleteOnDirectText(store: Store, u: UserId)
    requires u in store && store[u].WellFormed() && AllStepsSet(store[u])
    ensures Step(store, DirectText(u)) == Effect(store - {u}, [Completion])
  {
    CompletionCriterion(store[u]);
  }

  /** A direct message from someone who never started gets no reply and
      creates nothing. */
  lemma MessageWithoutRecord(store: Store, u: UserId)
    requires u !in store
    ensures Run(store, [DirectText(u)]) == Effect(store, [])
  {
    RunCons(store, DirectText(u), []);
  }

  /** Start, pick the first step, write: the record holds one flag and the
      message is acknowledged. */
  lemma OneStepThenMessage(u: UserId, t: int)
    ensures var r := Run(map[], [Press(u, StartButtonId, t), Press(u, CustomId(BusinessInfo), t), DirectText(u)]);
      && r.store == map[u := Progress(1, Some(t), [BusinessInfo])]
      && r.replies == [StepMenu, StepPrompt(1, PromptText(BusinessInfo)), Acknowledgement]
  {
    var s1 := map[u := Started(t)];
    var s2 := map[u := Progress(1, Some(t), [BusinessInfo])];
    PressStart(map[], u, t);
    PressStep(s1, u, BusinessInfo, t);
    assert s1[u := SetFlag(s1[u], BusinessInfo)] == s2;
    CompletedStepsIsFlagCount(s2[u]);
    assert Step(s2, DirectText(u)) == Effect(s2, [Acknowledgement]);
    RunCons(s2, DirectText(u), []);
    RunCons(s1, Press(u, CustomId(BusinessInfo), t), [DirectText(u)]);
    RunCons(map[], Press(u, StartButtonId, t), [Press(u, CustomId(BusinessInfo), t), DirectText(u)]);
  }

  /** A step button on a record without that step's flag appends the flag. */
  lemma PressNewStep(p: Progress, u: UserId, s: StepId, t: int)
    requires s !in p.flags
    ensures Step(map[u := p], Press(u, CustomId(s), t))
         == Effect(map[u := p.(flags := p.flags + [s])], [StepPrompt(StepNumber(CustomId(s)), PromptText(s))])
  {
    PressStep(map[u := p], u, s, t);
  }

  /** A direct message with all three flags set completes the one record. */
  lemma CompleteSingleRecord(step: int, startTime: Option<int>, u: UserId)
    ensures var p := Progress(step, startTime, [BusinessInfo, ProjectRequirements, TimelineBudget]);
      Step(map[u := p], DirectText(u)) == Effect(map[], [Completion])
  {
    var p := Progress(step, startTime, [BusinessInfo, ProjectRequirements, TimelineBudget]);
    assert p.flags[0] != p.flags[1] && p.flags[0] != p.flags[2] && p.flags[1] != p.flags[2];
    AllStepsSetByCases(p);
    CompleteOnDirectText(map[u := p], u);
    assert map[u := p] - {u} == map[];
  }

  lemma TimelineThenMessage(u: UserId, t: int)
    ensures Run(map[u := Progress(1, Some(t), [BusinessInfo, ProjectRequirements])],
                [Press(u, CustomId(TimelineBudget), t), DirectText(u)])
         == Effect(map[], [StepPrompt(3, PromptText(TimelineBudget)), Completion])
  {
    var p1 := Progress(1, Some(t), [BusinessInfo, ProjectRequirements]);
    var p2 := p1.(flags := p1.flags + [TimelineBudget]);
    assert p2.flags == [BusinessInfo, ProjectRequirements, TimelineBudget];
    CompleteSingleRecord(1, Some(t), u);
    RunCons(map[u := p2], DirectText(u), []);
    PressNewStep(p1, u, TimelineBudget, t);
    RunCons(map[u := p1], Press(u, CustomId(TimelineBudget), t), [DirectText(u)]);
  }

  /** Continuing from one flag, picking the two remaining steps and writing
      again completes the onboarding and removes the record. */
  lemma AllStepsThenMessage(u: UserId, t: int)
    ensures Run(map[u := Progress(1, Some(t), [BusinessInfo])],
                [Press(u, CustomId(ProjectRequirements), t), Press(u, CustomId(TimelineBudget), t), DirectText(u)])
         == Effect(map[], [StepPrompt(2, PromptText(ProjectRequirements)), StepPrompt(3, PromptText(TimelineBudget)), Completion])
  {
    var p0 := Progress(1, Some(t), [BusinessInfo]);
    var p1 := p0.(flags := p0.flags + [ProjectRequirements]);
    assert p1.flags == [BusinessInfo, ProjectRequirements];
    var e1, e2, e3 := Press(u, CustomId(ProjectRequirements), t), Press(u, CustomId(TimelineBudget), t), DirectText(u);
    TimelineThenMessage(u, t);
    PressNewStep(p0, u, ProjectRequirements, t);
    RunCons(map[u := p0], e1, [e2, e3]);
  }

  /** Pressing start twice shows the menu twice and leaves no flags. */
  lemma StartTwice(u: UserId, t1: int, t2: int)
    ensures var r := Run(map[], [Press(u, StartButtonId, t1), Press(u, StartButtonId, t2)]);
      r.store == map[u := Progress(1, Some(t2), [])] && r.replies == [StepMenu, StepMenu]
  {
    var s1 := map[u := Started(t1)];
    PressStart(map[], u, t1);
    PressStart(s1, u, t2);
    assert s1[u := Started(t2)] == map[u := Started(t2)];
    RunCons(s1, Press(u, StartButtonId, t2), []);
    RunCons(map[], Press(u, StartButtonId, t1), [Press(u, StartButtonId, t2)]);
  }

  /** Pressing start again after a step discards the flag already set. */
  lemma RestartDiscardsFlags(store: Store, u: UserId, t1: int, t2: int)
    ensures var r := Run(store, [Press(u, StartButtonId, t1), Press(u, CustomId(BusinessInfo), t1), Press(u, StartButtonId, t2)]);
      u in r.store && r.store[u] == Progress(1, Some(t2), []) && CompletedSteps(r.store[u]) == 0
  {
    var s1 := store[u := Started(t1)];
    PressStart(store, u, t1);
    PressStep(s1, u, BusinessInfo, t1);
    var s2 := Step(s1, Press(u, CustomId(BusinessInfo), t1)).store;
    PressStart(s2, u, t2);
    var s3 := s2[u := Started(t2)];
    RunCons(s2, Press(u, StartButtonId, t2), []);
    RunCons(s1, Press(u, CustomId(BusinessInfo), t1), [Press(u, StartButtonId, t2)]);
    RunCons(store, Press(u, StartButtonId, t1), [Press(u, CustomId(BusinessInfo), t1), Press(u, StartButtonId, t2)]);
    assert Run(store, [Press(u, StartButtonId, t1), Press(u, CustomId(BusinessInfo), t1), Press(u, StartButtonId, t2)]).store == s3;
    CompletedStepsIsFlagCount(Started(t2));
  }

  /** The three step buttons alone, without the start button, are enough: the
      next direct message completes an onboarding that never had a start time. */
  lemma CompleteWithoutStart(u: UserId, t: int)
    ensures var evs := [Press(u, CustomId(BusinessInfo), t), Press(u, CustomId(ProjectRequirements), t),
                        Press(u, CustomId(TimelineBudget), t)];
      && Run(map[], evs).store == map[u := Progress(0, None, [BusinessInfo, ProjectRequirements, TimelineBudget])]
      && Step(Run(map[], evs).store, DirectText(u)) == Effect(map[], [Completion])
  {
    var p1 := Progress(0, None, [BusinessInfo]);
    var p2 := p1.(flags := p1.flags + [ProjectRequirements]);
    var p3 := p2.(flags := p2.flags + [TimelineBudget]);
    assert p3.flags == [BusinessInfo, ProjectRequirements, TimelineBudget];
    var e1, e2, e3 := Press(u, CustomId(BusinessInfo), t), Press(u, CustomId(ProjectRequirements), t), Press(u, CustomId(TimelineBudget), t);
    assert Run(map[u := p2], [e3]).store == map[u := p3] by {
      PressNewStep(p2, u, TimelineBudget, t);
      RunCons(map[u := p2], e3, []);
    }
    assert Run(map[u := p1], [e2, e3]).store == map[u := p3] by {
      PressNewStep(p1, u, ProjectRequirements, t);
      RunCons(map[u := p1], e2, [e3]);
    }
    assert Run(map[], [e1, e2, e3]).store == map[u := p3] by {
      PressStep(map[], u, BusinessInfo, t);
      assert map[][u := SetFlag(Fresh, BusinessInfo)] == map[u := p1];
      RunCons(map[], e1, [e2, e3]);
    }
    CompleteSingleRecord(0, None, u);
  }
}
