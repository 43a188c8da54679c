# Onboarding bot: the per-user onboarding state machine

This project models the core of a chat-platform onboarding bot (`index.js`).
The bot keeps one progress record per user in a process-wide map called
`userProgress`. Three event listeners read or change that map:

- **Button listener.** The start button resets the user's record. Each of the
  three step buttons (`business_info`, `project_requirements`,
  `timeline_budget`) replies with a numbered prompt and sets the step's flag.
- **Message listener.** A direct message from a user with a record is counted
  against the record's flags. Once all three flags are set, the message
  completes the onboarding and the record is deleted. Otherwise the bot sends
  an acknowledgement.
- **Slash-command listener.** `/onboard` replies with a start button.

Welcome cards for new members go to a direct message first. If the direct
message fails, they go to the guild's system channel, with a mention of the
member, if the guild has one; otherwise the welcome is not sent.

Files:

- `platform.dfy`: `Wrappers.Option`, and the event shapes (`Platform`): user
  and channel ids, interactions, messages, and the direct-message channel
  type `1`.
- `progress.dfy` (`Progress`): the progress record.
  - A record is `step`, an optional `startTime`, and the set step flags in the
    order they were first set.
  - The record is also seen as a JavaScript object: its keys, its values and
    their truthiness.
  - The completed-step count is written the way the source computes it: a
    filter over `Object.keys`. It is then proved equal to the number of flags.
  - The step number and the prompt texts are also here.
- `onboarding.dfy` (`Onboarding`): each listener as a pure transition
  function from (map, event) to (new map, reply). A `Step`/`Run` event loop
  delivers each interaction to both `interactionCreate` listeners, in
  registration order. The class `Bot` holds `userProgress` as a mutable
  `map` field. Its methods update the field in place and are proved to agree
  with the transition functions.
- `welcome.dfy` (`Welcome`): the welcome delivery decision.
- `properties.dfy` (`OnboardingProperties`): what the state machine
  guarantees, one event at a time and over sequences of events, plus worked
  conversations.

Where a plausible design for this flow and the code differ, the model follows
the code:

- The start button overwrites any existing record with `{ step: 1, startTime }`,
  so earlier flags are lost (`RestartDiscardsFlags`). It is not an idempotent
  start.
- A step button pressed without a record creates `{ step: 0 }` and sets the
  flag on it. Three step presses and a direct message therefore complete an
  onboarding that was never started (`CompleteWithoutStart`).

## Model

| member | source | states |
|---|---|---|
| `Progress.ParseStep` | index.js:98 | Exactly the three step ids are recognised, each as its own step (the inverse of `CustomId`); any other custom id is not a step |
| `Progress.StepNumber` | index.js:106 | The prompt number is 1, 2 or 3 and, for a step id, is that step's position in the list of step ids |
| `Progress.SetFlag` | index.js:111-112 | Setting a step flag keeps `step` and `startTime`, keeps every earlier flag in place, adds exactly the chosen step, and keeps keys unique |
| `Progress.CountCompleted` | index.js:125 | The filtered key count never exceeds the number of keys |
| `Progress.CompletedStepsIsFlagCount` | index.js:125 | The completed-step count skips `step` and `startTime` and equals the number of step flags set |
| `Progress.CompletionCriterion` | index.js:125-127 | On a record with unique keys the count is at most 3, and it reaches the threshold 3 exactly when all three step flags are set |
| `Onboarding.CommandReply` | index.js:148-168 | Only the `onboard` chat-input command is answered, and the answer is the card offering the start button |
| `Onboarding.Bot.constructor` | index.js:14 | The progress map starts empty |
| `Onboarding.Bot.OnButton` | index.js:59-115 | The new map and reply are those of the button listener; record uniqueness of keys is kept |
| `Onboarding.Bot.OnMessage` | index.js:118-145 | The new map and reply are those of the message listener; record uniqueness of keys is kept |
| `Onboarding.Bot.Dispatch` | index.js:59-168 | An interaction goes to the button listener (registered at line 59) and then the slash-command listener (line 148), a message to the message listener (line 118); the new map and replies are those of one `Step` |
| `Welcome.WelcomeDelivery` | index.js:46-55 | The welcome goes by direct message exactly when that succeeds; otherwise to the system channel with a mention of the member when the guild has one; otherwise nowhere |
| `OnboardingProperties.StartResetsRecord` | index.js:64-65 | A start press leaves the user's record exactly `{step: 1, startTime: now}` with no flags, whatever was there, and shows the step menu |
| `OnboardingProperties.StepButtonSetsFlag` | index.js:98-113 | A step press sets that flag and keeps every other field; with no record it creates `{step: 0}` with that one flag; the reply is that step's prompt numbered by its position |
| `OnboardingProperties.IgnoredMessages` | index.js:119-124 | Bot messages, non-direct messages and messages from users with no record change nothing and get no reply |
| `OnboardingProperties.DirectMessageOutcome` | index.js:124-143 | A direct message from a user with a record completes and removes it exactly when all three flags are set; otherwise it is acknowledged and nothing changes |
| `OnboardingProperties.OtherInteractionsKeepStore` | index.js:60-167 | Non-button interactions, unknown button ids and slash commands leave the map unchanged; only `/onboard` is answered |
| `OnboardingProperties.StepIsolation` | index.js:65-139 | An event changes no record other than its own user's: the `set`s at lines 65 and 113 and the `delete` at line 139 all use the acting user's key |
| `OnboardingProperties.CreationIff` | index.js:111-113 | A record appears exactly when its user presses the start button or a step button |
| `OnboardingProperties.RemovalIff` | index.js:127-139 | A record disappears exactly when its user sends a direct message while all three flags are set |
| `OnboardingProperties.FlagsOnlyGrow` | index.js:111-113 | Apart from a start press, an event that leaves a record in place only adds flags and keeps `step` and `startTime` |
| `OnboardingProperties.StepPreservesWellFormed` | index.js:112 | Every event keeps every record's keys unique |
| `OnboardingProperties.RunPreservesWellFormed` | index.js:112 | Any sequence of events keeps every record's keys unique |
| `OnboardingProperties.RunIsolation` | index.js:113 | A sequence of events from other users leaves a user's record untouched |
| `OnboardingProperties.RunFlagsOnlyGrow` | index.js:111-143 | Over any sequence of events in which a user's record survives every prefix and the user never presses start, the record keeps `step` and `startTime` and only gains flags; acknowledged direct messages are allowed |
| `OnboardingProperties.MessageWithoutRecord` | index.js:122-124 | A direct message from someone with no record creates nothing and gets no reply |
| `OnboardingProperties.OneStepThenMessage` | index.js:64-142 | Start, first step, direct message: the record keeps one flag, and the replies are the menu, prompt 1 and the acknowledgement |
| `OnboardingProperties.AllStepsThenMessage` | index.js:98-139 | From one flag, the two remaining steps and a direct message give prompts 2 and 3, then completion, and the map is empty |
| `OnboardingProperties.StartTwice` | index.js:64-94 | Two start presses show the menu twice and leave a record with no flags and the second start time |
| `OnboardingProperties.RestartDiscardsFlags` | index.js:64-65 | A start press after a step press discards the flag already set |
| `OnboardingProperties.CompleteWithoutStart` | index.js:111-139 | Three step presses without a start press, then a direct message, complete an onboarding whose record has `step` 0 and no start time |

## Left out

- `deploy-commands.js`: it registers the `onboard` command with one network call and has no logic.
- Client construction, gateway intents, login, environment loading and the `ready` log (index.js:1-18, 170) are not modelled. The model assumes every message event reaches the message listener. The client's intent list (index.js:4-11) has no direct-message intent, and whether the platform delivers direct messages without one is outside the model.
- Embed and button construction is left out, including titles, colours, fields, styles and the website link. Replies are abstract descriptors. Only the prompt texts and the step numbers are kept, because they depend on the step.
- `Date.now()` is a parameter of each interaction event (`now`).
- Each listener is treated as atomic, and events are handled one after the other. The `await` points are not modelled, so neither are interleavings of two events for the same user, or the order of the step reply before the map update.
- Failures of the platform's send, reply and react calls are not modelled, except the refused welcome direct message. A failing reply rejects the listener's promise before the map update that follows it, and the model does not capture that.
- The logging of a refused direct message (index.js:49) is left out.
- Records are values in the model. In the source, the step listener mutates the record object held by the map and then writes it back under the same key. No object is shared between two keys, so value semantics gives the same map.
- JavaScript values other than those a record can hold (numbers, `true`, `undefined`) are not modelled in `Progress.Truthy`. `NaN` is not modelled either.
