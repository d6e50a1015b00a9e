# A Dafny model of nine mirai core files

This project models nine Kotlin files of mirai, the QQ bot framework, and proves properties of the models:

- **Channels and exceptions** (mirai-core-utils):
  - the turn-taking state machine of the on-demand channel (`ChannelState.kt`) as a transition table;
  - the channel object that steps through that table;
  - `ProducerFailureException` with its lazily memoised `unwrap()`.
- **AuthControl** (mirai-core): the consumer side of the authorization loop. It runs over an on-demand channel of authorization methods.
- **NewContactSupport** (mirai-core): adds and removes friends, strangers and groups in a bot's contact tables.
- **MockAnnouncementsImpl** (mirai-core-mock): the announcement board of a mock group.
- **PluginDependency** (mirai-console): a plugin dependency, its string form `id[:requirement][?]`, and the parser of that form.
- **SingletonExtensionSelectorImpl** (mirai-console): picks one of several extensions, prompting and saving the choice.
- **ConsoleThread** (mirai-console terminal): normalises typed lines into command lines and renders unmatched command signatures.
- **PluginDataImpl** (mirai-console): rewrites value annotations, looks up value nodes, and runs the element-by-element decode and encode loops of plugin data.

Module layout, one file per source file:

- `wrappers.dfy`:
  - `Wrappers`: `Option`, `Result`;
  - `Text`: Kotlin's `isBlank`, `startsWith`, `trim` and `joinToString`.
- `failures.dfy`: `Failures`, exceptions as heap objects.
- `channel_state.dfy`: `Channels`, the state table and the already-finished error.
- `on_demand_channel.dfy`: `OnDemandChannels`, the channel object.
- `auth_control.dfy`: `AuthControls`.
- `plugin_dependency.dfy`: `PluginDependencies`.
- `new_contact_support.dfy`:
  - `Contacts`: `MemberPermission`;
  - `NewContacts`.
- `mock_announcements.dfy`: `MockAnnouncements`.
- `singleton_extension_selector.dfy`:
  - `Integers`: `toIntOrNull` and `Int.toString`;
  - `SingletonExtensionSelectors`.
- `console_thread.dfy`: `ConsoleThreads`.
- `plugin_data_impl.dfy`: `PluginDataImpls`.

Each source file takes its own form in the model:

- Objects whose fields change in place are classes with `modifies` clauses: the channel, an exception, the contact tables, the announcement board, the selector's config, and a plugin data object.
- Pure code is datatypes, functions and lemmas.
- The decode and encode loops are methods with loop invariants, proved against the lookup function `FindNodeInstance`.

Where the code and its documentation disagree, the model follows the code:

- ChannelState.kt:88 names the error `IllegalProducerStateException`; the code throws `IllegalChannelStateException`, as modelled.
- AuthControl.kt:51 says acquireAuth does not throw. An illegal-state error from a receive made out of turn is not caught there, so `AcquireAuth` returns it as `Raised`.

## Model

| member | source | states |
|---|---|---|
| Text.Join | mirai-console/frontend/mirai-console-terminal/src/ConsoleThread.kt:134 | joining no parts gives the empty string; one part is returned unchanged |
| Text.JoinConcat | mirai-console/frontend/mirai-console-terminal/src/ConsoleThread.kt:134 | joining two non-empty lists one after the other is their joins with exactly one separator between |
| Text.TrimStart | mirai-console/frontend/mirai-console-terminal/src/ConsoleThread.kt:148 | the result is a suffix of the input, everything dropped is whitespace, and it does not start with whitespace |
| Text.TrimEnd | mirai-console/frontend/mirai-console-terminal/src/ConsoleThread.kt:148 | the result is a prefix of the input, everything dropped is whitespace, and it does not end with whitespace |
| Failures.Throwable.constructor | mirai-core-utils/src/commonMain/kotlin/channels/ChannelState.kt:162-166 | a new exception has the given class, message and cause, and nothing suppressed |
| Failures.Throwable.ProducerFailure | mirai-core-utils/src/commonMain/kotlin/channels/ProducerFailureException.kt:12-15 | a ProducerFailureException gets the default message, keeps its cause, and is not yet unwrapped |
| Failures.Throwable.AddSuppressed | mirai-core-utils/src/commonMain/kotlin/channels/ChannelState.kt:172-174 | the exception is appended to the suppressed list, except that an exception never suppresses itself; the cause is untouched |
| Failures.Throwable.Unwrap | mirai-core-utils/src/commonMain/kotlin/channels/ProducerFailureException.kt:16-22 | corrected: the first call clears the cause, returns it and records this failure once among the cause's suppressed exceptions; without a cause it returns itself; later calls return the memoised value and change nothing |
| Failures.Throwable.UnwrapAsWritten | mirai-core-utils/src/commonMain/kotlin/channels/ProducerFailureException.kt:16-22 | as written: same result and memoisation, but the cause's suppressed list is not extended, because the failure is asked to suppress itself |
| Failures.NewProducerFailure | mirai-core-utils/src/commonMain/kotlin/channels/ProducerFailureException.kt:12-15 | a fresh ProducerFailureException around the cause, with the default message |
| Failures.AsWrittenUnwrapLosesBackLink | mirai-core-utils/src/commonMain/kotlin/channels/ProducerFailureException.kt:19 | with a concrete cause, the written unwrap returns the cause, and the failure is not in the cause's suppressed list |
| Failures.UnwrapRecordsBackLinkOnce | mirai-core-utils/src/commonMain/kotlin/channels/ProducerFailureException.kt:16-22 | the corrected unwrap, called twice, returns the cause both times, and the cause lists the failure exactly once |
| Channels.Step | mirai-core-utils/src/commonMain/kotlin/channels/ChannelState.kt:32-88 | Finished absorbs every operation; a call not drawn for the state fails and changes nothing; only the drawn cycle or finish moves the state; finish from any live state records it and its cause; only the first expectMore launches the producer, and every accepted expectMore hands over its hint |
| Channels.RunConservesValues | mirai-core-utils/src/commonMain/kotlin/channels/ChannelState.kt:32-88 | over any run, the pending value plus everything emitted equals everything received plus the value still pending: values cross once and in order |
| Channels.StepConservesValues | mirai-core-utils/src/commonMain/kotlin/channels/ChannelState.kt:32-88 | one step conserves values: the pending value plus what it emits is what it hands over plus what stays pending |
| Channels.ReceivedAreEmitted | mirai-core-utils/src/commonMain/kotlin/channels/ChannelState.kt:32-88 | from a fresh channel, the received values are the emitted ones in order, less at most the last |
| Channels.PendingAtMostOne | mirai-core-utils/src/commonMain/kotlin/channels/ChannelState.kt:124-138 | a state holds at most one emitted value not yet received |
| Channels.RunLaunchesOnce | mirai-core-utils/src/commonMain/kotlin/channels/ChannelState.kt:104-109 | a run launches the producer exactly when it was not launched before and is by the end, so at most once from a fresh channel |
| Channels.FinishedIsAbsorbing | mirai-core-utils/src/commonMain/kotlin/channels/ChannelState.kt:148-179 | from a finished state any run keeps that state, and moves no value and no hint |
| Channels.StrictAlternation | mirai-core-utils/src/commonMain/kotlin/channels/ChannelState.kt:32-88 | a second receive after a value was taken, and a second expectMore after one was accepted, are illegal |
| Channels.AlreadyFinishedSaysNormally | mirai-core-utils/src/commonMain/kotlin/channels/ChannelState.kt:161-170 | the message starts "finished normally" exactly when no exception was recorded, and "with the suppressed exception" exactly when one was |
| Channels.AlreadyFinishedNamesCause | mirai-core-utils/src/commonMain/kotlin/channels/ChannelState.kt:156-160 | after the head, the "attempting to finish with the cause" clause appears exactly when a cause is given, and names that cause |
| Channels.CreateAlreadyFinishedException | mirai-core-utils/src/commonMain/kotlin/channels/ChannelState.kt:154-176 | a fresh IllegalChannelStateException with that message, the attempted cause as its cause, and the recorded exception as its only suppressed one, when there is one |
| OnDemandChannels.OnDemandChannel.constructor | mirai-core-utils/src/commonMain/kotlin/channels/ChannelState.kt:32 | a new channel is JustInitialized, with the producer not launched and no hint handed over |
| OnDemandChannels.OnDemandChannel.ReadProducer | mirai-core-utils/src/commonMain/kotlin/channels/ChannelState.kt:104-109 | the lazy producer launches on the first read, with the hint; later reads change nothing |
| OnDemandChannels.OnDemandChannel.IllegalFor | mirai-core-utils/src/commonMain/kotlin/channels/ChannelState.kt:32-88 | a fresh IllegalChannelStateException for the current state, with no cause |
| OnDemandChannels.OnDemandChannel.ExpectMore | mirai-core-utils/src/commonMain/kotlin/channels/ChannelState.kt:32-88 | the new state, launch count and hints are what `Step` gives for expectMore, and the right exception is thrown; the launch-once invariant is kept |
| OnDemandChannels.OnDemandChannel.Emit | mirai-core-utils/src/commonMain/kotlin/channels/ChannelState.kt:32-88 | the new state and reply are what `Step` gives for emit, and the right exception is thrown |
| OnDemandChannels.OnDemandChannel.ReceiveOrNull | mirai-core-utils/src/commonMain/kotlin/channels/ChannelState.kt:32-88 | as `Step` for receiveOrNull: take the value, get null after a normal finish, or throw a fresh ProducerFailureException around the recorded failure |
| OnDemandChannels.OnDemandChannel.FinishWith | mirai-core-utils/src/commonMain/kotlin/channels/ChannelState.kt:32-88 | as `Step` for finish with a cause: a live channel becomes Finished; a finished one throws the already-finished error carrying the attempted cause |
| OnDemandChannels.OnDemandChannel.Finish | mirai-core-utils/src/commonMain/kotlin/channels/ChannelState.kt:23-88 | finish() is finishing with no cause, as `Step` says |
| OnDemandChannels.OnDemandChannel.FinishExceptionally | mirai-core-utils/src/commonMain/kotlin/channels/ChannelState.kt:23-88 | finishExceptionally(e) is finishing with cause e, as `Step` says |
| OnDemandChannels.OnDemandChannel.Close | mirai-core/src/commonMain/kotlin/network/auth/AuthControl.kt:72 | close() finishes the channel normally, as `Step` says |
| AuthControls.AcquireAuthOutcome | mirai-core/src/commonMain/kotlin/network/auth/AuthControl.kt:52-63 | an emitted method is returned as is; a normal finish gives NotAvailable; a producer failure gives Error of the original exception; a producing channel suspends; any other state throws |
| AuthControls.AuthControl.constructor | mirai-core/src/commonMain/kotlin/network/auth/AuthControl.kt:38-45 | the decision channel starts fresh, with no producer launched and no hints |
| AuthControls.AuthControl.Start | mirai-core/src/commonMain/kotlin/network/auth/AuthControl.kt:47-49 | expectMore(null) on the channel; from a fresh channel it launches the strategy once, with the hint null |
| AuthControls.AuthControl.AcquireAuth | mirai-core/src/commonMain/kotlin/network/auth/AuthControl.kt:52-63 | the channel steps as a receive, and the answer is what `AcquireAuthOutcome` says; the failure is unwrapped as written, so the producer's exception keeps its suppressed list and cause unchanged |
| AuthControls.AuthControl.AcquireAuthCorrected | mirai-core/src/commonMain/kotlin/network/auth/AuthControl.kt:52-63 | corrected unwrap: the same channel step and answer, and an unwrapped failure gains exactly one fresh ProducerFailureException among its suppressed exceptions |
| AuthControls.AuthControl.ActMethodFailed | mirai-core/src/commonMain/kotlin/network/auth/AuthControl.kt:65-68 | expectMore(cause): after a consumed decision, the failure becomes the strategy's next hint |
| AuthControls.AuthControl.ActComplete | mirai-core/src/commonMain/kotlin/network/auth/AuthControl.kt:70-73 | close(): a live channel becomes normally Finished, and no hint is handed over |
| AuthControls.RetryScenario | mirai-core/src/commonMain/kotlin/network/auth/AuthControl.kt:47-73 | QR code, a reported failure, then password: acquireAuth returns both methods in turn, and the strategy's hints are exactly null and then that reported failure |
| AuthControls.CrashScenario | mirai-core/src/commonMain/kotlin/network/auth/AuthControl.kt:55-59 | a strategy that crashes yields Error carrying the crash itself, and again on the next call; the crash is left with no suppressed exception and no cause |
| PluginDependencies.Create | mirai-console/backend/mirai-console/src/plugin/description/PluginDependency.kt:35-62 | a dependency is built exactly when the id is valid and the requirement, if any, is too; otherwise an IllegalArgumentException |
| PluginDependencies.CreateUnversioned | mirai-console/backend/mirai-console/src/plugin/description/PluginDependency.kt:67-72 | the secondary constructor builds a dependency with no requirement, exactly when the id is valid |
| PluginDependencies.ToString | mirai-console/backend/mirai-console/src/plugin/description/PluginDependency.kt:74-83 | the id comes first, then ':' and the requirement text right after it when there is one, then '?' when optional; the length adds up |
| PluginDependencies.LastIndexOf | mirai-console/backend/mirai-console/src/plugin/description/PluginDependency.kt:96 | absent exactly when the character does not occur; otherwise it is at that index and never after it |
| PluginDependencies.SplitRule | mirai-console/backend/mirai-console/src/plugin/description/PluginDependency.kt:94-100 | without ':' the rule is the id and there is no version; otherwise the rule is id + ':' + version, and the version holds no ':' |
| PluginDependencies.SplitAtLastColon | mirai-console/backend/mirai-console/src/plugin/description/PluginDependency.kt:95-96 | a rule built from an id and a requirement free of ':' splits back into that id and that requirement |
| PluginDependencies.Parse | mirai-console/backend/mirai-console/src/plugin/description/PluginDependency.kt:91-102 | the empty string fails with "string is empty."; a parsed dependency is optional exactly when the string ends in '?', and passes the constructor's checks |
| PluginDependencies.Rule | mirai-console/backend/mirai-console/src/plugin/description/PluginDependency.kt:94 | one trailing '?' is removed, and writing it back gives the string; a string without one is unchanged |
| PluginDependencies.BodyOfSplit | mirai-console/backend/mirai-console/src/plugin/description/PluginDependency.kt:74-79 | writing back the id and version a rule splits into gives that rule |
| PluginDependencies.RuleOfToString | mirai-console/backend/mirai-console/src/plugin/description/PluginDependency.kt:93-94 | an unambiguous rendering ends in '?' exactly when the dependency is optional, and stripping that gives its body |
| PluginDependencies.SplitOfBody | mirai-console/backend/mirai-console/src/plugin/description/PluginDependency.kt:95-99 | the body of an unambiguous dependency splits back into its id and its requirement |
| PluginDependencies.ReadBackIsUnambiguous | mirai-console/backend/mirai-console/src/plugin/description/PluginDependency.kt:91-102 | a dependency that reads back as itself is unambiguous |
| PluginDependencies.ToStringOfParse | mirai-console/backend/mirai-console/src/plugin/description/PluginDependency.kt:105-108 | writing back whatever the string serializer reads gives the same string |
| PluginDependencies.ParseOfToString | mirai-console/backend/mirai-console/src/plugin/description/PluginDependency.kt:105-108 | a valid dependency whose string form parses unambiguously reads back as itself |
| PluginDependencies.RoundTripExactly | mirai-console/backend/mirai-console/src/plugin/description/PluginDependency.kt:74-108 | read-after-write gives back the dependency if and only if it is valid and unambiguous: no ':' in the requirement (or in an id without one), and a non-optional form that does not end in '?' |
| NewContacts.IfEmpty | mirai-core/src/commonMain/kotlin/network/notice/NewContactSupport.kt:34 | a non-empty string is kept; the empty string is replaced by the fallback |
| NewContacts.GetNewMemberInfo | mirai-core/src/commonMain/kotlin/network/notice/NewContactSupport.kt:32-43 | a plain member with the authorising uin, named by the authorising nick or, when that is empty, by the sender's nick; card equals nick, with no title, mute or anonymous id |
| NewContacts.FirstTroop | mirai-core/src/commonMain/kotlin/network/notice/NewContactSupport.kt:97 | the index of the first troop with the code, or none exactly when no troop has it |
| NewContacts.FindRank | mirai-core/src/commonMain/kotlin/network/notice/NewContactSupport.kt:98 | the first rank info for the code, or none exactly when none has it |
| NewContacts.NewGroup | mirai-core/src/commonMain/kotlin/network/notice/NewContactSupport.kt:103-116 | the new group's id is the troop's group code, and it keeps the troop and rank info |
| NewContacts.AppendKeepsDistinct | mirai-core/src/commonMain/kotlin/network/notice/NewContactSupport.kt:56-59 | appending a group whose code is not yet present keeps group ids distinct |
| NewContacts.ContactTables.constructor | mirai-core/src/commonMain/kotlin/network/notice/NewContactSupport.kt:61-89 | empty tables satisfy the invariant: keyed by uin, no friend is a stranger, distinct group ids |
| NewContacts.ContactTables.RemoveStranger | mirai-core/src/commonMain/kotlin/network/notice/NewContactSupport.kt:61-66 | removes and returns the stranger with the id, or returns null and changes nothing; friends and groups are untouched |
| NewContacts.ContactTables.RemoveFriend | mirai-core/src/commonMain/kotlin/network/notice/NewContactSupport.kt:68-73 | removes and returns the friend with the id, or returns null and changes nothing; strangers and groups are untouched |
| NewContacts.ContactTables.AddNewFriendAndRemoveStranger | mirai-core/src/commonMain/kotlin/network/notice/NewContactSupport.kt:75-81 | a known friend gives null and changes nothing; otherwise the friend is added and is no longer a stranger |
| NewContacts.ContactTables.AddNewStranger | mirai-core/src/commonMain/kotlin/network/notice/NewContactSupport.kt:83-89 | a uin already a friend or a stranger gives null; otherwise it is added as a stranger; the invariant is kept |
| NewContacts.ContactTables.AddNewGroup | mirai-core/src/commonMain/kotlin/network/notice/NewContactSupport.kt:56-59 | a known group code gives null; otherwise the new group is appended at the end |
| NewContacts.ContactTables.AddNewGroupByCode | mirai-core/src/commonMain/kotlin/network/notice/NewContactSupport.kt:45-48 | a known code, or one absent from the server's troop list, gives null; otherwise the first matching troop, with its first rank info, is appended |
| NewContacts.ContactTables.AddNewGroupByUin | mirai-core/src/commonMain/kotlin/network/notice/NewContactSupport.kt:51-54 | a known group uin gives null; otherwise it is addNewGroupByCode of the code computed from the uin |
| NewContacts.FriendThenStrangerScenario | mirai-core/src/commonMain/kotlin/network/notice/NewContactSupport.kt:75-89 | a stranger who becomes a friend stops being a stranger, and a later stranger report for the same uin is ignored |
| MockAnnouncements.MockGroup.BotAsMember | mirai-core-mock/src/internal/contact/MockAnnouncementsImpl.kt:82 | the bot as a member: its id and its permission in the group |
| MockAnnouncements.MockOnlineAnnouncement.CopyWithFid | mirai-core-mock/src/internal/contact/MockAnnouncementsImpl.kt:48 | a copy that differs only in its fid |
| MockAnnouncements.Put | mirai-core-mock/src/internal/contact/MockAnnouncementsImpl.kt:46-55 | the announcement is stored under its fid; every other entry stays unless both it and the new one are shown to new members; then the new one is the only such entry |
| MockAnnouncements.PutKeepsInvariant | mirai-core-mock/src/internal/contact/MockAnnouncementsImpl.kt:46-55 | storing keeps the table keyed by fid, with at most one announcement for new members |
| MockAnnouncements.MockAnnouncementsImpl.constructor | mirai-core-mock/src/internal/contact/MockAnnouncementsImpl.kt:35 | a new board is empty |
| MockAnnouncements.MockAnnouncementsImpl.Delete | mirai-core-mock/src/internal/contact/MockAnnouncementsImpl.kt:41 | true exactly when an entry was there; the entry is gone afterwards |
| MockAnnouncements.MockAnnouncementsImpl.Get | mirai-core-mock/src/internal/contact/MockAnnouncementsImpl.kt:43 | the entry under the fid, or null exactly when there is none |
| MockAnnouncements.MockAnnouncementsImpl.PutDirect | mirai-core-mock/src/internal/contact/MockAnnouncementsImpl.kt:46-55 | an announcement with no fid is copied under the new id; the board becomes `Put` of it; it belongs to this group; the invariant is kept |
| MockAnnouncements.MockAnnouncementsImpl.MockPublish | mirai-core-mock/src/internal/contact/MockAnnouncementsImpl.kt:57-76 | a fresh, unconfirmed announcement by the actor, at the given time, under the new id, stored as `Put` says |
| MockAnnouncements.MockAnnouncementsImpl.Publish | mirai-core-mock/src/internal/contact/MockAnnouncementsImpl.kt:78-83 | a bot that is not an operator gets the permission error and the board is unchanged; otherwise it publishes as itself |
| MockAnnouncements.MockAnnouncementsImpl.Members | mirai-core-mock/src/internal/contact/MockAnnouncementsImpl.kt:89-95 | the permission error for a non-operator bot; otherwise every member of the group |
| MockAnnouncements.MockAnnouncementsImpl.Remind | mirai-core-mock/src/internal/contact/MockAnnouncementsImpl.kt:97-101 | the permission error for a non-operator bot; otherwise nothing happens |
| MockAnnouncements.SecondNoticeReplacesFirst | mirai-core-mock/src/internal/contact/MockAnnouncementsImpl.kt:50-53 | storing an ordinary announcement and two new-member notices leaves exactly the ordinary one and the second notice |
| MockAnnouncements.NewMemberNoticeReplacedScenario | mirai-core-mock/src/internal/contact/MockAnnouncementsImpl.kt:46-55 | after two new-member notices and one ordinary announcement, the board holds exactly the ordinary one and the second notice |
| Integers.ToIntOrNull | mirai-console/backend/mirai-console/src/internal/extension/SingletonExtensionSelectorImpl.kt:81 | a value exactly for an optional sign followed by digits within the 32-bit range, and then it is the value they denote |
| Integers.DigitChar | mirai-console/backend/mirai-console/src/internal/extension/SingletonExtensionSelectorImpl.kt:74 | the digit character for a value below ten |
| Integers.NatToString | mirai-console/backend/mirai-console/src/internal/extension/SingletonExtensionSelectorImpl.kt:74 | a non-empty string of decimal digits |
| Integers.DigitsValueOfNatToString | mirai-console/backend/mirai-console/src/internal/extension/SingletonExtensionSelectorImpl.kt:74 | the digits written for a number denote that number |
| Integers.ToIntOrNullOfIntToString | mirai-console/backend/mirai-console/src/internal/extension/SingletonExtensionSelectorImpl.kt:74-81 | toIntOrNull reads back every 32-bit number that toString writes |
| SingletonExtensionSelectors.FirstWithClass | mirai-console/backend/mirai-console/src/internal/extension/SingletonExtensionSelectorImpl.kt:52 | the first candidate with the saved class name, or none exactly when no candidate has it |
| SingletonExtensionSelectors.Decide | mirai-console/backend/mirai-console/src/internal/extension/SingletonExtensionSelectorImpl.kt:42-57 | no candidate gives null; exactly one is taken without asking; among several the first one with the saved class name wins; the user is asked exactly when there are several and none matches |
| SingletonExtensionSelectors.ManualSelection | mirai-console/backend/mirai-console/src/internal/extension/SingletonExtensionSelectorImpl.kt:65-84 | "Bad choice" exactly when the input is not an integer; the k-th candidate exactly when 1 ≤ k ≤ the count; otherwise an index error at k − 1, in 32-bit arithmetic |
| SingletonExtensionSelectors.TypingTheListedNumber | mirai-console/backend/mirai-console/src/internal/extension/SingletonExtensionSelectorImpl.kt:65-84 | typing the number a candidate is listed under selects that candidate |
| SingletonExtensionSelectors.SingletonExtensionSelectorImpl.constructor | mirai-console/backend/mirai-console/src/internal/extension/SingletonExtensionSelectorImpl.kt:36-40 | the config starts as the saved map |
| SingletonExtensionSelectors.SingletonExtensionSelectorImpl.PromptForSelectionAndSave | mirai-console/backend/mirai-console/src/internal/extension/SingletonExtensionSelectorImpl.kt:59-63 | a failed selection leaves the config unchanged; a successful one saves the chosen class under the extension type and returns it |
| SingletonExtensionSelectors.SingletonExtensionSelectorImpl.SelectSingleton | mirai-console/backend/mirai-console/src/internal/extension/SingletonExtensionSelectorImpl.kt:42-57 | the result is what `Decide` says, with the prompt's result when it asks; the config changes only when the user picks, and only under that extension type |
| ConsoleThreads.Normalize | mirai-console/frontend/mirai-console-terminal/src/ConsoleThread.kt:54-61 | blank input and input with the prefix are kept; "?" becomes the help command; anything else gets the prefix |
| ConsoleThreads.StartsWithConcat | mirai-console/frontend/mirai-console-terminal/src/ConsoleThread.kt:58-59 | the prefix followed by anything starts with the prefix |
| ConsoleThreads.NotBlankConcat | mirai-console/frontend/mirai-console-terminal/src/ConsoleThread.kt:58-59 | a string with a non-blank part is not blank |
| ConsoleThreads.NormalizedStartsWithPrefix | mirai-console/frontend/mirai-console-terminal/src/ConsoleThread.kt:54-61 | every non-blank line becomes a non-blank line that starts with the command prefix |
| ConsoleThreads.NormalizeIdempotent | mirai-console/frontend/mirai-console-terminal/src/ConsoleThread.kt:54-61 | normalising a normalised line changes nothing |
| ConsoleThreads.CommandToExecute | mirai-console/frontend/mirai-console-terminal/src/ConsoleThread.kt:54-79 | a line is skipped exactly when it is blank; any other line is executed in normalised form, starting with the prefix |
| ConsoleThreads.RenderReason | mirai-console/frontend/mirai-console-terminal/src/ConsoleThread.kt:152-164 | the fixed message of each reason kind; the message starts "需要由 " exactly for a receiver mismatch, and then names the required sender |
| ConsoleThreads.RenderReasonTellsKind | mirai-console/frontend/mirai-console-terminal/src/ConsoleThread.kt:152-164 | reasons of different kinds never render alike |
| ConsoleThreads.AnyStringConstantUnmatched | mirai-console/frontend/mirai-console-terminal/src/ConsoleThread.kt:137-141 | true exactly when some string-constant parameter rejects the argument at its position, within the shorter of the two lists |
| ConsoleThreads.ShownSignatures | mirai-console/frontend/mirai-console-terminal/src/ConsoleThread.kt:125-130 | exactly the signatures that pass the filter are kept, and nothing else; a single signature is kept exactly when it passes |
| ConsoleThreads.ShownSignaturesConcat | mirai-console/frontend/mirai-console-terminal/src/ConsoleThread.kt:125-130 | filtering a concatenation is concatenating the filtered parts, so order and repetitions are kept |
| ConsoleThreads.RenderSignature | mirai-console/frontend/mirai-console-terminal/src/ConsoleThread.kt:144-149 | the trimmed usage, then four spaces and the reason in parentheses |
| ConsoleThreads.RenderEach | mirai-console/frontend/mirai-console-terminal/src/ConsoleThread.kt:134 | one rendering per signature, in order |
| ConsoleThreads.RenderEachConcat | mirai-console/frontend/mirai-console-terminal/src/ConsoleThread.kt:134 | rendering a concatenation is concatenating the renderings |
| ConsoleThreads.RenderUnmatched | mirai-console/frontend/mirai-console-terminal/src/ConsoleThread.kt:124-135 | with no signature shown, the command's usage; with one shown, that signature's rendering; when every signature failed on a string constant, the usage |
| ConsoleThreads.RenderUnmatchedConcat | mirai-console/frontend/mirai-console-terminal/src/ConsoleThread.kt:124-135 | two lists that each show a signature render as their two renders joined by a single line feed, so the shown signatures appear one per line, in order |
| PluginDataImpls.RewriteOne | mirai-console/backend/mirai-console/src/internal/data/PluginDataImpl.kt:122-131 | SerialName fails with its message; ValueName is dropped; ValueDescription becomes a Comment; the others are kept |
| PluginDataImpls.RewriteAnnotations | mirai-console/backend/mirai-console/src/internal/data/PluginDataImpl.kt:122-131 | fails exactly when some annotation is a SerialName; otherwise every ValueName is dropped and only Comment and other annotations remain; a single annotation is rewritten as `RewriteOne` says |
| PluginDataImpls.RewriteConcat | mirai-console/backend/mirai-console/src/internal/data/PluginDataImpl.kt:122-131 | rewriting a concatenation is concatenating the rewrites, and it fails when either part fails |
| PluginDataImpls.RewriteKeepsPlainAnnotations | mirai-console/backend/mirai-console/src/internal/data/PluginDataImpl.kt:122-131 | a list of only comments and other annotations is returned unchanged |
| PluginDataImpls.FindNodeInstance | mirai-console/backend/mirai-console/src/internal/data/PluginDataImpl.kt:45-48 | the index of the first node with the name, or none exactly when no node has it |
| PluginDataImpls.FindNodeInstanceExtended | mirai-console/backend/mirai-console/src/internal/data/PluginDataImpl.kt:45-48 | nodes added later do not change a successful lookup |
| PluginDataImpls.DescriptorOf | mirai-console/backend/mirai-console/src/internal/data/PluginDataImpl.kt:52-59 | the descriptor has the save name and one element per node, with the node's name and annotations |
| PluginDataImpls.FirstRepeated | mirai-console/backend/mirai-console/src/internal/data/PluginDataImpl.kt:54-56 | none exactly when all node names are distinct; otherwise the first node whose name an earlier node has, all names before it being distinct |
| PluginDataImpls.FirstRepeatedOfPrefix | mirai-console/backend/mirai-console/src/internal/data/PluginDataImpl.kt:54-56 | a repetition inside a prefix is the first repetition of the whole list |
| PluginDataImpls.SecondNameRepeats | mirai-console/backend/mirai-console/src/internal/data/PluginDataImpl.kt:54-56 | two nodes named "a" around a "b": the names are not distinct and the third node is the first repetition |
| PluginDataImpls.BuildDescriptor | mirai-console/backend/mirai-console/src/internal/data/PluginDataImpl.kt:52-59 | succeeds exactly when the save name is not blank and the node names are distinct, with `DescriptorOf` the nodes; a blank save name fails first, otherwise the failure names the first repeated name |
| PluginDataImpls.DecodeSequentially | mirai-console/backend/mirai-console/src/internal/data/PluginDataImpl.kt:64-74 | each entry takes two element indices, its name's and its value's, and the value goes to the first node named like it |
| PluginDataImpls.DecodeByIndex | mirai-console/backend/mirai-console/src/internal/data/PluginDataImpl.kt:76-96 | each decoded index's value goes to the first node named like that descriptor element, in the decoder's order, or is discarded |
| PluginDataImpls.Deserialize | mirai-console/backend/mirai-console/src/internal/data/PluginDataImpl.kt:61-99 | the sequential branch when the decoder says so, reading each entry's name at index 2k and routing its value at 2k+1; the indexed one otherwise |
| PluginDataImpls.Serialize | mirai-console/backend/mirai-console/src/internal/data/PluginDataImpl.kt:101-117 | elements are written in index order with their first matching node; it fails exactly when some element has no node, at the first such element, with "Cannot find a serializer for" and its name |
| PluginDataImpls.LaterNodesCoverDescriptor | mirai-console/backend/mirai-console/src/internal/data/PluginDataImpl.kt:52-59 | every element of a descriptor built from earlier nodes finds the same node among the later nodes |
| PluginDataImpls.PluginDataImpl.constructor | mirai-console/backend/mirai-console/src/internal/data/PluginDataImpl.kt:39-43 | a new object has its nodes and no descriptor yet |
| PluginDataImpls.PluginDataImpl.AddValueNode | mirai-console/backend/mirai-console/src/internal/data/PluginDataImpl.kt:52-59 | the node is appended, and a descriptor already computed is not rebuilt |
| PluginDataImpls.PluginDataImpl.Descriptor | mirai-console/backend/mirai-console/src/internal/data/PluginDataImpl.kt:52-59 | a computed descriptor is returned unchanged; otherwise it is built from the current nodes and cached, or, when the save name is blank or a name repeats, the failure is returned and nothing is cached |
| PluginDataImpls.PluginDataImpl.SerializeAll | mirai-console/backend/mirai-console/src/internal/data/PluginDataImpl.kt:101-117 | fails exactly when the descriptor is not computed yet and the save name is blank or a node name repeats; otherwise every element of the object's descriptor is written with its node, so "Cannot find a serializer" never happens |

## Left out

- Coroutines, suspension and resumption are left out. A call's "suspended" outcome is a reply that leaves the state unchanged. Jobs, deferred values, cancellation and the concurrency of the channel are not modelled.
- The OnDemandChannel implementation class is not part of this model. The channel object follows the transition diagram of ChannelState.kt:32-88.
- Channels.CreateAlreadyFinishedException: the previous state appears in the message by its variant name only. Its full `toString` (ChannelState.kt:111, 121, 136, 145, 178) holds debug details such as completion flags, which are left out.
- Failures.Throwable: only the class name and optional message of `toString` are modelled. Stack traces are left out.
- The message of IllegalChannelStateException for a call out of turn is not modelled; only its class and the absence of a cause are.
- AuthControl's logging and its `exceptionCollector` are left out. So is the body of the user's authorization strategy, which is whatever sequence of emits and finishes the caller performs.
- PluginDependencies.Create: `PluginDescription.checkPluginId` and `SemVersion.parseRangeRequirement` are not part of this model. They are the parameters `idOk` and `rangeOk`, and the wrapped error is the single value `InvalidDependency`.
- NewContacts.ContactTables.AddNewGroupByCode: the server request of `getNewGroup` (NewContactSupport.kt:91-101) is left out. The troop list and the rank list it returns are parameters. The member list fetched for a new group (103-116) and a removed contact's cancelled scope are left out.
- NewContacts.ContactTables.AddNewGroupByUin: `calculateGroupCodeByGroupUin` is a parameter.
- NewContacts.GetNewMemberInfo: copied from MsgHead fields only; other message fields are left out.
- MockAnnouncements.MockAnnouncementsImpl.MockPublish: the fresh id (`UUID.randomUUID()`) and the clock are parameters. It requires the id to be non-empty, as every randomly generated UUID string is.
- MockAnnouncements.MockAnnouncementsImpl.MockPublish: the `firstOrNull` at MockAnnouncementsImpl.kt:58-60 has no effect and is left out. No event is broadcast whatever `events` says (72-75), as in the source.
- `uploadImage` (MockAnnouncementsImpl.kt:85-87), `asFlow` and `asStream` (37-39) are left out: they only expose the board as a flow, a stream or a resource.
- SingletonExtensionSelectors.SingletonExtensionSelectorImpl.SelectSingleton: the prompt's text, its logging and reading the answer from the console are left out. The typed answer is the parameter `choice`. Saving the config to disk is left out.
- The JLine read loop of ConsoleThread.kt:38-121 is left out, except the normalisation (54-61) and the blank skip (77-79). Reading lines, signal handling, executing the command and logging its result are I/O.
- ConsoleThreads.RenderSignature: `CommandReflector.generateUsage` is the parameter `usageOf`. `StringConstant.accepts` is the parameter `accepts`, and `renderAsName` is the receiver name held in the reason. ConsoleThread.kt:167-183 renders that name and is not modelled.
- Text.IsWhitespace: Kotlin's whitespace test covers all of Unicode; the model knows the ASCII and Latin-1 whitespace characters only. Integers.IsDigit likewise knows only the ASCII digits, where `toIntOrNull` also accepts other Unicode decimal digits.
- PluginDataImpls.Deserialize: the two nested `while (true)` loops of the indexed branch (PluginDataImpl.kt:76-95) are one loop over the indices the decoder returns up to DECODE_DONE. A `decodeSequentially()` that throws counts as no. What a node's own serializer does with a value is left out: decoding is modelled by which node receives which element.
- PluginDataImpls.BuildDescriptor: the blank-name check of `buildClassSerialDescriptor` and the uniqueness check of `element` belong to kotlinx.serialization, which is not part of this model; the failures are the values `BlankSerialName` and `DuplicateElement(name)`, without the IllegalArgumentException's message. `updaterSerializer.descriptor` of each node and `isOptional` are not modelled.
- PluginDataImpls.Deserialize takes the descriptor as a parameter: the failure of the lazy `descriptor` on a blank save name or a repeated name, which would abort deserialize as it aborts serialize, is modelled in `SerializeAll` only.
- AuthControls.AuthControl.AcquireAuthCorrected is not what AuthControl.kt does: it shows acquireAuth with the corrected unwrap of the finding below. `AcquireAuth` follows the source.
- PluginDataImpls.DecodeByIndex: requires the decoder's indices to be elements of the descriptor. For any other index `getElementName` would throw, and that error path is not modelled.
- The string serializer `PluginDependencyAsStringSerializer` (PluginDependency.kt:105-108) is the pair `ToString` / `Parse` and has no member of its own.

## Findings

| source | as written | input that shows it | evidently intended | confidence | as-written member | corrected member |
|---|---|---|---|---|---|---|
| mirai-core-utils/src/commonMain/kotlin/channels/ProducerFailureException.kt:19 | `cause.also { addSuppressed(this) }` calls `addSuppressed` on the ProducerFailureException itself, with itself as the argument. Kotlin's `addSuppressed` ignores self-suppression (the JVM's would throw), so the cause never records the failure. | any ProducerFailureException with a non-null cause, unwrapped once | the unwrapped cause lists the ProducerFailureException among its suppressed exceptions (`cause.also { it.addSuppressed(this) }`) | not executed; medium | Failures.Throwable.UnwrapAsWritten, Failures.AsWrittenUnwrapLosesBackLink, AuthControls.CrashScenario | Failures.Throwable.Unwrap, Failures.UnwrapRecordsBackLinkOnce, AuthControls.AuthControl.AcquireAuthCorrected |
