# bolt-painel-frontend: a Dafny model of the marketing panel's core

The panel is a single-page admin tool for a WhatsApp sales bot. It keeps
clients in four purchase-funnel categories. It also keeps messages, bot flows,
outbound campaigns and remarketing flows, where each remarketing flow answers
one campaign, along with the bot configuration and derived statistics.

This project models that core as pure functions over immutable records:

- The central store (`AppContext`): each handler is one transition from a
  `Store` to the next one.
- The editors and tabs that turn user input into store updates: the campaign,
  remarketing-flow and client modals, and the campaigns, remarketing-flows,
  clients, statistics and WhatsApp chat tabs.

`Partial<T>` updates merged with `{ ...record, ...patch }` are patch records
(`Patches`). A patch field is `None` when the key is absent. For an optional
field, `Some(None)` stands for a key explicitly set to `undefined`.

Several kinds of input become parameters:

- Ids that the source draws at random.
- The current time.
- Date-to-text conversions.
- The user's answer to a `confirm` dialog.

`parseInt`, `trim`, `includes` and the `\D` digit stripping are modelled in
ECMAScript terms (`Text`).

Besides one-call contracts, the project proves the following:

- **Round trips.** Deleting what was just added restores the store. Removing
  the step, button or trigger just added restores the form. `parseInt` reads
  back a rendered number. Loading a record into a form and submitting it
  unchanged gives back the record, except for the documented normalisations.
- **Invariants.** The campaign ↔ remarketing-flow links stay consistent under
  the handlers that keep them so, and fail under the ones that do not. The
  four categories, and the two statuses, each partition the clients. The
  category percentages add up to 100.
- **Scenarios.** Concrete scenarios show what the handlers, as written, do to
  back-references:
  - a second flow for a campaign takes over the reference;
  - deleting the first flow then clears the reference to the second;
  - an edit that moves a flow to another campaign does not re-link.

## Model

| member | source | states |
|---|---|---|
| `Types.CategoryOfKey` | src/types/index.ts:5 | a raw string is a category key exactly when some category has that key, and then it names that category |
| `Types.FlowStepTypeOfKey` | src/types/index.ts:29 | a raw string names a flow step kind exactly when some kind has that key |
| `Types.CampaignStepTypeOfKey` | src/types/index.ts:63 | a raw string names a campaign step kind exactly when some kind has that key |
| `Patches.EmptyPatchesChangeNothing` | src/contexts/AppContext.tsx:230-235 | spreading an update with no keys over a record leaves the record as it was |
| `Patches.PatchesIdempotent` | src/contexts/AppContext.tsx:322-331 | spreading the same update twice is spreading it once |
| `Patches.WholeConfigReplaces` | src/contexts/AppContext.tsx:344-349 | merging a configuration that carries every key replaces the previous configuration |
| `Text.TrimEmptyIffBlank` | src/components/modals/RemarketingFlowModal.tsx:46 | a trigger trims to the empty string exactly when all its characters are whitespace |
| `Text.ParseIntOfNatToString` | src/components/modals/CampaignModal.tsx:317 | `parseInt` reads a typed decimal number back as that number, with or without a minus sign |
| `Text.ParseIntOfNumberThen` | src/components/tabs/ChatBotTab.tsx:109-111 | `parseInt` of a number followed by text that cannot continue it reads the number |
| `AppContext.Login` | src/contexts/AppContext.tsx:190-199 | the login succeeds exactly for the password `admin123` and then signs in; any other password changes nothing |
| `AppContext.Logout` | src/contexts/AppContext.tsx:201-205 | signs out and changes nothing else |
| `AppContext.AddClient` | src/contexts/AppContext.tsx:224-228 | the client is appended under the new id; the other clients stay in front, in order |
| `AppContext.UpdateClient` | src/contexts/AppContext.tsx:230-235 | every client with the id gets the patch merged in; every other client, and the order, stays |
| `AppContext.DeleteClient` | src/contexts/AppContext.tsx:237-241 | exactly the clients without the id survive, together with exactly the messages not addressed to that id: every copy of each survivor is kept, in its order |
| `AppContext.MoveClientToCategory` | src/contexts/AppContext.tsx:243-245 | the clients with the id take the new category; nothing else changes |
| `AppContext.SendMessage` | src/contexts/AppContext.tsx:247-260 | one unread admin message with the given id, client, content, type, media and time is appended after the existing ones |
| `AppContext.AddBotFlow` | src/contexts/AppContext.tsx:262-266 | the flow is appended under the new id |
| `AppContext.UpdateBotFlow` | src/contexts/AppContext.tsx:268-273 | every bot flow with the id gets the patch; the others stay |
| `AppContext.DeleteBotFlow` | src/contexts/AppContext.tsx:275-278 | exactly the bot flows without the id survive, every copy of each, in order |
| `AppContext.AddRemarketingFlow` | src/contexts/AppContext.tsx:280-290 | the flow is appended under the new id; when it names a campaign, every campaign with that id points back at the new flow, overwriting any earlier reference; with an empty campaign id the campaigns stay |
| `AppContext.UpdateRemarketingFlow` | src/contexts/AppContext.tsx:292-297 | every flow with the id gets the patch; the others stay, and campaigns are not touched |
| `AppContext.DeleteRemarketingFlow` | src/contexts/AppContext.tsx:299-308 | exactly the flows without the id survive, every copy of each; when the first flow with the id names a campaign, every campaign with that id loses its back-reference, whatever flow it pointed at |
| `AppContext.AddCampaign` | src/contexts/AppContext.tsx:310-320 | the campaign is appended under the new id as a draft with zero sent and open counts, whatever status and counts it carried |
| `AppContext.UpdateCampaign` | src/contexts/AppContext.tsx:322-326 | every campaign with the id gets the patch; the others stay |
| `AppContext.DropFlowsSharingIds` | src/contexts/AppContext.tsx:336-338 | the forEach of filters keeps exactly the flows that share an id with no doomed flow, every copy of each, in order |
| `AppContext.DeleteCampaign` | src/contexts/AppContext.tsx:333-342 | exactly the campaigns without the id survive, and exactly the flows sharing no id with a flow the campaign owned; every copy of each survivor is kept, in order, and no survivor is owned by the deleted campaign |
| `AppContext.UpdateBotConfig` | src/contexts/AppContext.tsx:344-349 | the configuration becomes the patch merged over it; nothing else changes |
| `AppContext.UpdatePublicChatUrl` | src/contexts/AppContext.tsx:351-355 | the public chat URL becomes the given one; nothing else changes |
| `AppContext.StatusesPartition` | src/contexts/AppContext.tsx:359-360 | the active and the abandoned clients together are all the clients |
| `AppContext.ConvertedComplementsNotBought` | src/contexts/AppContext.tsx:362-363 | the clients that have bought are exactly the complement of `not_bought` |
| `AppContext.CategoriesPartition` | src/types/index.ts:5 | the four categories split the clients between them |
| `AppContext.Percent` | src/contexts/AppContext.tsx:361 | the rate is 0 without conversations; otherwise it is the share of the total times 100, and it lies between 0 and 100 |
| `AppContext.ComputeStatistics` | src/contexts/AppContext.tsx:357-375 | the total is the number of clients; active plus abandoned is the total; the response rate is the active share and the conversion rate the share that is not `not_bought`; the daily count is the number of positions in the message list holding a message dated today |
| `AppContext.UpdateStatistics` | src/contexts/AppContext.tsx:377-379 | the statistics become those recomputed from the clients and messages; nothing else changes |
| `Links.FindUniqueFlow` | src/contexts/AppContext.tsx:300 | with unique flow ids, `find` by id returns the one flow with that id |
| `Links.DropFlowsIsFilter` | src/contexts/AppContext.tsx:335-338 | the forEach of filters equals a single filter that keeps the flows sharing no id with a doomed flow |
| `Links.DeleteCampaignDropsOwnedFlows` | src/contexts/AppContext.tsx:333-342 | with unique flow ids, deleting a campaign keeps exactly the flows it does not own, in order |
| `Links.AddRemarketingFlowKeepsLinks` | src/contexts/AppContext.tsx:280-290 | adding a flow under a fresh id keeps flow ids unique and every back-reference resolving to a flow the campaign owns |
| `Links.DeleteRemarketingFlowKeepsLinks` | src/contexts/AppContext.tsx:299-308 | deleting a flow from a consistent store keeps it consistent |
| `Links.DeleteCampaignKeepsLinks` | src/contexts/AppContext.tsx:333-342 | deleting a campaign from a consistent store keeps it consistent |
| `Links.AddCampaignKeepsLinks` | src/contexts/AppContext.tsx:310-320 | adding a campaign without a back-reference keeps the store consistent |
| `Links.UpdateCampaignKeepsLinks` | src/contexts/AppContext.tsx:322-331 | an update that sets neither the id nor the back-reference keeps the store consistent |
| `Links.UpdateRemarketingFlowKeepsLinks` | src/contexts/AppContext.tsx:292-297 | an update that sets neither the id nor the owner keeps the store consistent |
| `Links.SecondFlowTakesOverBackRef` | src/contexts/AppContext.tsx:285-287 | a second flow for the same campaign takes the back-reference while the first flow stays in the list |
| `Links.DeletingFirstFlowClearsSecondsBackRef` | src/contexts/AppContext.tsx:299-306 | after a second flow took over, deleting the first flow clears the campaign's reference to the second flow, which remains and is still owned by that campaign |
| `Links.UpdateRemarketingFlowCanBreakLinks` | src/contexts/AppContext.tsx:292-297 | moving a linked flow to another campaign leaves a consistent store inconsistent |
| `StoreLaws.DeleteClientUndoesAdd` | src/contexts/AppContext.tsx:224-241 | deleting a client just added under a fresh id, with no messages to it, restores the store |
| `StoreLaws.DeleteClientDropsSentMessage` | src/contexts/AppContext.tsx:237-260 | a message sent to a client goes with it: deleting the client after the send gives the store deleting it before gives |
| `StoreLaws.DeleteBotFlowUndoesAdd` | src/contexts/AppContext.tsx:262-278 | deleting a bot flow just added under a fresh id restores the store |
| `StoreLaws.DeleteCampaignUndoesAdd` | src/contexts/AppContext.tsx:310-342 | deleting a campaign just added under a fresh id, which no flow names, restores the store |
| `StoreLaws.DeleteRemarketingFlowUndoesAdd` | src/contexts/AppContext.tsx:280-308 | deleting a flow just added under a fresh id restores the store when the campaign it names had no back-reference |
| `StoreLaws.UpdatesOfUnknownIdsChangeNothing` | src/contexts/AppContext.tsx:230-297 | updates aimed at an id that no client, campaign or flow has change nothing |
| `StoreLaws.FailedLoginChangesNothing` | src/contexts/AppContext.tsx:190-199 | a wrong password leaves the store as it was and reports failure |
| `StoreLaws.StatisticsDependOnClientsAndMessages` | src/contexts/AppContext.tsx:377-379 | two stores with the same clients and messages get the same statistics |
| `CampaignsTab.SendCampaign` | src/components/tabs/CampaignsTab.tsx:23-35 | an unknown id or an unconfirmed send changes nothing; a confirmed send marks every campaign with the id as sent, with the size of the found campaign's audience as its sent count, whatever its status |
| `CampaignsTab.SendMarksCampaignSent` | src/components/tabs/CampaignsTab.tsx:23-35 | after a send, the campaign is sent and counts exactly its audience, so the tab shows its counters and no send button |
| `CampaignsTab.SendKeepsLinks` | src/components/tabs/CampaignsTab.tsx:29-33 | sending keeps the campaign ↔ flow links consistent |
| `CampaignsTab.TargetCount` | src/components/tabs/CampaignsTab.tsx:37-39 | the audience is the number of positions in the client list holding a client of the category; it is at most all clients, and zero exactly when no client is in the category |
| `CampaignsTab.EmptyAudience` | src/components/modals/CampaignModal.tsx:137-139 | a category counts zero clients exactly when no client is in it |
| `CampaignsTab.CountIsAudienceSize` | src/components/tabs/CampaignsTab.tsx:37-39 | counting a category's clients counts the positions holding them |
| `CampaignsTab.SendNowAndCountsExclusive` | src/components/tabs/CampaignsTab.tsx:166-176 | no campaign both offers "Enviar Agora" and shows its counters |
| `CampaignsTab.CategoryName` | src/components/tabs/CampaignsTab.tsx:41-49 | every category has a non-empty label |
| `CampaignsTab.StatusText` | src/components/tabs/CampaignsTab.tsx:60-67 | every status has a non-empty label |
| `CampaignsTab.StepKindLabel` | src/components/tabs/CampaignsTab.tsx:88-98 | every campaign step kind has a non-empty label |
| `CampaignsTab.LabelsDistinct` | src/components/tabs/CampaignsTab.tsx:41-98 | different categories, statuses or step kinds never share a label |
| `CampaignsTab.StepTypeName` | src/components/tabs/CampaignsTab.tsx:88-98 | a known step kind's key shows its label; any other string is shown as it is |
| `CampaignModal.LoadCampaign` | src/components/modals/CampaignModal.tsx:24-36 | the form takes the campaign's fields; a date shows as its rendered input text and a missing date as empty text, and the checkbox is ticked exactly when `hasRemarketingFlow` is true |
| `CampaignModal.FormDate` | src/components/modals/CampaignModal.tsx:43 | an empty date field is no date; any other text is a date |
| `CampaignModal.Submit` | src/components/modals/CampaignModal.tsx:38-53 | an edit becomes an update of the edited campaign's id, and anything else becomes a creation |
| `CampaignModal.EditTouchesFormFieldsOnly` | src/components/modals/CampaignModal.tsx:38-47 | an edit stores every form field, the date as the field reads (none when cleared) and a set `hasRemarketingFlow`; id, status, counters and back-reference stay |
| `CampaignModal.ClearingDateUnschedules` | src/components/modals/CampaignModal.tsx:41-47 | clearing the date field of a campaign and saving leaves it without a date |
| `CampaignModal.SubmitNewCampaign` | src/components/modals/CampaignModal.tsx:38-53 | a new campaign is appended as a draft carrying the form's fields, with no counters and no back-reference, and with no date when the field was empty |
| `CampaignModal.LoadThenSubmitKeepsCampaign` | src/components/modals/CampaignModal.tsx:24-53 | saving an unchanged undated campaign changes only a missing `hasRemarketingFlow` into `false` |
| `CampaignModal.LoadThenSubmitRereadsDate` | src/components/modals/CampaignModal.tsx:31-43 | saving an unchanged dated campaign stores the date its rendered text reads back as |
| `CampaignModal.AddStep` | src/components/modals/CampaignModal.tsx:55-67 | one empty message step with delay 0 is appended; the other steps stay |
| `CampaignModal.UpdateStep` | src/components/modals/CampaignModal.tsx:69-74 | only step `i` gets the patch merged in |
| `CampaignModal.RemoveStep` | src/components/modals/CampaignModal.tsx:76-81 | exactly step `i` is dropped and the others keep their order; an index outside the list changes nothing |
| `CampaignModal.RemoveStepUndoesAdd` | src/components/modals/CampaignModal.tsx:55-81 | removing the step just added gives the form back |
| `CampaignModal.AttachFile` | src/components/modals/CampaignModal.tsx:90-99 | the chosen file's URL and name go into step `i` only |
| `CampaignModal.AcceptType` | src/components/modals/CampaignModal.tsx:101-114 | each media kind gets its file filter; the filter is empty exactly for the other kinds |
| `CampaignModal.AcceptTypeOfStepKinds` | src/components/modals/CampaignModal.tsx:101-114 | among campaign step kinds, exactly text and button steps have no file filter |
| `CampaignModal.AddButton` | src/components/modals/CampaignModal.tsx:141-147 | one button with empty text is appended to step `si`, treating missing buttons as none; the other steps stay |
| `CampaignModal.UpdateButton` | src/components/modals/CampaignModal.tsx:149-155 | only button `bi` of step `si` takes the new text and keeps its id |
| `CampaignModal.RemoveButton` | src/components/modals/CampaignModal.tsx:157-161 | exactly button `bi` of step `si` is dropped |
| `CampaignModal.RemoveButtonUndoesAdd` | src/components/modals/CampaignModal.tsx:141-161 | removing the button just added gives the step its buttons back |
| `CampaignModal.DelayInput` | src/components/modals/CampaignModal.tsx:317 | the delay is the parsed number, or 0 when the text is not a number; the flow editor's step delay field (src/components/modals/RemarketingFlowModal.tsx line 376) is the same expression and is modelled by this member too |
| `CampaignModal.DelayInputReadsNumbers` | src/components/modals/RemarketingFlowModal.tsx:376 | a typed number of seconds is read as that number, with either sign |
| `CampaignModal.EmptyDelayIsZero` | src/components/modals/CampaignModal.tsx:317 | an empty delay field is 0 |
| `RemarketingFlowModal.AbandonmentOrDefault` | src/components/modals/RemarketingFlowModal.tsx:33 | a missing or zero abandonment time loads as 30 minutes; any other value is kept |
| `RemarketingFlowModal.LoadFlow` | src/components/modals/RemarketingFlowModal.tsx:26-39 | the form takes the flow's fields; no triggers load as one empty trigger |
| `RemarketingFlowModal.KeptTriggers` | src/components/modals/RemarketingFlowModal.tsx:46 | exactly the triggers with a non-whitespace character are kept, every copy of each, in order |
| `RemarketingFlowModal.Submit` | src/components/modals/RemarketingFlowModal.tsx:41-56 | an edit becomes an update of the edited flow's id, and anything else becomes a creation |
| `RemarketingFlowModal.EditTouchesFormFieldsOnly` | src/components/modals/RemarketingFlowModal.tsx:41-50 | an edit stores every form field with the blank triggers dropped and the abandonment time set; only the id stays |
| `RemarketingFlowModal.SubmitNewFlow` | src/components/modals/RemarketingFlowModal.tsx:41-56 | a new flow carrying the form's name, description, active flag, steps, campaign, category, abandonment time and kept triggers is appended after the unchanged earlier flows, and the chosen campaign points at it |
| `RemarketingFlowModal.EditingDoesNotRelink` | src/components/modals/RemarketingFlowModal.tsx:49-50 | saving an edited flow never changes a campaign's back-reference |
| `RemarketingFlowModal.SelectThenCreateLinks` | src/components/modals/RemarketingFlowModal.tsx:41-56 | choosing a campaign and creating a flow for it under a fresh id, in a consistent store, links the two both ways with the campaign's target category and keeps the store consistent |
| `RemarketingFlowModal.AddTrigger` | src/components/modals/RemarketingFlowModal.tsx:58-63 | one empty trigger is appended |
| `RemarketingFlowModal.UpdateTrigger` | src/components/modals/RemarketingFlowModal.tsx:65-70 | only trigger `i` takes the new text |
| `RemarketingFlowModal.RemoveTrigger` | src/components/modals/RemarketingFlowModal.tsx:72-77 | exactly trigger `i` is dropped; an index outside the list changes nothing |
| `RemarketingFlowModal.TriggerEditsKeepOne` | src/components/modals/RemarketingFlowModal.tsx:299 | since removal is offered only when there are two or more triggers, the edits never leave the form without a trigger |
| `RemarketingFlowModal.RemoveTriggerUndoesAdd` | src/components/modals/RemarketingFlowModal.tsx:58-77 | removing the trigger just added gives the form back |
| `RemarketingFlowModal.AddStep` | src/components/modals/RemarketingFlowModal.tsx:79-91 | one empty message step is appended |
| `RemarketingFlowModal.UpdateStep` | src/components/modals/RemarketingFlowModal.tsx:93-98 | only step `i` gets the patch merged in |
| `RemarketingFlowModal.RemoveStep` | src/components/modals/RemarketingFlowModal.tsx:100-105 | exactly step `i` is dropped; an index outside the list changes nothing |
| `RemarketingFlowModal.RemoveStepUndoesAdd` | src/components/modals/RemarketingFlowModal.tsx:79-105 | removing the step just added gives the form back |
| `RemarketingFlowModal.AcceptType` | src/components/modals/RemarketingFlowModal.tsx:125-136 | audio, image and video get their file filters; the filter is empty exactly for the other kinds |
| `RemarketingFlowModal.AcceptTypesAgree` | src/components/modals/RemarketingFlowModal.tsx:125-136 | apart from `pdf`, the flow editor's file filters are the campaign editor's |
| `RemarketingFlowModal.SelectCampaign` | src/components/modals/RemarketingFlowModal.tsx:198-204 | choosing a campaign copies the first such campaign's target category, or `not_bought` when no campaign has the id; nothing else changes |
| `RemarketingFlowModal.AbandonmentInput` | src/components/modals/RemarketingFlowModal.tsx:225 | the abandonment time is the parsed number, or 30 when the text is not a number or is zero; it is never 0 |
| `RemarketingFlowModal.AbandonmentInputReadsNumbers` | src/components/modals/RemarketingFlowModal.tsx:225 | a typed positive number is read as itself, and a typed 0 becomes 30 |
| `RemarketingFlowsTab.ToggleFlowStatus` | src/components/tabs/RemarketingFlowsTab.tsx:23-25 | the flows with the id take the opposite of the shown active state; nothing else changes |
| `RemarketingFlowsTab.ToggleTwiceRestores` | src/components/tabs/RemarketingFlowsTab.tsx:23-25 | toggling twice restores the store |
| `RemarketingFlowsTab.ToggleKeepsLinks` | src/components/tabs/RemarketingFlowsTab.tsx:23-25 | toggling keeps the campaign ↔ flow links consistent |
| `RemarketingFlowsTab.StepKindLabel` | src/components/tabs/RemarketingFlowsTab.tsx:44-54 | every flow step kind has a non-empty label |
| `RemarketingFlowsTab.StepKindLabelsDistinct` | src/components/tabs/RemarketingFlowsTab.tsx:44-54 | different flow step kinds never share a label |
| `RemarketingFlowsTab.StepTypeName` | src/components/tabs/RemarketingFlowsTab.tsx:44-54 | a known kind's key shows its label; any other string is shown as it is |
| `RemarketingFlowsTab.CampaignName` | src/components/tabs/RemarketingFlowsTab.tsx:56-59 | the first campaign with the id gives the name; no such campaign gives "Campanha não encontrada" |
| `RemarketingFlowsTab.CampaignNameOfOwner` | src/components/tabs/RemarketingFlowsTab.tsx:56-59 | with unique campaign ids, a campaign's id shows that campaign's name |
| `RemarketingFlowsTab.DeletedCampaignIsMissing` | src/contexts/AppContext.tsx:333-342 | after a campaign is deleted its id shows "Campanha não encontrada" |
| `RemarketingFlowsTab.CategoryName` | src/components/tabs/RemarketingFlowsTab.tsx:61-69 | a category key shows that category's label; any other string is shown as it is |
| `RemarketingFlowsTab.AvailableCampaigns` | src/components/tabs/RemarketingFlowsTab.tsx:71 | exactly the campaigns whose `hasRemarketingFlow` is true are offered, every copy of each, in order |
| `RemarketingFlowsTab.NewFlowDisabledIffNoneLinkable` | src/components/tabs/RemarketingFlowsTab.tsx:89 | the new-flow button is disabled exactly when no campaign asks for a remarketing flow |
| `ClientsTab.FilteredClients` | src/components/tabs/ClientsTab.tsx:24-29 | exactly the clients in the chosen tab that match the search by name, ignoring case, or by phone are shown, every copy of each, in order |
| `ClientsTab.ShowAllWithEmptySearch` | src/components/tabs/ClientsTab.tsx:24-29 | with the "all" tab and an empty search every client is shown |
| `ClientsTab.CategoryCount` | src/components/tabs/ClientsTab.tsx:31-34 | the "all" tab counts every client; a category tab counts the clients in it |
| `ClientsTab.AllCountIsSumOfCategories` | src/components/tabs/ClientsTab.tsx:31-34 | the "all" count is the sum of the four category counts |
| `ClientsTab.CleanPhone` | src/components/tabs/ClientsTab.tsx:48 | the cleaned phone is exactly the phone's digits, each as often as in the phone, in order |
| `ClientsTab.CleanPhoneIdempotent` | src/components/tabs/ClientsTab.tsx:48 | cleaning a cleaned phone changes nothing |
| `ClientsTab.WhatsAppLink` | src/components/tabs/ClientsTab.tsx:47-50 | the link is `https://wa.me/` followed by exactly the phone's cleaned digits |
| `ClientsTab.HandleCategoryChange` | src/components/tabs/ClientsTab.tsx:52-54 | only the chosen client's category changes |
| `ClientsTab.CategoryChangeMovesOneCount` | src/components/tabs/ClientsTab.tsx:31-54 | moving a client with a unique id moves exactly one from the old tab's count to the new tab's |
| `ClientsTab.CountSplit` | src/components/tabs/ClientsTab.tsx:31-34 | a category count over a list splits around any one client |
| `ClientModal.LoadClient` | src/components/modals/ClientModal.tsx:21-31 | the form takes the client's fields; missing notes and campaign source show as empty text |
| `ClientModal.Submit` | src/components/modals/ClientModal.tsx:33-48 | an edit becomes an update of the edited client's id; a creation is an active client created now with the manual-entry message |
| `ClientModal.EditTouchesFormFieldsOnly` | src/components/modals/ClientModal.tsx:33-48 | an edit changes the five form fields and keeps id, status, last message and last activity |
| `ClientModal.LoadThenSubmitKeepsClient` | src/components/modals/ClientModal.tsx:21-48 | saving an unchanged client keeps it, except that a missing note or campaign source is stored as empty text |
| `ClientModal.SubmitNewClient` | src/components/modals/ClientModal.tsx:33-48 | a new client carrying the form's fields is appended under the new id |
| `StatisticsTab.Share` | src/components/tabs/StatisticsTab.tsx:43-49 | a category's row has its label and count, and a percentage between 0 and 100, which is undefined (NaN) exactly when there are no clients |
| `StatisticsTab.CategoryStats` | src/components/tabs/StatisticsTab.tsx:43-68 | four rows, one per category, in the fixed order |
| `StatisticsTab.CategoryStatsAddUp` | src/components/tabs/StatisticsTab.tsx:43-68 | the four counts add up to the number of clients and, when there are clients, the four percentages add up to 100 |
| `StatisticsTab.PercentsAddUp` | src/components/tabs/StatisticsTab.tsx:43-68 | shares of four counts that add up to the total add up to 100 |
| `StatisticsTab.SharesAddUp` | src/components/tabs/StatisticsTab.tsx:43-68 | percentages proportional to four parts of a positive total add up to 100 |
| `StatisticsTab.OpenRate` | src/components/tabs/StatisticsTab.tsx:154 | the open rate is 0 before sending, and otherwise the opened share of the sent count times 100 |
| `StatisticsTab.TopCampaigns` | src/components/tabs/StatisticsTab.tsx:137 | the first three campaigns, or all of them when there are fewer, in order |
| `StatisticsTab.BadgeText` | src/components/tabs/StatisticsTab.tsx:146-147 | the badge shows the same status label as the campaigns tab |
| `StatisticsTab.RemarketingAudience` | src/components/tabs/StatisticsTab.tsx:196 | the clients open to remarketing are the `not_bought` row's count, the complement of the converted clients |
| `StatisticsTab.AbandonedConversations` | src/components/tabs/StatisticsTab.tsx:204 | the abandoned count agrees with the store's statistics and complements the active clients |
| `ChatBotTab.FilteredContacts` | src/components/tabs/ChatBotTab.tsx:81-84 | exactly the contacts matching the search by name, ignoring case, or by phone are listed, every copy of each, in order |
| `ChatBotTab.EmptySearchListsEveryone` | src/components/tabs/ChatBotTab.tsx:81-84 | an empty search lists every contact |
| `ChatBotTab.ContactMessages` | src/components/tabs/ChatBotTab.tsx:86-88 | no thread without a selected contact; otherwise exactly that contact's messages, every copy of each, in order |
| `ChatBotTab.LastMessage` | src/components/tabs/ChatBotTab.tsx:90-93 | none exactly when the contact has no messages; otherwise a message of the contact with no later message of the contact |
| `ChatBotTab.LastMessageEndsThread` | src/components/tabs/ChatBotTab.tsx:86-93 | the contact list's preview is the last message of the contact's thread, and there is none exactly when the thread is empty |
| `ChatBotTab.AppendedMessageIsLast` | src/components/tabs/ChatBotTab.tsx:198 | a message appended to a contact's thread becomes its last message, and one's own clears the unread dot |
| `ChatBotTab.DeliveryTick` | src/components/tabs/ChatBotTab.tsx:269-273 | only one's own messages get a tick: one tick when sent, two when delivered or read |
| `ChatBotTab.LastSeenBucket` | src/components/tabs/ChatBotTab.tsx:102-113 | under a minute is now; then whole minutes below an hour, whole hours below a day, and whole days, each count bracketing the elapsed time |
| `ChatBotTab.FormatLastSeen` | src/components/tabs/ChatBotTab.tsx:102-113 | the text is "agora" exactly when less than a minute has passed; otherwise the whole minutes below an hour with " min atrás", the whole hours below a day with "h atrás", else the whole days with "d atrás" |
| `ChatBotTab.FutureIsNow` | src/components/tabs/ChatBotTab.tsx:102-113 | a last-seen date in the future shows as "agora" |
| `ChatBotTab.LastSeenReadsBack` | src/components/tabs/ChatBotTab.tsx:102-113 | the number at the head of the text is the count of whole minutes, hours or days that passed |
| `ChatBotTab.PresenceText` | src/components/tabs/ChatBotTab.tsx:195 | an online contact shows "online", and any other shows "visto " followed by the last-seen text; an offline contact must carry a last-seen date |

## Left out

- WhatsApp connection, QR code and the connection timers (`src/contexts/AppContext.tsx:157-222`) are timers and random simulation.
- Persistence in `localStorage`, the toasts and the toast condition of `updateCampaign` are side effects that do not change the state.
- `window.open`, `URL.createObjectURL`, file inputs and their refs are browser I/O. Only the resulting URL and file name enter the model, as parameters of `AttachFile`.
- The `confirm` dialog of the campaign send is a boolean parameter.
- Clock readings are parameters:
  - `new Date()`;
  - `toDateString` equality for the daily count, as `isToday`;
  - `toISOString().slice(0, 16)` and `new Date(text)` in the campaign editor, as `toInput`/`fromInput`.
- `toLocaleString` date formatting is presentation only and is not modelled.
- `Invalid Date` values are not modelled.
- `toFixed(1)` rounding of the displayed rates is not modelled; the rates are exact reals.
- JavaScript number precision is not modelled: counts and millisecond timestamps are unbounded integers, and the rates are exact reals rather than doubles.
- `Text.ToLower`: lowercases ASCII letters only, not the full Unicode case mapping of `toLowerCase`.
- `CampaignsTab.StepTypeName`: raw strings that are `Object.prototype` keys (such as `constructor`) are not modelled. In the source they would show an inherited member; here they are shown as typed.
- `RemarketingFlowsTab.StepTypeName`: raw strings that are `Object.prototype` keys are not modelled, for the same reason as the campaigns tab.
- `RemarketingFlowsTab.CategoryName`: raw strings that are `Object.prototype` keys are not modelled, for the same reason as the campaigns tab.
- `generateId` (`src/contexts/AppContext.tsx:70`) and the editors' random button and step ids are random, so ids are parameters.
- Freshness of ids is assumed only by the lemmas that need it.
- `campaign.steps || []` when loading a campaign: steps are a required field in the model, so the fallback never applies.
- The `useEffect` at `src/contexts/AppContext.tsx:377-379` that reruns `updateStatistics` after every change to the clients or messages is not folded into the handlers: `AddClient`, `UpdateClient`, `DeleteClient`, `MoveClientToCategory` (and so `ClientsTab.HandleCategoryChange`) and `SendMessage` leave `statistics` as it was, and the store React renders next is that result followed by `UpdateStatistics`.
- React's asynchronous `setState` batching is not modelled: each handler reads the state it is given, and a handler that dispatches two updates applies them in order.
- The mock data of the store and of the chat tab is not modelled: it is fixed sample content.
- BotFlowsTab, ConfigurationsTab, Login, App and Dashboard are not part of this model.
- The chat tab's icons, avatars and `formatTime` are presentation only.
- `ChatBotTab.PresenceText`: an offline contact without a last-seen date is excluded by its precondition, because the source dereferences `lastSeen!` and would crash.
