# HAD-Bot workflow state, in Dafny

HAD-Bot is a Discord moderation bot. Moderators issue **reprimands** against
users. Once approved, a reprimand raises the user's **escalation count**,
clamped at 3. While that count is below 3, the approval also grants the user
the right to file a **remediation** form. Approving the remediation resets the
count to 0. A user may also file an **appeal** form. Approving it lowers the
count by one, never below 0. Approvals are button presses on a Discord
message; a rejection is a button press that opens a form for the reason, and
takes effect when that form is submitted.

The bot keeps its state in four module-level maps, and the `interactionCreate`
handler in `index.js` changes them in fixed ways. This project models that state
and those changes:

- `counter.dfy`, module `Counter`: the count map and the three clamp rules
  (`Escalate`, `Relieve`, and the missing-user default in `CountOf`). It also
  holds `FromEntries`, the fold that the start-up load performs.
- `handlers.dfy`, module `Handlers`: the state as a value (`State`) and one
  function per handler. `Step` dispatches one interaction, and `Run` handles a
  sequence of them. The two eligibility gates are here too: `RemediationAllowed`
  and `AppealAllowed`.
- `properties.dfy`, module `Properties`: what the handlers guarantee, covering
  the range invariant over any run, each approval's effect and its frame,
  rejections, grant persistence, the gates, and two worked scenarios.
- `workflow.dfy`, module `Bot`: class `Workflow`, whose fields are the maps.
  It has one method per handler. Each method updates the maps in place and is
  proved against the matching `Handlers` function. The constructor performs the
  load loop.

The fifth field, `pendingReprimands`, stands for the reprimand request messages
that still carry Approve/Reject buttons. The request message is where the
approve handler reads the subject from. A decision removes those buttons.

Three behaviours of the code are modelled as written:

- Eligibility is checked only when the Remediate or Appeal button is pressed,
  not when the form is submitted. A user who opens the appeal form twice
  before submitting it can have two appeals pending (`TwiceOpenedAppealsBothTracked`).
  Remediation forms have no per-user limit at all.
  `Handlers.Step` therefore accepts any form submission. The fact that the
  Remediate button must have opened the form is a hypothesis (`GatedRun`).
  Under it, every tracked remediation form belongs to a user some grant
  names (`GatedRunKeepsFormsGranted`).
- Approving or rejecting an appeal deletes it from `appealForms`. The appeal
  gate therefore opens again after a decision (`DecisionReopensAppealGate`).
  The lock is not permanent.
- Grants are never removed, so one approved reprimand lets its subject file any
  number of remediation forms (`RemediationEligibilityPersists`). A form handle
  the bot no longer tracks looks up as `undefined`. This happens after a
  restart, when two moderators press Approve on the same form at once, or
  after an approval whose message edit failed (index.js:273, 328): the form is
  then forgotten while its Approve button stays live. None of these cases is
  modelled (see "Left out"). Approving such a form then writes a
  count under that key, which the counts file stores as `"undefined"`
  (`Counter.Undefined`, `UntrackedApprovalWritesUndefined`).

The state keeps no record of decisions, rejection reasons or errors. The
embeds carry a `Status` field (index.js:224, 384, 414), but it is only
displayed and never read back. A decision removes the buttons and edits the
message. Rejection forms
that name a message the bot can no longer fetch do nothing. The `found`
parameter models that fetch.

## Model

| member | source | states |
|---|---|---|
| `Counter.CountOf` | index.js:219 | a stored count is read as is and an unseen user reads as 0; with every stored count in range, the value read is in [0,3] |
| `Counter.Escalate` | index.js:220 | the count after an approved reprimand is one more than before, except that it never exceeds 3 and stays 3 from 3 (or above) |
| `Counter.Relieve` | index.js:332 | the count after an approved appeal is one less than before, never below 0 |
| `Counter.FromEntries` | index.js:53-55 | the loaded map has exactly the users named by some saved entry; if every saved value is in [0,3] so is every loaded count |
| `Counter.LastEntryWins` | index.js:53-55 | a user's loaded count is the value of the last saved entry for that user |
| `Handlers.RemediationAllowed` | index.js:171-172 | the remediation form opens for a user iff some grant names that user |
| `Handlers.AppealAllowed` | index.js:187-188 | the appeal form opens for a user iff no tracked appeal form was submitted by that user |
| `Handlers.Evidence` | index.js:376 | the evidence shown is the proof given, or "N/A" when the proof was left empty; never empty |
| `Handlers.Initial` | index.js:41-60 | the start-up state: every map empty except the counts, which are the saved entries as `FromEntries` sets them; its range is proved in `Properties.LoadedRunKeepsRange` |
| `Handlers.Request` | index.js:373-391 | the request shown for a new reprimand: subject, article, method, evidence (`Evidence`) and level min(prev+1,3); proved in `Properties.DisplayedLevelIsApprovedLevel` |
| `Handlers.IssueReprimand` | index.js:371-403 | the reprimand form adds a pending request for its subject and changes no count; proved in `Properties.DisplayedLevelIsApprovedLevel` and `Properties.OnlyApprovalsChangeCounts` |
| `Handlers.ApproveReprimand` | index.js:214-241 | the approve handler's state effect; proved in `Properties.ApprovedReprimandCount`, `Properties.ApprovedReprimandGrant` and `Properties.ApprovalToMaxGrantsNothing` |
| `Handlers.RejectReprimand` | index.js:406-421 | the reject form's state effect; proved in `Properties.RejectedReprimandKeepsMaps` |
| `Handlers.SubmitRemediation` | index.js:424-449 | the remediation form is tracked under its message id; gated use proved in `Properties.GatedStepKeepsFormsGranted` |
| `Handlers.ApproveRemediation` | index.js:257-296 | the approve handler's state effect; proved in `Properties.ApprovedRemediationResets` and `Properties.UntrackedApprovalWritesUndefined` |
| `Handlers.RejectRemediation` | index.js:451-482 | the reject form's state effect; proved in `Properties.RejectedFormsForgetOnlyThemselves` |
| `Handlers.SubmitAppeal` | index.js:484-511 | the appeal form is tracked under its message id; proved in `Properties.GatedAppealKeepsOnePerUser` and `Properties.TwiceOpenedAppealsBothTracked` |
| `Handlers.ApproveAppeal` | index.js:312-352 | the approve handler's state effect; proved in `Properties.ApprovedAppealRelieves`, `Properties.DecisionReopensAppealGate` and `Properties.UntrackedApprovalWritesUndefined` |
| `Handlers.RejectAppeal` | index.js:513-544 | the reject form's state effect; proved in `Properties.RejectedFormsForgetOnlyThemselves` and `Properties.DecisionReopensAppealGate` |
| `Handlers.Step` | index.js:147-546 | one run of the `interactionCreate` handler, dispatching on the interaction with the role check; its invariants are proved in `Properties.StepKeepsRange`, `Properties.StepKeepsGrants`, `Properties.StepChangesAtMostOneCount` and `Properties.NonModeratorChangesNothing` |
| `Handlers.Run` | index.js:147-546 | the handler applied to a sequence of interactions in order; proved in `Properties.RunKeepsRange`, `Properties.RunKeepsGrants`, `Properties.GrantsSurvive` and `Properties.GatedRunKeepsFormsGranted` |
| `Properties.StepKeepsRange` | index.js:219-334 | every handler keeps each stored count in [0,3] |
| `Properties.RunKeepsRange` | index.js:147-546 | after any sequence of interactions from an in-range state, every stored count is in [0,3] |
| `Properties.LoadedRunKeepsRange` | index.js:48-60 | a state loaded from in-range saved counts stays in range for ever; the range is an assumption about the file, which is not checked |
| `Properties.ApprovedReprimandCount` | index.js:214-227 | approving a reprimand sets the subject's count to min(prev+1,3), a missing entry counting as 0; at 3 it stays 3; every other user's count and presence in the map is unchanged; the request loses its buttons and every other pending request keeps its buttons and subject; no form changes |
| `Properties.ApprovedReprimandGrant` | index.js:237-239 | with a fresh notice id, a grant for the subject keyed by the notice is added exactly when the new count is below 3, and every existing grant is kept |
| `Properties.ApprovalToMaxGrantsNothing` | index.js:219-239 | the approval that takes a user to 3 leaves them unable to open the remediation form unless an older grant names them |
| `Properties.DisplayedLevelIsApprovedLevel` | index.js:376-380 | issuing a reprimand leaves every count unchanged; the level it shows is min(prev+1,3), the count its immediate approval sets; missing evidence shows "N/A" |
| `Properties.ApprovedRemediationResets` | index.js:257-277 | approving a tracked remediation sets its submitter's count to 0 whatever it was, leaves every other user's count and presence in the map unchanged, and deletes only that form's entry |
| `Properties.ApprovedAppealRelieves` | index.js:312-334 | approving a tracked appeal sets its submitter's count to max(prev-1,0), so 0 stays 0, leaves every other user's count and presence in the map unchanged, and deletes only that form's entry |
| `Properties.UntrackedApprovalWritesUndefined` | index.js:257-334 | approving an untracked remediation or appeal writes a count for `undefined` and changes no real user's count |
| `Properties.OnlyApprovalsChangeCounts` | index.js:368-544 | issuing, submitting, rejecting and button clicks that only show a form leave the count map unchanged |
| `Properties.StepChangesAtMostOneCount` | index.js:219-333 | each interaction changes the count of at most one user; only a moderator's approval changes one, and the user is the approved request's subject or the approved form's submitter |
| `Properties.RejectedReprimandKeepsMaps` | index.js:406-421 | rejecting a reprimand changes no count, grant or form; it only removes the request's buttons, and the other pending requests keep their subjects |
| `Properties.RejectedFormsForgetOnlyThemselves` | index.js:451-528 | rejecting a remediation or appeal deletes only that form's entry and changes no count, grant, other form map or pending request; if the message cannot be fetched, nothing changes |
| `Properties.NonModeratorChangesNothing` | index.js:207-209 | a moderation button pressed without the moderator role changes nothing |
| `Properties.StepKeepsGrants` | index.js:237-239 | no handler removes a grant |
| `Properties.RunKeepsGrants` | index.js:42 | no sequence of interactions removes a grant |
| `Properties.GrantsSurvive` | index.js:238 | with fresh notice ids, every grant keeps naming the same user through any run |
| `Properties.RemediationEligibilityPersists` | index.js:169-172 | once a user may open the remediation form, they may do so after any run: grants are not used up |
| `Properties.GatedStepKeepsFormsGranted` | index.js:169-172 | when a remediation form is submitted only by a user the Remediate button let through, every tracked remediation form stays backed by a grant naming its submitter |
| `Properties.GatedRunKeepsFormsGranted` | index.js:424-446 | along any run of such steps, every tracked remediation form belongs to a user some grant names |
| `Properties.LoadedRunFormsGranted` | index.js:169-260 | from start-up, along any run of such steps, the submitter of every tracked remediation form is named by a grant |
| `Properties.GateClicksChangeNothing` | index.js:169-203 | pressing Remediate or Appeal changes no state, whether or not the form opens |
| `Properties.GatedAppealKeepsOnePerUser` | index.js:185-188 | an appeal submitted while the gate is still open for that user keeps at most one tracked appeal per user and closes the gate for that user |
| `Properties.TwiceOpenedAppealsBothTracked` | index.js:484-508 | submission re-checks nothing: two appeal forms opened while the gate was open are both tracked for the same user |
| `Properties.DecisionReopensAppealGate` | index.js:312-315 | approving or rejecting a user's only tracked appeal lets that user open the appeal form again |
| `Properties.FourApprovals` | index.js:219-239 | from count 0, three approvals give counts 1, 2, 3, with grants on the first two and none on the third; a fourth leaves 3 and adds no grant |
| `Properties.RemediationRoundTrip` | index.js:214-277 | issue (level 1), approve (count 1, form opens), remediate, approve (count 0); the grant is still there |
| `Bot.Workflow.constructor` | index.js:41-60 | the maps start empty and the counts are the saved entries set one by one; in-range entries give an in-range start |
| `Bot.Workflow.OpenRemediation` | index.js:169-172 | the remediation button allows the form iff some grant names the caller |
| `Bot.Workflow.OpenAppeal` | index.js:185-188 | the appeal button allows the form iff no tracked appeal form names the caller |
| `Bot.Workflow.IssueReprimand` | index.js:371-403 | the new request is pending with its subject, its level is min(prev+1,3), and the counts are unchanged |
| `Bot.Workflow.ApproveReprimand` | index.js:214-241 | updates the maps as `Handlers.ApproveReprimand` says and keeps every count in [0,3] |
| `Bot.Workflow.RejectReprimand` | index.js:406-421 | removes only the request's buttons, when its message can be fetched |
| `Bot.Workflow.SubmitRemediation` | index.js:424-449 | tracks the new form under its message id for the submitter |
| `Bot.Workflow.ApproveRemediation` | index.js:257-296 | deletes the form and sets its submitter's count to 0; keeps counts in [0,3] |
| `Bot.Workflow.RejectRemediation` | index.js:451-482 | deletes only the form's entry, when its message can be fetched |
| `Bot.Workflow.SubmitAppeal` | index.js:484-511 | tracks the new form under its message id for the submitter |
| `Bot.Workflow.ApproveAppeal` | index.js:312-352 | deletes the form and lowers its submitter's count by one, not below 0; keeps counts in [0,3] |
| `Bot.Workflow.RejectAppeal` | index.js:513-544 | deletes only the form's entry, when its message can be fetched |
| `Bot.Workflow.Dispatch` | index.js:147-546 | handling one interaction changes the maps exactly as `Handlers.Step` says and keeps counts in [0,3] |
| `Bot.RemediationScenario` | index.js:214-277 | through the class's own contracts, a fresh user's count is 1 after an approved reprimand and 0 after an approved remediation, and they may still remediate |

## Left out

- Discord client setup, login and the `ready` handler, which post the three entry buttons (index.js:71-145, index.js:548). This is network plumbing.
- Building embeds, buttons and modals, and fetching, editing and deleting messages. Whether a rejection form's message can be fetched is the `found` parameter; every other Discord call is assumed to succeed.
- Discord calls that fail part-way through a handler. The source awaits them between its state changes, and a rejected call ends the handler with part of its changes done. approve_remediation deletes the form (index.js:260) and then awaits `msg.edit` (index.js:273) before the reset (index.js:276): a failure leaves the form forgotten and the count unchanged. approve_appeal does the same (index.js:315, 328, 333). approve_reprimand raises the count (index.js:221) and then awaits the edit, the channel fetch and the notice (index.js:227, 234, 235) before adding the grant (index.js:238). A failed edit at 227 leaves the count raised, no grant, and the Approve button live, so a second approval escalates again. A failure at 234 or 235 leaves the count raised, no grant, and no buttons. The model takes each handler as completing.
- Direct messages to the submitter after a decision (index.js:280-293, 337-350, 469-480, 531-542). They are awaited, and any error is swallowed by the surrounding `catch`; they do not affect state.
- Reading and parsing the counts file, and `saveCounts` after every change (index.js:48-52, 57-69). This is file I/O. The constructor takes the already-parsed entries; a missing, blank or unparsable file gives none. Saved values are modelled as integers; a non-number in the file is not modelled.
- The moderator role lookup (index.js:207). It is a Discord call, modelled as the `byModerator` flag.
- Extracting the subject id from the request's "Issued to" field by regular expression (index.js:218). The model keeps the subject id with the pending request. For an id typed with non-digits, the source keys the count by the first run of digits, and the count read for display at index.js:379 uses the raw text. For an id with no digits at all, the handler throws before changing anything.
- `async`/`await` interleaving. Each handler is one atomic step, so races between two moderators clicking the same button are not modelled.
- Restarts. The in-memory maps are lost while the messages and their buttons remain. The model starts once, from the constructor. `UntrackedApprovalWritesUndefined` shows what an approval of a form lost this way does. A reprimand request posted before a restart keeps its buttons, and the source still approves it, reading the subject from the message (index.js:216-218). `Handlers.ApproveReprimand` changes nothing for a handle that is not in `pendingReprimands`, and the model's start-up state has no pending requests, so such approvals are not modelled.
- `Counter.Undefined` merges JavaScript's `undefined` key with the string `"undefined"`. In memory the source keeps them apart as two `Map` keys; they only merge when `Object.fromEntries` saves the map (index.js:65). After a restart that loaded a `"undefined"` entry, an untracked appeal approval reads 0 in the source (index.js:331) but the loaded value in the model.
- The free-text fields: charter article and remediation method beyond what the request records, the reprimand link, the proof, the appeal reason and the rejection reason. Also left out are the issuer's and the subject's nicknames. None of them is read back into state.
- The `approvedChannelId` stored with each grant (index.js:238). It is never read, so `grants` keeps only the user.
