/**
 * The state effects of the bot's `interactionCreate` handler, as pure
 * functions on a value holding the bot's in-memory maps.  Each handler is one
 * atomic step; rendering, channel I/O and direct messages are not modelled.
 */
module Handlers {
  import opened Counter

  /** Discord message ids, used as handles for reprimands, notices and forms. */
  type Handle = string

  /**
   * The bot's state.  `counts`, `grants`, `remForms` and `appealForms` are
   * `userReprimandCounts`, `pendingRemediations` (user only: the stored
   * channel id is never read), `remediationForms` and `appealForms`.
   * `pendingReprimands` maps each reprimand request message that still
   * carries its Approve/Reject buttons to the subject named in it.
   */
  datatype State = State(
    counts: map<UserId, int>,
    grants: map<Handle, UserId>,
    remForms: map<Handle, UserId>,
    appealForms: map<Handle, UserId>,
    pendingReprimands: map<Handle, UserId>)

  /** The fields a moderator fills in on the "New Reprimand" form. */
  datatype ReprimandForm = ReprimandForm(subject: UserId, article: string, remedy: string, proof: string)

  /** What the posted reprimand request shows. */
  datatype ReprimandRequest = ReprimandRequest(
    subject: UserId, article: string, remedy: string, evidence: string, level: int)

  /**
   * The interactions the handler dispatches on.  `byModerator` is the result
   * of the moderator-role check; `notice` is the id of the approved-reprimand
   * notice the bot posts; `found` says whether the message named in a
   * rejection form could still be fetched.
   */
  datatype Interaction =
    | IssueClick
    | RemediateClick(user: UserId)
    | AppealClick(user: UserId)
    | ApproveReprimandClick(msg: Handle, byModerator: bool, notice: Handle)
    | ApproveRemediationClick(msg: Handle, byModerator: bool)
    | ApproveAppealClick(msg: Handle, byModerator: bool)
    | RejectClick(msg: Handle, byModerator: bool)
    | ReprimandSubmit(form: ReprimandForm, msg: Handle)
    | RejectReprimandSubmit(msg: Handle, found: bool)
    | RemediationSubmit(user: UserId, msg: Handle)
    | RejectRemediationSubmit(msg: Handle, found: bool)
    | AppealSubmit(user: UserId, msg: Handle)
    | RejectAppealSubmit(msg: Handle, found: bool)

  /** The state right after start-up, with the saved counts loaded. */
  function Initial(saved: seq<(UserId, int)>): State
  {
    State(FromEntries(saved), map[], map[], map[], map[])
  }

  /** The remediation button opens its form only for a user named by some grant. */
  function RemediationAllowed(grants: map<Handle, UserId>, u: UserId): (r: bool)
    ensures r <==> exists h :: h in grants && grants[h] == u
  {
    u in grants.Values
  }

  /** The appeal button opens its form only for a user with no tracked appeal form. */
  function AppealAllowed(appealForms: map<Handle, UserId>, u: UserId): (r: bool)
    ensures r <==> forall h :: h in appealForms ==> appealForms[h] != u
  {
    u !in appealForms.Values
  }

  /** `forms.get(msg)`: the submitter of a tracked form, `undefined` otherwise. */
  function Submitter(forms: map<Handle, UserId>, msg: Handle): UserId
  {
    if msg in forms then forms[msg] else Undefined
  }

  /** The evidence shown on a reprimand: the proof given, or "N/A" when it was left empty. */
  function Evidence(proof: string): (e: string)
    ensures e != []
    ensures proof != [] ==> e == proof
    ensures proof == [] ==> e == "N/A"
  {
    if proof == "" then "N/A" else proof
  }

  /** The request posted for a new reprimand; its level is the count an approval would give. */
  function Request(counts: map<UserId, int>, form: ReprimandForm): ReprimandRequest
  {
    ReprimandRequest(form.subject, form.article, form.remedy, Evidence(form.proof),
                     Escalate(CountOf(counts, form.subject)))
  }

  /** Submitting the reprimand form posts a request with buttons; no count changes. */
  function IssueReprimand(s: State, form: ReprimandForm, msg: Handle): State
  {
    s.(pendingReprimands := s.pendingReprimands[msg := form.subject])
  }

  /**
   * Approving a reprimand: the subject's count goes up, clamped at MaxLevel;
   * the buttons go; a grant keyed by the notice is added while the new count
   * is below MaxLevel.  Without a pending request there is no button to press.
   */
  function ApproveReprimand(s: State, msg: Handle, notice: Handle): State
  {
    if msg !in s.pendingReprimands then s
    else
      var u := s.pendingReprimands[msg];
      var next := Escalate(CountOf(s.counts, u));
      s.(counts := s.counts[u := next],
         grants := if next < MaxLevel then s.grants[notice := u] else s.grants,
         pendingReprimands := s.pendingReprimands - {msg})
  }

  /** Rejecting a reprimand only strips the buttons of a message that can be fetched. */
  function RejectReprimand(s: State, msg: Handle, found: bool): State
  {
    if found then s.(pendingReprimands := s.pendingReprimands - {msg}) else s
  }

  /** Submitting the remediation form tracks it; eligibility is not checked again here. */
  function SubmitRemediation(s: State, u: UserId, msg: Handle): State
  {
    s.(remForms := s.remForms[msg := u])
  }

  /** Approving a remediation forgets the form and resets its submitter's count. */
  function ApproveRemediation(s: State, msg: Handle): State
  {
    var u := Submitter(s.remForms, msg);
    s.(remForms := s.remForms - {msg}, counts := s.counts[u := 0])
  }

  /** Rejecting a remediation forgets the form, if its message can be fetched. */
  function RejectRemediation(s: State, msg: Handle, found: bool): State
  {
    if found then s.(remForms := s.remForms - {msg}) else s
  }

  /** Submitting the appeal form tracks it; eligibility is not checked again here. */
  function SubmitAppeal(s: State, u: UserId, msg: Handle): State
  {
    s.(appealForms := s.appealForms[msg := u])
  }

  /** Approving an appeal forgets the form and lowers its submitter's count, clamped at 0. */
  function ApproveAppeal(s: State, msg: Handle): State
  {
    var u := Submitter(s.appealForms, msg);
    s.(appealForms := s.appealForms - {msg}, counts := s.counts[u := Relieve(CountOf(s.counts, u))])
  }

  /** Rejecting an appeal forgets the form, if its message can be fetched. */
  function RejectAppeal(s: State, msg: Handle, found: bool): State
  {
    if found then s.(appealForms := s.appealForms - {msg}) else s
  }

  /**
   * One run of the `interactionCreate` handler.  The three public buttons
   * only show a form (or nothing); the moderation buttons do nothing for a
   * caller without the moderator role; the form submissions are not
   * role-checked.
   */
  function Step(s: State, e: Interaction): State
  {
    match e
    case IssueClick => s
    case RemediateClick(_) => s
    case AppealClick(_) => s
    case ApproveReprimandClick(msg, byModerator, notice) =>
      if byModerator then ApproveReprimand(s, msg, notice) else s
    case ApproveRemediationClick(msg, byModerator) =>
      if byModerator then ApproveRemediation(s, msg) else s
    case ApproveAppealClick(msg, byModerator) =>
      if byModerator then ApproveAppeal(s, msg) else s
    case RejectClick(_, _) => s
    case ReprimandSubmit(form, msg) => IssueReprimand(s, form, msg)
    case RejectReprimandSubmit(msg, found) => RejectReprimand(s, msg, found)
    case RemediationSubmit(u, msg) => SubmitRemediation(s, u, msg)
    case RejectRemediationSubmit(msg, found) => RejectRemediation(s, msg, found)
    case AppealSubmit(u, msg) => SubmitAppeal(s, u, msg)
    case RejectAppealSubmit(msg, found) => RejectAppeal(s, msg, found)
  }

  /** The state after handling a sequence of interactions in order. */
  function Run(s: State, events: seq<Interaction>): State
    decreases |events|
  {
    if events == [] then s else Run(Step(s, events[0]), events[1..])
  }
}
