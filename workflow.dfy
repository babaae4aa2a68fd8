/**
 * The bot's module-level maps as one object, with one method per handler of
 * `interactionCreate`.  Each method updates the maps in place and is proved
 * against the matching function of Handlers, so every handler appears twice:
 * here as the update, there as the specification the properties are proved of.
 */
module Bot {
  import opened Counter
  import opened Handlers

  class Workflow {
    var counts: map<UserId, int>
    var grants: map<Handle, UserId>
    var remForms: map<Handle, UserId>
    var appealForms: map<Handle, UserId>
    var pendingReprimands: map<Handle, UserId>

    /** The maps as one value. */
    function Snapshot(): State
      reads this
    {
      State(counts, grants, remForms, appealForms, pendingReprimands)
    }

    /** The invariant every handler keeps: each stored count lies in [0, MaxLevel]. */
    predicate CountsInRange()
      reads this
    {
      InRange(counts)
    }

    /**
     * Start-up: empty maps, and the saved (user, count) entries set one by one
     * into the counts.  Reading and parsing the file is left to the caller,
     * which passes no entries when the file is missing, blank or unreadable.
     * Saved values are not range-checked.
     */
    constructor (saved: seq<(UserId, int)>)
      ensures Snapshot() == Initial(saved)
      ensures EntriesInRange(saved) ==> CountsInRange()
    {
      var loaded: map<UserId, int> := map[];
      var i := 0;
      while i < |saved|
        invariant 0 <= i <= |saved|
        invariant loaded == FromEntries(saved[..i])
      {
        assert saved[..i + 1][..i] == saved[..i];
        loaded := loaded[saved[i].0 := saved[i].1];
        i := i + 1;
      }
      assert saved[..i] == saved;
      counts := loaded;
      grants, remForms, appealForms, pendingReprimands := map[], map[], map[], map[];
    }

    /** The remediation button: the form opens only for a user some grant names. */
    method OpenRemediation(caller: UserId) returns (allowed: bool)
      ensures allowed <==> exists h :: h in grants && grants[h] == caller
    {
      allowed := RemediationAllowed(grants, caller);
    }

    /** The appeal button: the form opens only for a user with no tracked appeal form. */
    method OpenAppeal(caller: UserId) returns (allowed: bool)
      ensures allowed <==> forall h :: h in appealForms ==> appealForms[h] != caller
    {
      allowed := AppealAllowed(appealForms, caller);
    }

    /** The reprimand form: post a request showing the level an approval would set; counts stay. */
    method IssueReprimand(form: ReprimandForm, msg: Handle) returns (req: ReprimandRequest)
      modifies this
      ensures Snapshot() == Handlers.IssueReprimand(old(Snapshot()), form, msg)
      ensures counts == old(counts)
      ensures req == Request(old(counts), form)
    {
      var level := Escalate(CountOf(counts, form.subject));
      req := ReprimandRequest(form.subject, form.article, form.remedy, Evidence(form.proof), level);
      pendingReprimands := pendingReprimands[msg := form.subject];
    }

    /** Approve on a reprimand request; `notice` is the id of the notice posted for it. */
    method ApproveReprimand(msg: Handle, notice: Handle)
      modifies this
      ensures Snapshot() == Handlers.ApproveReprimand(old(Snapshot()), msg, notice)
      ensures old(CountsInRange()) ==> CountsInRange()
    {
      if msg in pendingReprimands {
        var u := pendingReprimands[msg];
        var next := Escalate(CountOf(counts, u));
        counts := counts[u := next];
        pendingReprimands := pendingReprimands - {msg};
        if next < MaxLevel {
          grants := grants[notice := u];
        }
      }
    }

    /** The rejection form of a reprimand request. */
    method RejectReprimand(msg: Handle, found: bool)
      modifies this
      ensures Snapshot() == Handlers.RejectReprimand(old(Snapshot()), msg, found)
    {
      if found {
        pendingReprimands := pendingReprimands - {msg};
      }
    }

    /** The remediation form, posted as message `msg`. */
    method SubmitRemediation(user: UserId, msg: Handle)
      modifies this
      ensures Snapshot() == Handlers.SubmitRemediation(old(Snapshot()), user, msg)
    {
      remForms := remForms[msg := user];
    }

    /** Approve on a remediation form: forget it and reset its submitter's count. */
    method ApproveRemediation(msg: Handle)
      modifies this
      ensures Snapshot() == Handlers.ApproveRemediation(old(Snapshot()), msg)
      ensures old(CountsInRange()) ==> CountsInRange()
    {
      var u := Submitter(remForms, msg);
      remForms := remForms - {msg};
      counts := counts[u := 0];
    }

    /** The rejection form of a remediation. */
    method RejectRemediation(msg: Handle, found: bool)
      modifies this
      ensures Snapshot() == Handlers.RejectRemediation(old(Snapshot()), msg, found)
    {
      if found {
        remForms := remForms - {msg};
      }
    }

    /** The appeal form, posted as message `msg`. */
    method SubmitAppeal(user: UserId, msg: Handle)
      modifies this
      ensures Snapshot() == Handlers.SubmitAppeal(old(Snapshot()), user, msg)
    {
      appealForms := appealForms[msg := user];
    }

    /** Approve on an appeal form: forget it and lower its submitter's count. */
    method ApproveAppeal(msg: Handle)
      modifies this
      ensures Snapshot() == Handlers.ApproveAppeal(old(Snapshot()), msg)
      ensures old(CountsInRange()) ==> CountsInRange()
    {
      var u := Submitter(appealForms, msg);
      appealForms := appealForms - {msg};
      counts := counts[u := Relieve(CountOf(counts, u))];
    }

    /** The rejection form of an appeal. */
    method RejectAppeal(msg: Handle, found: bool)
      modifies this
      ensures Snapshot() == Handlers.RejectAppeal(old(Snapshot()), msg, found)
    {
      if found {
        appealForms := appealForms - {msg};
      }
    }

    /**
     * The `interactionCreate` handler: route the interaction to its method;
     * moderation buttons need the moderator role.
     */
    method Dispatch(e: Interaction)
      modifies this
      ensures Snapshot() == Step(old(Snapshot()), e)
      ensures old(CountsInRange()) ==> CountsInRange()
    {
      match e
      case IssueClick =>
      case RemediateClick(u) =>
        var _ := OpenRemediation(u);
      case AppealClick(u) =>
        var _ := OpenAppeal(u);
      case ApproveReprimandClick(msg, byModerator, notice) =>
        if byModerator { ApproveReprimand(msg, notice); }
      case ApproveRemediationClick(msg, byModerator) =>
        if byModerator { ApproveRemediation(msg); }
      case ApproveAppealClick(msg, byModerator) =>
        if byModerator { ApproveAppeal(msg); }
      case RejectClick(_, _) =>
      case ReprimandSubmit(form, msg) =>
        var _ := IssueReprimand(form, msg);
      case RejectReprimandSubmit(msg, found) =>
        RejectReprimand(msg, found);
      case RemediationSubmit(u, msg) =>
        SubmitRemediation(u, msg);
      case RejectRemediationSubmit(msg, found) =>
        RejectRemediation(msg, found);
      case AppealSubmit(u, msg) =>
        SubmitAppeal(u, msg);
      case RejectAppealSubmit(msg, found) =>
        RejectAppeal(msg, found);
    }
  }

  /**
   * Issue a reprimand against a fresh user, approve it, file a remediation
   * and approve that: the count goes 1 then 0, and the grant remains.
   */
  method RemediationScenario(u: UserId) returns (afterApproval: int, afterRemediation: int, stillEligible: bool)
    ensures afterApproval == 1 && afterRemediation == 0 && stillEligible
  {
    var w := new Workflow([]);
    var req := w.IssueReprimand(ReprimandForm(u, "Article 2", "Write an apology", ""), "100");
    assert req.level == 1 && req.evidence == "N/A";
    w.ApproveReprimand("100", "200");
    afterApproval := CountOf(w.counts, u);
    var allowed := w.OpenRemediation(u);
    assert w.grants["200"] == u;
    assert allowed;
    w.SubmitRemediation(u, "300");
    w.ApproveRemediation("300");
    afterRemediation := CountOf(w.counts, u);
    stillEligible := w.OpenRemediation(u);
    assert w.grants["200"] == u;
  }
}
