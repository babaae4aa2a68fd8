/**
 * What the handlers promise: the counter stays in range, each approval moves
 * exactly one user's count by its own rule, rejections and submissions leave
 * counts alone, grants are never taken back, and the two eligibility gates.
 */
module Properties {
  import opened Counter
  import opened Handlers

  /** The interactions that may change a count. */
  predicate IsApproval(e: Interaction)
  {
    e.ApproveReprimandClick? || e.ApproveRemediationClick? || e.ApproveAppealClick?
  }

  /** No user has two tracked forms in the map. */
  predicate OnePerUser(forms: map<Handle, UserId>)
  {
    forall h1, h2 :: h1 in forms && h2 in forms && forms[h1] == forms[h2] ==> h1 == h2
  }

  /** Discord gives every newly posted notice an id no grant already uses. */
  predicate FreshNotice(s: State, e: Interaction)
  {
    e.ApproveReprimandClick? ==> e.notice !in s.grants
  }

  /** Every notice posted along the run has a fresh id. */
  predicate FreshRun(s: State, events: seq<Interaction>)
    decreases |events|
  {
    events == [] || (FreshNotice(s, events[0]) && FreshRun(Step(s, events[0]), events[1..]))
  }

  // ---------------------------------------------------------------------------
  // The counter stays in [0, MaxLevel]

  /** Every handler keeps all stored counts in [0, MaxLevel]. */
  lemma StepKeepsRange(s: State, e: Interaction)
    requires InRange(s.counts)
    ensures InRange(Step(s, e).counts)
  {
  }

  /** After any sequence of interactions every stored count is still in [0, MaxLevel]. */
  lemma {:induction false} RunKeepsRange(s: State, events: seq<Interaction>)
    requires InRange(s.counts)
    ensures InRange(Run(s, events).counts)
    decreases |events|
  {
    if events != [] {
      StepKeepsRange(s, events[0]);
      RunKeepsRange(Step(s, events[0]), events[1..]);
    }
  }

  /** A state loaded from in-range saved counts starts, and stays, in range. */
  lemma LoadedRunKeepsRange(saved: seq<(UserId, int)>, events: seq<Interaction>)
    requires EntriesInRange(saved)
    ensures InRange(Run(Initial(saved), events).counts)
  {
    RunKeepsRange(Initial(saved), events);
  }

  // ---------------------------------------------------------------------------
  // Approving a reprimand

  /**
   * The subject's count becomes min(prev + 1, MaxLevel), a missing entry
   * counting as 0: it never exceeds MaxLevel and stays there once reached.
   * No other user's count changes; the request loses its buttons while every
   * other request keeps its own; no form changes.
   */
  lemma ApprovedReprimandCount(s: State, msg: Handle, notice: Handle)
    requires msg in s.pendingReprimands
    ensures var u, t := s.pendingReprimands[msg], ApproveReprimand(s, msg, notice);
            var prev := CountOf(s.counts, u);
            && CountOf(t.counts, u) == (if prev < MaxLevel then prev + 1 else MaxLevel)
            && CountOf(t.counts, u) <= MaxLevel
            && (prev == MaxLevel ==> CountOf(t.counts, u) == MaxLevel)
            && (forall v :: v != u ==> (v in t.counts <==> v in s.counts) && CountOf(t.counts, v) == CountOf(s.counts, v))
            && msg !in t.pendingReprimands
            && t.pendingReprimands == s.pendingReprimands - {msg}
            && t.remForms == s.remForms && t.appealForms == s.appealForms
  {
  }

  /**
   * With a fresh notice id, a grant for the subject is added exactly when the
   * new count is below MaxLevel, and every existing grant is kept.
   */
  lemma ApprovedReprimandGrant(s: State, msg: Handle, notice: Handle)
    requires msg in s.pendingReprimands
    requires notice !in s.grants
    ensures var u, t := s.pendingReprimands[msg], ApproveReprimand(s, msg, notice);
            && (notice in t.grants <==> CountOf(t.counts, u) < MaxLevel)
            && (notice in t.grants ==> t.grants[notice] == u)
            && t.grants.Keys - {notice} == s.grants.Keys
            && (forall h :: h in s.grants ==> t.grants[h] == s.grants[h])
  {
  }

  /** The approval that brings a user to MaxLevel gives them no remediation unless an older grant does. */
  lemma ApprovalToMaxGrantsNothing(s: State, msg: Handle, notice: Handle)
    requires msg in s.pendingReprimands
    requires CountOf(s.counts, s.pendingReprimands[msg]) >= MaxLevel - 1
    requires !RemediationAllowed(s.grants, s.pendingReprimands[msg])
    ensures var u, t := s.pendingReprimands[msg], ApproveReprimand(s, msg, notice);
            CountOf(t.counts, u) == MaxLevel && !RemediationAllowed(t.grants, u)
  {
  }

  /** The level shown on a new request is the count its immediate approval sets; issuing changes no count. */
  lemma DisplayedLevelIsApprovedLevel(s: State, form: ReprimandForm, msg: Handle, notice: Handle)
    ensures IssueReprimand(s, form, msg).counts == s.counts
    ensures var t := ApproveReprimand(IssueReprimand(s, form, msg), msg, notice);
            CountOf(t.counts, form.subject) == Request(s.counts, form).level
    ensures 0 <= CountOf(s.counts, form.subject) ==> 1 <= Request(s.counts, form).level <= MaxLevel
    ensures Request(s.counts, form).evidence == (if form.proof == "" then "N/A" else form.proof)
  {
  }

  // ---------------------------------------------------------------------------
  // Approving a remediation or an appeal

  /** Approving a tracked remediation sets its submitter's count to 0 whatever it was, no other user's count changes, and only that form is forgotten. */
  lemma ApprovedRemediationResets(s: State, msg: Handle)
    requires msg in s.remForms
    ensures var u, t := s.remForms[msg], ApproveRemediation(s, msg);
            && CountOf(t.counts, u) == 0
            && (forall v :: v != u ==> (v in t.counts <==> v in s.counts) && CountOf(t.counts, v) == CountOf(s.counts, v))
            && t.remForms.Keys == s.remForms.Keys - {msg}
            && (forall h :: h in t.remForms ==> t.remForms[h] == s.remForms[h])
            && t.grants == s.grants && t.appealForms == s.appealForms
            && t.pendingReprimands == s.pendingReprimands
  {
  }

  /** Approving a tracked appeal sets its submitter's count to max(prev - 1, 0) no other user's count changes, and only that form is forgotten. */
  lemma ApprovedAppealRelieves(s: State, msg: Handle)
    requires msg in s.appealForms
    ensures var u, t := s.appealForms[msg], ApproveAppeal(s, msg);
            var prev := CountOf(s.counts, u);
            && CountOf(t.counts, u) == (if prev > 0 then prev - 1 else 0)
            && (prev == 0 ==> CountOf(t.counts, u) == 0)
            && (forall v :: v != u ==> (v in t.counts <==> v in s.counts) && CountOf(t.counts, v) == CountOf(s.counts, v))
            && t.appealForms.Keys == s.appealForms.Keys - {msg}
            && (forall h :: h in t.appealForms ==> t.appealForms[h] == s.appealForms[h])
            && t.grants == s.grants && t.remForms == s.remForms
            && t.pendingReprimands == s.pendingReprimands
  {
  }

  /**
   * Approving a form the bot does not track (lost on restart, or already
   * decided) writes a count under the key `undefined` and no real user's.
   */
  lemma UntrackedApprovalWritesUndefined(s: State, msg: Handle)
    requires msg !in s.remForms && msg !in s.appealForms
    ensures Undefined in ApproveRemediation(s, msg).counts
    ensures CountOf(ApproveRemediation(s, msg).counts, Undefined) == 0
    ensures Undefined in ApproveAppeal(s, msg).counts
    ensures forall v :: v != Undefined ==>
              CountOf(ApproveRemediation(s, msg).counts, v) == CountOf(s.counts, v) &&
              CountOf(ApproveAppeal(s, msg).counts, v) == CountOf(s.counts, v)
  {
  }

  // ---------------------------------------------------------------------------
  // Frames

  /** Only the three approvals can change a count; rejections, submissions and clicks never do. */
  lemma OnlyApprovalsChangeCounts(s: State, e: Interaction)
    requires !IsApproval(e)
    ensures Step(s, e).counts == s.counts
  {
  }

  /**
   * Each interaction changes the count of at most one user, and that user is
   * the subject of the approved request or the submitter of the approved form.
   */
  lemma StepChangesAtMostOneCount(s: State, e: Interaction, v: UserId, w: UserId)
    requires CountOf(Step(s, e).counts, v) != CountOf(s.counts, v)
    requires CountOf(Step(s, e).counts, w) != CountOf(s.counts, w)
    ensures v == w
    ensures IsApproval(e) && e.byModerator
    ensures e.ApproveReprimandClick? ==> e.msg in s.pendingReprimands && v == s.pendingReprimands[e.msg]
    ensures e.ApproveRemediationClick? ==> v == Submitter(s.remForms, e.msg)
    ensures e.ApproveAppealClick? ==> v == Submitter(s.appealForms, e.msg)
  {
  }

  /** Rejecting a reprimand touches none of the bot's maps; only the buttons go. */
  lemma RejectedReprimandKeepsMaps(s: State, msg: Handle, found: bool)
    ensures var t := RejectReprimand(s, msg, found);
            && t.counts == s.counts && t.grants == s.grants
            && t.remForms == s.remForms && t.appealForms == s.appealForms
            && t.pendingReprimands.Keys == s.pendingReprimands.Keys - (if found then {msg} else {})
            && (forall h :: h in t.pendingReprimands ==> t.pendingReprimands[h] == s.pendingReprimands[h])
  {
  }

  /** Rejecting a remediation forgets only that form; rejecting an appeal likewise. */
  lemma RejectedFormsForgetOnlyThemselves(s: State, msg: Handle)
    ensures var t := RejectRemediation(s, msg, true);
            && t.counts == s.counts && t.grants == s.grants && t.appealForms == s.appealForms
            && t.pendingReprimands == s.pendingReprimands
            && t.remForms.Keys == s.remForms.Keys - {msg}
            && (forall h :: h in t.remForms ==> t.remForms[h] == s.remForms[h])
    ensures var t := RejectAppeal(s, msg, true);
            && t.counts == s.counts && t.grants == s.grants && t.remForms == s.remForms
            && t.pendingReprimands == s.pendingReprimands
            && t.appealForms.Keys == s.appealForms.Keys - {msg}
            && (forall h :: h in t.appealForms ==> t.appealForms[h] == s.appealForms[h])
    ensures RejectRemediation(s, msg, false) == s && RejectAppeal(s, msg, false) == s
  {
  }

  /** A moderation button pressed by someone without the moderator role changes nothing. */
  lemma NonModeratorChangesNothing(s: State, e: Interaction)
    requires e.ApproveReprimandClick? || e.ApproveRemediationClick? || e.ApproveAppealClick? || e.RejectClick?
    requires !e.byModerator
    ensures Step(s, e) == s
  {
  }

  // ---------------------------------------------------------------------------
  // Grants

  /** No handler removes a grant. */
  lemma StepKeepsGrants(s: State, e: Interaction)
    ensures s.grants.Keys <= Step(s, e).grants.Keys
  {
  }

  /** No sequence of interactions removes a grant. */
  lemma {:induction false} RunKeepsGrants(s: State, events: seq<Interaction>)
    ensures s.grants.Keys <= Run(s, events).grants.Keys
    decreases |events|
  {
    if events != [] {
      StepKeepsGrants(s, events[0]);
      RunKeepsGrants(Step(s, events[0]), events[1..]);
    }
  }

  /** With fresh notice ids, every grant keeps naming the same user for ever. */
  lemma {:induction false} GrantsSurvive(s: State, events: seq<Interaction>)
    requires FreshRun(s, events)
    ensures var t := Run(s, events);
            forall h :: h in s.grants ==> h in t.grants && t.grants[h] == s.grants[h]
    decreases |events|
  {
    if events != [] {
      var s1 := Step(s, events[0]);
      assert forall h :: h in s.grants ==> h in s1.grants && s1.grants[h] == s.grants[h];
      GrantsSurvive(s1, events[1..]);
    }
  }

  /**
   * Once a user may open the remediation form they may do so for ever:
   * submitting or having a remediation approved does not use the grant up.
   */
  lemma RemediationEligibilityPersists(s: State, events: seq<Interaction>, u: UserId)
    requires FreshRun(s, events)
    requires RemediationAllowed(s.grants, u)
    ensures RemediationAllowed(Run(s, events).grants, u)
  {
    var h :| h in s.grants && s.grants[h] == u;
    GrantsSurvive(s, events);
    assert h in Run(s, events).grants;
  }

  /**
   * A step the source can take: a fresh notice id, and a remediation form
   * submitted only by a user for whom the Remediate button opened it.  Grants
   * are never removed, so the check made at the button still holds when the
   * form comes back.
   */
  predicate GatedStep(s: State, e: Interaction)
  {
    FreshNotice(s, e) && (e.RemediationSubmit? ==> RemediationAllowed(s.grants, e.user))
  }

  /** Every step of the run is one the source can take. */
  predicate GatedRun(s: State, events: seq<Interaction>)
    decreases |events|
  {
    events == [] || (GatedStep(s, events[0]) && GatedRun(Step(s, events[0]), events[1..]))
  }

  /** Every tracked remediation form was filed by a user some grant names. */
  predicate FormsGranted(s: State)
  {
    forall h :: h in s.remForms ==> RemediationAllowed(s.grants, s.remForms[h])
  }

  /** A gated step keeps every tracked remediation form backed by a grant. */
  lemma GatedStepKeepsFormsGranted(s: State, e: Interaction)
    requires FormsGranted(s)
    requires GatedStep(s, e)
    ensures FormsGranted(Step(s, e))
  {
    var t := Step(s, e);
    assert forall h :: h in s.grants ==> h in t.grants && t.grants[h] == s.grants[h];
    forall h | h in t.remForms ensures RemediationAllowed(t.grants, t.remForms[h]) {
      var u := t.remForms[h];
      if h in s.remForms && s.remForms[h] == u {
        var g :| g in s.grants && s.grants[g] == u;
        assert g in t.grants && t.grants[g] == u;
      } else {
        assert e.RemediationSubmit? && e.user == u;
        var g :| g in s.grants && s.grants[g] == u;
        assert g in t.grants && t.grants[g] == u;
      }
    }
  }

  /**
   * From start-up, along any run the source can take, every tracked
   * remediation form belongs to a user some grant names: approving one
   * resets only the count of a user who was granted a remediation.
   */
  lemma {:induction false} GatedRunKeepsFormsGranted(s: State, events: seq<Interaction>)
    requires FormsGranted(s)
    requires GatedRun(s, events)
    ensures FormsGranted(Run(s, events))
    decreases |events|
  {
    if events != [] {
      GatedStepKeepsFormsGranted(s, events[0]);
      GatedRunKeepsFormsGranted(Step(s, events[0]), events[1..]);
    }
  }

  /** The start-up state has no remediation form, so the property holds from there on. */
  lemma LoadedRunFormsGranted(saved: seq<(UserId, int)>, events: seq<Interaction>, msg: Handle)
    requires GatedRun(Initial(saved), events)
    requires msg in Run(Initial(saved), events).remForms
    ensures var t := Run(Initial(saved), events);
            RemediationAllowed(t.grants, t.remForms[msg])
  {
    GatedRunKeepsFormsGranted(Initial(saved), events);
  }

  // ---------------------------------------------------------------------------
  // The appeal gate

  /** The gate is a read: pressing either public button changes nothing. */
  lemma GateClicksChangeNothing(s: State, u: UserId)
    ensures Step(s, RemediateClick(u)) == s && Step(s, AppealClick(u)) == s
  {
  }

  /** An appeal submitted while the gate is still open for its user keeps one tracked appeal per user, and closes the gate. */
  lemma GatedAppealKeepsOnePerUser(s: State, u: UserId, msg: Handle)
    requires OnePerUser(s.appealForms)
    requires AppealAllowed(s.appealForms, u)
    requires msg !in s.appealForms
    ensures OnePerUser(SubmitAppeal(s, u, msg).appealForms)
    ensures !AppealAllowed(SubmitAppeal(s, u, msg).appealForms, u)
  {
    var m := SubmitAppeal(s, u, msg).appealForms;
    assert msg in m && m[msg] == u;
    forall h1, h2 | h1 in m && h2 in m && m[h1] == m[h2] ensures h1 == h2 {
      if h1 != msg && h2 != msg {
        assert s.appealForms[h1] == s.appealForms[h2];
      }
    }
  }

  /**
   * The submission itself re-checks nothing: two appeal forms opened while the
   * gate was open and then submitted leave two tracked appeals for one user.
   */
  lemma TwiceOpenedAppealsBothTracked(s: State, u: UserId, msg1: Handle, msg2: Handle)
    requires AppealAllowed(s.appealForms, u)
    requires msg1 != msg2
    ensures var t := SubmitAppeal(SubmitAppeal(s, u, msg1), u, msg2);
            msg1 in t.appealForms && msg2 in t.appealForms && !OnePerUser(t.appealForms)
  {
  }

  /** Deciding a user's only tracked appeal, either way, opens the gate for them again. */
  lemma DecisionReopensAppealGate(s: State, u: UserId, msg: Handle)
    requires msg in s.appealForms && s.appealForms[msg] == u
    requires forall h :: h in s.appealForms && h != msg ==> s.appealForms[h] != u
    ensures AppealAllowed(ApproveAppeal(s, msg).appealForms, u)
    ensures AppealAllowed(RejectAppeal(s, msg, true).appealForms, u)
  {
  }

  // ---------------------------------------------------------------------------
  // Scenarios

  /**
   * Three approved reprimands take a fresh user to MaxLevel; the first two
   * add grants, the third does not, and a fourth leaves the count at MaxLevel.
   */
  lemma FourApprovals(s: State, u: UserId, m: seq<Handle>, n: seq<Handle>)
    requires |m| == 4 && |n| == 4
    requires forall i :: 0 <= i < 4 ==> m[i] in s.pendingReprimands && s.pendingReprimands[m[i]] == u
    requires forall i, j :: 0 <= i < j < 4 ==> m[i] != m[j] && n[i] != n[j]
    requires forall i :: 0 <= i < 4 ==> n[i] !in s.grants
    requires CountOf(s.counts, u) == 0
    ensures var s1 := ApproveReprimand(s, m[0], n[0]);
            var s2 := ApproveReprimand(s1, m[1], n[1]);
            var s3 := ApproveReprimand(s2, m[2], n[2]);
            var s4 := ApproveReprimand(s3, m[3], n[3]);
            && CountOf(s1.counts, u) == 1 && n[0] in s1.grants
            && CountOf(s2.counts, u) == 2 && n[1] in s2.grants
            && CountOf(s3.counts, u) == 3 && n[2] !in s3.grants
            && CountOf(s4.counts, u) == 3 && n[3] !in s4.grants
  {
  }

  /**
   * Issue, approve, remediate, approve: the user's count goes 0, 1, 0, the
   * approval adds a grant that opens the remediation form, and the grant
   * is still there at the end.
   */
  lemma RemediationRoundTrip(s: State, form: ReprimandForm, req: Handle, notice: Handle, rem: Handle)
    requires CountOf(s.counts, form.subject) == 0
    requires notice !in s.grants
    ensures var u := form.subject;
            var s1 := Step(s, ReprimandSubmit(form, req));
            var s2 := Step(s1, ApproveReprimandClick(req, true, notice));
            var s3 := Step(s2, RemediationSubmit(u, rem));
            var s4 := Step(s3, ApproveRemediationClick(rem, true));
            && Request(s.counts, form).level == 1
            && CountOf(s2.counts, u) == 1 && RemediationAllowed(s2.grants, u)
            && CountOf(s4.counts, u) == 0 && RemediationAllowed(s4.grants, u)
            && rem !in s4.remForms
  {
    var u := form.subject;
    var s2 := Step(Step(s, ReprimandSubmit(form, req)), ApproveReprimandClick(req, true, notice));
    assert s2.grants[notice] == u;
  }
}
