/**
 * Installation projects: the fixed 14-step checklist created for a sold
 * lead, toggling a milestone between pending and completed, the project's
 * completion when every milestone is done, and the progress percentage.
 * A milestone is identified by its index in the project's checklist.
 */
module Projects {
  import opened Wrappers
  import opened Numerics
  import opened Crm

  datatype MilestoneStatus = MilestonePending | MilestoneCompleted

  datatype ProjectStatus = ProjectActive | ProjectCompleted

  datatype MilestoneTemplate = MilestoneTemplate(unlockKey: string, title: string)

  /** STANDARD_MILESTONES, in checklist order. */
  const StandardMilestones: seq<MilestoneTemplate> := [
    MilestoneTemplate("site_survey", "Site Survey Completed"),
    MilestoneTemplate("engineering", "Engineering Design Finalized"),
    MilestoneTemplate("hoa_submitted", "HOA Application Submitted"),
    MilestoneTemplate("hoa_approved", "HOA Approval Received"),
    MilestoneTemplate("permit_submitted", "Permit Application Submitted"),
    MilestoneTemplate("permit_approved", "Permit Approved"),
    MilestoneTemplate("materials_ordered", "Materials Ordered"),
    MilestoneTemplate("materials_received", "Materials Received"),
    MilestoneTemplate("install_scheduled", "Installation Scheduled"),
    MilestoneTemplate("install_complete", "Installation Complete"),
    MilestoneTemplate("inspection_passed", "Final Inspection Passed"),
    MilestoneTemplate("utility_applied", "Utility Interconnection Applied"),
    MilestoneTemplate("meter_installed", "Utility Meter Installed"),
    MilestoneTemplate("pto_granted", "PTO Received - System Live!")
  ]

  datatype Milestone = Milestone(
    name: string,
    unlockKey: string,
    sortOrder: int,
    status: MilestoneStatus,
    completedAt: Option<Timestamp>,
    completedBy: Option<string>)

  const UnauthorizedError: string := "Unauthorized"
  const AgentNotFoundError: string := "Agent not found"
  const LeadNotFoundError: string := "Lead not found"
  const NotSoldError: string := "Lead must be in \"sold\" status to create a project"
  const MilestoneNotFoundError: string := "Milestone not found"

  /** The unlock keys of the standard checklist are pairwise distinct. */
  lemma UnlockKeysDistinct()
    ensures |StandardMilestones| == 14
    ensures forall i, j :: 0 <= i < j < |StandardMilestones| ==>
      StandardMilestones[i].unlockKey != StandardMilestones[j].unlockKey
  {
  }

  /** The checklist a new project starts with: every standard step, pending, numbered by position. */
  function StandardChecklist(): (ms: seq<Milestone>)
    ensures |ms| == |StandardMilestones|
    ensures forall i :: 0 <= i < |ms| ==>
      && ms[i].name == StandardMilestones[i].title && ms[i].unlockKey == StandardMilestones[i].unlockKey
      && ms[i].sortOrder == i && ms[i].status == MilestonePending
      && ms[i].completedAt.None? && ms[i].completedBy.None?
  {
    seq(|StandardMilestones|, i requires 0 <= i < |StandardMilestones| =>
      Milestone(StandardMilestones[i].title, StandardMilestones[i].unlockKey, i, MilestonePending, None, None))
  }

  /** The record written when a milestone is toggled. */
  function SetCompletion(m: Milestone, completed: bool, agentId: string, now: Timestamp): (m': Milestone)
    ensures m'.name == m.name && m'.unlockKey == m.unlockKey && m'.sortOrder == m.sortOrder
    ensures completed ==>
      m'.status == MilestoneCompleted && m'.completedAt == Some(now) && m'.completedBy == Some(agentId)
    ensures !completed ==> m'.status == MilestonePending && m'.completedAt.None? && m'.completedBy.None?
  {
    if completed then m.(status := MilestoneCompleted, completedAt := Some(now), completedBy := Some(agentId))
    else m.(status := MilestonePending, completedAt := None, completedBy := None)
  }

  predicate AllCompleted(ms: seq<Milestone>) {
    forall i :: 0 <= i < |ms| ==> ms[i].status == MilestoneCompleted
  }

  /** The number of completed milestones. */
  function CompletedCount(ms: seq<Milestone>): (n: nat)
    ensures n <= |ms|
    ensures n == |ms| <==> AllCompleted(ms)
    ensures n == 0 <==> forall i :: 0 <= i < |ms| ==> ms[i].status == MilestonePending
  {
    if ms == [] then 0
    else
      var rest := CompletedCount(ms[..|ms| - 1]);
      assert forall i :: 0 <= i < |ms| - 1 ==> ms[..|ms| - 1][i] == ms[i];
      rest + (if ms[|ms| - 1].status == MilestoneCompleted then 1 else 0)
  }

  /** completed / total as a percentage. */
  function Percent(c: nat, t: nat): (r: real)
    requires 0 < t && c <= t
    ensures r * t as real == 100.0 * c as real
    ensures 0.0 <= r <= 100.0
  {
    PercentFacts(c, t);
    (c as real / t as real) * 100.0
  }

  lemma PercentFacts(c: nat, t: nat)
    requires 0 < t && c <= t
    ensures var r := (c as real / t as real) * 100.0;
      r * t as real == 100.0 * c as real && 0.0 <= r <= 100.0
  {
    var q := c as real / t as real;
    assert q * t as real == c as real;
    assert 0.0 <= q <= 1.0 by {
      if q > 1.0 {
        assert q * t as real > 1.0 * t as real;
      }
    }
  }

  /** A product with a positive factor keeps the order of the other factors. */
  lemma CancelPositive(x: real, y: real, t: real, xt: real, yt: real)
    requires t > 0.0 && xt == x * t && yt == y * t && xt < yt
    ensures x < y
  {
    assert (y - x) * t == yt - xt;
  }

  /** With fewer than 200 steps, anything short of all of them stays below 99.5%, and any one of them reaches 0.5%. */
  lemma PercentAwayFromEnds(c: nat, t: nat)
    requires 0 < t < 200 && c <= t
    ensures c < t ==> Percent(c, t) < 99.5
    ensures c > 0 ==> Percent(c, t) >= 0.5
  {
    var r := Percent(c, t);
    var tr := t as real;
    var cr := c as real;
    var x := r * tr;
    assert x == 100.0 * cr;
    if c < t {
      assert cr <= tr - 1.0;
      CancelPositive(r, 99.5, tr, x, 99.5 * tr);
    }
    if c > 0 {
      assert cr >= 1.0;
      CancelPositive(0.5, r, tr, 0.5 * tr, x);
    }
  }

  /** Progress in percent: completed over total, rounded; 0 for an empty checklist. */
  function ProgressOf(ms: seq<Milestone>): (p: int)
    ensures 0 <= p <= 100
    ensures |ms| > 0 ==>
      var exact := Percent(CompletedCount(ms), |ms|);
      exact - 0.5 < p as real <= exact + 0.5
    ensures ms == [] ==> p == 0
  {
    var totalMilestones := |ms|;
    var completedMilestones := CompletedCount(ms);
    if totalMilestones > 0 then
      var exact := Percent(completedMilestones, totalMilestones);
      RoundIsNearest(exact);
      RoundBounds(exact, 0, 100);
      Round(exact)
    else 0
  }

  /** A checklist with fewer than 200 steps shows 100% exactly when every step is done, and 0% exactly when none is. */
  lemma ProgressExtremes(ms: seq<Milestone>)
    requires 0 < |ms| < 200
    ensures ProgressOf(ms) == 100 <==> AllCompleted(ms)
    ensures ProgressOf(ms) == 0 <==> CompletedCount(ms) == 0
  {
    RoundedPercentExtremes(CompletedCount(ms), |ms|, ProgressOf(ms));
  }

  lemma RoundedPercentExtremes(c: nat, t: nat, p: int)
    requires 0 < t < 200 && c <= t
    requires Percent(c, t) - 0.5 < p as real <= Percent(c, t) + 0.5
    ensures p == 100 <==> c == t
    ensures p == 0 <==> c == 0
  {
    PercentAwayFromEnds(c, t);
    if c == t {
      assert Percent(c, t) == 100.0;
    }
    if c == 0 {
      assert Percent(c, t) == 0.0;
    }
  }

  /** A new project shows no progress. */
  lemma NewChecklistProgress()
    ensures CompletedCount(StandardChecklist()) == 0 && ProgressOf(StandardChecklist()) == 0
    ensures !AllCompleted(StandardChecklist())
  {
    var ms := StandardChecklist();
    assert ms[0].status == MilestonePending;
  }

  /** An installation project and its checklist. */
  class Project {
    const id: string
    const lead: LeadRecord
    var status: ProjectStatus
    const milestones: array<Milestone>

    /** The project created for a sold lead: active, with the standard checklist. */
    constructor (id: string, lead: LeadRecord)
      ensures this.id == id && this.lead == lead && status == ProjectActive
      ensures fresh(milestones) && milestones[..] == StandardChecklist()
    {
      this.id := id;
      this.lead := lead;
      status := ProjectActive;
      var checklist := StandardChecklist();
      var a := new Milestone[|checklist|](i requires 0 <= i < |checklist| => checklist[i]);
      assert a[..] == checklist;
      milestones := a;
    }

    /** `milestones.every(m => m.status === 'completed')`, as a scan of the checklist. */
    method AllMilestonesCompleted() returns (b: bool)
      ensures b == AllCompleted(milestones[..])
    {
      var i := 0;
      while i < milestones.Length
        invariant 0 <= i <= milestones.Length
        invariant forall k :: 0 <= k < i ==> milestones[k].status == MilestoneCompleted
      {
        if milestones[i].status != MilestoneCompleted {
          return false;
        }
        i := i + 1;
      }
      return true;
    }

    /** The progress shown for this project in the project list. */
    function Progress(): (p: int)
      reads milestones
      ensures 0 <= p <= 100
    {
      ProgressOf(milestones[..])
    }

    /**
     * updateMilestoneStatus. Only the owner of the project's lead finds the
     * milestone; the milestone record is rewritten whatever its current
     * state, and the project is completed once every milestone is. Nothing
     * moves a project back to active.
     */
    method UpdateMilestoneStatus(caller: Caller, index: int, completed: bool, now: Timestamp) returns (r: Outcome)
      modifies milestones, this`status
      ensures caller.SignedOut? ==> r == Fail(UnauthorizedError)
      ensures caller.NoAgent? ==> r == Fail(AgentNotFoundError)
      ensures caller.AgentCaller? && !(0 <= index < milestones.Length && lead.agentId == Some(caller.agentId)) ==>
        r == Fail(MilestoneNotFoundError)
      ensures r.Pass? <==>
        caller.AgentCaller? && 0 <= index < milestones.Length && lead.agentId == Some(caller.agentId)
      ensures r.Fail? ==> milestones[..] == old(milestones[..]) && status == old(status)
      ensures r.Pass? ==>
        milestones[..] == old(milestones[..])[index := SetCompletion(old(milestones[index]), completed, caller.agentId, now)]
      ensures r.Pass? ==> status == if AllCompleted(milestones[..]) then ProjectCompleted else old(status)
      ensures !completed ==> status == old(status)
    {
      if caller.SignedOut? {
        return Fail(UnauthorizedError);
      }
      if caller.NoAgent? {
        return Fail(AgentNotFoundError);
      }
      if !(0 <= index < milestones.Length && lead.agentId == Some(caller.agentId)) {
        return Fail(MilestoneNotFoundError);
      }
      milestones[index] := SetCompletion(milestones[index], completed, caller.agentId, now);
      var allCompleted := AllMilestonesCompleted();
      if allCompleted {
        status := ProjectCompleted;
      }
      if !completed {
        assert milestones[index].status == MilestonePending;
      }
      return Pass;
    }
  }

  /**
   * createProjectFromLead. `lead` is the caller's lead with the requested id
   * (null when the caller has none); an existing project is returned as is.
   */
  method CreateProjectFromLead(caller: Caller, lead: LeadRecord?, newProjectId: string)
    returns (r: ActionResponse<string>, project: Project?)
    modifies lead
    ensures lead != null ==>
      lead.agentId == old(lead.agentId) && lead.status == old(lead.status) && lead.name == old(lead.name)
      && lead.email == old(lead.email) && lead.solarQualification == old(lead.solarQualification)
    ensures caller.SignedOut? ==> r == Failure(UnauthorizedError)
    ensures caller.NoAgent? ==> r == Failure(AgentNotFoundError)
    ensures caller.AgentCaller? && (lead == null || lead.agentId != Some(caller.agentId)) ==>
      r == Failure(LeadNotFoundError)
    ensures caller.AgentCaller? && lead != null && lead.agentId == Some(caller.agentId) ==>
      && (old(lead.projectId).Some? ==> r == Success(old(lead.projectId).value))
      && (old(lead.projectId).None? && lead.status != StatusSold ==> r == Failure(NotSoldError))
      && (old(lead.projectId).None? && lead.status == StatusSold ==> r == Success(newProjectId))
    ensures project != null <==>
      caller.AgentCaller? && lead != null && lead.agentId == Some(caller.agentId)
      && old(lead.projectId).None? && lead.status == StatusSold
    ensures project != null ==>
      && fresh(project) && fresh(project.milestones)
      && project.id == newProjectId && project.lead == lead && project.status == ProjectActive
      && project.milestones[..] == StandardChecklist()
      && lead.projectId == Some(newProjectId)
    ensures project == null && lead != null ==> lead.projectId == old(lead.projectId)
    ensures r.Success? ==> lead != null && lead.projectId == Some(r.data)
  {
    project := null;
    if caller.SignedOut? {
      return Failure(UnauthorizedError), null;
    }
    if caller.NoAgent? {
      return Failure(AgentNotFoundError), null;
    }
    if lead == null || lead.agentId != Some(caller.agentId) {
      return Failure(LeadNotFoundError), null;
    }
    if lead.projectId.Some? {
      return Success(lead.projectId.value), null;
    }
    if lead.status != StatusSold {
      return Failure(NotSoldError), null;
    }
    project := new Project(newProjectId, lead);
    lead.projectId := Some(newProjectId);
    r := Success(newProjectId);
  }

  /**
   * Asking twice for a project of the same lead gives the same project id,
   * and once the first call succeeds the second creates no project.
   */
  method CreateTwice(caller: Caller, lead: LeadRecord?, firstId: string, secondId: string)
    returns (r1: ActionResponse<string>, r2: ActionResponse<string>, secondCreated: bool)
    modifies lead
    ensures r1.Success? ==> r2 == r1 && !secondCreated
  {
    var p1, p2;
    r1, p1 := CreateProjectFromLead(caller, lead, firstId);
    r2, p2 := CreateProjectFromLead(caller, lead, secondId);
    secondCreated := p2 != null;
  }
}
