/**
 * The stored lead row that the server actions read and update, and the
 * identity of the caller once the auth provider and the agent lookup have
 * answered.
 */
module Crm {
  import opened Wrappers

  /** Milliseconds since the epoch, as `new Date()` would give. */
  type Timestamp = int

  /** What `auth()` and the agent lookup by auth id yield for a request. */
  datatype Caller = SignedOut | NoAgent | AgentCaller(agentId: string)

  /** The stored solar qualification of a lead. */
  datatype StoredQualification = StoredQualification(
    roofAreaSqM: real,
    sunshineHoursYear: real,
    shadingPercent: real,
    roofViable: bool,
    solarScore: int)

  const StatusProposed: string := "proposed"
  const StatusSold: string := "sold"

  /** `x || fallback` for a nullable string column: an empty string falls back as well. */
  function OrElse(x: Option<string>, fallback: string): (r: string)
    ensures x.Some? && x.value != "" ==> r == x.value
    ensures x.None? || x.value == "" ==> r == fallback
  {
    if x.Some? && x.value != "" then x.value else fallback
  }

  /** A lead row. */
  class LeadRecord {
    const id: string
    var agentId: Option<string>
    var status: string
    var name: Option<string>
    var email: Option<string>
    var solarQualification: Option<StoredQualification>
    var projectId: Option<string>

    constructor (id: string, agentId: Option<string>, status: string, name: Option<string>, email: Option<string>,
                 solarQualification: Option<StoredQualification>, projectId: Option<string>)
      ensures this.id == id && this.agentId == agentId && this.status == status
      ensures this.name == name && this.email == email
      ensures this.solarQualification == solarQualification && this.projectId == projectId
    {
      this.id := id;
      this.agentId := agentId;
      this.status := status;
      this.name := name;
      this.email := email;
      this.solarQualification := solarQualification;
      this.projectId := projectId;
    }

    /** After a proposal is generated the lead becomes 'proposed', unless it is already 'sold'. */
    method MarkProposedUnlessSold()
      modifies this`status
      ensures status == if old(status) == StatusSold then StatusSold else StatusProposed
      ensures status != old(status) ==> old(status) != StatusSold
    {
      if status != StatusSold {
        status := StatusProposed;
      }
    }

    /**
     * On acceptance the lead is 'sold'; a name or email already on file is
     * kept, otherwise the customer's (normalised) name and email are filled in.
     */
    method RecordAcceptance(customerName: string, customerEmail: string)
      modifies this`status, this`name, this`email
      ensures status == StatusSold
      ensures email == Some(OrElse(old(email), customerEmail))
      ensures name == Some(OrElse(old(name), customerName))
      ensures old(email).Some? && old(email).value != "" ==> email == old(email)
      ensures old(name).Some? && old(name).value != "" ==> name == old(name)
    {
      status := StatusSold;
      email := Some(OrElse(email, customerEmail));
      name := Some(OrElse(name, customerName));
    }
  }
}
