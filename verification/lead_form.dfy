/** createLeadFromForm: normalises a capture form into a new, unassigned lead. */
module LeadForm {
  import opened Wrappers
  import Text

  datatype LeadFormInput = LeadFormInput(
    name: string,
    email: Option<string>,
    phone: Option<string>,
    addressLine1: string,
    city: string,
    state: string,
    zip: string,
    source: Option<string>)

  datatype LeadStatus = New | Qualified | Contacted | ProposalSent | Closed | Lost

  datatype Lead = Lead(
    id: string,
    agentId: Option<string>,
    name: string,
    email: Option<string>,
    phone: Option<string>,
    address: string,
    status: LeadStatus,
    createdAt: int)

  /** The one-line address: `line1, city, state zip`. */
  function FullAddress(input: LeadFormInput): string {
    input.addressLine1 + ", " + input.city + ", " + input.state + " " + input.zip
  }

  /** createLeadFromForm; the id and creation time come from the clock and are parameters here. */
  function CreateLeadFromForm(input: LeadFormInput, id: string, createdAt: int): (lead: Lead)
    ensures lead.id == id && lead.createdAt == createdAt
    ensures lead.agentId.None? && lead.status == New
    ensures lead.name == input.name && lead.email == input.email && lead.phone == input.phone
    ensures lead.address == FullAddress(input)
  {
    Lead(id, None, input.name, input.email, input.phone, FullAddress(input), New, createdAt)
  }

  /** The address line comes first, followed by a comma. */
  lemma AddressStartsWithLine1(input: LeadFormInput)
    ensures input.addressLine1 + ", " <= CreateLeadFromForm(input, "", 0).address
    ensures |CreateLeadFromForm(input, "", 0).address|
         == |input.addressLine1| + |input.city| + |input.state| + |input.zip| + 5
  {
  }

  /** When the address line holds no comma, its first comma-separated field gives it back. */
  lemma {:induction false} AddressLine1Recoverable(input: LeadFormInput)
    requires ',' !in input.addressLine1
    ensures Text.FirstField(FullAddress(input)) == input.addressLine1
  {
    var rest := ", " + input.city + ", " + input.state + " " + input.zip;
    assert FullAddress(input) == input.addressLine1 + rest;
    FirstFieldOfPrefix(input.addressLine1, rest);
  }

  lemma {:induction false} FirstFieldOfPrefix(a: string, rest: string)
    requires ',' !in a && rest != [] && rest[0] == ','
    ensures Text.FirstField(a + rest) == a
    decreases |a|
  {
    if a != [] {
      assert (a + rest)[1..] == a[1..] + rest;
      FirstFieldOfPrefix(a[1..], rest);
    } else {
      assert a + rest == rest;
    }
  }
}
