/**
 * The public proposal-acceptance flow: the email check, the client address
 * taken from proxy headers, acceptProposal's input checks and lead update,
 * and the shareable proposal link.
 */
module AcceptProposal {
  import opened Wrappers
  import opened Text
  import opened Crm

  /** A character allowed by `[^\s@]`. */
  predicate Plain(c: char) {
    !IsWhitespace(c) && c != '@'
  }

  predicate AllPlain(s: string) {
    forall k :: 0 <= k < |s| ==> Plain(s[k])
  }

  /**
   * `/^[^\s@]+@[^\s@]+\.[^\s@]+$/` matches s split at i ('@') and k ('.'):
   * three non-empty runs of plain characters.
   */
  ghost predicate EmailSplit(s: string, i: int, k: int) {
    && 0 < i && i + 1 < k && k + 1 < |s|
    && s[i] == '@' && s[k] == '.'
    && AllPlain(s[..i]) && AllPlain(s[i + 1..k]) && AllPlain(s[k + 1..])
  }

  ghost predicate MatchesEmailPattern(s: string) {
    exists i, k :: EmailSplit(s, i, k)
  }

  /** The index of the first c in s, or |s| when there is none. */
  function IndexOf(s: string, c: char): (r: nat)
    ensures r <= |s|
    ensures r < |s| ==> s[r] == c
    ensures forall j :: 0 <= j < r ==> s[j] != c
  {
    if s == [] then 0
    else if s[0] == c then 0
    else 1 + IndexOf(s[1..], c)
  }

  /** validateEmail: one '@' after a non-empty local part, no whitespace, and a '.' strictly inside the domain. */
  function ValidateEmail(email: string): (b: bool)
    ensures b <==> MatchesEmailPattern(email)
  {
    var at := IndexOf(email, '@');
    var domain := if at < |email| then email[at + 1..] else "";
    var b := 0 < at < |email| && AllPlain(email[..at]) && AllPlain(domain)
             && |domain| >= 3 && '.' in domain[1..|domain| - 1];
    EmailCheckMatchesPattern(email);
    b
  }

  lemma EmailCheckMatchesPattern(email: string)
    ensures var at := IndexOf(email, '@');
      var domain := if at < |email| then email[at + 1..] else "";
      (0 < at < |email| && AllPlain(email[..at]) && AllPlain(domain)
       && |domain| >= 3 && '.' in domain[1..|domain| - 1])
      <==> MatchesEmailPattern(email)
  {
    var at := IndexOf(email, '@');
    var domain := if at < |email| then email[at + 1..] else "";
    if 0 < at < |email| && AllPlain(email[..at]) && AllPlain(domain) && |domain| >= 3 && '.' in domain[1..|domain| - 1] {
      CheckedEmailMatches(email, at);
    }
    if MatchesEmailPattern(email) {
      var i, k :| EmailSplit(email, i, k);
      MatchingEmailChecks(email, i, k);
    }
  }

  lemma PlainSlice(s: string, lo: int, hi: int)
    requires AllPlain(s) && 0 <= lo <= hi <= |s|
    ensures AllPlain(s[lo..hi])
  {
    assert forall j :: 0 <= j < hi - lo ==> s[lo..hi][j] == s[lo + j];
  }

  lemma PlainJoin(a: string, c: char, b: string)
    requires AllPlain(a) && Plain(c) && AllPlain(b)
    ensures AllPlain(a + [c] + b)
  {
    var s := a + [c] + b;
    assert forall j :: 0 <= j < |a| ==> s[j] == a[j];
    assert forall j :: |a| < j < |s| ==> s[j] == b[j - |a| - 1];
  }

  lemma CheckedEmailMatches(email: string, at: nat)
    requires at == IndexOf(email, '@') && 0 < at < |email|
    requires AllPlain(email[..at]) && AllPlain(email[at + 1..])
    requires |email[at + 1..]| >= 3 && '.' in email[at + 1..][1..|email| - at - 2]
    ensures MatchesEmailPattern(email)
  {
    var d := email[at + 1..];
    var j :| 0 <= j < |d| - 2 && d[1..|d| - 1][j] == '.';
    var k := at + 2 + j;
    assert d[j + 1] == '.' && email[k] == d[j + 1];
    assert forall m :: 0 <= m <= j ==> email[at + 1..k][m] == d[m];
    assert email[at + 1..k] == d[..j + 1];
    assert email[k + 1..] == d[j + 2..];
    PlainSlice(d, 0, j + 1);
    PlainSlice(d, j + 2, |d|);
    assert EmailSplit(email, at, k);
  }

  lemma MatchingEmailChecks(email: string, i: int, k: int)
    requires EmailSplit(email, i, k)
    ensures IndexOf(email, '@') == i
    ensures var d := email[i + 1..];
      AllPlain(d) && |d| >= 3 && '.' in d[1..|d| - 1]
  {
    assert forall j :: 0 <= j < i ==> email[..i][j] == email[j];
    assert forall j :: 0 <= j < i ==> email[j] != '@';
    var d := email[i + 1..];
    assert d == email[i + 1..k] + [email[k]] + email[k + 1..];
    assert Plain('.');
    PlainJoin(email[i + 1..k], email[k], email[k + 1..]);
    assert d[1..|d| - 1][k - i - 2] == '.';
  }

  lemma LowerPlain(s: string)
    requires AllPlain(s)
    ensures AllPlain(ToLower(s))
  {
    forall j | 0 <= j < |s|
      ensures Plain(ToLower(s)[j])
    {
      var c := s[j];
      if 'A' <= c <= 'Z' {
        assert 'a' <= LowerChar(c) <= 'z';
      }
    }
  }

  /** `email.toLowerCase().trim()`: a valid address has no whitespace to trim and stays valid in lower case. */
  function NormalisedEmail(email: string): (r: string)
    ensures |r| <= |email|
    ensures MatchesEmailPattern(email) ==> r == ToLower(email) && MatchesEmailPattern(r)
  {
    ToLowerTrimCommute(email);
    assert MatchesEmailPattern(email) ==>
      ToLower(Trim(email)) == ToLower(email) && MatchesEmailPattern(ToLower(Trim(email))) by {
      if MatchesEmailPattern(email) {
        StoredEmailIsValid(email);
      }
    }
    Trim(ToLower(email))
  }

  /** Lower-casing leaves whitespace alone, so trimming before or after it is the same. */
  lemma ToLowerTrimCommute(email: string)
    ensures Trim(ToLower(email)) == ToLower(Trim(email))
  {
    TrimStartLower(email);
    TrimEndLower(TrimStart(email));
  }

  lemma LowerCharWhitespace(c: char)
    ensures IsWhitespace(LowerChar(c)) == IsWhitespace(c)
  {
  }

  lemma {:induction false} TrimStartLower(s: string)
    ensures TrimStart(ToLower(s)) == ToLower(TrimStart(s))
    decreases |s|
  {
    if s != [] {
      LowerCharWhitespace(s[0]);
      assert ToLower(s)[1..] == ToLower(s[1..]);
      TrimStartLower(s[1..]);
    }
  }

  lemma {:induction false} TrimEndLower(s: string)
    ensures TrimEnd(ToLower(s)) == ToLower(TrimEnd(s))
    decreases |s|
  {
    if s != [] {
      LowerCharWhitespace(s[|s| - 1]);
      assert ToLower(s)[..|s| - 1] == ToLower(s[..|s| - 1]);
      TrimEndLower(s[..|s| - 1]);
    }
  }

  /** A valid address has no whitespace to trim, and lower-casing keeps it valid. */
  lemma StoredEmailIsValid(email: string)
    requires MatchesEmailPattern(email)
    ensures Trim(email) == email
    ensures MatchesEmailPattern(ToLower(Trim(email)))
  {
    var i, k :| EmailSplit(email, i, k);
    NoWhitespaceInSplit(email, i, k);
    TrimNoWhitespace(email);
    LowerSplit(email, i, k);
  }

  lemma ToLowerSlice(s: string, lo: int, hi: int)
    requires 0 <= lo <= hi <= |s|
    ensures ToLower(s)[lo..hi] == ToLower(s[lo..hi])
  {
  }

  lemma LowerSplit(email: string, i: int, k: int)
    requires EmailSplit(email, i, k)
    ensures EmailSplit(ToLower(email), i, k)
  {
    var lower := ToLower(email);
    ToLowerSlice(email, 0, i);
    ToLowerSlice(email, i + 1, k);
    ToLowerSlice(email, k + 1, |email|);
    assert email[k + 1..] == email[k + 1..|email|];
    assert lower[k + 1..] == lower[k + 1..|lower|];
    LowerPlain(email[..i]);
    LowerPlain(email[i + 1..k]);
    LowerPlain(email[k + 1..]);
  }

  lemma NoWhitespaceInSplit(email: string, i: int, k: int)
    requires EmailSplit(email, i, k)
    ensures forall j :: 0 <= j < |email| ==> !IsWhitespace(email[j])
  {
    forall j | 0 <= j < |email|
      ensures !IsWhitespace(email[j])
    {
      if j < i {
        assert email[..i][j] == email[j];
      } else if i < j < k {
        assert email[i + 1..k][j - i - 1] == email[j];
      } else if k < j {
        assert email[k + 1..][j - k - 1] == email[j];
      }
    }
  }

  /** A plain address is accepted; one that starts with '@' is refused. */
  lemma EmailExamples()
    ensures ValidateEmail("jo@example.com")
    ensures !ValidateEmail("@example.com")
  {
    var e := "jo@example.com";
    assert e[..2] == "jo" && AllPlain("jo");
    assert e[3..10] == "example" && AllPlain("example");
    assert e[11..] == "com" && AllPlain("com");
    assert EmailSplit(e, 2, 10);
    assert IndexOf("@example.com", '@') == 0;
  }

  const UnknownIp: string := "unknown"

  /**
   * getClientIP with the two header values as parameters: the first entry
   * of x-forwarded-for, trimmed; else x-real-ip; else "unknown".
   */
  function ClientIp(forwardedFor: Option<string>, realIp: Option<string>): (ip: string)
    ensures forwardedFor.Some? && forwardedFor.value != "" ==>
      && ip == Trim(FirstField(forwardedFor.value))
      && ',' !in ip
      && (ip != [] ==> !IsWhitespace(ip[0]) && !IsWhitespace(ip[|ip| - 1]))
    ensures (forwardedFor.None? || forwardedFor.value == "") ==> ip == OrElse(realIp, UnknownIp)
  {
    if forwardedFor.Some? && forwardedFor.value != "" then
      var ip := Trim(FirstField(forwardedFor.value));
      assert forall k :: 0 <= k < |ip| ==> ip[k] != ',';
      ip
    else if realIp.Some? && realIp.value != "" then realIp.value
    else UnknownIp
  }

  /** A single, clean forwarded address is returned as it is. */
  lemma SingleForwardedAddress(addr: string, realIp: Option<string>)
    requires addr != [] && ',' !in addr
    requires forall k :: 0 <= k < |addr| ==> !IsWhitespace(addr[k])
    ensures ClientIp(Some(addr), realIp) == addr
  {
    FirstFieldWhole(addr);
    TrimNoWhitespace(addr);
  }

  lemma {:induction false} FirstFieldWhole(s: string)
    requires ',' !in s
    ensures FirstField(s) == s
  {
    if s != [] {
      FirstFieldWhole(s[1..]);
    }
  }

  datatype AcceptProposalInput = AcceptProposalInput(proposalId: string, customerName: string, customerEmail: string)

  datatype AcceptProposalResult = AcceptProposalResult(proposalId: string, leadId: string, acceptedAt: Timestamp)

  const InvalidRequestError: string := "Invalid request"
  const FullNameError: string := "Please enter your full name"
  const InvalidEmailError: string := "Please enter a valid email address"
  const ProposalNotFoundError: string := "Proposal not found"

  /** The input checks of acceptProposal, in order; the first failure is reported. */
  function CheckAcceptInput(input: AcceptProposalInput): Outcome {
    if input.proposalId == "" then Fail(InvalidRequestError)
    else if input.customerName == "" || Utf16Length(Trim(input.customerName)) < 2 then Fail(FullNameError)
    else if input.customerEmail == "" || !ValidateEmail(input.customerEmail) then Fail(InvalidEmailError)
    else Pass
  }

  /** Which check fails first, and that the input passes exactly when all three hold. */
  lemma AcceptInputCheckOrder(input: AcceptProposalInput)
    ensures var o := CheckAcceptInput(input);
      && (input.proposalId == "" ==> o == Fail(InvalidRequestError))
      && (input.proposalId != "" && Utf16Length(Trim(input.customerName)) < 2 ==> o == Fail(FullNameError))
      && ((input.proposalId != "" && Utf16Length(Trim(input.customerName)) >= 2
           && !MatchesEmailPattern(input.customerEmail)) ==> o == Fail(InvalidEmailError))
      && (o == Pass <==>
            input.proposalId != "" && Utf16Length(Trim(input.customerName)) >= 2
            && MatchesEmailPattern(input.customerEmail))
  {
  }

  /**
   * The name length is JavaScript's: a one-character name passes exactly
   * when that character lies beyond the Basic Multilingual Plane, where it
   * counts as two code units.
   */
  lemma NameLengthCountsCodeUnits(input: AcceptProposalInput)
    requires input.proposalId != "" && MatchesEmailPattern(input.customerEmail)
    requires |input.customerName| == 1 && !IsWhitespace(input.customerName[0])
    ensures CheckAcceptInput(input) == Pass <==> input.customerName[0] >= '\U{10000}'
  {
    var name := input.customerName;
    TrimNoWhitespace(name);
    assert name[1..] == [];
    assert Utf16Length(Trim(name)) == CodeUnits(name[0]);
  }

  /**
   * acceptProposal. `proposalLead` is the lead of the proposal with the
   * given id (null when there is no such proposal); the acceptance time is
   * the clock's.
   */
  method AcceptProposal(input: AcceptProposalInput, proposalLead: LeadRecord?, acceptedAt: Timestamp)
    returns (r: ActionResponse<AcceptProposalResult>)
    modifies proposalLead
    ensures CheckAcceptInput(input).Fail? ==> r == Failure(CheckAcceptInput(input).error)
    ensures CheckAcceptInput(input).Pass? && proposalLead == null ==> r == Failure(ProposalNotFoundError)
    ensures r.Success? <==> CheckAcceptInput(input).Pass? && proposalLead != null
    ensures r.Success? ==> r.data == AcceptProposalResult(input.proposalId, proposalLead.id, acceptedAt)
    ensures r.Success? ==>
      && proposalLead.status == StatusSold
      && proposalLead.email == Some(OrElse(old(proposalLead.email), NormalisedEmail(input.customerEmail)))
      && proposalLead.name == Some(OrElse(old(proposalLead.name), Trim(input.customerName)))
    ensures r.Success? && (old(proposalLead.email).None? || old(proposalLead.email).value == "") ==>
      proposalLead.email == Some(NormalisedEmail(input.customerEmail))
    ensures r.Failure? && proposalLead != null ==>
      proposalLead.status == old(proposalLead.status) && proposalLead.email == old(proposalLead.email)
      && proposalLead.name == old(proposalLead.name)
    ensures proposalLead != null ==> proposalLead.agentId == old(proposalLead.agentId)
    ensures proposalLead != null ==> proposalLead.projectId == old(proposalLead.projectId)
    ensures proposalLead != null ==> proposalLead.solarQualification == old(proposalLead.solarQualification)
  {
    var check := CheckAcceptInput(input);
    if check.Fail? {
      return Failure(check.error);
    }
    if proposalLead == null {
      return Failure(ProposalNotFoundError);
    }
    proposalLead.RecordAcceptance(Trim(input.customerName), NormalisedEmail(input.customerEmail));
    r := Success(AcceptProposalResult(input.proposalId, proposalLead.id, acceptedAt));
  }

  const DefaultAppUrl: string := "http://localhost:3000"
  const ProposalsPath: string := "/proposals/"

  /**
   * getProposalShareLink: `baseUrl` is the app-URL setting (falling back on
   * the local address when unset or empty), `found` whether the proposal exists.
   */
  function ProposalShareLink(appUrl: Option<string>, proposalId: string, found: bool): (r: ActionResponse<string>)
    ensures !found ==> r == Failure(ProposalNotFoundError)
    ensures found ==> r.Success? && (var base := OrElse(appUrl, DefaultAppUrl);
      |base| <= |r.data| && r.data[..|base|] == base && r.data[|base|..] == ProposalsPath + proposalId)
    ensures found && (appUrl.None? || appUrl.value == "") ==> DefaultAppUrl + ProposalsPath <= r.data
  {
    if !found then Failure(ProposalNotFoundError)
    else
      var baseUrl := OrElse(appUrl, DefaultAppUrl);
      Success(baseUrl + ProposalsPath + proposalId)
  }
}
