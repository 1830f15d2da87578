/** Forbidden marketing claims and their case-insensitive detection in a text. */
module Compliance {
  import opened Text

  /** FORBIDDEN_CLAIMS, all in lower case. */
  const ForbiddenClaims: seq<string> := [
    "free solar",
    "no cost solar",
    "100% guaranteed offset",
    "you will never pay for power again",
    "eliminate your electric bill",
    "government pays for it",
    "no money down",
    "zero out of pocket"
  ]

  /** `phrases.some(p => lower.includes(p))` */
  function AnyOccurs(phrases: seq<string>, lower: string): (b: bool)
    ensures b <==> exists i :: 0 <= i < |phrases| && Occurs(phrases[i], lower)
  {
    if phrases == [] then false
    else if Includes(lower, phrases[0]) then true
    else
      var b := AnyOccurs(phrases[1..], lower);
      assert forall i :: 1 <= i < |phrases| ==> phrases[i] == phrases[1..][i - 1];
      b
  }

  /** `phrases.filter(p => lower.includes(p))` */
  function FilterOccurring(phrases: seq<string>, lower: string): (r: seq<string>)
    ensures |r| <= |phrases|
    ensures forall p :: p in r <==> p in phrases && Occurs(p, lower)
    ensures IsSubsequence(r, phrases)
    ensures r == [] <==> forall i :: 0 <= i < |phrases| ==> !Occurs(phrases[i], lower)
  {
    if phrases == [] then []
    else
      var rest := FilterOccurring(phrases[1..], lower);
      assert forall p :: p in phrases <==> p == phrases[0] || p in phrases[1..];
      assert forall i :: 1 <= i < |phrases| ==> phrases[i] == phrases[1..][i - 1];
      if Includes(lower, phrases[0]) then [phrases[0]] + rest else rest
  }

  /** r keeps some of the entries of s, in their order. */
  predicate IsSubsequence(r: seq<string>, s: seq<string>)
    decreases |s|
  {
    if r == [] then true
    else if s == [] then false
    else if r[0] == s[0] then IsSubsequence(r[1..], s[1..])
    else IsSubsequence(r, s[1..])
  }

  /** containsForbiddenClaim */
  function ContainsForbiddenClaim(text: string): (b: bool)
    ensures b <==> exists i :: 0 <= i < |ForbiddenClaims| && Occurs(ForbiddenClaims[i], ToLower(text))
  {
    AnyOccurs(ForbiddenClaims, ToLower(text))
  }

  /** extractForbiddenClaims: the claims found in the lower-cased text, in list order. */
  function ExtractForbiddenClaims(text: string): (r: seq<string>)
    ensures |r| <= |ForbiddenClaims|
    ensures forall p :: p in r <==> p in ForbiddenClaims && Occurs(p, ToLower(text))
    ensures IsSubsequence(r, ForbiddenClaims)
  {
    FilterOccurring(ForbiddenClaims, ToLower(text))
  }

  /** A text contains a forbidden claim exactly when some claim is extracted from it. */
  lemma ContainsIffExtracted(text: string)
    ensures ContainsForbiddenClaim(text) <==> ExtractForbiddenClaims(text) != []
  {
  }

  /** The claims are distinct, so nothing is reported twice. */
  lemma ClaimsDistinct()
    ensures forall i, j :: 0 <= i < j < |ForbiddenClaims| ==> ForbiddenClaims[i] != ForbiddenClaims[j]
  {
  }

  /** A subsequence of a list without repeats has no repeats either. */
  lemma {:induction false} SubsequenceKeepsDistinct(r: seq<string>, s: seq<string>)
    requires IsSubsequence(r, s)
    requires forall i, j :: 0 <= i < j < |s| ==> s[i] != s[j]
    ensures forall i, j :: 0 <= i < j < |r| ==> r[i] != r[j]
    decreases |s|
  {
    if r != [] && s != [] {
      assert forall i, j :: 0 <= i < j < |s[1..]| ==> s[1..][i] != s[1..][j];
      if r[0] == s[0] {
        SubsequenceKeepsDistinct(r[1..], s[1..]);
        SubsequenceElements(r[1..], s[1..]);
        assert forall k :: 0 <= k < |s[1..]| ==> s[1..][k] != s[0];
        assert s[0] !in s[1..];
        assert forall i :: 1 <= i < |r| ==> r[i] == r[1..][i - 1] && r[1..][i - 1] in r[1..];
        assert forall i :: 1 <= i < |r| ==> r[i] != r[0];
      } else {
        SubsequenceKeepsDistinct(r, s[1..]);
      }
    }
  }

  lemma {:induction false} SubsequenceElements(r: seq<string>, s: seq<string>)
    requires IsSubsequence(r, s)
    ensures forall p :: p in r ==> p in s
    decreases |s|
  {
    if r != [] && s != [] {
      if r[0] == s[0] {
        SubsequenceElements(r[1..], s[1..]);
        assert forall p :: p in r ==> p == r[0] || p in r[1..];
      } else {
        SubsequenceElements(r, s[1..]);
      }
    }
  }

  /** No claim is reported twice. */
  lemma ExtractedDistinct(text: string)
    ensures var r := ExtractForbiddenClaims(text);
      forall i, j :: 0 <= i < j < |r| ==> r[i] != r[j]
  {
    ClaimsDistinct();
    SubsequenceKeepsDistinct(ExtractForbiddenClaims(text), ForbiddenClaims);
  }

  /** Case does not matter: a text and its lower-cased form give the same claims. */
  lemma CaseInsensitive(text: string)
    ensures ExtractForbiddenClaims(ToLower(text)) == ExtractForbiddenClaims(text)
    ensures ContainsForbiddenClaim(ToLower(text)) == ContainsForbiddenClaim(text)
  {
    ToLowerIdempotent(text);
  }

  /** An empty text holds no claim. */
  lemma EmptyTextClean()
    ensures ExtractForbiddenClaims("") == []
    ensures !ContainsForbiddenClaim("")
  {
    forall i | 0 <= i < |ForbiddenClaims|
      ensures !Occurs(ForbiddenClaims[i], ToLower(""))
    {
      assert |ForbiddenClaims[i]| > 0;
    }
  }

  /** Adding text around a text can only add detected claims. */
  lemma ExtensionKeepsClaims(before: string, text: string, after: string)
    ensures forall p :: p in ExtractForbiddenClaims(text) ==> p in ExtractForbiddenClaims(before + text + after)
  {
    ToLowerAppend(before + text, after);
    ToLowerAppend(before, text);
    forall p | p in ExtractForbiddenClaims(text)
      ensures p in ExtractForbiddenClaims(before + text + after)
    {
      OccursInLarger(p, ToLower(before), ToLower(text), ToLower(after));
    }
  }

  /** Detection ignores case. */
  lemma ExampleDetection()
    ensures "free solar" in ExtractForbiddenClaims("Get FREE SOLAR today")
    ensures ContainsForbiddenClaim("Get FREE SOLAR today")
  {
    var lower := ToLower("Get FREE SOLAR today");
    assert lower == "get free solar today";
    assert lower[4..14] == "free solar";
    assert OccursAt("free solar", lower, 4);
    assert ForbiddenClaims[0] == "free solar";
  }
}
