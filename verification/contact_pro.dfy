/**
 * `ContactProScreen`: six professional categories, the card recommended
 * after a diagnosis, and the Google Maps search each card opens.
 */
module ContactPro {
  import opened Wrappers
  import Onboarding
  import ExpertVm

  /** A card: its title, the Maps search it runs and the diagnosis category it serves. */
  datatype ProCategory = ProCategory(title: string, searchQuery: string, categoryKey: string)

  const PRO_CATEGORIES: seq<ProCategory> := [
    ProCategory("Plumber", "plumbers near me", "plumbing"),
    ProCategory("Electrician", "electricians near me", "electrical"),
    ProCategory("HVAC", "hvac repair near me", "hvac"),
    ProCategory("Roofer", "roofers near me", "roofing"),
    ProCategory("Handyman", "handyman near me", "general"),
    ProCategory("Locksmith", "locksmith near me", "locksmith")]

  /** A card is highlighted when the last diagnosis's category is its key. */
  predicate IsRecommended(c: ProCategory, lastCategory: Option<string>) {
    lastCategory.Some? && c.categoryKey == lastCategory.value
  }

  /** The indices of the highlighted cards. */
  function Recommended(lastCategory: Option<string>): (ix: set<nat>)
    ensures forall i: nat :: i in ix <==> i < |PRO_CATEGORIES| && IsRecommended(PRO_CATEGORIES[i], lastCategory)
  {
    set i: nat | i < |PRO_CATEGORIES| && IsRecommended(PRO_CATEGORIES[i], lastCategory)
  }

  /**
   * At most one card is highlighted: none without a diagnosis or for a
   * category no card serves, otherwise exactly the card whose key it is.
   */
  lemma AtMostOneRecommended(lastCategory: Option<string>)
    ensures |Recommended(lastCategory)| <= 1
    ensures lastCategory == None ==> Recommended(lastCategory) == {}
    ensures forall i | 0 <= i < |PRO_CATEGORIES| ::
              lastCategory == Some(PRO_CATEGORIES[i].categoryKey) ==> Recommended(lastCategory) == {i}
  {
    var ix := Recommended(lastCategory);
    if lastCategory.Some? {
      var k := lastCategory.value;
      if k == "plumbing" { assert ix == {0}; }
      else if k == "electrical" { assert ix == {1}; }
      else if k == "hvac" { assert ix == {2}; }
      else if k == "roofing" { assert ix == {3}; }
      else if k == "general" { assert ix == {4}; }
      else if k == "locksmith" { assert ix == {5}; }
      else { assert ix == {}; }
    } else {
      assert ix == {};
    }
  }

  /** The cards' keys are exactly the registration form's categories, in the same order. */
  lemma KeysMatchOnboarding()
    ensures |PRO_CATEGORIES| == |Onboarding.CATEGORY_OPTIONS|
    ensures forall i | 0 <= i < |PRO_CATEGORIES| :: PRO_CATEGORIES[i].categoryKey == Onboarding.OptionKeys()[i]
    ensures forall i | 0 <= i < |PRO_CATEGORIES| :: PRO_CATEGORIES[i].categoryKey == ExpertVm.SAMPLE_CATEGORIES[i]
  {
  }

  /**
   * After a diagnosis whose category is one of the six keys, the card for
   * that key is the one highlighted.
   */
  lemma DiagnosisHighlightsItsCard(category: string, i: nat)
    requires i < |PRO_CATEGORIES| && category == PRO_CATEGORIES[i].categoryKey
    ensures Recommended(Some(category)) == {i}
  {
    AtMostOneRecommended(Some(category));
  }

  // ---------------------------------------------------------------------
  // The Maps search

  /** `Uri.encode` leaves these characters as they are. */
  predicate IsUnreserved(c: char) {
    || 'a' <= c <= 'z' || 'A' <= c <= 'Z' || '0' <= c <= '9'
    || c == '_' || c == '-' || c == '!' || c == '.' || c == '~' || c == '\'' || c == '(' || c == ')' || c == '*'
  }

  predicate IsAscii(s: string) {
    forall i | 0 <= i < |s| :: s[i] as int < 128
  }

  const HEX_DIGITS: string := "0123456789ABCDEF"

  function HexValue(c: char): (r: Option<nat>)
    ensures r.Some? ==> r.value < 16 && HEX_DIGITS[r.value] == c
  {
    if '0' <= c <= '9' then Some(c as int - '0' as int)
    else if 'A' <= c <= 'F' then Some(c as int - 'A' as int + 10)
    else None
  }

  /** One ASCII character: itself when unreserved, else `%` and two upper-case hex digits. */
  function EscapeChar(c: char): (r: string)
    requires c as int < 128
    ensures IsUnreserved(c) ==> r == [c]
    ensures !IsUnreserved(c) ==> |r| == 3 && r[0] == '%'
  {
    if IsUnreserved(c) then [c]
    else ['%', HEX_DIGITS[c as int / 16], HEX_DIGITS[c as int % 16]]
  }

  /** `Uri.encode` on ASCII text. */
  function PercentEncode(s: string): (r: string)
    requires IsAscii(s)
    ensures |r| >= |s|
  {
    if s == [] then [] else EscapeChar(s[0]) + PercentEncode(s[1..])
  }

  /** `Uri.decode`: each `%` followed by two hex digits is that character; anything else stands for itself. */
  function PercentDecode(s: string): string {
    if |s| >= 3 && s[0] == '%' && HexValue(s[1]).Some? && HexValue(s[2]).Some? then
      [(HexValue(s[1]).value * 16 + HexValue(s[2]).value) as char] + PercentDecode(s[3..])
    else if s == [] then []
    else [s[0]] + PercentDecode(s[1..])
  }

  lemma EscapeCharDecodes(c: char, rest: string)
    requires c as int < 128
    ensures PercentDecode(EscapeChar(c) + rest) == [c] + PercentDecode(rest)
  {
    var e := EscapeChar(c) + rest;
    if !IsUnreserved(c) {
      assert e[3..] == rest;
      assert HexValue(e[1]) == Some(c as int / 16);
      assert HexValue(e[2]) == Some(c as int % 16);
    } else {
      assert e[1..] == rest;
    }
  }

  /** Decoding the encoded query gives back the query. */
  lemma {:induction false} EncodeDecode(s: string)
    requires IsAscii(s)
    ensures PercentDecode(PercentEncode(s)) == s
  {
    if s != [] {
      EncodeDecode(s[1..]);
      EscapeCharDecodes(s[0], PercentEncode(s[1..]));
    }
  }

  const GEO_PREFIX: string := "geo:0,0?q="

  /** The URI a card's tap opens: a Maps search for its query around the device. */
  function TapTarget(c: ProCategory): (uri: string)
    requires IsAscii(c.searchQuery)
    ensures |uri| >= |GEO_PREFIX| && uri[..|GEO_PREFIX|] == GEO_PREFIX
    ensures PercentDecode(uri[|GEO_PREFIX|..]) == c.searchQuery
  {
    EncodeDecode(c.searchQuery);
    var uri := GEO_PREFIX + PercentEncode(c.searchQuery);
    assert uri[|GEO_PREFIX|..] == PercentEncode(c.searchQuery);
    uri
  }

  /** Every card's query is ASCII text. */
  lemma QueryIsAscii(i: nat)
    requires i < |PRO_CATEGORIES|
    ensures IsAscii(PRO_CATEGORIES[i].searchQuery)
  {
    var q := PRO_CATEGORIES[i].searchQuery;
    forall k | 0 <= k < |q| ensures q[k] as int < 128 {
    }
  }

  lemma {:induction false} EncodeAppend(a: string, b: string)
    requires IsAscii(a) && IsAscii(b)
    ensures IsAscii(a + b)
    ensures PercentEncode(a + b) == PercentEncode(a) + PercentEncode(b)
  {
    if a != [] {
      assert (a + b)[1..] == a[1..] + b;
      EncodeAppend(a[1..], b);
    } else {
      assert a + b == b;
    }
  }

  lemma {:induction false} UnreservedUnchanged(s: string)
    requires forall k | 0 <= k < |s| :: IsUnreserved(s[k]) && s[k] as int < 128
    ensures IsAscii(s) && PercentEncode(s) == s
  {
    if s != [] {
      UnreservedUnchanged(s[1..]);
    }
  }

  /** The six queries differ from each other. */
  lemma QueriesDistinct(i: nat, j: nat)
    requires i < j < |PRO_CATEGORIES|
    ensures PRO_CATEGORIES[i].searchQuery != PRO_CATEGORIES[j].searchQuery
  {
    var a := PRO_CATEGORIES[i].searchQuery;
    var b := PRO_CATEGORIES[j].searchQuery;
    if |a| == |b| {
      assert a[0] != b[0];
    }
  }

  /** Distinct cards open distinct searches. */
  lemma TapTargetsDistinct(i: nat, j: nat)
    requires i < j < |PRO_CATEGORIES|
    ensures IsAscii(PRO_CATEGORIES[i].searchQuery) && IsAscii(PRO_CATEGORIES[j].searchQuery)
    ensures TapTarget(PRO_CATEGORIES[i]) != TapTarget(PRO_CATEGORIES[j])
  {
    QueryIsAscii(i);
    QueryIsAscii(j);
    QueriesDistinct(i, j);
  }
}
