/**
 * The backend's markdown code-fence strip: a search for the pattern
 * ```` ```(?:json)?\s*(.*?)\s*``` ```` with `.` matching newlines, keeping
 * the captured group when there is a match and the whole reply otherwise.
 * The search is written as a string function and proved to return the
 * match a backtracking regex engine picks.
 */
module Fence {
  import opened Wrappers
  import opened Text

  /** Three backticks start at `i`. */
  predicate FenceAt(s: string, i: nat) {
    i + 3 <= |s| && s[i] == '`' && s[i + 1] == '`' && s[i + 2] == '`'
  }

  /** The tag `json` starts at `i`. */
  predicate JsonAt(s: string, i: nat) {
    i + 4 <= |s| && s[i] == 'j' && s[i + 1] == 's' && s[i + 2] == 'o' && s[i + 3] == 'n'
  }

  ghost predicate AllSpace(s: string, lo: nat, hi: nat)
    requires lo <= hi <= |s|
  {
    forall k | lo <= k < hi :: IsSpace(s[k])
  }

  /**
   * One way the pattern can match: an opening fence at `p`, the optional
   * tag ending at `b`, whitespace up to `c`, the group `s[c..e]`, then
   * whitespace and a closing fence.
   */
  ghost predicate MatchAt(s: string, p: nat, b: nat, c: nat, e: nat) {
    && FenceAt(s, p)
    && (b == p + 3 || (b == p + 7 && JsonAt(s, p + 3)))
    && b <= c <= e <= |s|
    && AllSpace(s, b, c)
    && FenceAt(s, SkipSpaces(s, e))
  }

  ghost predicate Matches(s: string) {
    exists p, b, c, e :: MatchAt(s, p, b, c, e)
  }

  /**
   * The order in which a backtracking engine tries matches: leftmost start,
   * then the `json` tag taken, then the greedy `\s*` longest, then the lazy
   * group shortest.
   */
  ghost predicate TriedFirst(p: nat, b: nat, c: nat, e: nat, p': nat, b': nat, c': nat, e': nat) {
    p < p' || (p == p' && (b > b' || (b == b' && (c > c' || (c == c' && e <= e')))))
  }

  /** `s[c..e]` is the group of the match the engine reports. */
  ghost predicate Preferred(s: string, p: nat, b: nat, c: nat, e: nat) {
    && MatchAt(s, p, b, c, e)
    && forall p', b', c', e' | MatchAt(s, p', b', c', e') :: TriedFirst(p, b, c, e, p', b', c', e')
  }

  /** The first fence at or after `i`. */
  function NextFence(s: string, i: nat): (r: Option<nat>)
    ensures r.Some? ==> i <= r.value && FenceAt(s, r.value)
    ensures forall k: nat | i <= k && (r.None? || k < r.value) :: !FenceAt(s, k)
    decreases |s| - i
  {
    if i + 3 > |s| then None
    else if FenceAt(s, i) then Some(i)
    else NextFence(s, i + 1)
  }

  /** The end of the optional tag after the opening fence at `p`. */
  function TagEnd(s: string, p: nat): (b: nat)
    requires FenceAt(s, p)
    ensures b <= |s|
    ensures b == p + 3 || (b == p + 7 && JsonAt(s, p + 3))
    ensures JsonAt(s, p + 3) ==> b == p + 7
  {
    if JsonAt(s, p + 3) then p + 7 else p + 3
  }

  /** The first `e >= c` from which optional whitespace leads to a closing fence. */
  function ContentEnd(s: string, c: nat): (r: Option<nat>)
    requires c <= |s|
    ensures r.Some? ==> c <= r.value <= |s| && FenceAt(s, SkipSpaces(s, r.value))
    ensures forall e: nat | c <= e <= |s| && (r.None? || e < r.value) :: !FenceAt(s, SkipSpaces(s, e))
    decreases |s| - c
  {
    if FenceAt(s, SkipSpaces(s, c)) then Some(c)
    else if c == |s| then None
    else ContentEnd(s, c + 1)
  }

  /** The reply text after stripping: the captured group, or the text itself without a match. */
  function Strip(s: string): string {
    match NextFence(s, 0)
    case None => s
    case Some(p) =>
      var c := SkipSpaces(s, TagEnd(s, p));
      match ContentEnd(s, c)
      case None => s
      case Some(e) => s[c..e]
  }

  /** A position holding a backtick is where whitespace skipping stops. */
  lemma SkipStopsAtTick(s: string, i: nat)
    requires i < |s| && s[i] == '`'
    ensures SkipSpaces(s, i) == i
  {
  }

  /** Whitespace at `i` is skipped: skipping from `i` and from `i + 1` ends alike. */
  lemma SpaceSkipStep(s: string, i: nat)
    requires i < |s| && IsSpace(s[i])
    ensures SkipSpaces(s, i) == SkipSpaces(s, i + 1)
  {
  }

  /** Any match's closing fence lies at or after the content start chosen at the first fence. */
  lemma ClosingAfterContentStart(s: string, p: nat, p': nat, b': nat, c': nat, e': nat)
    requires NextFence(s, 0) == Some(p)
    requires MatchAt(s, p', b', c', e')
    ensures p <= p'
    ensures var f := SkipSpaces(s, e'); f >= SkipSpaces(s, TagEnd(s, p)) && SkipSpaces(s, f) == f
  {
  }

  /** Strip returns exactly the group of the match a backtracking engine reports, and the text when none. */
  lemma {:induction false} StripFollowsRegex(s: string)
    ensures !Matches(s) ==> Strip(s) == s
    ensures Matches(s) ==> exists p: nat, b: nat, c: nat, e: nat :: Preferred(s, p, b, c, e) && Strip(s) == s[c..e]
  {
    match NextFence(s, 0)
    case None =>
      forall p, b, c, e ensures !MatchAt(s, p, b, c, e) {
      }
    case Some(p) =>
      var b := TagEnd(s, p);
      var c := SkipSpaces(s, b);
      match ContentEnd(s, c)
      case None =>
        forall p', b', c', e' | MatchAt(s, p', b', c', e') ensures false {
          ClosingAfterContentStart(s, p, p', b', c', e');
        }
      case Some(e) =>
        forall p', b', c', e' | MatchAt(s, p', b', c', e') ensures TriedFirst(p, b, c, e, p', b', c', e') {
          ClosingAfterContentStart(s, p, p', b', c', e');
        }
        assert Preferred(s, p, b, c, e);
  }

  /** The reply is left as it is exactly when the pattern does not match. */
  lemma UnchangedIffNoMatch(s: string)
    ensures Strip(s) == s <==> !Matches(s)
  {
    StripFollowsRegex(s);
    if Matches(s) {
      var p: nat, b: nat, c: nat, e: nat :| Preferred(s, p, b, c, e) && Strip(s) == s[c..e];
      assert |Strip(s)| < |s|;
    }
  }

  /** The group's bounds when the pattern matches. */
  lemma GroupBounds(s: string) returns (c: nat, e: nat)
    requires Matches(s)
    ensures c <= e <= |s| && Strip(s) == s[c..e]
    ensures ContentEnd(s, c) == Some(e)
    ensures c < |s| ==> !IsSpace(s[c])
  {
    StripFollowsRegex(s);
    var p := NextFence(s, 0).value;
    c := SkipSpaces(s, TagEnd(s, p));
    e := ContentEnd(s, c).value;
  }

  /** Nothing from `c` up to the first closing position `e` is a whole fence. */
  lemma NoFenceBeforeEnd(s: string, c: nat, e: nat)
    requires c <= e <= |s| && ContentEnd(s, c) == Some(e)
    ensures forall q: nat :: !FenceAt(s[c..e], q)
  {
    forall q: nat | FenceAt(s[c..e], q) ensures false {
      assert FenceAt(s, c + q);
      SkipStopsAtTick(s, c + q);
    }
  }

  /** The captured group holds no fence. */
  lemma GroupHasNoFence(s: string)
    requires Matches(s)
    ensures forall q: nat :: !FenceAt(Strip(s), q)
  {
    var c, e := GroupBounds(s);
    NoFenceBeforeEnd(s, c, e);
  }

  /** The character just before the first closing position is not whitespace. */
  lemma LastBeforeEndNotSpace(s: string, c: nat, e: nat)
    requires c < e <= |s| && ContentEnd(s, c) == Some(e)
    ensures !IsSpace(s[e - 1])
  {
    if IsSpace(s[e - 1]) {
      SpaceSkipStep(s, e - 1);
    }
  }

  /** The captured group neither starts nor ends with whitespace. */
  lemma GroupIsTrimmed(s: string)
    requires Matches(s)
    ensures Strip(s) != [] ==> !IsSpace(Strip(s)[0]) && !IsSpace(Strip(s)[|Strip(s)| - 1])
  {
    var c, e := GroupBounds(s);
    var g := Strip(s);
    if c < e {
      LastBeforeEndNotSpace(s, c, e);
      assert g[0] == s[c] && g[|g| - 1] == s[e - 1];
    }
  }

  /** Text without a fence is left as it is. */
  lemma NoFenceUnchanged(s: string)
    requires forall q: nat :: !FenceAt(s, q)
    ensures Strip(s) == s
  {
  }

  /** Stripping twice is stripping once. */
  lemma StripIdempotent(s: string)
    ensures Strip(Strip(s)) == Strip(s)
  {
    StripFollowsRegex(s);
    if Matches(s) {
      GroupHasNoFence(s);
      NoFenceUnchanged(Strip(s));
    }
  }
}
