/**
 * The theme marker the instructor's crisis selector shows in front of
 * each crisis title: an ordered classification of the crisis id by prefix
 * and substring, where the first rule that matches wins.
 */
module Themes {

  datatype Theme = Cyber | Robot | Nuclear | Planet | Medical | General

  /** `s.startswith(p)`. */
  predicate StartsWith(s: string, p: string) {
    |p| <= |s| && s[..|p|] == p
  }

  /** `p in s` on strings, searched from the left. */
  predicate Contains(s: string, p: string)
    decreases |s|
  {
    StartsWith(s, p) || (0 < |s| && Contains(s[1..], p))
  }

  /** `p` occurs in `s` starting at position `i`. */
  ghost predicate OccursAt(s: string, p: string, i: int) {
    0 <= i && i + |p| <= |s| && s[i..i + |p|] == p
  }

  /** Independent definition of substring: `p` occurs at some position of `s`. */
  ghost predicate OccursIn(s: string, p: string) {
    exists i :: OccursAt(s, p, i)
  }

  lemma {:induction false} ContainsIsOccurrence(s: string, p: string)
    ensures Contains(s, p) <==> OccursIn(s, p)
  {
    if Contains(s, p) {
      ContainsOccurs(s, p);
    }
    if OccursIn(s, p) {
      var i :| OccursAt(s, p, i);
      OccursContains(s, p, i);
    }
  }

  lemma {:induction false} ContainsOccurs(s: string, p: string)
    requires Contains(s, p)
    ensures OccursIn(s, p)
    decreases |s|
  {
    if StartsWith(s, p) {
      assert OccursAt(s, p, 0);
    } else {
      ContainsOccurs(s[1..], p);
      var i :| OccursAt(s[1..], p, i);
      assert s[i + 1..i + 1 + |p|] == s[1..][i..i + |p|];
      assert OccursAt(s, p, i + 1);
    }
  }

  lemma {:induction false} OccursContains(s: string, p: string, i: int)
    requires OccursAt(s, p, i)
    ensures Contains(s, p)
    decreases i
  {
    if i == 0 {
      assert StartsWith(s, p);
    } else {
      assert s[1..][i - 1..i - 1 + |p|] == s[i..i + |p|];
      OccursContains(s[1..], p, i - 1);
    }
  }

  /** The if/elif chain of the crisis selector. */
  function ThemeOf(id: string): Theme {
    if StartsWith(id, "cyber") then Cyber
    else if StartsWith(id, "ai") then Robot
    else if Contains(id, "nuclear") then Nuclear
    else if Contains(id, "climate") || Contains(id, "ocean") then Planet
    else if Contains(id, "medical") || Contains(id, "vaccine") then Medical
    else General
  }

  /** The marker shown for a theme. */
  function Emoji(t: Theme): string {
    match t
    case Cyber => "\U{1F4BB}"
    case Robot => "\U{1F916}"
    case Nuclear => "\U{2622}\U{FE0F}"
    case Planet => "\U{1F30D}"
    case Medical => "\U{1F3E5}"
    case General => "\U{26A1}"
  }

  /** Each theme has its own marker, so the marker tells the theme apart. */
  lemma EmojiDistinct(a: Theme, b: Theme)
    ensures Emoji(a) == Emoji(b) <==> a == b
  {
  }

  /**
   * The classification stated with substring occurrence: each theme is
   * chosen exactly when its own rule matches and no earlier rule does.
   */
  lemma ThemeRules(id: string)
    ensures ThemeOf(id) == Cyber <==> StartsWith(id, "cyber")
    ensures ThemeOf(id) == Robot <==> !StartsWith(id, "cyber") && StartsWith(id, "ai")
    ensures ThemeOf(id) == Nuclear <==>
              !StartsWith(id, "cyber") && !StartsWith(id, "ai") && OccursIn(id, "nuclear")
    ensures ThemeOf(id) == Planet <==>
              !StartsWith(id, "cyber") && !StartsWith(id, "ai") && !OccursIn(id, "nuclear")
              && (OccursIn(id, "climate") || OccursIn(id, "ocean"))
    ensures ThemeOf(id) == Medical <==>
              !StartsWith(id, "cyber") && !StartsWith(id, "ai") && !OccursIn(id, "nuclear")
              && !OccursIn(id, "climate") && !OccursIn(id, "ocean")
              && (OccursIn(id, "medical") || OccursIn(id, "vaccine"))
  {
    ContainsIsOccurrence(id, "nuclear");
    ContainsIsOccurrence(id, "climate");
    ContainsIsOccurrence(id, "ocean");
    ContainsIsOccurrence(id, "medical");
    ContainsIsOccurrence(id, "vaccine");
  }

  /** A prefix is a substring, so an id starting with a later rule's word still takes the earlier theme. */
  lemma PrefixWins(id: string)
    requires StartsWith(id, "cyber") || StartsWith(id, "ai")
    ensures ThemeOf(id) in {Cyber, Robot}
  {
  }
}
