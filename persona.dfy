/**
 * Persona segment matching (services/personaOptimizationService.ts): the first
 * stored profile one of whose segment words occurs in the prospect's title or
 * industry, ignoring case.
 */
module Persona {
  import opened Wrappers
  import opened Text
  import opened Domain

  datatype PersonaProfile = PersonaProfile(segment: string)

  /** `getProfiles`: the stored list; `None` stands for missing, empty or unparsable storage. */
  function GetProfiles(saved: Option<seq<PersonaProfile>>): seq<PersonaProfile> {
    saved.GetOr([])
  }

  /** `title.includes(word) || industry.includes(word)`. */
  predicate WordOccurs(word: string, p: Prospect) {
    Contains(Lower(p.title), word) || Contains(Lower(p.industry), word)
  }

  /** The `find` callback: some word of the lower-cased segment, split on spaces, occurs. */
  predicate SegmentMatches(profile: PersonaProfile, p: Prospect) {
    var words := Split(Lower(profile.segment), ' ');
    exists i :: 0 <= i < |words| && WordOccurs(words[i], p)
  }

  /** `profiles.find(...)`: the first matching profile. */
  function FirstMatch(profiles: seq<PersonaProfile>, p: Prospect): (r: Option<PersonaProfile>)
    ensures r.None? <==> forall j :: 0 <= j < |profiles| ==> !SegmentMatches(profiles[j], p)
    ensures r.Some? ==> exists i :: (0 <= i < |profiles| && profiles[i] == r.value && SegmentMatches(r.value, p) &&
      (forall j :: 0 <= j < i ==> !SegmentMatches(profiles[j], p)))
  {
    if profiles == [] then None
    else if SegmentMatches(profiles[0], p) then Some(profiles[0])
    else
      var r := FirstMatch(profiles[1..], p);
      assert forall j :: 1 <= j < |profiles| ==> profiles[j] == profiles[1..][j - 1];
      r
  }

  /** `getSegmentForProspect` with the stored profile list passed in. */
  function GetSegmentForProspect(saved: Option<seq<PersonaProfile>>, p: Prospect): (r: Option<PersonaProfile>)
    ensures r.Some? ==> r.value in GetProfiles(saved) && SegmentMatches(r.value, p)
    ensures r.None? <==> forall q :: q in GetProfiles(saved) ==> !SegmentMatches(q, p)
  {
    FirstMatch(GetProfiles(saved), p)
  }

  /** Missing or unreadable storage means no profile, and so no segment. */
  lemma NoStoreNoSegment(p: Prospect)
    ensures GetSegmentForProspect(None, p).None?
  {
  }

  /** The first matching profile wins over every later one. */
  lemma {:induction false} EarlierProfileWins(profiles: seq<PersonaProfile>, p: Prospect, i: nat)
    requires i < |profiles| && SegmentMatches(profiles[i], p)
    requires forall j :: 0 <= j < i ==> !SegmentMatches(profiles[j], p)
    ensures GetSegmentForProspect(Some(profiles), p) == Some(profiles[i])
  {
    if i > 0 {
      EarlierProfileWins(profiles[1..], p, i - 1);
    }
  }

  /** A segment word occurring in the title in any letter case matches. */
  lemma {:induction false} TitleMatchIgnoresCase(profile: PersonaProfile, p: Prospect, w: nat, at: nat)
    requires w < |Split(Lower(profile.segment), ' ')|
    requires var word := Split(Lower(profile.segment), ' ')[w];
      at + |word| <= |p.title| && Lower(p.title[at..at + |word|]) == word
    ensures SegmentMatches(profile, p)
  {
    var word := Split(Lower(profile.segment), ' ')[w];
    var lt := Lower(p.title);
    assert lt[at..at + |word|] == word by {
      forall k | 0 <= k < |word| ensures lt[at + k] == word[k] {
        assert Lower(p.title[at..at + |word|])[k] == LowerChar(p.title[at + k]);
      }
    }
    assert word <= lt[at..];
    assert WordOccurs(word, p);
  }

  /** Splitting a text with one more separator at its end adds one empty piece. */
  lemma {:induction false} SplitTrailingSeparator(s: string, sep: char)
    ensures Split(s + [sep], sep) == Split(s, sep) + [""]
    decreases |s|
  {
    if s != [] {
      assert (s + [sep])[1..] == s[1..] + [sep];
      SplitTrailingSeparator(s[1..], sep);
    }
  }

  lemma LowerTrailingSpace(s: string)
    ensures Lower(s + " ") == Lower(s) + " "
  {
    assert forall i :: 0 <= i < |s| ==> (s + " ")[i] == s[i];
  }

  /**
   * As written, a segment ending in a space matches every prospect: its last word
   * is empty, and every text includes the empty string.
   */
  lemma TrailingSpaceMatchesEveryone(segment: string, p: Prospect)
    ensures SegmentMatches(PersonaProfile(segment + " "), p)
  {
    LowerTrailingSpace(segment);
    SplitTrailingSeparator(Lower(segment), ' ');
    var words := Split(Lower(segment + " "), ' ');
    assert words[|words| - 1] == "";
    ContainsEmpty(Lower(p.title));
    assert WordOccurs(words[|words| - 1], p);
  }

  /** The match with empty words skipped: only a real word of the segment can match. */
  predicate SegmentMatchesCorrected(profile: PersonaProfile, p: Prospect) {
    var words := Split(Lower(profile.segment), ' ');
    exists i :: 0 <= i < |words| && words[i] != "" && WordOccurs(words[i], p)
  }

  /** `getSegmentForProspect` with the corrected match. */
  function GetSegmentForProspectCorrected(saved: Option<seq<PersonaProfile>>, p: Prospect): (r: Option<PersonaProfile>)
    ensures r.Some? ==> r.value in GetProfiles(saved) && SegmentMatchesCorrected(r.value, p)
    ensures r.None? <==> forall q :: q in GetProfiles(saved) ==> !SegmentMatchesCorrected(q, p)
    decreases GetProfiles(saved)
  {
    var profiles := GetProfiles(saved);
    if profiles == [] then None
    else if SegmentMatchesCorrected(profiles[0], p) then Some(profiles[0])
    else
      var r := GetSegmentForProspectCorrected(Some(profiles[1..]), p);
      assert forall q :: q in profiles ==> q == profiles[0] || q in profiles[1..];
      r
  }

  /**
   * With the correction, padding a segment with a trailing space changes nothing, and a
   * prospect with neither a title nor an industry matches no profile.
   */
  lemma CorrectedIgnoresTrailingSpace(segment: string, p: Prospect)
    ensures SegmentMatchesCorrected(PersonaProfile(segment + " "), p) <==> SegmentMatchesCorrected(PersonaProfile(segment), p)
    ensures p.title == "" && p.industry == "" ==> !SegmentMatchesCorrected(PersonaProfile(segment), p)
  {
    LowerTrailingSpace(segment);
    SplitTrailingSeparator(Lower(segment), ' ');
    var words := Split(Lower(segment), ' ');
    var padded := Split(Lower(segment + " "), ' ');
    assert padded == words + [""];
    assert forall i :: 0 <= i < |words| ==> padded[i] == words[i];
    if SegmentMatchesCorrected(PersonaProfile(segment + " "), p) {
      var i :| 0 <= i < |padded| && padded[i] != "" && WordOccurs(padded[i], p);
      assert i < |words|;
    }
    if p.title == "" && p.industry == "" {
      forall i | 0 <= i < |words| && words[i] != ""
        ensures !WordOccurs(words[i], p)
      {
        NotContainsWithoutFirstChar(Lower(p.title), words[i]);
        NotContainsWithoutFirstChar(Lower(p.industry), words[i]);
      }
    }
  }
}
