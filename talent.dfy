/** The employer's "Find Talent" page (app/dashboard/employer/talent/page.tsx): the
    freelancer profiles and a search over name and skills. */
module Talent {
  import opened Common
  import opened Schema
  import opened Backend

  /** fetchFreelancers: every profile with role `freelancer`, in table order (the query
      names no order). */
  function Freelancers(profiles: seq<Profile>): (r: seq<Profile>)
    ensures forall i :: 0 <= i < |r| ==> r[i] in profiles && r[i].role == Freelancer
    ensures forall i :: 0 <= i < |profiles| && profiles[i].role == Freelancer ==> profiles[i] in r
    ensures IsSubsequence(r, profiles)
  {
    Filter(profiles, (p: Profile) => p.role == Freelancer)
  }

  /** Some skill of the list matches the term. */
  predicate SomeSkillMatches(skills: seq<string>, term: string)
  {
    exists i :: 0 <= i < |skills| && Matches(skills[i], term)
  }

  /** Evaluating the search test on this profile fails: its name is null, or its name
      does not match and its skills are null (the `||` stops at a matching name). */
  predicate SearchFails(p: Profile, term: string)
  {
    p.fullName.None? || (!Matches(p.fullName.value, term) && p.skills.None?)
  }

  /** The search test on a profile on which it does not fail. */
  function TalentMatches(term: string): Profile -> bool
  {
    (p: Profile) => p.fullName.Some? && (Matches(p.fullName.value, term)
                     || (p.skills.Some? && SomeSkillMatches(p.skills.value, term)))
  }

  /** filteredFreelancers: None when the test fails on some profile (the page cannot
      render), otherwise the profiles whose name or one of whose skills matches. */
  function SearchTalent(freelancers: seq<Profile>, term: string): (r: Option<seq<Profile>>)
    ensures r.None? <==> exists i :: 0 <= i < |freelancers| && SearchFails(freelancers[i], term)
    ensures r.Some? ==> forall i :: 0 <= i < |r.value| ==>
      && r.value[i] in freelancers
      && (Matches(r.value[i].fullName.value, term) || SomeSkillMatches(r.value[i].skills.value, term))
    ensures r.Some? ==> forall i :: 0 <= i < |freelancers| && TalentMatches(term)(freelancers[i]) ==> freelancers[i] in r.value
    ensures r.Some? ==> IsSubsequence(r.value, freelancers)
    ensures r.Some? ==> |r.value| == Count(freelancers, TalentMatches(term))
  {
    if exists i :: 0 <= i < |freelancers| && SearchFails(freelancers[i], term) then None
    else Some(Filter(freelancers, TalentMatches(term)))
  }

  /** A profile the page cannot render: the search test reads its name, and either the
      search test or the card (`skills.join`) reads its skills. */
  predicate RenderFails(p: Profile)
  {
    p.fullName.None? || p.skills.None?
  }

  /** The rendered page: None when rendering throws on some profile, otherwise the cards
      of the filtered list. A profile with null skills throws whatever the term: in the
      search test when its name does not match, at its card when it does. */
  function TalentPage(freelancers: seq<Profile>, term: string): (r: Option<seq<Profile>>)
    ensures r.None? <==> exists i :: 0 <= i < |freelancers| && RenderFails(freelancers[i])
    ensures r.Some? ==> SearchTalent(freelancers, term) == r
    ensures r.Some? ==> forall i :: 0 <= i < |r.value| ==> r.value[i].skills.Some?
  {
    if exists i :: 0 <= i < |freelancers| && RenderFails(freelancers[i]) then None
    else SearchTalent(freelancers, term)
  }

  /** With an empty search box, every freelancer that has a name passes the search
      test, whatever their skills, and the page shows all of them when every one of
      them also lists skills. */
  lemma EmptySearchShowsAll(freelancers: seq<Profile>)
    requires forall i :: 0 <= i < |freelancers| ==> freelancers[i].fullName.Some?
    ensures SearchTalent(freelancers, "") == Some(freelancers)
    ensures (forall i :: 0 <= i < |freelancers| ==> freelancers[i].skills.Some?) ==>
      TalentPage(freelancers, "") == Some(freelancers)
  {
    forall i | 0 <= i < |freelancers| ensures TalentMatches("")(freelancers[i]) && !SearchFails(freelancers[i], "") {
      MatchesEmptyTerm(freelancers[i].fullName.value);
    }
    FilterKeepsAll(freelancers, TalentMatches(""));
  }

  /** The talent page. */
  class FindTalent {
    const store: Store
    var freelancers: seq<Profile>
    var searchTerm: string

    constructor (store: Store)
      ensures this.store == store && freelancers == [] && searchTerm == ""
    {
      this.store := store;
      freelancers, searchTerm := [], "";
    }

    /** fetchFreelancers: on success the list becomes the freelancer profiles. */
    method FetchFreelancers(fails: bool)
      modifies this`freelancers
      ensures freelancers == if fails then old(freelancers) else Freelancers(store.profiles)
    {
      if !fails {
        freelancers := Freelancers(store.profiles);
      }
    }
  }
}
