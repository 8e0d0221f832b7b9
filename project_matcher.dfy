/** The state rules of the `ProjectMatcher` component: the two favourite sets, the
    search-filter record, the tab switch that may start a search, the older
    client-side match formula and the difficulty chip colour. React state is the
    fields of one object; a `setX(prev => ...)` update is a method that reassigns X. */
module ProjectMatcher {
  import opened Wrappers
  import opened Text
  import opened Lists
  import opened Numbers
  import opened Ranking
  import opened Chip
  import GitHub
  import ConsultantService

  // ---- favourites ----

  /** The set after `has(id) ? delete(id) : add(id)` on a copy of `s`. */
  function Toggle(s: set<int>, id: int): (r: set<int>)
    ensures id in r <==> id !in s
    ensures forall other :: other != id ==> (other in r <==> other in s)
  {
    if id in s then s - {id} else s + {id}
  }

  /** Toggling the same id twice restores the set. */
  lemma ToggleTwice(s: set<int>, id: int)
    ensures Toggle(Toggle(s, id), id) == s
  {
    var t := Toggle(Toggle(s, id), id);
    assert forall x :: x in t <==> x in s;
  }

  // ---- search filters ----

  /** A filter value: `null`, a string, a number, a flag or the skill list. */
  datatype FilterValue = Null | Str(s: string) | Num(x: real) | Flag(b: bool) | SkillList(skills: seq<string>)

  /** The initial filter record: the user's skills, every other filter unset. */
  function InitialFilters(userSkills: seq<string>): (r: map<string, FilterValue>)
    ensures r.Keys == {"skills", "budget", "availability", "location", "projectType", "experience", "rating"}
    ensures r["skills"] == SkillList(userSkills)
  {
    map["skills" := SkillList(userSkills), "budget" := Null, "availability" := Null, "location" := Str(""),
        "projectType" := Str(""), "experience" := Null, "rating" := Null]
  }

  /** `{...prev, [filterName]: value}`: the one key set, every other key as it was. */
  function SetFilter(filters: map<string, FilterValue>, filterName: string, value: FilterValue): (r: map<string, FilterValue>)
    ensures r.Keys == filters.Keys + {filterName}
    ensures r[filterName] == value
    ensures forall k :: k in filters && k != filterName ==> r[k] == filters[k]
  {
    filters[filterName := value]
  }

  /** Setting the same filter twice keeps only the second value. */
  lemma SetFilterTwice(filters: map<string, FilterValue>, filterName: string, v1: FilterValue, v2: FilterValue)
    ensures SetFilter(SetFilter(filters, filterName, v1), filterName, v2) == SetFilter(filters, filterName, v2)
  {
    var a, b := SetFilter(SetFilter(filters, filterName, v1), filterName, v2), SetFilter(filters, filterName, v2);
    assert a.Keys == b.Keys;
    assert forall k :: k in a ==> a[k] == b[k];
  }

  // ---- tab switch ----

  /** The search a tab switch starts, if any. */
  datatype SearchAction = NoSearch | RunProjectSearch | RunConsultantSearch

  /** Switching to the projects tab (0) or the consultants tab (1) searches only when
      that tab has nothing to show. */
  function TabSearch(newValue: int, noRecommendations: bool, noConsultants: bool): (r: SearchAction)
    ensures r == RunProjectSearch <==> newValue == 0 && noRecommendations
    ensures r == RunConsultantSearch <==> newValue == 1 && noConsultants
  {
    if newValue == 0 && noRecommendations then RunProjectSearch
    else if newValue == 1 && noConsultants then RunConsultantSearch
    else NoSearch
  }

  // ---- the component's state ----

  class MatcherState {
    var activeTab: int
    var recommendations: seq<Scored<GitHub.EnhancedProject>>
    var favoriteProjects: set<int>
    var consultants: seq<Scored<ConsultantService.ConsultantMatch>>
    var favoriteConsultants: set<int>
    var searchFilters: map<string, FilterValue>
    var error: Option<string>

    /** The initial state: first tab, nothing found, no favourites, the initial filters. */
    constructor(userSkills: seq<string>)
      ensures activeTab == 0 && recommendations == [] && consultants == []
      ensures favoriteProjects == {} && favoriteConsultants == {}
      ensures searchFilters == InitialFilters(userSkills) && error == None
    {
      activeTab := 0;
      recommendations := [];
      favoriteProjects := {};
      consultants := [];
      favoriteConsultants := {};
      searchFilters := InitialFilters(userSkills);
      error := None;
    }

    /** `toggleFavorite`: only the project favourites change, and only at `projectId`. */
    method ToggleFavorite(projectId: int)
      modifies this
      ensures favoriteProjects == Toggle(old(favoriteProjects), projectId)
      ensures favoriteConsultants == old(favoriteConsultants) && searchFilters == old(searchFilters)
      ensures activeTab == old(activeTab) && error == old(error)
      ensures recommendations == old(recommendations) && consultants == old(consultants)
    {
      var newFavorites := favoriteProjects;
      if projectId in newFavorites {
        newFavorites := newFavorites - {projectId};
      } else {
        newFavorites := newFavorites + {projectId};
      }
      favoriteProjects := newFavorites;
    }

    /** `toggleFavoriteConsultant`: the same rule on the consultant favourites. */
    method ToggleFavoriteConsultant(consultantId: int)
      modifies this
      ensures favoriteConsultants == Toggle(old(favoriteConsultants), consultantId)
      ensures favoriteProjects == old(favoriteProjects) && searchFilters == old(searchFilters)
      ensures activeTab == old(activeTab) && error == old(error)
      ensures recommendations == old(recommendations) && consultants == old(consultants)
    {
      var newFavorites := favoriteConsultants;
      if consultantId in newFavorites {
        newFavorites := newFavorites - {consultantId};
      } else {
        newFavorites := newFavorites + {consultantId};
      }
      favoriteConsultants := newFavorites;
    }

    /** `handleFilterChange`: one filter key set, the rest of the state untouched. */
    method HandleFilterChange(filterName: string, value: FilterValue)
      modifies this
      ensures searchFilters == SetFilter(old(searchFilters), filterName, value)
      ensures favoriteProjects == old(favoriteProjects) && favoriteConsultants == old(favoriteConsultants)
      ensures activeTab == old(activeTab) && error == old(error)
      ensures recommendations == old(recommendations) && consultants == old(consultants)
    {
      searchFilters := searchFilters[filterName := value];
    }

    /** `handleTabChange`: select the tab, clear the error and report the search to
        start (the search itself is asynchronous and not part of this step). */
    method HandleTabChange(newValue: int) returns (action: SearchAction)
      modifies this
      ensures activeTab == newValue && error == None
      ensures action == TabSearch(newValue, |recommendations| == 0, |consultants| == 0)
      ensures favoriteProjects == old(favoriteProjects) && favoriteConsultants == old(favoriteConsultants)
      ensures searchFilters == old(searchFilters)
      ensures recommendations == old(recommendations) && consultants == old(consultants)
    {
      activeTab := newValue;
      error := None;
      if newValue == 0 && |recommendations| == 0 {
        action := RunProjectSearch;
      } else if newValue == 1 && |consultants| == 0 {
        action := RunConsultantSearch;
      } else {
        action := NoSearch;
      }
    }
  }

  // ---- the older match formula ----

  /** The project fields the formula reads. */
  datatype ListedProject = ListedProject(technologies: seq<string>, difficulty: string, stars: nat, contributors: nat, impactScore: real)

  /** Some user skill contains the technology, ignoring case (one direction only). */
  predicate CoveredBy(tech: string, userSkills: seq<string>) {
    exists i :: 0 <= i < |userSkills| && Contains(Lower(userSkills[i]), Lower(tech))
  }

  function Covered(userSkills: seq<string>): string -> bool {
    tech => CoveredBy(tech, userSkills)
  }

  /** Experience part: 30 less 10 per level of difference, levels defaulting to 2. */
  function OlderExperienceScore(userExperience: string, difficulty: string): (r: int)
    ensures r == 30 || r == 20 || r == 10
    ensures r == 30 <==> GitHub.ExperienceLevel(userExperience) == GitHub.ExperienceLevel(difficulty)
    ensures r == 20 <==> GitHub.ExperienceLevel(userExperience) - GitHub.ExperienceLevel(difficulty) in {-1, 1}
    ensures r == 10 <==> GitHub.ExperienceLevel(userExperience) - GitHub.ExperienceLevel(difficulty) in {-2, 2}
  {
    var diff := GitHub.ExperienceLevel(userExperience) - GitHub.ExperienceLevel(difficulty);
    var distance := if diff < 0 then -diff else diff;
    if 30 - distance * 10 > 0 then 30 - distance * 10 else 0
  }

  /** Popularity part: a tenth of the stars plus half the contributors, capped at 20. */
  function PopularityScore(stars: nat, contributors: nat): (r: real)
    ensures 0.0 <= r <= 20.0
    ensures r == 20.0 <==> (stars as real) / 10.0 + (contributors as real) / 2.0 >= 20.0
  {
    MinReal(20.0, (stars as real) / 10.0 + (contributors as real) / 2.0)
  }

  /** `calculateMatchScore`: the division by the number of technologies is unguarded,
      so an empty technology list gives `NaN`, modelled as `None`. */
  function OlderMatchScore(project: ListedProject, userSkills: seq<string>, userExperience: string): (r: Option<int>)
    ensures r.None? <==> |project.technologies| == 0
    ensures r.Some? ==> r.value <= 100
    ensures r.Some? && project.impactScore >= 0.0 ==> r.value >= 0
  {
    if |project.technologies| == 0 then None
    else
      var matches := Count(project.technologies, Covered(userSkills));
      var skillScore := Share(matches, |project.technologies|) * 40.0;
      var score := skillScore + OlderExperienceScore(userExperience, project.difficulty) as real
        + PopularityScore(project.stars, project.contributors) + (project.impactScore / 10.0) * 10.0;
      Some(MinInt(100, Round(score)))
  }

  /** With every technology covered, equal levels and the popularity cap reached, the
      score is 90 plus the rounded impact score, capped at 100. */
  lemma OlderMatchScoreFull(project: ListedProject, userSkills: seq<string>, userExperience: string)
    requires |project.technologies| > 0
    requires forall i :: 0 <= i < |project.technologies| ==> CoveredBy(project.technologies[i], userSkills)
    requires GitHub.ExperienceLevel(userExperience) == GitHub.ExperienceLevel(project.difficulty)
    requires (project.stars as real) / 10.0 + (project.contributors as real) / 2.0 >= 20.0
    ensures OlderMatchScore(project, userSkills, userExperience) == Some(MinInt(100, Round(90.0 + project.impactScore)))
  {
    var matches := Count(project.technologies, Covered(userSkills));
    assert matches == |project.technologies|;
    assert (project.impactScore / 10.0) * 10.0 == project.impactScore;
  }

  // ---- difficulty chip ----

  /** `getDifficultyColor`. */
  function DifficultyColor(difficulty: string): (r: ChipColor)
    ensures r == Success <==> difficulty == "beginner"
    ensures r == Warning <==> difficulty == "intermediate"
    ensures r == Error <==> difficulty == "advanced"
    ensures r == Default <==> difficulty != "beginner" && difficulty != "intermediate" && difficulty != "advanced"
  {
    if difficulty == "beginner" then Success
    else if difficulty == "intermediate" then Warning
    else if difficulty == "advanced" then Error
    else Default
  }
}
