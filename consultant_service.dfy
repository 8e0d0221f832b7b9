/** The consultant matcher: a fixed in-memory database, hard-constraint filtering of it
    by search criteria, a 0..100 weighted match score, per-consultant insights, lookup
    by id and skill suggestions drawn from a fixed category table. */
module ConsultantService {
  import opened Wrappers
  import opened Text
  import opened Lists
  import opened Ranking
  import opened Numbers

  datatype Consultant = Consultant(
    id: string,
    name: string,
    location: string,
    timezone: string,
    hourlyRate: real,
    availability: string,
    rating: real,
    reviewCount: nat,
    yearsExperience: nat,
    skills: seq<string>,
    specializations: seq<string>,
    workPreference: string,
    projectTypes: seq<string>,
    industries: seq<string>)

  /** The six records of the simulated database, in database order (the fields no
      operation reads, such as avatar, bio or portfolio, are omitted). */
  const Database: seq<Consultant> := [
    Consultant("cons-001", "Sarah Chen", "San Francisco, CA", "PST", 125.0, "Available", 4.9, 47, 8,
      ["React", "Node.js", "Python", "Machine Learning", "AWS", "TypeScript"],
      ["AI/ML Integration", "Full-Stack Development", "Cloud Architecture"],
      "Remote", ["Web Applications", "AI/ML Projects", "Consulting"], ["FinTech", "HealthTech", "E-commerce"]),
    Consultant("cons-002", "Marcus Rodriguez", "Austin, TX", "CST", 150.0, "Busy until Feb 2025", 4.8, 32, 6,
      ["Solidity", "Web3.js", "Ethereum", "DeFi", "Smart Contracts", "Rust"],
      ["Smart Contract Development", "DeFi Protocols", "Security Auditing"],
      "Hybrid", ["Smart Contracts", "DeFi", "Security Audits"], ["Blockchain", "FinTech", "Gaming"]),
    Consultant("cons-003", "Dr. Priya Patel", "Boston, MA", "EST", 140.0, "Available", 4.9, 63, 10,
      ["Python", "TensorFlow", "PyTorch", "Pandas", "SQL", "R", "Kubernetes"],
      ["Machine Learning", "Data Science", "MLOps", "Computer Vision"],
      "Remote", ["ML/AI Development", "Data Analysis", "Research"], ["Healthcare", "Manufacturing", "Finance"]),
    Consultant("cons-004", "Alex Thompson", "Seattle, WA", "PST", 130.0, "Available", 4.7, 41, 9,
      ["AWS", "Kubernetes", "Docker", "Terraform", "Jenkins", "Python", "Go"],
      ["Cloud Architecture", "DevOps", "Infrastructure as Code", "Microservices"],
      "Remote", ["Cloud Migration", "DevOps Setup", "Infrastructure"], ["SaaS", "E-commerce", "FinTech"]),
    Consultant("cons-005", "Luna Kim", "Los Angeles, CA", "PST", 110.0, "Available", 4.8, 38, 7,
      ["React Native", "Flutter", "Swift", "Kotlin", "Figma", "Adobe XD"],
      ["Mobile Development", "UX/UI Design", "Cross-platform Apps"],
      "Hybrid", ["Mobile Apps", "UX Design", "Prototyping"], ["Consumer Apps", "HealthTech", "Food & Beverage"]),
    Consultant("cons-006", "David Wilson", "Washington, DC", "EST", 160.0, "Limited availability", 4.9, 29, 12,
      ["Penetration Testing", "Security Auditing", "Python", "Linux", "Network Security"],
      ["Cybersecurity", "Ethical Hacking", "Compliance", "Risk Assessment"],
      "On-site preferred", ["Security Audits", "Penetration Testing", "Compliance"], ["Finance", "Healthcare", "Government"])
  ]

  /** The skill category table, in its declaration order. */
  const SkillCategories: seq<(string, seq<string>)> := [
    ("Frontend", ["React", "Vue.js", "Angular", "JavaScript", "TypeScript", "HTML", "CSS"]),
    ("Backend", ["Node.js", "Python", "Java", "Go", "PHP", "Ruby", "C#"]),
    ("Mobile", ["React Native", "Flutter", "Swift", "Kotlin", "Ionic"]),
    ("Data Science", ["Python", "R", "SQL", "Pandas", "NumPy", "Scikit-learn"]),
    ("Machine Learning", ["TensorFlow", "PyTorch", "Keras", "OpenCV", "NLP"]),
    ("Cloud", ["AWS", "Azure", "GCP", "Docker", "Kubernetes", "Terraform"]),
    ("Blockchain", ["Solidity", "Web3.js", "Ethereum", "Smart Contracts", "DeFi"]),
    ("DevOps", ["Jenkins", "GitLab CI", "Docker", "Kubernetes", "Ansible"]),
    ("Security", ["Penetration Testing", "Ethical Hacking", "Cryptography", "OWASP"]),
    ("Design", ["Figma", "Adobe XD", "Sketch", "UX/UI Design", "Prototyping"])
  ]

  /** Ids are unique, hourly rates non-negative and ratings out of 5. */
  lemma DatabaseWellFormed()
    ensures forall i, j :: 0 <= i < j < |Database| ==> Database[i].id != Database[j].id
    ensures forall i :: 0 <= i < |Database| ==> Database[i].hourlyRate >= 0.0 && 0.0 <= Database[i].rating <= 5.0
  {
  }

  /** Search criteria; `None` is an absent (or `null`) field. */
  datatype Criteria = Criteria(
    skills: seq<string>,
    budget: Option<real>,
    availability: Option<string>,
    location: Option<string>,
    projectType: Option<string>,
    experience: Option<int>,
    rating: Option<real>)

  // JavaScript truthiness of the optional criteria: `null` and `0` / `''` are falsy.
  predicate BudgetGiven(crit: Criteria) { crit.budget.Some? && crit.budget.value != 0.0 }
  predicate LocationGiven(crit: Criteria) { crit.location.Some? && crit.location.value != "" }
  predicate ProjectTypeGiven(crit: Criteria) { crit.projectType.Some? && crit.projectType.value != "" }
  predicate ExperienceGiven(crit: Criteria) { crit.experience.Some? && crit.experience.value != 0 }
  predicate RatingGiven(crit: Criteria) { crit.rating.Some? && crit.rating.value != 0.0 }
  predicate WantsAvailable(crit: Criteria) { crit.availability == Some("available") }

  /** A requested skill and a consultant skill match when either contains the other,
      ignoring case. */
  predicate SkillMatch(consultantSkill: string, skill: string) {
    ContainsCI(consultantSkill, skill) || ContainsCI(skill, consultantSkill)
  }

  predicate HasSkill(c: Consultant, skill: string) {
    exists j :: 0 <= j < |c.skills| && SkillMatch(c.skills[j], skill)
  }

  predicate IsAvailable(c: Consultant) {
    Contains(Lower(c.availability), "available")
  }

  predicate OffersProjectType(c: Consultant, projectType: string) {
    exists k :: 0 <= k < |c.projectTypes| && ContainsCI(c.projectTypes[k], projectType)
  }

  /** The seven filters of a search, in the order they are applied. */
  datatype Stage = BySkills | ByBudget | ByAvailability | ByLocation | ByProjectType | ByExperience | ByRating

  const Stages: seq<Stage> := [BySkills, ByBudget, ByAvailability, ByLocation, ByProjectType, ByExperience, ByRating]

  /** Whether the criteria switch the filter on. */
  predicate Active(crit: Criteria, st: Stage) {
    match st
    case BySkills => |crit.skills| > 0
    case ByBudget => BudgetGiven(crit)
    case ByAvailability => WantsAvailable(crit)
    case ByLocation => LocationGiven(crit)
    case ByProjectType => ProjectTypeGiven(crit)
    case ByExperience => ExperienceGiven(crit)
    case ByRating => RatingGiven(crit)
  }

  /** The test an active filter applies to one consultant. */
  predicate Test(c: Consultant, crit: Criteria, st: Stage) {
    match st
    case BySkills => exists i :: 0 <= i < |crit.skills| && HasSkill(c, crit.skills[i])
    case ByBudget => c.hourlyRate <= crit.budget.GetOr(0.0)
    case ByAvailability => IsAvailable(c)
    case ByLocation => ContainsCI(c.location, crit.location.GetOr("")) || c.workPreference == "Remote"
    case ByProjectType => OffersProjectType(c, crit.projectType.GetOr(""))
    case ByExperience => c.yearsExperience >= crit.experience.GetOr(0)
    case ByRating => c.rating >= crit.rating.GetOr(0.0)
  }

  /** The consultant passes the first `n` filters. */
  predicate PassesFirst(c: Consultant, crit: Criteria, n: nat)
    requires n <= |Stages|
  {
    n == 0 || (PassesFirst(c, crit, n - 1) && (Active(crit, Stages[n - 1]) ==> Test(c, crit, Stages[n - 1])))
  }

  /** Every active filter admits the consultant, written out filter by filter. */
  predicate PassesFilters(c: Consultant, crit: Criteria) {
    && (|crit.skills| > 0 ==> exists i :: 0 <= i < |crit.skills| && HasSkill(c, crit.skills[i]))
    && (BudgetGiven(crit) ==> c.hourlyRate <= crit.budget.value)
    && (WantsAvailable(crit) ==> IsAvailable(c))
    && (LocationGiven(crit) ==> ContainsCI(c.location, crit.location.value) || c.workPreference == "Remote")
    && (ProjectTypeGiven(crit) ==> OffersProjectType(c, crit.projectType.value))
    && (ExperienceGiven(crit) ==> c.yearsExperience >= crit.experience.value)
    && (RatingGiven(crit) ==> c.rating >= crit.rating.value)
  }

  lemma PassesAllStages(c: Consultant, crit: Criteria)
    ensures PassesFirst(c, crit, |Stages|) == PassesFilters(c, crit)
  {
    assert PassesFirst(c, crit, 1) == (Active(crit, BySkills) ==> Test(c, crit, BySkills));
    assert PassesFirst(c, crit, 2) == (PassesFirst(c, crit, 1) && (Active(crit, ByBudget) ==> Test(c, crit, ByBudget)));
    assert PassesFirst(c, crit, 3) == (PassesFirst(c, crit, 2) && (Active(crit, ByAvailability) ==> Test(c, crit, ByAvailability)));
    assert PassesFirst(c, crit, 4) == (PassesFirst(c, crit, 3) && (Active(crit, ByLocation) ==> Test(c, crit, ByLocation)));
    assert PassesFirst(c, crit, 5) == (PassesFirst(c, crit, 4) && (Active(crit, ByProjectType) ==> Test(c, crit, ByProjectType)));
    assert PassesFirst(c, crit, 6) == (PassesFirst(c, crit, 5) && (Active(crit, ByExperience) ==> Test(c, crit, ByExperience)));
    assert PassesFirst(c, crit, 7) == (PassesFirst(c, crit, 6) && (Active(crit, ByRating) ==> Test(c, crit, ByRating)));
  }

  /** The test of filter `st` as a function value. */
  function TestOf(crit: Criteria, st: Stage): Consultant -> bool {
    c => Test(c, crit, st)
  }

  /** One filter applied to `results` when the criteria switch it on. */
  function Step(results: seq<Consultant>, crit: Criteria, st: Stage): (r: seq<Consultant>)
    ensures Active(crit, st) ==> forall i :: 0 <= i < |r| ==> Test(r[i], crit, st)
    ensures !Active(crit, st) ==> r == results
  {
    if Active(crit, st) then
      FilterMembers(results, TestOf(crit, st));
      Filter(results, TestOf(crit, st))
    else results
  }

  /** The database after the first `n` filters, each applied only when active. */
  function Narrowed(db: seq<Consultant>, crit: Criteria, n: nat): seq<Consultant>
    requires n <= |Stages|
  {
    if n == 0 then db else Step(Narrowed(db, crit, n - 1), crit, Stages[n - 1])
  }

  /** Narrowing by the first `n` filters in turn is filtering once by all of them. */
  lemma {:induction false} NarrowedFilters(db: seq<Consultant>, crit: Criteria, n: nat)
    requires n <= |Stages|
    ensures Narrowed(db, crit, n) == Filter(db, c => PassesFirst(c, crit, n))
  {
    if n == 0 {
      FilterAll(db, c => PassesFirst(c, crit, 0));
    } else {
      NarrowedFilters(db, crit, n - 1);
      if Active(crit, Stages[n - 1]) {
        FilterFilter(db, c => PassesFirst(c, crit, n - 1), TestOf(crit, Stages[n - 1]), c => PassesFirst(c, crit, n));
      } else {
        FilterExt(db, c => PassesFirst(c, crit, n - 1), c => PassesFirst(c, crit, n));
      }
    }
  }

  /** The consultants of `db` a search returns, in database order: exactly those
      passing every active filter. */
  function Matching(db: seq<Consultant>, crit: Criteria): (r: seq<Consultant>)
    ensures forall i :: 0 <= i < |r| ==> r[i] in db && PassesFilters(r[i], crit)
    ensures forall i :: 0 <= i < |db| && PassesFilters(db[i], crit) ==> db[i] in r
  {
    FilterMembers(db, c => PassesFilters(c, crit));
    Filter(db, c => PassesFilters(c, crit))
  }

  lemma NarrowedAll(db: seq<Consultant>, crit: Criteria)
    ensures Narrowed(db, crit, |Stages|) == Matching(db, crit)
  {
    NarrowedFilters(db, crit, |Stages|);
    forall c ensures PassesFirst(c, crit, |Stages|) == PassesFilters(c, crit) {
      PassesAllStages(c, crit);
    }
    FilterExt(db, c => PassesFirst(c, crit, |Stages|), c => PassesFilters(c, crit));
  }

  // ---- match score ----

  /** Number of requested skills the consultant matches in either direction. */
  function MatchedCount(c: Consultant, skills: seq<string>): (n: nat)
    ensures n <= |skills|
    ensures n == |skills| <==> forall i :: 0 <= i < |skills| ==> HasSkill(c, skills[i])
    ensures n == 0 <==> forall i :: 0 <= i < |skills| ==> !HasSkill(c, skills[i])
  {
    Count(skills, s => HasSkill(c, s))
  }

  /** Skill part (weight 40): the share of requested skills matched, full with no
      requested skills. */
  function SkillPart(c: Consultant, skills: seq<string>): (r: real)
    ensures 0.0 <= r <= 40.0
    ensures r == 40.0 <==> forall i :: 0 <= i < |skills| ==> HasSkill(c, skills[i])
    ensures r == 0.0 <==> |skills| > 0 && forall i :: 0 <= i < |skills| ==> !HasSkill(c, skills[i])
    ensures |skills| > 0 ==> r == 40.0 * Share(MatchedCount(c, skills), |skills|)
  {
    if |skills| > 0 then
      Share(MatchedCount(c, skills), |skills|) * 40.0
    else 40.0
  }

  /** Budget part (weight 25): full within budget or with no budget, otherwise the
      budget-to-rate ratio of 25, never below 0 (a negative ratio, including the
      `-Infinity` of a zero rate, gives 0). */
  function BudgetPart(c: Consultant, crit: Criteria): (r: real)
    ensures 0.0 <= r
    ensures c.hourlyRate >= 0.0 ==> r <= 25.0
    ensures c.hourlyRate >= 0.0 ==> (r == 25.0 <==> !BudgetGiven(crit) || c.hourlyRate <= crit.budget.value)
    ensures BudgetGiven(crit) && 0.0 <= crit.budget.value < c.hourlyRate ==> r * c.hourlyRate == 25.0 * crit.budget.value
    ensures BudgetGiven(crit) && crit.budget.value < 0.0 <= c.hourlyRate ==> r == 0.0
  {
    if BudgetGiven(crit) then
      var budget := crit.budget.value;
      if c.hourlyRate <= budget then 25.0
      else if c.hourlyRate == 0.0 then 0.0
      else
        var ratio := budget / c.hourlyRate;
        RatioBelowOne(budget, c.hourlyRate);
        ScaledRatio(budget, c.hourlyRate, 25.0);
        MaxReal(0.0, ratio * 25.0)
    else 25.0
  }

  /** Availability part (weight 20): 5 only when availability is asked for and the
      consultant is not available. */
  function AvailabilityPart(c: Consultant, crit: Criteria): (r: real)
    ensures r == 20.0 || r == 5.0
    ensures r == 5.0 <==> WantsAvailable(crit) && !IsAvailable(c)
  {
    if WantsAvailable(crit) then (if IsAvailable(c) then 20.0 else 5.0) else 20.0
  }

  /** Reputation part: rating out of 5 scaled to 10, plus one point per ten reviews up to 5. */
  function ReputationPart(c: Consultant): (r: real)
    ensures c.rating >= 0.0 ==> r >= 0.0
    ensures c.rating <= 5.0 ==> r <= 15.0
  {
    (c.rating / 5.0) * 10.0 + MinReal(5.0, (c.reviewCount as real) / 10.0)
  }

  /** The rounded score, capped at 100. */
  function MatchScore(c: Consultant, crit: Criteria): (r: int)
    ensures r <= 100
    ensures c.rating >= 0.0 ==> r >= 0
  {
    var total := SkillPart(c, crit.skills) + BudgetPart(c, crit) + AvailabilityPart(c, crit) + ReputationPart(c);
    var rounded := Round(total);
    if rounded < 100 then rounded else 100
  }

  /** With no skills, no budget and no availability criterion the first three parts are
      all full (40 + 25 + 20), whatever the consultant. */
  lemma NoPreferenceFullCredit(c: Consultant, crit: Criteria)
    requires crit.skills == [] && !BudgetGiven(crit) && !WantsAvailable(crit)
    ensures SkillPart(c, crit.skills) + BudgetPart(c, crit) + AvailabilityPart(c, crit) == 85.0
  {
  }

  /** A consultant matching every skill, within budget, available, rated 5 with at
      least 50 reviews scores exactly 100. */
  lemma PerfectConsultantScores100(c: Consultant, crit: Criteria)
    requires forall i :: 0 <= i < |crit.skills| ==> HasSkill(c, crit.skills[i])
    requires c.hourlyRate >= 0.0 && (BudgetGiven(crit) ==> c.hourlyRate <= crit.budget.value)
    requires IsAvailable(c) && c.rating == 5.0 && c.reviewCount >= 50
    ensures MatchScore(c, crit) == 100
  {
    assert BudgetPart(c, crit) == 25.0;
    assert SkillPart(c, crit.skills) == 40.0;
  }

  // ---- insights ----

  /** A requested skill that some consultant skill contains (one direction only). */
  function SkillMatched(c: Consultant): string -> bool {
    s => exists j :: 0 <= j < |c.skills| && ContainsCI(c.skills[j], s)
  }

  /** The requested skills some consultant skill contains, in request order and with
      repeats kept: entry k is the request at the k-th matching position. */
  function MatchedSkills(c: Consultant, skills: seq<string>): (r: seq<string>)
    ensures |r| <= |skills|
    ensures forall i :: 0 <= i < |r| ==> r[i] in skills && exists j :: 0 <= j < |c.skills| && ContainsCI(c.skills[j], r[i])
    ensures forall i :: 0 <= i < |skills| && (exists j :: 0 <= j < |c.skills| && ContainsCI(c.skills[j], skills[i])) ==> skills[i] in r
    ensures |r| == |Positions(skills, SkillMatched(c))|
    ensures forall k :: 0 <= k < |r| ==> r[k] == skills[Positions(skills, SkillMatched(c))[k]]
  {
    FilterMembers(skills, SkillMatched(c));
    FilterPositions(skills, SkillMatched(c));
    Filter(skills, SkillMatched(c))
  }

  /** A consultant skill that contains none of the requested skills. */
  function NotRequested(skills: seq<string>): string -> bool {
    s => forall k :: 0 <= k < |skills| ==> !ContainsCI(s, skills[k])
  }

  /** The consultant's first three skills that contain no requested skill: as many of
      them as there are, up to three, in the consultant's order. */
  function AdditionalSkills(c: Consultant, skills: seq<string>): (r: seq<string>)
    ensures |r| == MinInt(3, Count(c.skills, NotRequested(skills)))
    ensures r == Filter(c.skills, NotRequested(skills))[..|r|]
    ensures forall i :: 0 <= i < |r| ==> r[i] in c.skills && forall k :: 0 <= k < |skills| ==> !ContainsCI(r[i], skills[k])
  {
    FilterMembers(c.skills, NotRequested(skills));
    Take(Filter(c.skills, NotRequested(skills)), 3)
  }

  /** The three templated match reasons, with the values they interpolate. */
  datatype MatchReason =
    | PerfectSkillMatch(name: string, matched: seq<string>)
    | StrongMatch(matched: seq<string>, required: nat)
    | ComplementarySkills

  function MatchReasonFor(c: Consultant, skills: seq<string>): (r: MatchReason)
    ensures r.PerfectSkillMatch? <==> |skills| > 0 && |MatchedSkills(c, skills)| == |skills|
    ensures r.PerfectSkillMatch? ==> r.name == c.name && r.matched == MatchedSkills(c, skills)
    ensures r.StrongMatch? <==> 0 < |MatchedSkills(c, skills)| < |skills|
    ensures r.StrongMatch? ==> r.matched == MatchedSkills(c, skills) && r.required == |skills|
    ensures r.ComplementarySkills? <==> |MatchedSkills(c, skills)| == 0
  {
    var matched := MatchedSkills(c, skills);
    if |matched| == |skills| && |skills| > 0 then PerfectSkillMatch(c.name, matched)
    else if |matched| > 0 then StrongMatch(matched, |skills|)
    else ComplementarySkills
  }

  datatype BudgetFit = WithinBudget | OverBudget(amount: real) | NoBudgetSpecified

  function BudgetFitFor(c: Consultant, crit: Criteria): (r: BudgetFit)
    ensures r == NoBudgetSpecified <==> !BudgetGiven(crit)
    ensures r == WithinBudget <==> BudgetGiven(crit) && c.hourlyRate <= crit.budget.value
    ensures r.OverBudget? ==> r.amount > 0.0 && c.hourlyRate == crit.budget.value + r.amount
  {
    if BudgetGiven(crit) then
      (if c.hourlyRate <= crit.budget.value then WithinBudget else OverBudget(c.hourlyRate - crit.budget.value))
    else NoBudgetSpecified
  }

  /** The recommendation tips, with the values they interpolate. */
  datatype Tip =
    | CurrentlyAvailable
    | WorkedInIndustries(name: string, industries: seq<string>)
    | PrefersArrangement(preference: string)
    | LocatedIn(location: string, timezone: string)
    | SpecializesIn(specialization: Option<string>)

  /** The candidate tips; the availability tip is put in front, matching case-sensitively. */
  function RecommendationTips(c: Consultant): (r: seq<Tip>)
    ensures |r| == (if Contains(c.availability, "Available") then 5 else 4)
    ensures r[0] == CurrentlyAvailable <==> Contains(c.availability, "Available")
    ensures var o := |r| - 4;
      && r[o] == WorkedInIndustries(c.name, c.industries)
      && r[o + 1] == PrefersArrangement(Lower(c.workPreference))
      && r[o + 2] == LocatedIn(c.location, c.timezone)
      && r[o + 3] == SpecializesIn(if |c.specializations| > 0 then Some(c.specializations[0]) else None)
  {
    var tips := [
      WorkedInIndustries(c.name, c.industries),
      PrefersArrangement(Lower(c.workPreference)),
      LocatedIn(c.location, c.timezone),
      SpecializesIn(if |c.specializations| > 0 then Some(c.specializations[0]) else None)
    ];
    if Contains(c.availability, "Available") then [CurrentlyAvailable] + tips else tips
  }

  /** The tip drawn at random; `draw` stands for `Math.floor(Math.random() * tips.length)`. */
  function RecommendationTip(c: Consultant, draw: nat): (r: Tip)
    ensures r in RecommendationTips(c)
  {
    var tips := RecommendationTips(c);
    tips[draw % |tips|]
  }

  datatype Insights = Insights(
    matchReason: MatchReason,
    budgetFit: BudgetFit,
    additionalSkills: seq<string>,
    strengthAreas: seq<string>,
    yearsExperience: nat,
    rating: real,
    recommendationTip: Tip)

  function ConsultantInsights(c: Consultant, crit: Criteria, draw: nat): (r: Insights)
    ensures |r.additionalSkills| <= 3 && |r.strengthAreas| <= 3 && |r.strengthAreas| <= |c.specializations|
    ensures r.strengthAreas == c.specializations[..|r.strengthAreas|]
    ensures r.budgetFit == WithinBudget <==> BudgetGiven(crit) && c.hourlyRate <= crit.budget.value
    ensures r.recommendationTip in RecommendationTips(c)
    ensures r.matchReason == MatchReasonFor(c, crit.skills)
    ensures r.budgetFit == BudgetFitFor(c, crit)
    ensures r.additionalSkills == AdditionalSkills(c, crit.skills)
    ensures |r.strengthAreas| == MinInt(3, |c.specializations|)
    ensures r.yearsExperience == c.yearsExperience && r.rating == c.rating
    ensures r.recommendationTip == RecommendationTip(c, draw)
  {
    Insights(MatchReasonFor(c, crit.skills), BudgetFitFor(c, crit), AdditionalSkills(c, crit.skills),
      Take(c.specializations, 3), c.yearsExperience, c.rating, RecommendationTip(c, draw))
  }

  // ---- search ----

  datatype ConsultantMatch = ConsultantMatch(consultant: Consultant, insights: Insights)

  /** Insights of `c` for some draw: every field is the one computed for `c`, and the
      tip is one of its candidates. */
  predicate InsightsOf(c: Consultant, crit: Criteria, ins: Insights) {
    && ins.matchReason == MatchReasonFor(c, crit.skills)
    && ins.budgetFit == BudgetFitFor(c, crit)
    && ins.additionalSkills == AdditionalSkills(c, crit.skills)
    && ins.strengthAreas == Take(c.specializations, 3)
    && ins.yearsExperience == c.yearsExperience && ins.rating == c.rating
    && ins.recommendationTip in RecommendationTips(c)
  }

  /** The draw used for the tip of the `i`-th result. */
  function DrawAt(draws: seq<nat>, i: nat): nat {
    if i < |draws| then draws[i] else 0
  }

  /** Each consultant paired with its insights and scored by its match score. */
  function Enhance(results: seq<Consultant>, crit: Criteria, draws: seq<nat>): (r: seq<Scored<ConsultantMatch>>)
    ensures |r| == |results|
    ensures forall i :: 0 <= i < |r| ==> r[i].item.consultant == results[i] && r[i].score == MatchScore(results[i], crit)
    ensures forall i :: 0 <= i < |r| ==> r[i].item.insights == ConsultantInsights(results[i], crit, DrawAt(draws, i))
  {
    seq(|results|, i requires 0 <= i < |results| =>
      Scored(ConsultantMatch(results[i], ConsultantInsights(results[i], crit, DrawAt(draws, i))), MatchScore(results[i], crit)))
  }

  /** The consultants of `db` with equal match scores keep their order in `db`. */
  lemma SearchTiesKeepDatabaseOrder(db: seq<Consultant>, crit: Criteria, draws: seq<nat>, k: int)
    ensures WithScore(SortDesc(Enhance(Matching(db, crit), crit, draws)), k) == WithScore(Enhance(Matching(db, crit), crit, draws), k)
  {
    SortDescCorrect(Enhance(Matching(db, crit), crit, draws));
  }

  /** Every element of a permutation of `e` is an element of `e`. */
  lemma PermutationMembers(r: seq<Scored<ConsultantMatch>>, e: seq<Scored<ConsultantMatch>>, i: int)
    requires multiset(r) == multiset(e) && 0 <= i < |r|
    ensures exists k :: 0 <= k < |e| && e[k] == r[i]
  {
    assert r[i] in multiset(e);
  }

  /** Every consultant of `db` passing all active filters is among the sorted results. */
  lemma SearchComplete(db: seq<Consultant>, crit: Criteria, draws: seq<nat>, c: Consultant)
    requires c in db && PassesFilters(c, crit)
    ensures exists i :: (0 <= i < |SortDesc(Enhance(Matching(db, crit), crit, draws))|
      && SortDesc(Enhance(Matching(db, crit), crit, draws))[i].item.consultant == c)
  {
    var e := Enhance(Matching(db, crit), crit, draws);
    SortDescCorrect(e);
    var m := Matching(db, crit);
    var k :| 0 <= k < |m| && m[k] == c;
    PermutationMembers(e, SortDesc(e), k);
  }

  function FindById(s: seq<Consultant>, id: string): (r: Option<Consultant>)
    ensures r.None? <==> forall i :: 0 <= i < |s| ==> s[i].id != id
    ensures r.Some? ==> exists i :: (0 <= i < |s| && s[i] == r.value && r.value.id == id
      && forall j :: 0 <= j < i ==> s[j].id != id)
  {
    if s == [] then None
    else if s[0].id == id then Some(s[0])
    else
      var rest := FindById(s[1..], id);
      assert forall i :: 0 <= i < |s[1..]| ==> s[1..][i] == s[i + 1];
      rest
  }

  /** The skills of all categories, category after category (duplicates kept). */
  function AllSkills(categories: seq<(string, seq<string>)>): (r: seq<string>)
    ensures forall k, i :: 0 <= k < |categories| && 0 <= i < |categories[k].1| ==> categories[k].1[i] in r
    ensures forall i :: 0 <= i < |r| ==> exists k :: 0 <= k < |categories| && r[i] in categories[k].1
    ensures categories != [] ==> categories[0].1 <= r
    ensures |categories| == 1 ==> r == categories[0].1
  {
    Flatten(SkillLists(categories))
  }

  /** The skill list of each category. */
  function SkillLists(categories: seq<(string, seq<string>)>): (r: seq<seq<string>>)
    ensures |r| == |categories| && forall k :: 0 <= k < |categories| ==> r[k] == categories[k].1
  {
    seq(|categories|, k requires 0 <= k < |categories| => categories[k].1)
  }

  /** The skills of two category tables one after the other are the skills of the
      first followed by those of the second: the category order is kept. */
  lemma AllSkillsAppend(a: seq<(string, seq<string>)>, b: seq<(string, seq<string>)>)
    ensures AllSkills(a + b) == AllSkills(a) + AllSkills(b)
  {
    assert SkillLists(a + b) == SkillLists(a) + SkillLists(b);
    FlattenAppend(SkillLists(a), SkillLists(b));
  }

  /** The matcher with its database and category table, fixed at construction. */
  class ConsultantMatcher {
    const database: seq<Consultant>
    const skillCategories: seq<(string, seq<string>)>

    constructor()
      ensures database == Database && skillCategories == SkillCategories
    {
      database := Database;
      skillCategories := SkillCategories;
    }

    /** The filtering half of `searchConsultants`: the database narrowed by each
        active filter in turn. */
    method FilterDatabase(crit: Criteria) returns (results: seq<Consultant>)
      ensures results == Matching(database, crit)
    {
      results := database;
      results := ApplyFilter(results, crit, BySkills);
      assert results == Narrowed(database, crit, 1);
      results := ApplyFilter(results, crit, ByBudget);
      assert results == Narrowed(database, crit, 2);
      results := ApplyFilter(results, crit, ByAvailability);
      assert results == Narrowed(database, crit, 3);
      results := ApplyFilter(results, crit, ByLocation);
      assert results == Narrowed(database, crit, 4);
      results := ApplyFilter(results, crit, ByProjectType);
      assert results == Narrowed(database, crit, 5);
      results := ApplyFilter(results, crit, ByExperience);
      assert results == Narrowed(database, crit, 6);
      results := ApplyFilter(results, crit, ByRating);
      assert results == Narrowed(database, crit, 7);
      NarrowedAll(database, crit);
    }

    /** One `if (criteria.x) results = results.filter(...)` of `searchConsultants`. */
    method ApplyFilter(results: seq<Consultant>, crit: Criteria, st: Stage) returns (r: seq<Consultant>)
      ensures r == Step(results, crit, st)
      ensures |r| <= |results|
    {
      r := results;
      if Active(crit, st) {
        r := Filter(r, TestOf(crit, st));
      }
    }

    /** `searchConsultants`: the filtered consultants enhanced and sorted by descending
        match score. `draws` stands for the random tip choices. */
    method SearchConsultants(crit: Criteria, draws: seq<nat>) returns (r: seq<Scored<ConsultantMatch>>)
      ensures r == SortDesc(Enhance(Matching(database, crit), crit, draws))
      ensures forall i :: 0 <= i < |r| ==> r[i].item.consultant in database && PassesFilters(r[i].item.consultant, crit)
      ensures forall i :: 0 <= i < |r| ==> r[i].score == MatchScore(r[i].item.consultant, crit)
      ensures forall i :: 0 <= i < |r| ==> InsightsOf(r[i].item.consultant, crit, r[i].item.insights)
      ensures SortedDesc(r)
      ensures multiset(r) == multiset(Enhance(Matching(database, crit), crit, draws))
    {
      var results := FilterDatabase(crit);
      var enhanced := Enhance(results, crit, draws);
      r := SortDesc(enhanced);
      SortDescCorrect(enhanced);
      forall i | 0 <= i < |r|
        ensures r[i].item.consultant in database && PassesFilters(r[i].item.consultant, crit)
        ensures r[i].score == MatchScore(r[i].item.consultant, crit)
        ensures InsightsOf(r[i].item.consultant, crit, r[i].item.insights)
      {
        PermutationMembers(r, enhanced, i);
      }
    }

    /** `getConsultantById`: the first record with that id, or the "Consultant not found" error. */
    function GetConsultantById(id: string): (r: Result<Consultant>)
      ensures r.Ok? ==> r.value in database && r.value.id == id
      ensures r.Err? <==> forall i :: 0 <= i < |database| ==> database[i].id != id
      ensures r.Err? ==> r.message == "Consultant not found"
    {
      match FindById(database, id)
      case Some(c) => Ok(c)
      case None => Err("Consultant not found")
    }

    /** The `filter` test of `getSkillSuggestions`. */
    function MatchesQuery(query: string): string -> bool {
      s => ContainsCI(s, query)
    }

    /** `getSkillSuggestions`: the first ten category skills containing the query,
        ignoring case; an empty query short-cuts to the first ten skills. */
    function SkillSuggestions(query: string): (r: seq<string>)
      ensures |r| <= 10 && |r| <= |Filter(AllSkills(skillCategories), MatchesQuery(query))|
      ensures forall i :: 0 <= i < |r| ==> r[i] in AllSkills(skillCategories) && ContainsCI(r[i], query)
      ensures r == Filter(AllSkills(skillCategories), MatchesQuery(query))[..|r|]
    {
      var all, matches := AllSkills(skillCategories), MatchesQuery(query);
      FilterMembers(all, matches);
      if query == "" then
        assert forall i :: 0 <= i < |all| ==> matches(all[i]) by {
          forall i | 0 <= i < |all| ensures ContainsCI(all[i], query) { ContainsEmpty(Lower(all[i])); }
        }
        FilterAll(all, matches);
        Take(all, 10)
      else
        Take(Filter(all, matches), 10)
    }

    /** The short-cut for the empty query agrees with the general case: every skill
        contains the empty string, so filtering would keep the whole table. */
    lemma EmptyQueryShortCut()
      ensures SkillSuggestions("") == Take(Filter(AllSkills(skillCategories), MatchesQuery("")), 10)
    {
      var all := AllSkills(skillCategories);
      forall i | 0 <= i < |all| ensures ContainsCI(all[i], "") { ContainsEmpty(Lower(all[i])); }
      FilterAll(all, MatchesQuery(""));
    }

    /** The suggestions are as many as there are matching skills, up to ten. */
    lemma SuggestionCount(query: string)
      ensures |SkillSuggestions(query)| == if Count(AllSkills(skillCategories), MatchesQuery(query)) < 10
        then Count(AllSkills(skillCategories), MatchesQuery(query)) else 10
    {
      var all := AllSkills(skillCategories);
      if query == "" {
        forall i | 0 <= i < |all| ensures ContainsCI(all[i], query) { ContainsEmpty(Lower(all[i])); }
        FilterAll(all, MatchesQuery(query));
      }
    }
  }
}
