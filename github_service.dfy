/** The GitHub project matcher: search queries built from the user's skills, a quality
    filter over the returned repository records, the project record derived from each
    repository (technologies, difficulty, time estimate, category, features, maintainer
    reputation), a 0..100 match score with insights, and the de-duplicate, sort and
    truncate pipeline of a search. The HTTP requests are a function parameter. */
module GitHub {
  import opened Wrappers
  import opened Text
  import opened Lists
  import opened Ranking
  import opened Numbers

  datatype License = License(key: string, name: string)
  datatype Owner = Owner(login: string, followers: nat, publicRepos: nat)

  /** A repository record as the search API returns it. An empty string stands for a
      missing description or language and an empty list for missing topics: the code
      only tests them for truthiness. `updatedAt` is a timestamp. */
  datatype Repo = Repo(
    id: int,
    name: string,
    description: string,
    language: string,
    topics: seq<string>,
    stars: nat,
    forks: nat,
    openIssues: nat,
    size: nat,
    watchers: nat,
    license: Option<License>,
    archived: bool,
    updatedAt: int,
    hasIssues: bool,
    hasWiki: bool,
    hasProjects: bool,
    owner: Owner)

  datatype Difficulty = Beginner | Intermediate | Advanced {
    /** The value of the `experienceLevels` table for this difficulty's name. */
    function Level(): int {
      match this
      case Beginner => 1
      case Intermediate => 2
      case Advanced => 3
    }
  }

  datatype TimeEstimate = OneToTwoWeeks | TwoToFourWeeks | OneToTwoMonths | OverTwoMonths

  datatype Feature = IssueTracking | Documentation | ProjectManagement | ActiveDevelopment | WellTagged | Licensed

  datatype Maintainer = Maintainer(name: string, reputation: real)

  /** The project record a repository is transformed into (the URL, avatar and date
      fields, which no operation reads, are omitted). */
  datatype Project = Project(
    id: int,
    title: string,
    description: string,
    technologies: seq<string>,
    difficulty: Difficulty,
    contributors: nat,
    stars: nat,
    forks: nat,
    estimatedTime: TimeEstimate,
    category: string,
    language: string,
    hasIssues: bool,
    openIssues: nat,
    license: string,
    maintainer: Maintainer,
    features: seq<Feature>,
    isArchived: bool,
    size: nat,
    topics: seq<string>)

  /** Technology names and the keywords that reveal them, in declaration order. */
  const TechStackKeywords: seq<(string, seq<string>)> := [
    ("React", ["react", "jsx", "create-react-app", "next.js", "gatsby"]),
    ("Vue.js", ["vue", "vuejs", "nuxt", "vue-cli"]),
    ("Angular", ["angular", "typescript", "ng", "angular-cli"]),
    ("Node.js", ["node", "nodejs", "express", "fastify", "koa"]),
    ("Python", ["python", "django", "flask", "fastapi", "pandas"]),
    ("JavaScript", ["javascript", "js", "es6", "typescript"]),
    ("TypeScript", ["typescript", "ts", "type-definitions"]),
    ("Go", ["golang", "go", "gin", "fiber"]),
    ("Rust", ["rust", "cargo", "actix", "tokio"]),
    ("Java", ["java", "spring", "maven", "gradle"]),
    ("C++", ["cpp", "c++", "cmake"]),
    ("Swift", ["swift", "ios", "swiftui"]),
    ("Kotlin", ["kotlin", "android"]),
    ("PHP", ["php", "laravel", "symfony"]),
    ("Ruby", ["ruby", "rails", "sinatra"]),
    ("C#", ["csharp", "dotnet", "asp.net"]),
    ("Solidity", ["solidity", "ethereum", "web3", "smart-contracts"]),
    ("Docker", ["docker", "dockerfile", "containers"]),
    ("Kubernetes", ["kubernetes", "k8s", "helm"]),
    ("GraphQL", ["graphql", "apollo", "relay"]),
    ("MongoDB", ["mongodb", "mongoose"]),
    ("PostgreSQL", ["postgresql", "postgres"]),
    ("Redis", ["redis", "cache"]),
    ("AWS", ["aws", "amazon-web-services", "lambda"]),
    ("Firebase", ["firebase", "firestore"]),
    ("Machine Learning", ["machine-learning", "ml", "tensorflow", "pytorch", "scikit-learn"]),
    ("Data Science", ["data-science", "pandas", "numpy", "jupyter"]),
    ("Blockchain", ["blockchain", "cryptocurrency", "bitcoin", "ethereum", "defi"]),
    ("Mobile", ["mobile", "react-native", "flutter", "ionic"]),
    ("Game Development", ["game", "unity", "unreal", "godot"]),
    ("DevOps", ["devops", "ci-cd", "jenkins", "github-actions"]),
    ("Security", ["security", "cybersecurity", "encryption", "auth"]),
    ("API", ["api", "rest", "graphql", "microservices"]),
    ("Frontend", ["frontend", "ui", "ux", "css", "html"]),
    ("Backend", ["backend", "server", "database", "api"]),
    ("Full Stack", ["fullstack", "full-stack", "mern", "mean"]),
    ("Open Source", ["open-source", "oss", "community"]),
    ("Education", ["education", "learning", "tutorial", "course"]),
    ("Healthcare", ["healthcare", "medical", "health", "telemedicine"]),
    ("Finance", ["finance", "fintech", "banking", "trading"]),
    ("E-commerce", ["ecommerce", "e-commerce", "shopping", "store"]),
    ("Social", ["social", "chat", "messaging", "community"]),
    ("Productivity", ["productivity", "tools", "automation", "workflow"]),
    ("Entertainment", ["entertainment", "media", "streaming", "music"]),
    ("IoT", ["iot", "internet-of-things", "sensors", "embedded"]),
    ("AR/VR", ["ar", "vr", "augmented-reality", "virtual-reality"]),
    ("Climate", ["climate", "environment", "sustainability", "green"])
  ]

  /** The project categories and their keywords, in the order they are tried. */
  const ProjectCategories: seq<(string, seq<string>)> := [
    ("Web Development", ["web", "frontend", "backend", "fullstack", "website", "app"]),
    ("Mobile Development", ["mobile", "android", "ios", "react-native", "flutter"]),
    ("Machine Learning", ["ml", "ai", "machine-learning", "tensorflow", "pytorch", "data"]),
    ("Blockchain", ["blockchain", "crypto", "ethereum", "bitcoin", "web3", "defi"]),
    ("DevOps", ["devops", "docker", "kubernetes", "ci", "cd", "deployment"]),
    ("Game Development", ["game", "gaming", "unity", "unreal", "godot"]),
    ("Data Science", ["data-science", "analytics", "visualization", "pandas", "jupyter"]),
    ("Security", ["security", "cybersecurity", "encryption", "auth", "vulnerability"]),
    ("Education", ["education", "learning", "tutorial", "course", "teaching"]),
    ("Open Source Tools", ["tool", "utility", "cli", "library", "framework"]),
    ("Social Impact", ["social", "community", "nonprofit", "charity", "volunteer"]),
    ("Healthcare", ["health", "medical", "healthcare", "medicine", "patient"]),
    ("Finance", ["finance", "fintech", "trading", "banking", "payment"]),
    ("E-commerce", ["ecommerce", "shop", "store", "marketplace", "retail"]),
    ("Entertainment", ["entertainment", "media", "music", "video", "streaming"])
  ]

  const TopCategories: seq<string> := ["react", "vue", "angular", "node", "python", "machine-learning", "blockchain", "kubernetes"]

  const OpenSourceLicenses: seq<string> := ["mit", "apache-2.0", "bsd-3-clause", "bsd-2-clause", "gpl-3.0", "lgpl-3.0"]

  // ---- search queries ----

  /** The six kinds of search the service issues; `Params` renders each to the
      search string and paging options sent to the API. */
  datatype Query =
    | StarredQuery(keyword: string)
    | ActiveQuery(keyword: string, language: string)
    | TrendingQuery
    | HighlyStarredQuery
    | ExperienceQuery(userExperience: string)
    | CategoryQuery(category: string)

  datatype SearchParams = SearchParams(q: string, sort: string, order: string, perPage: nat)

  /** The keyword list of the first table entry named `skill`, if any. */
  function LookupKeywords(table: seq<(string, seq<string>)>, skill: string): (r: Option<seq<string>>)
    ensures r.None? <==> forall k :: 0 <= k < |table| ==> table[k].0 != skill
    ensures r.Some? ==> exists k :: 0 <= k < |table| && table[k] == (skill, r.value)
  {
    if table == [] then None
    else if table[0].0 == skill then Some(table[0].1)
    else
      var rest := LookupKeywords(table[1..], skill);
      assert forall k :: 1 <= k < |table| ==> table[k] == table[1..][k - 1];
      rest
  }

  /** The first keyword of the skill's table entry, or the lower-cased skill when it has
      none (an entry with no keywords interpolates as `undefined`). */
  function PrimaryKeyword(table: seq<(string, seq<string>)>, skill: string): string {
    match LookupKeywords(table, skill)
    case Some(keywords) => if |keywords| > 0 then keywords[0] else "undefined"
    case None => Lower(skill)
  }

  /** The language qualifiers of `getLanguageForSkill`. */
  const LanguageMap: map<string, string> := map[
    "JavaScript" := "javascript", "TypeScript" := "typescript", "Python" := "python",
    "Java" := "java", "Go" := "go", "Rust" := "rust", "C++" := "cpp", "C#" := "csharp",
    "PHP" := "php", "Ruby" := "ruby", "Swift" := "swift", "Kotlin" := "kotlin",
    "Solidity" := "solidity"]

  /** `getLanguageForSkill`: the listed qualifier, else the skill lower-cased; either
      way the qualifier has no upper-case letter. */
  function GetLanguageForSkill(skill: string): (r: string)
    ensures skill !in LanguageMap ==> r == Lower(skill)
    ensures NoUpper(r)
  {
    LowerHasNoUpper(skill);
    if skill in LanguageMap then LanguageMap[skill] else Lower(skill)
  }

  /** The request parameters of each query. */
  function Params(query: Query): SearchParams {
    match query
    case StarredQuery(keyword) =>
      SearchParams(keyword + " stars:>500 forks:>50 good-first-issues:>5 license:mit OR license:apache-2.0 OR license:bsd", "stars", "desc", 8)
    case ActiveQuery(keyword, language) =>
      SearchParams(keyword + " language:" + language + " stars:>100 pushed:>2024-01-01 contributors:>10", "updated", "desc", 6)
    case TrendingQuery =>
      SearchParams("stars:>1000 forks:>100 good-first-issues:>10 pushed:>2024-06-01 license:mit OR license:apache-2.0", "stars", "desc", 12)
    case HighlyStarredQuery =>
      SearchParams("stars:>2000 pushed:>2024-01-01 contributors:>20 topics:>3", "stars", "desc", 10)
    case ExperienceQuery(userExperience) =>
      if userExperience == "beginner" then
        SearchParams("stars:>200 good-first-issues:>10 help-wanted-issues:>5 beginner-friendly documentation", "stars", "desc", 15)
      else if userExperience == "advanced" then
        SearchParams("stars:>5000 contributors:>50 complex architecture enterprise", "stars", "desc", 8)
      else
        SearchParams("stars:>1000 good-first-issues:>3 contributors:>15 active-development", "stars", "desc", 10)
    case CategoryQuery(category) =>
      SearchParams(category + " stars:>1000 license:mit OR license:apache-2.0 pushed:>2024-01-01", "stars", "desc", 6)
  }

  // ---- quality filter and transformation ----

  function MinStars(userExperience: string): nat {
    if userExperience == "beginner" then 50 else if userExperience == "advanced" then 500 else 100
  }

  /** The quality filter, as its chain of early rejections; `oneYearAgo` is the
      timestamp one year before the present. */
  predicate KeepRepo(repo: Repo, userExperience: string, oneYearAgo: int) {
    if repo.stars < MinStars(userExperience) then false
    else if repo.license.None? || repo.license.value.key !in OpenSourceLicenses then false
    else if repo.archived then false
    else if repo.updatedAt < oneYearAgo then false
    else if repo.forks < 5 then false
    else true
  }

  /** A repository survives the filter exactly when all five conditions hold. */
  lemma KeepRepoIff(repo: Repo, userExperience: string, oneYearAgo: int)
    ensures KeepRepo(repo, userExperience, oneYearAgo) <==>
      && repo.stars >= MinStars(userExperience)
      && repo.license.Some? && repo.license.value.key in OpenSourceLicenses
      && !repo.archived
      && repo.updatedAt >= oneYearAgo
      && repo.forks >= 5
  {
  }

  /** Some keyword is contained in `text`, ignoring case. */
  predicate MentionsCI(text: string, keywords: seq<string>) {
    exists j :: 0 <= j < |keywords| && ContainsCI(text, keywords[j])
  }

  /** Some keyword is contained in `text`. */
  predicate Mentions(text: string, keywords: seq<string>) {
    exists j :: 0 <= j < |keywords| && Contains(text, keywords[j])
  }

  /** Entry `k` is the first table entry with a keyword in `text`. */
  predicate FirstMention(table: seq<(string, seq<string>)>, text: string, k: int) {
    && 0 <= k < |table|
    && Mentions(text, table[k].1)
    && forall i :: 0 <= i < k ==> !Mentions(text, table[i].1)
  }

  /** Appends `x` unless it is already present. */
  function AddNew(acc: seq<string>, x: string): (r: seq<string>)
    ensures Distinct(acc) ==> Distinct(r)
    ensures acc <= r && |r| <= |acc| + 1
    ensures x in r
    ensures forall y :: y in r ==> y in acc || y == x
  {
    if x in acc then acc else acc + [x]
  }

  /** Index of the first table entry having a keyword contained in `topic`, ignoring
      case; the table's length when there is none. */
  function FirstMentionCI(table: seq<(string, seq<string>)>, topic: string): (k: nat)
    ensures k <= |table|
    ensures forall i :: 0 <= i < k ==> !MentionsCI(topic, table[i].1)
    ensures k < |table| ==> MentionsCI(topic, table[k].1)
  {
    if table == [] then 0
    else if MentionsCI(topic, table[0].1) then 0
    else
      var rest := FirstMentionCI(table[1..], topic);
      assert forall i :: 1 <= i < |table| ==> table[i] == table[1..][i - 1];
      1 + rest
  }

  /** The first technology having a keyword contained in `topic`, ignoring case; none
      when no entry has such a keyword. */
  function TopicTechnology(table: seq<(string, seq<string>)>, topic: string): (r: Option<string>)
    ensures r.None? <==> forall k :: 0 <= k < |table| ==> !MentionsCI(topic, table[k].1)
    ensures r.Some? <==> FirstMentionCI(table, topic) < |table|
    ensures r.Some? ==> FirstMentionCI(table, topic) < |table| && r.value == table[FirstMentionCI(table, topic)].0
  {
    var k := FirstMentionCI(table, topic);
    if k == |table| then None else Some(table[k].0)
  }

  /** The technology each topic names, in topic order. */
  function TopicNames(table: seq<(string, seq<string>)>, topics: seq<string>): (r: seq<Option<string>>)
    ensures |r| == |topics|
    ensures forall i :: 0 <= i < |topics| ==> r[i] == TopicTechnology(table, topics[i])
  {
    seq(|topics|, i requires 0 <= i < |topics| => TopicTechnology(table, topics[i]))
  }

  /** Technologies after taking the first `n` names in order, starting from `acc`;
      a missing name adds nothing. */
  function AfterNames(acc: seq<string>, names: seq<Option<string>>, n: nat): (r: seq<string>)
    requires n <= |names|
    ensures Distinct(acc) ==> Distinct(r)
    ensures acc <= r
  {
    if n == 0 then acc
    else
      var prev := AfterNames(acc, names, n - 1);
      match names[n - 1]
      case Some(t) => AddNew(prev, t)
      case None => prev
  }

  /** Taking names adds only those names: every new entry is one of the first `n`. */
  lemma {:induction false} AfterNamesSound(acc: seq<string>, names: seq<Option<string>>, n: nat)
    requires n <= |names|
    ensures forall y :: y in AfterNames(acc, names, n) ==>
      y in acc || exists i :: 0 <= i < n && names[i] == Some(y)
  {
    if n > 0 {
      AfterNamesSound(acc, names, n - 1);
      var prev := AfterNames(acc, names, n - 1);
      match names[n - 1]
      case Some(t) =>
        assert AfterNames(acc, names, n) == AddNew(prev, t);
      case None =>
        assert AfterNames(acc, names, n) == prev;
    }
  }

  /** Taking one more name never drops an entry already collected. */
  lemma AfterNamesStep(acc: seq<string>, names: seq<Option<string>>, x: string, i: nat)
    requires i < |names|
    requires x in AfterNames(acc, names, i)
    ensures x in AfterNames(acc, names, i + 1)
  {
  }

  /** Taking names up to `n` keeps name `i`. */
  lemma {:induction false} AfterNamesHas(acc: seq<string>, names: seq<Option<string>>, i: nat, n: nat)
    requires i < n <= |names|
    requires names[i].Some?
    ensures names[i].value in AfterNames(acc, names, n)
    decreases n
  {
    if i < n - 1 {
      AfterNamesHas(acc, names, i, n - 1);
      AfterNamesStep(acc, names, names[i].value, n - 1);
    }
  }

  /** Technologies after scanning the first `n` topics in order, starting from `acc`. */
  function AfterTopics(table: seq<(string, seq<string>)>, acc: seq<string>, topics: seq<string>, n: nat): (r: seq<string>)
    requires n <= |topics|
    ensures Distinct(acc) ==> Distinct(r)
    ensures acc <= r
  {
    AfterNames(acc, TopicNames(table, topics), n)
  }

  /** Scanning one more topic adds the technology it names, unless already present. */
  lemma AfterTopicsNext(table: seq<(string, seq<string>)>, acc: seq<string>, topics: seq<string>, i: nat)
    requires i < |topics|
    ensures AfterTopics(table, acc, topics, i + 1) == if TopicTechnology(table, topics[i]).Some?
      then AddNew(AfterTopics(table, acc, topics, i), TopicTechnology(table, topics[i]).value)
      else AfterTopics(table, acc, topics, i)
  {
  }

  /** Checking one more table entry adds its key if the text mentions it and the key
      is new. */
  lemma AfterTextNext(table: seq<(string, seq<string>)>, acc: seq<string>, text: string, n: nat)
    requires n < |table|
    ensures AfterText(table, acc, text, n + 1) == if MentionsCI(text, table[n].1)
      then AddNew(AfterText(table, acc, text, n), table[n].0)
      else AfterText(table, acc, text, n)
  {
  }

  /** Scanning topics adds only technologies they name: every new entry is named by one
      of the scanned topics. */
  lemma AfterTopicsSound(table: seq<(string, seq<string>)>, acc: seq<string>, topics: seq<string>, n: nat)
    requires n <= |topics|
    ensures forall y :: y in AfterTopics(table, acc, topics, n) ==>
      y in acc || exists i :: 0 <= i < n && TopicTechnology(table, topics[i]) == Some(y)
  {
    AfterNamesSound(acc, TopicNames(table, topics), n);
  }

  /** Scanning topics misses no technology they name. */
  lemma AfterTopicsComplete(table: seq<(string, seq<string>)>, acc: seq<string>, topics: seq<string>, n: nat)
    requires n <= |topics|
    ensures forall i :: 0 <= i < n && TopicTechnology(table, topics[i]).Some? ==>
      TopicTechnology(table, topics[i]).value in AfterTopics(table, acc, topics, n)
  {
    var names := TopicNames(table, topics);
    forall i | 0 <= i < n && TopicTechnology(table, topics[i]).Some?
      ensures TopicTechnology(table, topics[i]).value in AfterTopics(table, acc, topics, n)
    {
      AfterNamesHas(acc, names, i, n);
    }
  }

  /** Technologies after checking the first `n` table entries against `text`. */
  function AfterText(table: seq<(string, seq<string>)>, acc: seq<string>, text: string, n: nat): (r: seq<string>)
    requires n <= |table|
    ensures Distinct(acc) ==> Distinct(r)
    ensures acc <= r
  {
    if n == 0 then acc
    else
      var prev := AfterText(table, acc, text, n - 1);
      if MentionsCI(text, table[n - 1].1) then AddNew(prev, table[n - 1].0)
      else prev
  }

  /** Checking the text adds exactly the keys of the scanned entries it mentions. */
  lemma {:induction false} AfterTextMembers(table: seq<(string, seq<string>)>, acc: seq<string>, text: string, n: nat)
    requires n <= |table|
    ensures forall y :: y in AfterText(table, acc, text, n) ==>
      y in acc || exists k :: 0 <= k < n && table[k].0 == y && MentionsCI(text, table[k].1)
    ensures forall k :: 0 <= k < n && MentionsCI(text, table[k].1) ==> table[k].0 in AfterText(table, acc, text, n)
  {
    if n > 0 {
      AfterTextMembers(table, acc, text, n - 1);
      AfterTextNext(table, acc, text, n - 1);
    }
  }

  function InitialTechnologies(repo: Repo): seq<string> {
    if repo.language != "" then [repo.language] else []
  }

  function DescriptionText(repo: Repo): string {
    repo.name + " " + repo.description
  }

  /** All technologies of a repository before the cut to six: the primary language,
      then the technologies its topics reveal, then those its name or description
      mention, each once; exactly these and no others. */
  function Technologies(table: seq<(string, seq<string>)>, repo: Repo): (r: seq<string>)
    ensures Distinct(r)
    ensures repo.language != "" ==> |r| > 0 && r[0] == repo.language
    ensures forall y :: y in r <==>
      || (repo.language != "" && y == repo.language)
      || (exists i :: 0 <= i < |repo.topics| && TopicTechnology(table, repo.topics[i]) == Some(y))
      || (exists k :: 0 <= k < |table| && table[k].0 == y && MentionsCI(DescriptionText(repo), table[k].1))
  {
    var scanned := AfterTopics(table, InitialTechnologies(repo), repo.topics, |repo.topics|);
    AfterTopicsSound(table, InitialTechnologies(repo), repo.topics, |repo.topics|);
    AfterTopicsComplete(table, InitialTechnologies(repo), repo.topics, |repo.topics|);
    AfterTextMembers(table, scanned, DescriptionText(repo), |table|);
    AfterText(table, scanned, DescriptionText(repo), |table|)
  }

  /** The technologies are the topic scan followed by the text scan. */
  lemma TechnologiesScan(table: seq<(string, seq<string>)>, repo: Repo)
    ensures Technologies(table, repo)
      == AfterText(table, AfterTopics(table, InitialTechnologies(repo), repo.topics, |repo.topics|), DescriptionText(repo), |table|)
  {
  }

  /** The first six technologies are still distinct and still led by the language. */
  lemma TopTechnologies(table: seq<(string, seq<string>)>, repo: Repo)
    ensures Distinct(Take(Technologies(table, repo), 6))
    ensures repo.language != "" ==> |Take(Technologies(table, repo), 6)| > 0 && Take(Technologies(table, repo), 6)[0] == repo.language
    ensures forall t :: t in Take(Technologies(table, repo), 6) ==> t in Technologies(table, repo)
  {
    var all := Technologies(table, repo);
    var top := Take(all, 6);
    assert forall i :: 0 <= i < |top| ==> top[i] == all[i];
  }

  /** `calculateDifficulty`'s complexity sum: each metric's share, capped. */
  function ComplexityScore(repo: Repo): real {
    MinReal((repo.stars as real) / 100.0, 10.0)
      + MinReal((repo.forks as real) / 50.0, 5.0)
      + MinReal((repo.size as real) / 1000.0, 5.0)
      + MinReal((repo.openIssues as real) / 20.0, 3.0)
  }

  function DifficultyOf(repo: Repo): (r: Difficulty)
    ensures r == Beginner <==> ComplexityScore(repo) < 5.0
    ensures r == Advanced <==> ComplexityScore(repo) >= 12.0
  {
    var score := ComplexityScore(repo);
    if score < 5.0 then Beginner else if score < 12.0 then Intermediate else Advanced
  }

  /** A repository that is no smaller in stars, forks, size and open issues is no
      easier. */
  lemma DifficultyMonotone(a: Repo, b: Repo)
    requires a.stars <= b.stars && a.forks <= b.forks && a.size <= b.size && a.openIssues <= b.openIssues
    ensures DifficultyOf(a).Level() <= DifficultyOf(b).Level()
  {
    assert ComplexityScore(a) <= ComplexityScore(b);
  }

  function TimeRank(t: TimeEstimate): nat {
    match t
    case OneToTwoWeeks => 0
    case TwoToFourWeeks => 1
    case OneToTwoMonths => 2
    case OverTwoMonths => 3
  }

  function EstimateProjectTime(repo: Repo): (r: TimeEstimate)
    ensures r == OneToTwoWeeks <==> repo.size < 1000 && repo.stars < 100
    ensures r == TwoToFourWeeks <==> !(repo.size < 1000 && repo.stars < 100) && repo.size < 5000 && repo.stars < 500
    ensures r == OverTwoMonths <==> repo.size >= 20000 || repo.stars >= 2000
  {
    if repo.size < 1000 && repo.stars < 100 then OneToTwoWeeks
    else if repo.size < 5000 && repo.stars < 500 then TwoToFourWeeks
    else if repo.size < 20000 && repo.stars < 2000 then OneToTwoMonths
    else OverTwoMonths
  }

  /** A repository no smaller in size and stars never gets a shorter estimate. */
  lemma EstimateMonotone(a: Repo, b: Repo)
    requires a.size <= b.size && a.stars <= b.stars
    ensures TimeRank(EstimateProjectTime(a)) <= TimeRank(EstimateProjectTime(b))
  {
  }

  /** Index of the first table entry having a keyword contained in `text`. */
  function FirstCategory(table: seq<(string, seq<string>)>, text: string): (r: Option<nat>)
    ensures r.Some? ==> FirstMention(table, text, r.value)
    ensures r.None? ==> forall k :: 0 <= k < |table| ==> !Mentions(text, table[k].1)
  {
    if table == [] then None
    else if Mentions(text, table[0].1) then Some(0)
    else
      var rest := FirstCategory(table[1..], text);
      assert forall k :: 1 <= k < |table| ==> table[k] == table[1..][k - 1];
      match rest
      case Some(k) => Some(k + 1)
      case None => None
  }

  /** The category of the first matching entry, or `fallback` when no entry matches. */
  function CategoryOf(table: seq<(string, seq<string>)>, text: string, fallback: string): (r: string)
    ensures (forall k :: 0 <= k < |table| ==> !Mentions(text, table[k].1)) ==> r == fallback
    ensures r != fallback ==> exists k :: FirstMention(table, text, k) && table[k].0 == r
    ensures forall k :: FirstMention(table, text, k) ==> r == table[k].0
  {
    match FirstCategory(table, text)
    case Some(k) => table[k].0
    case None => fallback
  }

  /** The text `categorizeProject` searches: the name, description and topics,
      lower-cased. */
  function CategoryText(repo: Repo): string {
    Lower(repo.name + " " + repo.description + " " + Join(repo.topics, ' '))
  }

  /** `categorizeProject`: the first category, in table order, with a keyword in the
      category text; "General Development" when there is none. */
  function CategorizeProject(categories: seq<(string, seq<string>)>, repo: Repo): (r: string)
    ensures (forall k :: 0 <= k < |categories| ==> !Mentions(CategoryText(repo), categories[k].1)) ==> r == "General Development"
    ensures forall k :: FirstMention(categories, CategoryText(repo), k) ==> r == categories[k].0
    ensures r == "General Development" || exists k :: FirstMention(categories, CategoryText(repo), k) && r == categories[k].0
  {
    CategoryOf(categories, CategoryText(repo), "General Development")
  }

  /** `extractFeatures`: each feature is listed exactly when its flag holds, in a fixed order. */
  function ExtractFeatures(repo: Repo): (r: seq<Feature>)
    ensures |r| <= 6 && Distinct(r)
    ensures IssueTracking in r <==> repo.hasIssues
    ensures Documentation in r <==> repo.hasWiki
    ensures ProjectManagement in r <==> repo.hasProjects
    ensures ActiveDevelopment in r <==> repo.openIssues > 0
    ensures WellTagged in r <==> |repo.topics| > 0
    ensures Licensed in r <==> repo.license.Some?
  {
    var issues := PushIf([], repo.hasIssues, IssueTracking);
    var wiki := PushIf(issues, repo.hasWiki, Documentation);
    var projects := PushIf(wiki, repo.hasProjects, ProjectManagement);
    var active := PushIf(projects, repo.openIssues > 0, ActiveDevelopment);
    var tagged := PushIf(active, |repo.topics| > 0, WellTagged);
    PushIf(tagged, repo.license.Some?, Licensed)
  }

  /** The unrounded reputation: a base of 3, one point per hundred followers up to 1.5
      and one per fifty public repositories up to 0.5. */
  function ReputationScore(owner: Owner): real {
    3.0 + MinReal((owner.followers as real) / 100.0, 1.5) + MinReal((owner.publicRepos as real) / 50.0, 0.5)
  }

  /** `calculateMaintainerReputation`: the score rounded to one decimal, so within 0.05
      of it; the boosts are full from 150 followers and 25 repositories on. */
  function MaintainerReputation(owner: Owner): (r: real)
    ensures 3.0 <= r <= 5.0
    ensures ReputationScore(owner) - 0.05 < r <= ReputationScore(owner) + 0.05
    ensures (r * 10.0).Floor as real == r * 10.0
    ensures owner.followers >= 150 && owner.publicRepos >= 25 ==> r == 5.0
    ensures owner.followers == 0 && owner.publicRepos == 0 ==> r == 3.0
  {
    var score := ReputationScore(owner);
    var tenths := Round(score * 10.0);
    assert 30 <= tenths <= 50;
    MinReal(5.0, (tenths as real) / 10.0)
  }

  function LicenseName(repo: Repo): string {
    if repo.license.Some? && repo.license.value.name != "" then repo.license.value.name else "No license"
  }

  function Keeps(userExperience: string, oneYearAgo: int): Repo -> bool {
    repo => KeepRepo(repo, userExperience, oneYearAgo)
  }

  /** The project record of one repository. */
  function ToProject(table: seq<(string, seq<string>)>, categories: seq<(string, seq<string>)>, repo: Repo): (p: Project)
    ensures p.id == repo.id && p.title == repo.name && p.stars == repo.stars && p.forks == repo.forks
    ensures p.description != "" && (repo.description != "" ==> p.description == repo.description)
    ensures |p.technologies| <= 6 && Distinct(p.technologies)
    ensures forall t :: t in p.technologies ==> t in Technologies(table, repo)
    ensures repo.language != "" ==> |p.technologies| > 0 && p.technologies[0] == repo.language
    ensures 3.0 <= p.maintainer.reputation <= 5.0
    ensures p.category == "General Development" || exists k :: FirstMention(categories, CategoryText(repo), k) && p.category == categories[k].0
  {
    TopTechnologies(table, repo);
    Project(
      repo.id,
      repo.name,
      if repo.description != "" then repo.description else "No description available",
      Take(Technologies(table, repo), 6),
      DifficultyOf(repo),
      repo.watchers,
      repo.stars,
      repo.forks,
      EstimateProjectTime(repo),
      CategorizeProject(categories, repo),
      repo.language,
      repo.hasIssues,
      repo.openIssues,
      LicenseName(repo),
      Maintainer(repo.owner.login, MaintainerReputation(repo.owner)),
      ExtractFeatures(repo),
      repo.archived,
      repo.size,
      repo.topics)
  }

  function ProjectOf(table: seq<(string, seq<string>)>, categories: seq<(string, seq<string>)>): Repo -> Project {
    repo => ToProject(table, categories, repo)
  }

  /** `transformGitHubProjects`: the repositories passing the quality filter, in order,
      each transformed. */
  function TransformGitHubProjects(table: seq<(string, seq<string>)>, categories: seq<(string, seq<string>)>, repos: seq<Repo>, userExperience: string, oneYearAgo: int): (r: seq<Project>)
    ensures |r| == Count(repos, Keeps(userExperience, oneYearAgo))
  {
    Map(Filter(repos, Keeps(userExperience, oneYearAgo)), ProjectOf(table, categories))
  }

  /** The transformed list holds the project of every repository that passes the
      quality filter, and only such projects. */
  lemma TransformMembers(table: seq<(string, seq<string>)>, categories: seq<(string, seq<string>)>, repos: seq<Repo>, userExperience: string, oneYearAgo: int)
    ensures forall i :: 0 <= i < |TransformGitHubProjects(table, categories, repos, userExperience, oneYearAgo)| ==>
      exists repo :: repo in repos && KeepRepo(repo, userExperience, oneYearAgo)
        && TransformGitHubProjects(table, categories, repos, userExperience, oneYearAgo)[i] == ToProject(table, categories, repo)
    ensures forall j :: 0 <= j < |repos| && KeepRepo(repos[j], userExperience, oneYearAgo) ==>
      ToProject(table, categories, repos[j]) in TransformGitHubProjects(table, categories, repos, userExperience, oneYearAgo)
  {
    var kept := Filter(repos, Keeps(userExperience, oneYearAgo));
    var r := TransformGitHubProjects(table, categories, repos, userExperience, oneYearAgo);
    FilterMembers(repos, Keeps(userExperience, oneYearAgo));
    MapFilterComplete(repos, Keeps(userExperience, oneYearAgo), ProjectOf(table, categories));
    forall i | 0 <= i < |r|
      ensures exists repo :: repo in repos && KeepRepo(repo, userExperience, oneYearAgo) && r[i] == ToProject(table, categories, repo)
    {
      assert kept[i] in repos && KeepRepo(kept[i], userExperience, oneYearAgo) && r[i] == ToProject(table, categories, kept[i]);
    }
  }

  // ---- match score ----

  /** A technology is related to the user's skills when some skill contains it or it
      contains some skill, ignoring case. */
  predicate SkillRelated(tech: string, userSkills: seq<string>) {
    exists k :: 0 <= k < |userSkills| && (ContainsCI(userSkills[k], tech) || ContainsCI(tech, userSkills[k]))
  }

  /** The `experienceLevels` lookup with its default of 2. */
  function ExperienceLevel(userExperience: string): int {
    if userExperience == "beginner" then 1
    else if userExperience == "intermediate" then 2
    else if userExperience == "advanced" then 3
    else 2
  }

  /** Skill part (weight 35): the share of the project's technologies related to the
      user's skills. */
  function SkillScore(technologies: seq<string>, userSkills: seq<string>): (r: real)
    ensures 0.0 <= r <= 35.0
    ensures r == 35.0 <==> |technologies| > 0 && forall i :: 0 <= i < |technologies| ==> SkillRelated(technologies[i], userSkills)
    ensures r == 0.0 <==> forall i :: 0 <= i < |technologies| ==> !SkillRelated(technologies[i], userSkills)
    ensures |technologies| > 0 ==> r == 35.0 * Share(Count(technologies, RelatedTo(userSkills)), |technologies|)
  {
    var matched := Count(technologies, RelatedTo(userSkills));
    Share(matched, if |technologies| > 1 then |technologies| else 1) * 35.0
  }

  /** Experience part (weight 20): 20 less 6 per level of difference. */
  function ExperienceScore(userExperience: string, difficulty: Difficulty): (r: int)
    ensures r == 20 || r == 14 || r == 8
    ensures r == 20 <==> ExperienceLevel(userExperience) == difficulty.Level()
    ensures r == 14 <==> ExperienceLevel(userExperience) - difficulty.Level() in {-1, 1}
    ensures r == 8 <==> ExperienceLevel(userExperience) - difficulty.Level() in {-2, 2}
  {
    var diff := ExperienceLevel(userExperience) - difficulty.Level();
    var distance := if diff < 0 then -diff else diff;
    if 20 - distance * 6 > 0 then 20 - distance * 6 else 0
  }

  /** Quality part (weight 25): stars on a log scale (`log10Stars` is `log10(stars + 1)`),
      forks, open issues and the licence. */
  function QualityScore(project: Project, log10Stars: real): (r: real)
    ensures r <= 25.0
    ensures log10Stars >= 0.0 ==> r >= 0.0
  {
    MinReal(10.0, log10Stars * 2.0)
      + MinReal(5.0, (project.forks as real) / 20.0)
      + (if project.openIssues > 0 then 5.0 else 0.0)
      + (if project.license != "No license" then 5.0 else 0.0)
  }

  /** Contribution part (weight 20): open issues and helpful features, capped at 20. */
  function ContributionScore(project: Project): (r: int)
    ensures 0 <= r <= 20
  {
    var issues := if project.openIssues > 10 then 8 else if project.openIssues > 5 then 5 else if project.openIssues > 0 then 3 else 0;
    var total := issues
      + (if Documentation in project.features then 4 else 0)
      + (if IssueTracking in project.features then 4 else 0)
      + (if WellTagged in project.features then 2 else 0)
      + (if ActiveDevelopment in project.features then 2 else 0);
    MinInt(20, total)
  }

  /** `calculateAIMatchScore`: the rounded sum of the four parts, capped at 100. */
  function AIMatchScore(project: Project, userSkills: seq<string>, userExperience: string, log10Stars: real): (r: int)
    ensures r <= 100
    ensures log10Stars >= 0.0 ==> r >= 0
  {
    var total := SkillScore(project.technologies, userSkills)
      + ExperienceScore(userExperience, project.difficulty) as real
      + QualityScore(project, log10Stars)
      + ContributionScore(project) as real;
    MinInt(100, Round(total))
  }

  // ---- insights ----

  function RelatedTo(userSkills: seq<string>): string -> bool {
    t => SkillRelated(t, userSkills)
  }

  function UnrelatedTo(userSkills: seq<string>): string -> bool {
    t => !SkillRelated(t, userSkills)
  }

  function MatchedSkills(technologies: seq<string>, userSkills: seq<string>): seq<string> {
    Filter(technologies, RelatedTo(userSkills))
  }

  function NewSkills(technologies: seq<string>, userSkills: seq<string>): seq<string> {
    Filter(technologies, UnrelatedTo(userSkills))
  }

  /** The matched and the new skills split the project's technologies: together they
      are a permutation of them, every matched one is related to a skill, every new one
      to none. */
  lemma SkillsPartition(technologies: seq<string>, userSkills: seq<string>)
    ensures multiset(MatchedSkills(technologies, userSkills)) + multiset(NewSkills(technologies, userSkills)) == multiset(technologies)
    ensures forall i :: 0 <= i < |MatchedSkills(technologies, userSkills)| ==> SkillRelated(MatchedSkills(technologies, userSkills)[i], userSkills)
    ensures forall i :: 0 <= i < |NewSkills(technologies, userSkills)| ==> !SkillRelated(NewSkills(technologies, userSkills)[i], userSkills)
  {
    FilterPartition(technologies, RelatedTo(userSkills), UnrelatedTo(userSkills));
    FilterMembers(technologies, RelatedTo(userSkills));
    FilterMembers(technologies, UnrelatedTo(userSkills));
  }

  datatype QualityIndicator = HighlyStarred | ActivelyForked | CommunityDriven | ProperlyLicensed {
    /** Position of the indicator's test in `generateAIInsights`. */
    function Rank(): nat {
      match this
      case HighlyStarred => 0
      case ActivelyForked => 1
      case CommunityDriven => 2
      case ProperlyLicensed => 3
    }
  }

  /** The indicators whose thresholds the project passes, in test order. */
  function QualityIndicators(project: Project): (r: seq<QualityIndicator>)
    ensures |r| <= 4
    ensures HighlyStarred in r <==> project.stars > 1000
    ensures ActivelyForked in r <==> project.forks > 100
    ensures CommunityDriven in r <==> project.openIssues > 10
    ensures ProperlyLicensed in r <==> project.license != "No license"
    ensures forall i, j :: 0 <= i < j < |r| ==> r[i].Rank() < r[j].Rank()
  {
    (if project.stars > 1000 then [HighlyStarred] else [])
      + (if project.forks > 100 then [ActivelyForked] else [])
      + (if project.openIssues > 10 then [CommunityDriven] else [])
      + (if project.license != "No license" then [ProperlyLicensed] else [])
  }

  /** The four score bands of the match reason, with the values they interpolate;
      `Strong` carries the first quality indicator, if any (the text reads "quality"
      otherwise). */
  datatype MatchReason =
    | ExcellentMatch(indicators: seq<QualityIndicator>, matched: seq<string>)
    | StrongMatch(indicator: Option<QualityIndicator>, matched: seq<string>)
    | GoodLearningOpportunity
    | SkillBuildingMatch

  function MatchReasonFor(project: Project, matched: seq<string>, matchScore: int): (r: MatchReason)
    ensures r.ExcellentMatch? <==> matchScore >= 80
    ensures r.StrongMatch? <==> 60 <= matchScore < 80
    ensures r.GoodLearningOpportunity? <==> 40 <= matchScore < 60
    ensures r.SkillBuildingMatch? <==> matchScore < 40
    ensures r.ExcellentMatch? ==> r.indicators == QualityIndicators(project) && r.matched == matched
    ensures r.StrongMatch? ==> (&& r.matched == matched
      && (r.indicator.Some? <==> |QualityIndicators(project)| > 0)
      && (r.indicator.Some? ==> r.indicator.value == QualityIndicators(project)[0]))
  {
    var indicators := QualityIndicators(project);
    if matchScore >= 80 then ExcellentMatch(indicators, matched)
    else if matchScore >= 60 then StrongMatch(if |indicators| > 0 then Some(indicators[0]) else None, matched)
    else if matchScore >= 40 then GoodLearningOpportunity
    else SkillBuildingMatch
  }

  datatype QualityBadge =
    | HighlyPopular | WellRegarded | CommunityFavorite
    | ExtensivelyForked | ForkedOften
    | VeryActive | CommunityEngaged
    | OpenSourceLicensed
  {
    /** Which of the four tests (stars, forks, issues, licence) pushes the badge. */
    function Group(): nat {
      match this
      case HighlyPopular => 0
      case WellRegarded => 0
      case CommunityFavorite => 0
      case ExtensivelyForked => 1
      case ForkedOften => 1
      case VeryActive => 2
      case CommunityEngaged => 2
      case OpenSourceLicensed => 3
    }
  }

  /** The test that pushes a badge, as a function value. */
  function BadgeGroup(b: QualityBadge): nat {
    b.Group()
  }

  /** The badge of the star test, if its lowest band is passed. */
  function StarBadge(project: Project): (r: seq<QualityBadge>)
    ensures |r| <= 1 && forall i :: 0 <= i < |r| ==> r[i].Group() == 0
    ensures |r| == 1 <==> project.stars > 100
    ensures HighlyPopular in r <==> project.stars > 5000
    ensures WellRegarded in r <==> 1000 < project.stars <= 5000
    ensures CommunityFavorite in r <==> 100 < project.stars <= 1000
  {
    if project.stars > 5000 then [HighlyPopular] else if project.stars > 1000 then [WellRegarded]
    else if project.stars > 100 then [CommunityFavorite] else []
  }

  function ForkBadge(project: Project): (r: seq<QualityBadge>)
    ensures |r| <= 1 && forall i :: 0 <= i < |r| ==> r[i].Group() == 1
    ensures |r| == 1 <==> project.forks > 50
    ensures ExtensivelyForked in r <==> project.forks > 500
    ensures ForkedOften in r <==> 50 < project.forks <= 500
  {
    if project.forks > 500 then [ExtensivelyForked] else if project.forks > 50 then [ForkedOften] else []
  }

  function IssueBadge(project: Project): (r: seq<QualityBadge>)
    ensures |r| <= 1 && forall i :: 0 <= i < |r| ==> r[i].Group() == 2
    ensures |r| == 1 <==> project.openIssues > 10
    ensures VeryActive in r <==> project.openIssues > 50
    ensures CommunityEngaged in r <==> 10 < project.openIssues <= 50
  {
    if project.openIssues > 50 then [VeryActive] else if project.openIssues > 10 then [CommunityEngaged] else []
  }

  function LicenseBadge(project: Project): (r: seq<QualityBadge>)
    ensures |r| <= 1 && forall i :: 0 <= i < |r| ==> r[i].Group() == 3
    ensures OpenSourceLicensed in r <==> project.license != "" && project.license != "No license"
  {
    if project.license != "" && project.license != "No license" then [OpenSourceLicensed] else []
  }

  /** The first three badges are every star, fork and issue badge, and the licence
      badge unless all three tests pushed one. */
  lemma KeptBadges(project: Project)
    ensures forall b :: (b in Take(StarBadge(project) + ForkBadge(project) + IssueBadge(project) + LicenseBadge(project), 3)
      <==> (|| b in StarBadge(project) || b in ForkBadge(project) || b in IssueBadge(project)
            || (b in LicenseBadge(project) && !(project.stars > 100 && project.forks > 50 && project.openIssues > 10))))
  {
    var pushed := StarBadge(project) + ForkBadge(project) + IssueBadge(project);
    CutAfterThree(pushed, LicenseBadge(project));
  }

  /** `assessOpenSourceQuality`: one badge per star, fork and issue band, then the
      licence badge, keeping the first three. The first three tests push at most three
      badges, so only the licence badge can be cut, and only when all three pushed one. */
  function AssessOpenSourceQuality(project: Project): (r: seq<QualityBadge>)
    ensures |r| <= 3
    ensures HighlyPopular in r <==> project.stars > 5000
    ensures WellRegarded in r <==> 1000 < project.stars <= 5000
    ensures CommunityFavorite in r <==> 100 < project.stars <= 1000
    ensures ExtensivelyForked in r <==> project.forks > 500
    ensures ForkedOften in r <==> 50 < project.forks <= 500
    ensures VeryActive in r <==> project.openIssues > 50
    ensures CommunityEngaged in r <==> 10 < project.openIssues <= 50
    ensures OpenSourceLicensed in r <==> (project.license != "" && project.license != "No license"
      && !(project.stars > 100 && project.forks > 50 && project.openIssues > 10))
  {
    var stars, forks, issues, license := StarBadge(project), ForkBadge(project), IssueBadge(project), LicenseBadge(project);
    KeptBadges(project);
    Take(stars + forks + issues + license, 3)
  }

  /** The badges appear in the order of their tests: stars, forks, issues, licence. */
  lemma QualityBadgesOrdered(project: Project)
    ensures KeysIncrease(AssessOpenSourceQuality(project), BadgeGroup)
  {
    StagesIncrease(StarBadge(project), ForkBadge(project), IssueBadge(project), LicenseBadge(project), BadgeGroup);
  }

  datatype ContributionTip = CheckOpenIssues | ImproveDocumentation | FocusOnLanguage(language: string) | LookForGoodFirstIssues {
    /** Position of the tip's test in `generateContributionTips`. */
    function Rank(): nat {
      match this
      case CheckOpenIssues => 0
      case ImproveDocumentation => 1
      case FocusOnLanguage(_) => 2
      case LookForGoodFirstIssues => 3
    }
  }

  /** The rank of a tip, as a function value. */
  function TipRank(t: ContributionTip): nat {
    t.Rank()
  }

  /** The tip of the open-issues test. */
  function OpenIssuesTip(project: Project): (r: seq<ContributionTip>)
    ensures |r| <= 1 && forall i :: 0 <= i < |r| ==> r[i].Rank() == 0
    ensures |r| == 1 <==> project.openIssues > 0
    ensures CheckOpenIssues in r <==> project.openIssues > 0
  {
    if project.openIssues > 0 then [CheckOpenIssues] else []
  }

  function DocumentationTip(project: Project): (r: seq<ContributionTip>)
    ensures |r| <= 1 && forall i :: 0 <= i < |r| ==> r[i].Rank() == 1
    ensures |r| == 1 <==> Documentation in project.features
    ensures ImproveDocumentation in r <==> Documentation in project.features
  {
    if Documentation in project.features then [ImproveDocumentation] else []
  }

  function LanguageTip(project: Project): (r: seq<ContributionTip>)
    ensures |r| <= 1 && forall i :: 0 <= i < |r| ==> r[i].Rank() == 2
    ensures |r| == 1 <==> project.language != ""
    ensures FocusOnLanguage(project.language) in r <==> project.language != ""
    ensures forall t :: t in r ==> t.FocusOnLanguage? && t.language == project.language
  {
    if project.language != "" then [FocusOnLanguage(project.language)] else []
  }

  function FirstIssuesTip(project: Project): (r: seq<ContributionTip>)
    ensures |r| <= 1 && forall i :: 0 <= i < |r| ==> r[i].Rank() == 3
    ensures |r| == 1 <==> "good-first-issue" in project.topics
    ensures LookForGoodFirstIssues in r <==> "good-first-issue" in project.topics
  {
    if "good-first-issue" in project.topics then [LookForGoodFirstIssues] else []
  }

  /** Every tip whose test holds, in the order of the tests, before the cut to three. */
  function TipCandidates(project: Project): seq<ContributionTip> {
    OpenIssuesTip(project) + DocumentationTip(project) + LanguageTip(project) + FirstIssuesTip(project)
  }

  /** The first three candidates are every open-issues, documentation and language
      tip, and the good-first-issue tip unless all three others were pushed. */
  lemma KeptTips(project: Project)
    ensures CheckOpenIssues in Take(TipCandidates(project), 3) <==> project.openIssues > 0
    ensures ImproveDocumentation in Take(TipCandidates(project), 3) <==> Documentation in project.features
    ensures FocusOnLanguage(project.language) in Take(TipCandidates(project), 3) <==> project.language != ""
    ensures forall t :: t in Take(TipCandidates(project), 3) && t.FocusOnLanguage? ==> t.language == project.language
    ensures LookForGoodFirstIssues in Take(TipCandidates(project), 3) <==> ("good-first-issue" in project.topics
      && !(project.openIssues > 0 && Documentation in project.features && project.language != ""))
  {
    var pushed := OpenIssuesTip(project) + DocumentationTip(project) + LanguageTip(project);
    if |pushed| == 3 {
      assert Take(TipCandidates(project), 3) == pushed;
    } else {
      assert Take(TipCandidates(project), 3) == pushed + FirstIssuesTip(project);
    }
  }

  /** The tips stay in the order of their tests when cut to three. */
  lemma TipsOrdered(project: Project)
    ensures KeysIncrease(Take(TipCandidates(project), 3), TipRank)
  {
    StagesIncrease(OpenIssuesTip(project), DocumentationTip(project), LanguageTip(project), FirstIssuesTip(project), TipRank);
  }

  /** `generateContributionTips`: the tips whose conditions hold, in order, at most
      three; the good-first-issue tip is the one cut when all four hold. */
  function ContributionTips(project: Project): (r: seq<ContributionTip>)
    ensures |r| <= 3
    ensures CheckOpenIssues in r <==> project.openIssues > 0
    ensures ImproveDocumentation in r <==> Documentation in project.features
    ensures FocusOnLanguage(project.language) in r <==> project.language != ""
    ensures forall t :: t in r && t.FocusOnLanguage? ==> t.language == project.language
    ensures LookForGoodFirstIssues in r <==> ("good-first-issue" in project.topics
      && !(project.openIssues > 0 && Documentation in project.features && project.language != ""))
    ensures KeysIncrease(r, TipRank)
  {
    KeptTips(project);
    TipsOrdered(project);
    Take(TipCandidates(project), 3)
  }

  function ExplainDifficulty(d: Difficulty): (r: string)
    ensures r != ""
  {
    match d
    case Beginner => "Great for newcomers with clear documentation and simple codebase"
    case Intermediate => "Moderate complexity requiring some experience with the tech stack"
    case Advanced => "Advanced project with complex architecture and extensive codebase"
  }

  datatype Insights = Insights(
    matchReason: MatchReason,
    learningOpportunities: seq<string>,
    contributionTips: seq<ContributionTip>,
    difficultyExplanation: string,
    openSourceQuality: seq<QualityBadge>)

  /** The learning opportunities of `generateAIInsights`: the first three technologies
      related to none of the user's skills. */
  function LearningOpportunities(technologies: seq<string>, userSkills: seq<string>): (r: seq<string>)
    ensures |r| <= 3
    ensures forall i :: 0 <= i < |r| ==> r[i] in technologies && !SkillRelated(r[i], userSkills)
    ensures |r| == MinInt(3, Count(technologies, UnrelatedTo(userSkills)))
    ensures r == NewSkills(technologies, userSkills)[..|r|]
  {
    FilterMembers(technologies, UnrelatedTo(userSkills));
    Take(NewSkills(technologies, userSkills), 3)
  }

  /** `generateAIInsights` (the impact score is left out). */
  function GenerateAIInsights(project: Project, userSkills: seq<string>, matchScore: int): (r: Insights)
    ensures |r.learningOpportunities| <= 3
    ensures forall i :: 0 <= i < |r.learningOpportunities| ==>
      r.learningOpportunities[i] in project.technologies && !SkillRelated(r.learningOpportunities[i], userSkills)
    ensures |r.contributionTips| <= 3 && |r.openSourceQuality| <= 3
    ensures r.matchReason == MatchReasonFor(project, MatchedSkills(project.technologies, userSkills), matchScore)
    ensures |r.learningOpportunities| == MinInt(3, Count(project.technologies, UnrelatedTo(userSkills)))
    ensures r.learningOpportunities == NewSkills(project.technologies, userSkills)[..|r.learningOpportunities|]
    ensures r.contributionTips == ContributionTips(project)
    ensures r.openSourceQuality == AssessOpenSourceQuality(project)
    ensures r.difficultyExplanation == ExplainDifficulty(project.difficulty)
  {
    Insights(
      MatchReasonFor(project, MatchedSkills(project.technologies, userSkills), matchScore),
      LearningOpportunities(project.technologies, userSkills),
      ContributionTips(project),
      ExplainDifficulty(project.difficulty),
      AssessOpenSourceQuality(project))
  }

  datatype EnhancedProject = EnhancedProject(project: Project, aiInsights: Insights)

  /** `enhanceWithAIInsights`: each project scored and given its insights; `log10` is
      `Math.log10(stars + 1)` as a function of the star count. */
  function Enhance(projects: seq<Project>, userSkills: seq<string>, userExperience: string, log10: nat -> real): (r: seq<Scored<EnhancedProject>>)
    ensures |r| == |projects|
    ensures forall i :: 0 <= i < |r| ==> (r[i].item.project == projects[i]
      && r[i].score == AIMatchScore(projects[i], userSkills, userExperience, log10(projects[i].stars)))
    ensures forall i :: 0 <= i < |r| ==> r[i].item.aiInsights == GenerateAIInsights(projects[i], userSkills, r[i].score)
  {
    seq(|projects|, i requires 0 <= i < |projects| =>
      var score := AIMatchScore(projects[i], userSkills, userExperience, log10(projects[i].stars));
      Scored(EnhancedProject(projects[i], GenerateAIInsights(projects[i], userSkills, score)), score))
  }

  /** The top twelve of the scored projects: sorted, scores at most 100, each with the
      insights of its own project and score. */
  lemma TopEnhanced(projects: seq<Project>, userSkills: seq<string>, userExperience: string, log10: nat -> real)
    ensures var top := Take(SortDesc(Enhance(projects, userSkills, userExperience, log10)), 12);
      && |top| <= 12 && SortedDesc(top)
      && (forall i :: 0 <= i < |top| ==> top[i].score <= 100)
      && (forall i :: 0 <= i < |top| ==> top[i].item.aiInsights == GenerateAIInsights(top[i].item.project, userSkills, top[i].score))
  {
    var enhanced := Enhance(projects, userSkills, userExperience, log10);
    TopSorted(enhanced, 12, 100);
    TopMembers(enhanced, 12);
  }

  // ---- de-duplication ----

  function Ids(s: seq<Project>): set<int> {
    set i | 0 <= i < |s| :: s[i].id
  }

  lemma IdsAppend(s: seq<Project>, x: Project)
    ensures Ids(s + [x]) == Ids(s) + {x.id}
  {
    var t := s + [x];
    forall id | id in Ids(t) ensures id in Ids(s) + {x.id} {
      var i :| 0 <= i < |t| && t[i].id == id;
      if i < |s| {
        assert t[i] == s[i];
      }
    }
    forall id | id in Ids(s) ensures id in Ids(t) {
      var i :| 0 <= i < |s| && s[i].id == id;
      assert t[i] == s[i];
    }
    assert t[|s|] == x;
  }

  /** The projects with the first occurrence of each id, in order. */
  function Dedup(s: seq<Project>): seq<Project> {
    if s == [] then []
    else
      var d := Dedup(s[..|s| - 1]);
      if s[|s| - 1].id in Ids(d) then d else d + [s[|s| - 1]]
  }

  /** Index of the first project with id `id`. */
  function FirstIndex(s: seq<Project>, id: int): (r: nat)
    requires id in Ids(s)
    ensures r < |s| && s[r].id == id
    ensures forall j :: 0 <= j < r ==> s[j].id != id
  {
    if s[0].id == id then 0
    else
      assert id in Ids(s[1..]) by {
        var i :| 0 <= i < |s| && s[i].id == id;
        assert s[1..][i - 1].id == id;
      }
      1 + FirstIndex(s[1..], id)
  }

  lemma FirstIndexPrefix(s: seq<Project>, n: nat, id: int)
    requires n <= |s| && id in Ids(s[..n])
    ensures id in Ids(s) && FirstIndex(s[..n], id) == FirstIndex(s, id)
  {
    var i :| 0 <= i < n && s[..n][i].id == id;
    assert s[i].id == id;
    var a, b := FirstIndex(s[..n], id), FirstIndex(s, id);
    assert s[a].id == id;
    assert a <= b;
    assert b <= a;
  }

  /** Deduplication loses no id and keeps each id once. */
  lemma {:induction false} DedupIds(s: seq<Project>)
    ensures forall i, j :: 0 <= i < j < |Dedup(s)| ==> Dedup(s)[i].id != Dedup(s)[j].id
    ensures Ids(Dedup(s)) == Ids(s)
  {
    if s != [] {
      var n := |s| - 1;
      var init, last := s[..n], s[n];
      DedupIds(init);
      var d := Dedup(init);
      assert s == init + [last];
      IdsAppend(init, last);
      if last.id !in Ids(d) {
        IdsAppend(d, last);
        assert forall i :: 0 <= i < |d| ==> d[i].id in Ids(d);
      }
    }
  }

  /** Each kept project is the first with its id. */
  lemma {:induction false} DedupFirst(s: seq<Project>)
    ensures forall k :: 0 <= k < |Dedup(s)| ==> Dedup(s)[k].id in Ids(s) && Dedup(s)[k] == s[FirstIndex(s, Dedup(s)[k].id)]
  {
    if s != [] {
      var n := |s| - 1;
      var init, last := s[..n], s[n];
      DedupFirst(init);
      DedupIds(init);
      var d := Dedup(init);
      assert s == init + [last];
      forall k | 0 <= k < |d|
        ensures d[k].id in Ids(s) && FirstIndex(s, d[k].id) == FirstIndex(init, d[k].id)
      {
        FirstIndexPrefix(s, n, d[k].id);
      }
      if last.id !in Ids(d) {
        assert (d + [last])[|d|] == last;
        FirstIndexOfNew(s, n);
      }
    }
  }

  /** A last project whose id is new is the first with its id. */
  lemma FirstIndexOfNew(s: seq<Project>, n: nat)
    requires n == |s| - 1 && s[n].id !in Ids(s[..n])
    ensures s[n].id in Ids(s) && FirstIndex(s, s[n].id) == n
  {
    forall j | 0 <= j < n ensures s[j].id != s[n].id {
      assert s[..n][j].id in Ids(s[..n]);
    }
  }

  /** Kept projects appear in the order of their ids' first occurrences. */
  lemma {:induction false} DedupOrder(s: seq<Project>)
    ensures forall k :: 0 <= k < |Dedup(s)| ==> Dedup(s)[k].id in Ids(s)
    ensures forall k1, k2 :: 0 <= k1 < k2 < |Dedup(s)| ==> FirstIndex(s, Dedup(s)[k1].id) < FirstIndex(s, Dedup(s)[k2].id)
  {
    if s != [] {
      var n := |s| - 1;
      var init, last := s[..n], s[n];
      DedupOrder(init);
      DedupIds(init);
      var d := Dedup(init);
      var r := Dedup(s);
      assert s[..n] == init;
      forall k | 0 <= k < |d|
        ensures d[k].id in Ids(s) && FirstIndex(s, d[k].id) == FirstIndex(init, d[k].id) < n
      {
        FirstIndexPrefix(s, n, d[k].id);
      }
      if last.id in Ids(d) {
        assert r == d;
      } else {
        assert r == d + [last];
        FirstIndexOfNew(s, n);
        forall k1, k2 | 0 <= k1 < k2 < |r|
          ensures r[k1].id in Ids(s) && r[k2].id in Ids(s) && FirstIndex(s, r[k1].id) < FirstIndex(s, r[k2].id)
        {
          assert r[k1] == d[k1];
          if k2 < |d| {
            assert r[k2] == d[k2];
          } else {
            assert r[k2] == last;
          }
        }
      }
    }
  }

  /** `removeDuplicates` keeps, in order, exactly the first project of each id: the
      ids are pairwise distinct, no id is lost, each kept project is the first with its
      id, and kept projects appear in the order of those first occurrences. */
  lemma DedupCorrect(s: seq<Project>)
    ensures forall i, j :: 0 <= i < j < |Dedup(s)| ==> Dedup(s)[i].id != Dedup(s)[j].id
    ensures Ids(Dedup(s)) == Ids(s)
    ensures forall k :: 0 <= k < |Dedup(s)| ==> Dedup(s)[k].id in Ids(s) && Dedup(s)[k] == s[FirstIndex(s, Dedup(s)[k].id)]
    ensures forall k1, k2 :: 0 <= k1 < k2 < |Dedup(s)| ==> FirstIndex(s, Dedup(s)[k1].id) < FirstIndex(s, Dedup(s)[k2].id)
  {
    DedupIds(s);
    DedupFirst(s);
    DedupOrder(s);
  }

  // ---- search ----

  /** The projects a list of queries collects, one search after another; a failed
      request (`Err`) contributes nothing, as `executeSearch` returns `[]` on error. */
  function Collected(table: seq<(string, seq<string>)>, categories: seq<(string, seq<string>)>, queries: seq<Query>, userExperience: string,
                     fetch: Query -> Result<seq<Repo>>, oneYearAgo: int): seq<Project>
  {
    if queries == [] then []
    else
      Collected(table, categories, queries[..|queries| - 1], userExperience, fetch, oneYearAgo)
      + ExecuteSearch(table, categories, queries[|queries| - 1], userExperience, fetch, oneYearAgo)
  }

  /** `executeSearch`: the transformed items of a successful request, `[]` otherwise. */
  function ExecuteSearch(table: seq<(string, seq<string>)>, categories: seq<(string, seq<string>)>, query: Query, userExperience: string,
                         fetch: Query -> Result<seq<Repo>>, oneYearAgo: int): (r: seq<Project>)
    ensures fetch(query).Err? ==> r == []
    ensures fetch(query).Ok? ==> |r| == Count(fetch(query).value, Keeps(userExperience, oneYearAgo))
    ensures fetch(query).Ok? ==> forall i :: 0 <= i < |r| ==>
      exists repo :: repo in fetch(query).value && KeepRepo(repo, userExperience, oneYearAgo) && r[i] == ToProject(table, categories, repo)
  {
    match fetch(query)
    case Ok(items) =>
      TransformMembers(table, categories, items, userExperience, oneYearAgo);
      TransformGitHubProjects(table, categories, items, userExperience, oneYearAgo)
    case Err(_) => []
  }

  /** The two queries of each skill, skill after skill. */
  function SkillQueries(table: seq<(string, seq<string>)>, skills: seq<string>): seq<Query> {
    if skills == [] then []
    else
      var skill := skills[|skills| - 1];
      var keyword := PrimaryKeyword(table, skill);
      SkillQueries(table, skills[..|skills| - 1]) + [StarredQuery(keyword), ActiveQuery(keyword, GetLanguageForSkill(skill))]
  }

  /** Skill `i` contributes queries `2i` (most starred, with licence and issue
      qualifiers) and `2i + 1` (recently updated, in the skill's language). */
  lemma {:induction false} SkillQueriesShape(table: seq<(string, seq<string>)>, skills: seq<string>)
    ensures |SkillQueries(table, skills)| == 2 * |skills|
    ensures forall i :: 0 <= i < |skills| ==>
      && SkillQueries(table, skills)[2 * i] == StarredQuery(PrimaryKeyword(table, skills[i]))
      && SkillQueries(table, skills)[2 * i + 1] == ActiveQuery(PrimaryKeyword(table, skills[i]), GetLanguageForSkill(skills[i]))
  {
    if skills != [] {
      var m := |skills| - 1;
      var init := skills[..m];
      SkillQueriesShape(table, init);
      var front := SkillQueries(table, init);
      var keyword := PrimaryKeyword(table, skills[m]);
      var tail := [StarredQuery(keyword), ActiveQuery(keyword, GetLanguageForSkill(skills[m]))];
      var all := SkillQueries(table, skills);
      assert all == front + tail;
      forall i | 0 <= i < |skills|
        ensures all[2 * i] == StarredQuery(PrimaryKeyword(table, skills[i]))
        ensures all[2 * i + 1] == ActiveQuery(PrimaryKeyword(table, skills[i]), GetLanguageForSkill(skills[i]))
      {
        if i < m {
          assert skills[i] == init[i];
          assert all[2 * i] == front[2 * i] && all[2 * i + 1] == front[2 * i + 1];
        } else {
          assert all[2 * i] == tail[0] && all[2 * i + 1] == tail[1];
        }
      }
    }
  }


  datatype FallbackInsights = FallbackInsights(matchReason: string, learningOpportunities: seq<string>, impactScore: real)

  datatype FallbackProject = FallbackProject(
    id: string, title: string, description: string, technologies: seq<string>, difficulty: string,
    contributors: nat, stars: nat, estimatedTime: string, category: string, aiMatchScore: int,
    aiInsights: FallbackInsights)

  /** `getFallbackProjects`: the single canned project, at the user's experience level. */
  function FallbackProjects(userExperience: string): (r: seq<FallbackProject>)
    ensures |r| == 1 && r[0].difficulty == userExperience && 0 <= r[0].aiMatchScore <= 100
  {
    [FallbackProject("fallback-1", "Community Project Finder",
      "Help build a platform to connect developers with meaningful projects",
      ["React", "Node.js", "MongoDB"], userExperience, 15, 89, "2-3 weeks", "Open Source Tools", 85,
      FallbackInsights("Great match for your skills and experience level", ["GraphQL", "Docker"], 8.5))]
  }

  /** The service with its technology keyword and category tables, fixed at construction. */
  class GitHubService {
    const techStackKeywords: seq<(string, seq<string>)>
    const projectCategories: seq<(string, seq<string>)>

    constructor()
      ensures techStackKeywords == TechStackKeywords && projectCategories == ProjectCategories
    {
      techStackKeywords := TechStackKeywords;
      projectCategories := ProjectCategories;
    }

    /** `buildSearchQueries`: two queries for each of the first three skills, then the
        trending, highly starred and experience queries, then one for a category drawn
        at random. */
    method BuildSearchQueries(userSkills: seq<string>, userExperience: string) returns (queries: seq<Query>)
      ensures exists category :: (category in TopCategories && queries ==
        SkillQueries(techStackKeywords, Take(userSkills, 3))
        + [TrendingQuery, HighlyStarredQuery, ExperienceQuery(userExperience), CategoryQuery(category)])
    {
      queries := [];
      var skills := Take(userSkills, 3);
      for i := 0 to |skills|
        invariant queries == SkillQueries(techStackKeywords, skills[..i])
      {
        assert skills[..i + 1][..i] == skills[..i];
        var keyword := PrimaryKeyword(techStackKeywords, skills[i]);
        var language := GetLanguageForSkill(skills[i]);
        queries := queries + [StarredQuery(keyword), ActiveQuery(keyword, language)];
      }
      assert skills[..|skills|] == skills;
      var k :| 0 <= k < |TopCategories|;
      var category := TopCategories[k];
      queries := queries + [TrendingQuery, HighlyStarredQuery, ExperienceQuery(userExperience), CategoryQuery(category)];
    }

    /** The `forEach` over the topics: each topic's first matching technology is added
        unless already present. */
    method ScanTopics(topics: seq<string>, acc: seq<string>) returns (technologies: seq<string>)
      ensures technologies == AfterTopics(techStackKeywords, acc, topics, |topics|)
    {
      technologies := acc;
      for i := 0 to |topics|
        invariant technologies == AfterTopics(techStackKeywords, acc, topics, i)
      {
        AfterTopicsNext(techStackKeywords, acc, topics, i);
        var matched := TopicTechnology(techStackKeywords, topics[i]);
        if matched.Some? {
          technologies := AddNew(technologies, matched.value);
        }
      }
    }

    /** The `forEach` over the keyword table: each technology whose keywords the text
        mentions is added unless already present. */
    method ScanText(text: string, acc: seq<string>) returns (technologies: seq<string>)
      ensures technologies == AfterText(techStackKeywords, acc, text, |techStackKeywords|)
    {
      technologies := acc;
      for n := 0 to |techStackKeywords|
        invariant technologies == AfterText(techStackKeywords, acc, text, n)
      {
        AfterTextNext(techStackKeywords, acc, text, n);
        if MentionsCI(text, techStackKeywords[n].1) {
          technologies := AddNew(technologies, techStackKeywords[n].0);
        }
      }
    }

    /** `extractTechnologies`: the language, then topic and text matches, each once,
        cut to six. */
    method ExtractTechnologies(repo: Repo) returns (technologies: seq<string>)
      ensures technologies == Take(Technologies(techStackKeywords, repo), 6)
      ensures |technologies| <= 6 && Distinct(technologies)
      ensures repo.language != "" ==> technologies[0] == repo.language
    {
      technologies := [];
      if repo.language != "" {
        technologies := technologies + [repo.language];
      }
      assert technologies == InitialTechnologies(repo);
      technologies := ScanTopics(repo.topics, technologies);
      technologies := ScanText(DescriptionText(repo), technologies);
      TechnologiesScan(techStackKeywords, repo);
      TopTechnologies(techStackKeywords, repo);
      technologies := Take(technologies, 6);
    }

    /** `removeDuplicates`: a filter that records each id in a `seen` set. */
    method RemoveDuplicates(projects: seq<Project>) returns (unique: seq<Project>)
      ensures unique == Dedup(projects)
      ensures forall i, j :: 0 <= i < j < |unique| ==> unique[i].id != unique[j].id
      ensures Ids(unique) == Ids(projects)
    {
      var seen: set<int> := {};
      unique := [];
      for i := 0 to |projects|
        invariant unique == Dedup(projects[..i])
        invariant seen == Ids(unique)
      {
        assert projects[..i + 1][..i] == projects[..i];
        if projects[i].id !in seen {
          seen := seen + {projects[i].id};
          unique := unique + [projects[i]];
          IdsAppend(unique[..|unique| - 1], projects[i]);
          assert unique[..|unique| - 1] + [projects[i]] == unique;
        }
      }
      assert projects[..|projects|] == projects;
      DedupCorrect(projects);
    }

    /** `searchProjects`: run every query (a failed request yields nothing), drop
        duplicate ids, score, sort by descending score and keep the top twelve.
        `fetch` stands for the HTTP request and `oneYearAgo` for the current date less
        one year. */
    method SearchProjects(userSkills: seq<string>, userExperience: string,
                          fetch: Query -> Result<seq<Repo>>, oneYearAgo: int, log10: nat -> real)
      returns (results: seq<Scored<EnhancedProject>>, queries: seq<Query>)
      ensures results == Take(SortDesc(Enhance(Dedup(Collected(techStackKeywords, projectCategories, queries, userExperience, fetch, oneYearAgo)),
                                               userSkills, userExperience, log10)), 12)
      ensures exists category :: (category in TopCategories && queries ==
        SkillQueries(techStackKeywords, Take(userSkills, 3))
        + [TrendingQuery, HighlyStarredQuery, ExperienceQuery(userExperience), CategoryQuery(category)])
      ensures |results| <= 12 && SortedDesc(results)
      ensures forall i :: 0 <= i < |results| ==> results[i].score <= 100
      ensures forall i :: 0 <= i < |results| ==>
        results[i].item.aiInsights == GenerateAIInsights(results[i].item.project, userSkills, results[i].score)
    {
      queries := BuildSearchQueries(userSkills, userExperience);
      var allProjects := RunQueries(queries, userExperience, fetch, oneYearAgo);
      var unique := RemoveDuplicates(allProjects);
      TopEnhanced(unique, userSkills, userExperience, log10);
      results := Take(SortDesc(Enhance(unique, userSkills, userExperience, log10)), 12);
    }

    /** The query loop of `searchProjects`: each query's projects, in query order. */
    method RunQueries(queries: seq<Query>, userExperience: string, fetch: Query -> Result<seq<Repo>>, oneYearAgo: int)
      returns (allProjects: seq<Project>)
      ensures allProjects == Collected(techStackKeywords, projectCategories, queries, userExperience, fetch, oneYearAgo)
    {
      allProjects := [];
      for i := 0 to |queries|
        invariant allProjects == Collected(techStackKeywords, projectCategories, queries[..i], userExperience, fetch, oneYearAgo)
      {
        assert queries[..i + 1][..i] == queries[..i] && queries[..i + 1][i] == queries[i];
        var projects := ExecuteSearch(techStackKeywords, projectCategories, queries[i], userExperience, fetch, oneYearAgo);
        allProjects := allProjects + projects;
      }
      assert queries[..|queries|] == queries;
    }
  }
}
