/**
 * The expert-matching engine: a registry of experts and of past cases, five
 * sub-scores relating a case to an expert, and the combiner that weights
 * them into a match percentage, ranks the roster, keeps the experts at or
 * above the qualification threshold and summarises the outcome as a
 * confidence value and a list of key factors.
 */
module ExpertMatching {
  import opened Base
  import opened Text
  import StableSort
  import opened Seqs

  // ---------------------------------------------------------------------------
  // Data

  datatype Availability = Available | Busy | Offline

  /** An expert record of the roster (its avatar URL is presentation only). */
  datatype Expert = Expert(
    id: string,
    name: string,
    title: string,
    availability: Availability,
    successRate: real,
    casesResolved: nat,
    avgResponseTime: real,
    skills: seq<string>,
    specializations: seq<string>,
    timezone: string,
    currentWorkload: real,
    recentCases: seq<string>,
    certifications: seq<string>,
    experience: nat)

  /** The fields of a case that the engine reads. */
  datatype CaseData = CaseData(
    id: string,
    title: string,
    description: string,
    moduleName: string,
    severity: string)

  /**
   * A case-history entry. Entries have no description; the seeded ones carry
   * the resolving expert, the resolution time and the skills, the ones added
   * at run time carry a creation time instead.
   */
  datatype HistoryEntry = HistoryEntry(
    id: string,
    title: string,
    moduleName: string,
    severity: string,
    resolvedBy: Option<string>,
    resolutionTime: Option<nat>,
    skills: seq<string>,
    status: string,
    createdAt: Option<int>)

  /** An expert annotated with its scores, as `matchExperts` returns it. */
  datatype ScoredExpert = ScoredExpert(
    expert: Expert,
    matchPercentage: int,
    skillRelevance: real,
    availabilityScore: real,
    responseTimeScore: real,
    caseSimilarityScore: real)

  /** A weighted criterion as displayed: its name and weight in percent. */
  datatype Criterion = Criterion(name: string, weight: nat)

  datatype MatchResult = MatchResult(
    experts: seq<ScoredExpert>,
    analysisTime: nat,
    expertsEvaluated: nat,
    overallConfidence: real,
    criteria: seq<Criterion>,
    keyFactors: seq<string>)

  /** The ranges the roster's numeric fields are meant to lie in. */
  predicate WellFormed(e: Expert)
  {
    && 0.0 <= e.currentWorkload <= 1.0
    && 0.0 <= e.avgResponseTime
    && 0.0 <= e.successRate <= 100.0
  }

  // ---------------------------------------------------------------------------
  // Keyword extraction

  const Vocabulary: seq<string> := [
    "database", "connection", "timeout", "pool", "postgresql", "mysql", "oracle",
    "performance", "tuning", "scaling", "infrastructure", "monitoring", "aws",
    "api", "backend", "integration", "troubleshooting", "architect", "administration"
  ]

  /** The template text `${title} ${description} ${module}` of a case. */
  function CaseText(c: CaseData): string
  {
    c.title + " " + c.description + " " + c.moduleName
  }

  /** The same template over a history entry, whose missing description is written `undefined`. */
  function HistoryText(h: HistoryEntry): string
  {
    h.title + " undefined " + h.moduleName
  }

  /** The words of `vocab` that occur in `text`, compared in lower case, in vocabulary order. */
  function KeywordsIn(vocab: seq<string>, text: string): seq<string>
  {
    if vocab == [] then []
    else (if Contains(Lower(text), Lower(vocab[0])) then [vocab[0]] else []) + KeywordsIn(vocab[1..], text)
  }

  function ExtractKeywords(text: string): seq<string>
  {
    KeywordsIn(Vocabulary, text)
  }

  lemma {:induction false} KeywordsInSpec(vocab: seq<string>, text: string)
    ensures forall k :: k in KeywordsIn(vocab, text) <==> k in vocab && Contains(Lower(text), Lower(k))
    ensures IsSubsequence(KeywordsIn(vocab, text), vocab)
    ensures NoDuplicates(vocab) ==> NoDuplicates(KeywordsIn(vocab, text))
    decreases |vocab|
  {
    if vocab != [] {
      var rest := KeywordsIn(vocab[1..], text);
      KeywordsInSpec(vocab[1..], text);
      assert vocab == [vocab[0]] + vocab[1..];
      if Contains(Lower(text), Lower(vocab[0])) {
        assert ([vocab[0]] + rest)[1..] == rest;
        if NoDuplicates(vocab) {
          assert vocab[0] !in vocab[1..];
          assert vocab[0] !in rest;
        }
      } else {
        assert [] + rest == rest;
      }
    }
  }

  /** A word's length, first and last letter: enough to tell the vocabulary words apart. */
  function Tag(w: string): (int, char, char)
  {
    if w == [] then (0, ' ', ' ') else (|w|, w[0], w[|w| - 1])
  }

  /** The tags of the vocabulary words, in order. */
  const VocabularyTagList := [
    (8, 'd', 'e'), (10, 'c', 'n'), (7, 't', 't'), (4, 'p', 'l'), (10, 'p', 'l'), (5, 'm', 'l'), (6, 'o', 'e'),
    (11, 'p', 'e'), (6, 't', 'g'), (7, 's', 'g'), (14, 'i', 'e'), (10, 'm', 'g'), (3, 'a', 's'),
    (3, 'a', 'i'), (7, 'b', 'd'), (11, 'i', 'n'), (15, 't', 'g'), (9, 'a', 't'), (14, 'a', 'n')]

  lemma VocabularyTags()
    ensures |Vocabulary| == |VocabularyTagList|
    ensures forall i :: 0 <= i < |Vocabulary| ==> Tag(Vocabulary[i]) == VocabularyTagList[i]
  {
  }

  lemma VocabularyTagsDistinct()
    ensures NoDuplicates(VocabularyTagList)
  {
  }

  /** No vocabulary word occurs twice: no two have the same tag. */
  lemma VocabularyDistinct()
    ensures NoDuplicates(Vocabulary)
  {
    VocabularyTags();
    VocabularyTagsDistinct();
    var v := Vocabulary;
    forall i, j | 0 <= i < j < |v| ensures v[i] != v[j] {
      assert VocabularyTagList[i] != VocabularyTagList[j];
    }
  }

  /**
   * `extractKeywords` returns exactly the vocabulary words occurring in the
   * text case-insensitively, in vocabulary order, each once.
   */
  lemma ExtractKeywordsSpec(text: string)
    ensures forall k :: k in ExtractKeywords(text) <==> k in Vocabulary && Contains(Lower(text), Lower(k))
    ensures IsSubsequence(ExtractKeywords(text), Vocabulary)
    ensures NoDuplicates(ExtractKeywords(text))
  {
    KeywordsInSpec(Vocabulary, text);
    VocabularyDistinct();
  }

  // ---------------------------------------------------------------------------
  // Skill relevance

  /** Some keyword is a substring of the skill or the skill a substring of the keyword, ignoring case. */
  predicate SkillMatches(skill: string, keywords: seq<string>)
  {
    exists i | 0 <= i < |keywords| ::
      Contains(Lower(skill), Lower(keywords[i])) || Contains(Lower(keywords[i]), Lower(skill))
  }

  /** How many of `skills` match some keyword. */
  function CountMatching(skills: seq<string>, keywords: seq<string>): (n: nat)
    ensures n <= |skills|
  {
    if skills == [] then 0
    else CountMatching(skills[..|skills| - 1], keywords) + (if SkillMatches(skills[|skills| - 1], keywords) then 1 else 0)
  }

  /** No skill is counted exactly when none matches; all are counted exactly when all match. */
  lemma {:induction false} CountMatchingExtremes(skills: seq<string>, keywords: seq<string>)
    ensures CountMatching(skills, keywords) == 0 <==> forall i :: 0 <= i < |skills| ==> !SkillMatches(skills[i], keywords)
    ensures CountMatching(skills, keywords) == |skills| <==> forall i :: 0 <= i < |skills| ==> SkillMatches(skills[i], keywords)
    decreases |skills|
  {
    if skills != [] {
      var init := skills[..|skills| - 1];
      CountMatchingExtremes(init, keywords);
      assert forall i :: 0 <= i < |init| ==> init[i] == skills[i];
    }
  }

  /** The share of the expert's skills that match the case's keywords, in percent. */
  function SkillRelevanceScore(c: CaseData, skills: seq<string>): real
  {
    var matched := CountMatching(skills, ExtractKeywords(CaseText(c)));
    if matched > 0 then (matched as real / |skills| as real) * 100.0 else 0.0
  }

  lemma RatioBounds(m: nat, n: nat)
    requires 0 < n && m <= n
    ensures 0.0 <= (m as real / n as real) * 100.0 <= 100.0
    ensures (m as real / n as real) * 100.0 == 100.0 <==> m == n
    ensures (m as real / n as real) * 100.0 == 0.0 <==> m == 0
  {
    var q := m as real / n as real;
    assert q * n as real == m as real;
    assert q <= 1.0 by {
      if q > 1.0 {
        assert q * n as real > 1.0 * n as real;
      }
    }
  }

  /**
   * Skill relevance lies in [0, 100]; it is 0 exactly when no skill matches
   * (in particular for an expert without skills) and 100 exactly when every
   * skill of a non-empty skill list matches.
   */
  lemma SkillRelevanceBounds(c: CaseData, skills: seq<string>)
    ensures 0.0 <= SkillRelevanceScore(c, skills) <= 100.0
    ensures (SkillRelevanceScore(c, skills) == 0.0)
        <==> (forall i :: 0 <= i < |skills| ==> !SkillMatches(skills[i], ExtractKeywords(CaseText(c))))
    ensures |skills| > 0 ==>
      ((SkillRelevanceScore(c, skills) == 100.0)
        <==> (forall i :: 0 <= i < |skills| ==> SkillMatches(skills[i], ExtractKeywords(CaseText(c)))))
  {
    var matched := CountMatching(skills, ExtractKeywords(CaseText(c)));
    CountMatchingExtremes(skills, ExtractKeywords(CaseText(c)));
    if matched > 0 {
      RatioBounds(matched, |skills|);
    }
  }

  /** A case whose text holds no vocabulary word gives every expert a skill relevance of 0. */
  lemma NoKeywordsNoSkillRelevance(c: CaseData, skills: seq<string>)
    requires ExtractKeywords(CaseText(c)) == []
    ensures SkillRelevanceScore(c, skills) == 0.0
  {
    CountMatchingExtremes(skills, []);
  }

  /**
   * `calculateSkillRelevance`: extracts the case's keywords, counts skill by
   * skill the matching skills (`matchedSkills`) and their relevance
   * (`totalRelevance`), then divides.
   */
  method CalculateSkillRelevance(c: CaseData, skills: seq<string>) returns (score: real)
    ensures score == SkillRelevanceScore(c, skills)
    ensures 0.0 <= score <= 100.0
  {
    var keywords := ExtractKeywords(CaseText(c));
    var matchedSkills, totalRelevance := CountMatchingSkills(skills, keywords);
    score := if matchedSkills > 0 then (totalRelevance as real / |skills| as real) * 100.0 else 0.0;
    SkillRelevanceBounds(c, skills);
  }

  /** Counting one more skill adds one exactly when that skill matches. */
  lemma CountMatchingStep(skills: seq<string>, i: nat, keywords: seq<string>)
    requires i < |skills|
    ensures CountMatching(skills[..i + 1], keywords)
         == CountMatching(skills[..i], keywords) + (if SkillMatches(skills[i], keywords) then 1 else 0)
  {
    assert skills[..i + 1][..i] == skills[..i];
  }

  /** The counting loop of `calculateSkillRelevance`; each matching skill adds 1 to both counters. */
  method CountMatchingSkills(skills: seq<string>, keywords: seq<string>) returns (matchedSkills: nat, totalRelevance: nat)
    ensures matchedSkills == totalRelevance == CountMatching(skills, keywords)
  {
    matchedSkills, totalRelevance := 0, 0;
    var i := 0;
    while i < |skills|
      invariant 0 <= i <= |skills|
      invariant matchedSkills == totalRelevance == CountMatching(skills[..i], keywords)
    {
      CountMatchingStep(skills, i, keywords);
      if SkillMatches(skills[i], keywords) {
        totalRelevance := totalRelevance + 1;
        matchedSkills := matchedSkills + 1;
      }
      i := i + 1;
    }
    assert skills[..|skills|] == skills;
  }

  // ---------------------------------------------------------------------------
  // Availability, response time, success rate

  /** 100 minus the workload in percent for an available expert, 0 for a busy or offline one. */
  function AvailabilityScore(e: Expert): (r: real)
    ensures e.availability != Available ==> r == 0.0
    ensures 0.0 <= e.currentWorkload <= 1.0 ==> 0.0 <= r <= 100.0
    ensures e.availability == Available && e.currentWorkload == 0.0 ==> r == 100.0
  {
    if e.availability == Available then 100.0 - e.currentWorkload * 100.0 else 0.0
  }

  const MaxResponseTime: real := 30.0

  /** Linear decay from 100 (instant) to 0 (30 minutes or more). */
  function ResponseTimeScoreOf(avgResponseTime: real): (r: real)
    ensures 0.0 <= r
    ensures avgResponseTime >= 0.0 ==> r <= 100.0
    ensures avgResponseTime >= MaxResponseTime ==> r == 0.0
    ensures avgResponseTime == 0.0 ==> r == 100.0
  {
    Max(0.0, 100.0 - (avgResponseTime / MaxResponseTime) * 100.0)
  }

  function ResponseTimeScore(e: Expert): real
  {
    ResponseTimeScoreOf(e.avgResponseTime)
  }

  /** A slower average response never scores higher. */
  lemma ResponseTimeMonotone(t1: real, t2: real)
    requires t1 <= t2
    ensures ResponseTimeScoreOf(t2) <= ResponseTimeScoreOf(t1)
  {
  }

  function SuccessRateScore(e: Expert): real
  {
    e.successRate
  }

  // ---------------------------------------------------------------------------
  // Case similarity

  /** The entry was resolved by this expert: same id and status `resolved`. */
  predicate ResolvedByExpert(h: HistoryEntry, e: Expert)
  {
    h.resolvedBy == Some(e.id) && h.status == "resolved"
  }

  /** The entries resolved by the expert, in history order. */
  function SimilarCases(history: seq<HistoryEntry>, e: Expert): (r: seq<HistoryEntry>)
    ensures |r| <= |history|
    ensures forall h :: h in r <==> h in history && ResolvedByExpert(h, e)
  {
    if history == [] then []
    else (if ResolvedByExpert(history[0], e) then [history[0]] else []) + SimilarCases(history[1..], e)
  }

  /** The entry's keywords and the case's keywords have one in common. */
  predicate SharesKeyword(h: HistoryEntry, c: CaseData)
  {
    exists k | k in ExtractKeywords(HistoryText(h)) :: k in ExtractKeywords(CaseText(c))
  }

  function CountRelevant(entries: seq<HistoryEntry>, c: CaseData): (n: nat)
    ensures n <= |entries|
  {
    if entries == [] then 0
    else (if SharesKeyword(entries[0], c) then 1 else 0) + CountRelevant(entries[1..], c)
  }

  /** The share of the expert's resolved cases that share a keyword with the case, in percent. */
  function CaseSimilarityScore(c: CaseData, e: Expert, history: seq<HistoryEntry>): real
  {
    var similar := SimilarCases(history, e);
    if |similar| == 0 then 0.0
    else (CountRelevant(similar, c) as real / |similar| as real) * 100.0
  }

  /** Case similarity lies in [0, 100] and is 0 for an expert who resolved no recorded case. */
  lemma CaseSimilarityBounds(c: CaseData, e: Expert, history: seq<HistoryEntry>)
    ensures 0.0 <= CaseSimilarityScore(c, e, history) <= 100.0
    ensures (forall h :: h in history ==> !ResolvedByExpert(h, e)) ==> CaseSimilarityScore(c, e, history) == 0.0
  {
    var similar := SimilarCases(history, e);
    if |similar| > 0 {
      RatioBounds(CountRelevant(similar, c), |similar|);
      assert similar[0] in similar;
    }
  }

  /** Appending an entry the expert did not resolve leaves the expert's similar cases as they were. */
  lemma {:induction false} SimilarCasesAppend(history: seq<HistoryEntry>, h: HistoryEntry, e: Expert)
    requires !ResolvedByExpert(h, e)
    ensures SimilarCases(history + [h], e) == SimilarCases(history, e)
    decreases |history|
  {
    if history == [] {
      assert SimilarCases([h], e) == [] + SimilarCases([], e);
    } else {
      assert (history + [h])[1..] == history[1..] + [h];
      SimilarCasesAppend(history[1..], h, e);
    }
  }

  // ---------------------------------------------------------------------------
  // Match percentage

  const SkillWeight: real := 0.35
  const AvailabilityWeight: real := 0.20
  const ResponseTimeWeight: real := 0.15
  const SuccessRateWeight: real := 0.25
  const CaseSimilarityWeight: real := 0.05

  /** The criteria as reported with each result: name and weight in percent. */
  const Criteria: seq<Criterion> := [
    Criterion("Skill Relevance", 35),
    Criterion("Success Rate", 25),
    Criterion("Availability", 20),
    Criterion("Response Time", 15),
    Criterion("Case Similarity", 5)
  ]

  /** The reported criteria are the weights the score uses, and they add up to 100 percent. */
  lemma CriteriaAreTheWeights()
    ensures SkillWeight + AvailabilityWeight + ResponseTimeWeight + SuccessRateWeight + CaseSimilarityWeight == 1.0
    ensures Criteria[0].weight as real == SkillWeight * 100.0
    ensures Criteria[1].weight as real == SuccessRateWeight * 100.0
    ensures Criteria[2].weight as real == AvailabilityWeight * 100.0
    ensures Criteria[3].weight as real == ResponseTimeWeight * 100.0
    ensures Criteria[4].weight as real == CaseSimilarityWeight * 100.0
    ensures Criteria[0].weight + Criteria[1].weight + Criteria[2].weight + Criteria[3].weight + Criteria[4].weight == 100
  {
  }

  /** `Math.round`: the nearest integer, halves rounded up. */
  function Round(x: real): (r: int)
    ensures x - 0.5 < r as real <= x + 0.5
  {
    (x + 0.5).Floor
  }

  function WeightedSum(skill: real, availability: real, responseTime: real, successRate: real, similarity: real): real
  {
    skill * SkillWeight + availability * AvailabilityWeight + responseTime * ResponseTimeWeight
    + successRate * SuccessRateWeight + similarity * CaseSimilarityWeight
  }

  /** `calculateMatchPercentage`: the rounded weighted sum of the five sub-scores. */
  function MatchPercentage(c: CaseData, e: Expert, history: seq<HistoryEntry>): int
  {
    Round(WeightedSum(
      SkillRelevanceScore(c, e.skills),
      AvailabilityScore(e),
      ResponseTimeScore(e),
      SuccessRateScore(e),
      CaseSimilarityScore(c, e, history)))
  }

  /** Because the weights sum to 1, the match percentage of a well-formed expert lies in [0, 100]. */
  lemma MatchPercentageBounds(c: CaseData, e: Expert, history: seq<HistoryEntry>)
    requires WellFormed(e)
    ensures 0 <= MatchPercentage(c, e, history) <= 100
  {
    SkillRelevanceBounds(c, e.skills);
    CaseSimilarityBounds(c, e, history);
    var w := WeightedSum(
      SkillRelevanceScore(c, e.skills), AvailabilityScore(e), ResponseTimeScore(e),
      SuccessRateScore(e), CaseSimilarityScore(c, e, history));
    assert 0.0 <= w <= 100.0;
  }

  // ---------------------------------------------------------------------------
  // Ranking and qualification

  const QualificationThreshold: int := 60

  function Score(c: CaseData, e: Expert, history: seq<HistoryEntry>): ScoredExpert
  {
    ScoredExpert(
      e,
      MatchPercentage(c, e, history),
      SkillRelevanceScore(c, e.skills),
      AvailabilityScore(e),
      ResponseTimeScore(e),
      CaseSimilarityScore(c, e, history))
  }

  /** Every expert of the roster scored, in roster order. */
  function ScoreAll(c: CaseData, experts: seq<Expert>, history: seq<HistoryEntry>): (r: seq<ScoredExpert>)
    ensures |r| == |experts|
    ensures forall i :: 0 <= i < |experts| ==> r[i] == Score(c, experts[i], history)
  {
    seq(|experts|, i requires 0 <= i < |experts| => Score(c, experts[i], history))
  }

  /** The sort comparator `b.matchPercentage - a.matchPercentage` is negative. */
  predicate MoreMatched(a: ScoredExpert, b: ScoredExpert)
  {
    a.matchPercentage > b.matchPercentage
  }

  lemma MoreMatchedOrder()
    ensures StableSort.StrictWeakOrder(MoreMatched)
  {
  }

  /** Every expert scored, sorted by decreasing match percentage, ties in roster order. */
  function Ranked(c: CaseData, experts: seq<Expert>, history: seq<HistoryEntry>): seq<ScoredExpert>
  {
    StableSort.Sort(ScoreAll(c, experts, history), MoreMatched)
  }

  /** The experts at or above the threshold, in their order. */
  function Qualified(s: seq<ScoredExpert>): (r: seq<ScoredExpert>)
    ensures forall i :: 0 <= i < |r| ==> r[i].matchPercentage >= QualificationThreshold
    ensures forall x :: x in r <==> x in s && x.matchPercentage >= QualificationThreshold
    ensures |r| <= |s|
  {
    if s == [] then []
    else (if s[0].matchPercentage >= QualificationThreshold then [s[0]] else []) + Qualified(s[1..])
  }

  /** Non-increasing match percentages. */
  predicate NonIncreasing(s: seq<ScoredExpert>)
  {
    forall i, j :: 0 <= i < j < |s| ==> s[i].matchPercentage >= s[j].matchPercentage
  }

  lemma {:induction false} QualifiedAppend(a: seq<ScoredExpert>, b: seq<ScoredExpert>)
    ensures Qualified(a + b) == Qualified(a) + Qualified(b)
    decreases |a|
  {
    if a == [] {
      assert a + b == b;
    } else {
      assert (a + b)[0] == a[0];
      assert (a + b)[1..] == a[1..] + b;
      QualifiedAppend(a[1..], b);
    }
  }

  lemma {:induction false} QualifiedKeepsAll(a: seq<ScoredExpert>)
    requires forall i :: 0 <= i < |a| ==> a[i].matchPercentage >= QualificationThreshold
    ensures Qualified(a) == a
    decreases |a|
  {
    if a != [] {
      QualifiedKeepsAll(a[1..]);
      assert [a[0]] + a[1..] == a;
    }
  }

  lemma {:induction false} QualifiedKeepsNone(b: seq<ScoredExpert>)
    requires forall i :: 0 <= i < |b| ==> b[i].matchPercentage < QualificationThreshold
    ensures Qualified(b) == []
    decreases |b|
  {
    if b != [] {
      QualifiedKeepsNone(b[1..]);
    }
  }

  /** The index of the first expert below the threshold, or the length when there is none. */
  function FirstBelow(s: seq<ScoredExpert>): (k: nat)
    ensures k <= |s|
    ensures forall i :: 0 <= i < k ==> s[i].matchPercentage >= QualificationThreshold
    ensures k < |s| ==> s[k].matchPercentage < QualificationThreshold
  {
    if s == [] || s[0].matchPercentage < QualificationThreshold then 0 else 1 + FirstBelow(s[1..])
  }

  /** On a list sorted by decreasing match percentage, the qualified experts form a prefix. */
  lemma QualifiedIsPrefix(s: seq<ScoredExpert>)
    requires NonIncreasing(s)
    ensures Qualified(s) == s[..|Qualified(s)|]
    ensures forall i :: |Qualified(s)| <= i < |s| ==> s[i].matchPercentage < QualificationThreshold
  {
    var k := FirstBelow(s);
    var a, b := s[..k], s[k..];
    assert s == a + b;
    QualifiedAppend(a, b);
    QualifiedKeepsAll(a);
    QualifiedKeepsNone(b);
    assert Qualified(s) == a;
  }

  /** The sum of the match percentages. */
  function SumMatch(s: seq<ScoredExpert>): int
  {
    if s == [] then 0 else s[0].matchPercentage + SumMatch(s[1..])
  }

  lemma {:induction false} SumMatchAtLeast(s: seq<ScoredExpert>, lo: int)
    requires forall i :: 0 <= i < |s| ==> lo <= s[i].matchPercentage
    ensures lo * |s| <= SumMatch(s)
    decreases |s|
  {
    if s != [] {
      SumMatchAtLeast(s[1..], lo);
    }
  }

  /** `calculateOverallConfidence`: 0 for nobody, otherwise (mean + top) / 200 capped at 0.95. */
  function OverallConfidence(q: seq<ScoredExpert>): real
  {
    if |q| == 0 then 0.0
    else Min(0.95, (SumMatch(q) as real / |q| as real + q[0].matchPercentage as real) / 200.0)
  }

  lemma MeanAtLeast(sum: real, n: real, lo: real)
    requires n > 0.0 && sum >= lo * n
    ensures sum / n >= lo
  {
    var mean := sum / n;
    assert mean * n == sum;
    if mean < lo {
      assert mean * n < lo * n;
    }
  }

  /**
   * Confidence is never above 0.95, is 0 when nobody qualifies, and is at
   * least 0.6 when every listed expert reaches the threshold of 60.
   */
  lemma ConfidenceBounds(q: seq<ScoredExpert>)
    requires forall i :: 0 <= i < |q| ==> q[i].matchPercentage >= QualificationThreshold
    ensures OverallConfidence(q) <= 0.95
    ensures |q| == 0 ==> OverallConfidence(q) == 0.0
    ensures |q| > 0 ==> 0.6 <= OverallConfidence(q)
  {
    if |q| > 0 {
      SumMatchAtLeast(q, QualificationThreshold);
      MeanAtLeast(SumMatch(q) as real, |q| as real, 60.0);
    }
  }

  // ---------------------------------------------------------------------------
  // Key factors

  /** `skill + " expertise"` for each skill. */
  function SkillFactors(skills: seq<string>): (r: seq<string>)
    ensures |r| == |skills|
    ensures forall i :: 0 <= i < |skills| ==> r[i] == skills[i] + " expertise"
  {
    seq(|skills|, i requires 0 <= i < |skills| => skills[i] + " expertise")
  }

  /** At most the first three skills. */
  function TopSkills(skills: seq<string>): seq<string>
  {
    if |skills| <= 3 then skills else skills[..3]
  }

  /** The factors of the top-ranked expert before the list is cut to five. */
  function AllFactors(top: ScoredExpert): seq<string>
  {
    SkillFactors(TopSkills(top.expert.skills))
    + (if top.expert.availability == Available then ["Available for immediate response"] else [])
    + (if top.expert.successRate > 90.0 then ["High success rate with similar issues"] else [])
    + (if top.caseSimilarityScore > 50.0 then ["Recent similar case resolution"] else [])
  }

  /** `generateKeyFactors`: the top expert's factors, at most five; none without a qualified expert. */
  function KeyFactors(q: seq<ScoredExpert>): seq<string>
  {
    if q == [] then []
    else
      var f := AllFactors(q[0]);
      if |f| <= 5 then f else f[..5]
  }

  /**
   * Key factors are never more than five; there are none when nobody
   * qualifies and some when the top expert has a skill or is available; they
   * begin with the top expert's first (at most three) skills suffixed
   * " expertise".
   */
  lemma KeyFactorsSpec(q: seq<ScoredExpert>)
    ensures |KeyFactors(q)| <= 5
    ensures q == [] ==> KeyFactors(q) == []
    ensures q != [] && (|q[0].expert.skills| > 0 || q[0].expert.availability == Available) ==> KeyFactors(q) != []
    ensures q != [] ==>
      var skills := q[0].expert.skills;
      var n := if |skills| < 3 then |skills| else 3;
      && n <= |KeyFactors(q)|
      && forall i :: 0 <= i < n ==> KeyFactors(q)[i] == skills[i] + " expertise"
  {
    if q != [] {
      var f := AllFactors(q[0]);
      var sf := SkillFactors(TopSkills(q[0].expert.skills));
      assert f[..|sf|] == sf;
      if q[0].expert.availability == Available {
        assert f[|sf|] == "Available for immediate response";
      }
    }
  }

  /**
   * With three skills and all three conditions, six factors are produced and
   * the cut to five drops "Recent similar case resolution".
   */
  lemma SixthFactorDropped(q: seq<ScoredExpert>)
    requires q != [] && |q[0].expert.skills| >= 3
    requires q[0].expert.availability == Available
    requires q[0].expert.successRate > 90.0 && q[0].caseSimilarityScore > 50.0
    ensures |AllFactors(q[0])| == 6
    ensures "Recent similar case resolution" !in KeyFactors(q)
  {
    var f := AllFactors(q[0]);
    var skills := TopSkills(q[0].expert.skills);
    assert f == SkillFactors(skills) + ["Available for immediate response"]
      + ["High success rate with similar issues"] + ["Recent similar case resolution"];
    forall i | 0 <= i < 3 ensures f[i] != "Recent similar case resolution" {
      assert f[i] == skills[i] + " expertise";
      var s := f[i];
      assert s[|s| - 1] == 'e';
    }
  }

  /** The `forEach` over the top skills, pushing `<skill> expertise` for each. */
  method PushSkillFactors(relevant: seq<string>) returns (factors: seq<string>)
    ensures factors == SkillFactors(relevant)
  {
    factors := [];
    var i := 0;
    while i < |relevant|
      invariant 0 <= i <= |relevant|
      invariant factors == SkillFactors(relevant[..i])
    {
      assert SkillFactors(relevant[..i + 1]) == SkillFactors(relevant[..i]) + [relevant[i] + " expertise"];
      factors := factors + [relevant[i] + " expertise"];
      i := i + 1;
    }
    assert relevant[..|relevant|] == relevant;
  }

  /**
   * The generator as written: pushes the skill factors, then each condition's
   * factor, then keeps the first five.
   */
  method GenerateKeyFactors(q: seq<ScoredExpert>) returns (factors: seq<string>)
    ensures factors == KeyFactors(q)
  {
    factors := [];
    if |q| > 0 {
      var top := q[0];
      var relevant := TopSkills(top.expert.skills);
      factors := PushSkillFactors(relevant);
      if top.expert.availability == Available {
        factors := factors + ["Available for immediate response"];
      }
      if top.expert.successRate > 90.0 {
        factors := factors + ["High success rate with similar issues"];
      }
      if top.caseSimilarityScore > 50.0 {
        factors := factors + ["Recent similar case resolution"];
      }
    }
    if |factors| > 5 {
      factors := factors[..5];
    }
  }

  // ---------------------------------------------------------------------------
  // The whole match

  /** `matchExperts` for a given elapsed time (the wall clock is not modelled). */
  function Match(c: CaseData, experts: seq<Expert>, history: seq<HistoryEntry>, analysisTime: nat): MatchResult
  {
    var qualified := Qualified(Ranked(c, experts, history));
    MatchResult(
      qualified,
      analysisTime,
      |experts|,
      OverallConfidence(qualified),
      Criteria,
      KeyFactors(qualified))
  }

  lemma RankedIsStableSort(c: CaseData, experts: seq<Expert>, history: seq<HistoryEntry>)
    ensures StableSort.IsStableSortOf(Ranked(c, experts, history), ScoreAll(c, experts, history), MoreMatched)
    ensures NonIncreasing(Ranked(c, experts, history))
  {
    MoreMatchedOrder();
    StableSort.SortIsStable(ScoreAll(c, experts, history), MoreMatched);
  }

  /**
   * What `matchExperts` promises about its list: every expert of the roster
   * is evaluated; the listed experts all reach the threshold of 60 and come
   * by decreasing match percentage; they are exactly the qualifying prefix
   * of the full ranking, after which nobody qualifies.
   */
  lemma MatchRanking(c: CaseData, experts: seq<Expert>, history: seq<HistoryEntry>, analysisTime: nat)
    ensures var r := Match(c, experts, history, analysisTime);
      && r.expertsEvaluated == |experts|
      && r.analysisTime == analysisTime
      && r.criteria == Criteria
      && (forall i :: 0 <= i < |r.experts| ==> r.experts[i].matchPercentage >= QualificationThreshold)
      && NonIncreasing(r.experts)
      && |Ranked(c, experts, history)| == |experts|
      && r.experts == Ranked(c, experts, history)[..|r.experts|]
      && (forall i :: |r.experts| <= i < |experts| ==>
            Ranked(c, experts, history)[i].matchPercentage < QualificationThreshold)
  {
    var ranked := Ranked(c, experts, history);
    RankedIsStableSort(c, experts, history);
    MoreMatchedOrder();
    StableSort.SortLength(ScoreAll(c, experts, history), MoreMatched);
    QualifiedIsPrefix(ranked);
  }

  /** The listed experts are exactly the scored roster experts reaching the threshold. */
  lemma MatchMembers(c: CaseData, experts: seq<Expert>, history: seq<HistoryEntry>, analysisTime: nat)
    ensures forall x :: x in Match(c, experts, history, analysisTime).experts
                    <==> x in ScoreAll(c, experts, history) && x.matchPercentage >= QualificationThreshold
  {
    var ranked := Ranked(c, experts, history);
    RankedIsStableSort(c, experts, history);
    forall x ensures x in ranked <==> x in ScoreAll(c, experts, history) {
      assert x in ranked <==> x in multiset(ranked);
    }
  }

  /**
   * Confidence is 0 when nobody qualifies and within [0.6, 0.95] otherwise;
   * there are at most five key factors, none when nobody qualifies.
   */
  lemma MatchSummary(c: CaseData, experts: seq<Expert>, history: seq<HistoryEntry>, analysisTime: nat)
    ensures var r := Match(c, experts, history, analysisTime);
      && (|r.experts| == 0 ==> r.overallConfidence == 0.0)
      && (|r.experts| > 0 ==> 0.6 <= r.overallConfidence <= 0.95)
      && |r.keyFactors| <= 5
      && (r.experts == [] ==> r.keyFactors == [])
  {
    var q := Qualified(Ranked(c, experts, history));
    ConfidenceBounds(q);
    KeyFactorsSpec(q);
  }

  /**
   * Ties keep roster order among the qualified: for every qualifying
   * percentage, the listed experts with that percentage are those of the
   * roster, in roster order.
   */
  lemma MatchKeepsRosterOrderOnTies(c: CaseData, experts: seq<Expert>, history: seq<HistoryEntry>, analysisTime: nat, k: ScoredExpert)
    requires k.matchPercentage >= QualificationThreshold
    ensures StableSort.ClassOf(Match(c, experts, history, analysisTime).experts, k, MoreMatched)
         == StableSort.ClassOf(ScoreAll(c, experts, history), k, MoreMatched)
  {
    var ranked := Ranked(c, experts, history);
    RankedIsStableSort(c, experts, history);
    QualifiedKeepsClass(ranked, k);
    assert Match(c, experts, history, analysisTime).experts == Qualified(ranked);
  }

  /** Cutting a ranking at the threshold loses nobody tied with a qualifying expert. */
  lemma QualifiedKeepsClass(ranked: seq<ScoredExpert>, k: ScoredExpert)
    requires NonIncreasing(ranked)
    requires k.matchPercentage >= QualificationThreshold
    ensures StableSort.ClassOf(Qualified(ranked), k, MoreMatched) == StableSort.ClassOf(ranked, k, MoreMatched)
  {
    QualifiedIsPrefix(ranked);
    var q := Qualified(ranked);
    var rest := ranked[|q|..];
    assert ranked == q + rest;
    StableSort.ClassOfAppend(q, rest, k, MoreMatched);
    forall i | 0 <= i < |rest| ensures !StableSort.Equivalent(rest[i], k, MoreMatched) {
      assert rest[i] == ranked[|q| + i];
    }
    StableSort.ClassOfNone(rest, k, MoreMatched);
    assert StableSort.ClassOf(q, k, MoreMatched) + [] == StableSort.ClassOf(q, k, MoreMatched);
  }

  /**
   * Recording a case adds an open entry with no resolving expert, so no
   * similarity score, and hence no match result, changes.
   */
  lemma RecordedCaseChangesNoMatch(c: CaseData, experts: seq<Expert>, history: seq<HistoryEntry>,
                                   recorded: CaseData, createdAt: int, analysisTime: nat)
    ensures forall e :: CaseSimilarityScore(c, e, history + [OpenEntry(recorded, createdAt)])
                     == CaseSimilarityScore(c, e, history)
    ensures Match(c, experts, history + [OpenEntry(recorded, createdAt)], analysisTime)
         == Match(c, experts, history, analysisTime)
  {
    var h := OpenEntry(recorded, createdAt);
    forall e ensures CaseSimilarityScore(c, e, history + [h]) == CaseSimilarityScore(c, e, history) {
      SimilarCasesAppend(history, h, e);
    }
    assert ScoreAll(c, experts, history + [h]) == ScoreAll(c, experts, history);
  }

  // ---------------------------------------------------------------------------
  // Registry lookups and updates

  /** The history entry `addCaseToHistory` appends: status `open`, no resolver. */
  function OpenEntry(c: CaseData, createdAt: int): HistoryEntry
  {
    HistoryEntry(c.id, c.title, c.moduleName, c.severity, None, None, [], "open", Some(createdAt))
  }

  /** `find` by id: the position of the first expert with that id. */
  function FirstIndexOf(experts: seq<Expert>, id: string): (r: Option<nat>)
    ensures r.None? <==> forall i :: 0 <= i < |experts| ==> experts[i].id != id
    ensures r.Some? ==> r.value < |experts| && experts[r.value].id == id
                        && forall i :: 0 <= i < r.value ==> experts[i].id != id
  {
    if experts == [] then None
    else if experts[0].id == id then Some(0)
    else match FirstIndexOf(experts[1..], id)
      case None => None
      case Some(i) => Some(i + 1)
  }

  /** `getExpertById`: the first expert with the id, or nothing. */
  function FindExpert(experts: seq<Expert>, id: string): (r: Option<Expert>)
    ensures r.None? <==> forall i :: 0 <= i < |experts| ==> experts[i].id != id
    ensures r.Some? ==> r.value in experts && r.value.id == id
    ensures r.Some? ==> FirstIndexOf(experts, id).Some? && r.value == experts[FirstIndexOf(experts, id).value]
  {
    match FirstIndexOf(experts, id)
    case None => None
    case Some(i) => Some(experts[i])
  }

  /** The roster after `updateExpertAvailability(id, availability)`. */
  function WithAvailability(experts: seq<Expert>, id: string, availability: Availability): seq<Expert>
  {
    match FirstIndexOf(experts, id)
    case None => experts
    case Some(i) => experts[i := experts[i].(availability := availability)]
  }

  /**
   * The update changes only the availability of the first expert with the
   * id; an unknown id leaves the roster as it was; the roster keeps its
   * length and order.
   */
  lemma WithAvailabilitySpec(experts: seq<Expert>, id: string, availability: Availability)
    ensures var r := WithAvailability(experts, id, availability);
      && |r| == |experts|
      && ((forall i :: 0 <= i < |experts| ==> experts[i].id != id) ==> r == experts)
      && (forall i :: 0 <= i < |experts| ==>
            r[i] == if Some(i) == FirstIndexOf(experts, id)
                    then experts[i].(availability := availability) else experts[i])
      && (forall i :: 0 <= i < |experts| ==> r[i].(availability := experts[i].availability) == experts[i])
  {
  }

  /** Looking the expert up after the update finds it with the new availability. */
  lemma WithAvailabilityFound(experts: seq<Expert>, id: string, availability: Availability)
    requires exists i :: 0 <= i < |experts| && experts[i].id == id
    ensures FindExpert(WithAvailability(experts, id, availability), id)
         == Some(FindExpert(experts, id).value.(availability := availability))
  {
    var r := WithAvailability(experts, id, availability);
    var j := FirstIndexOf(experts, id).value;
    assert r == experts[j := experts[j].(availability := availability)];
    assert r[j].id == id;
    assert forall i :: 0 <= i < j ==> r[i].id != id;
    assert FirstIndexOf(r, id) == Some(j);
  }

  /** Taking an expert offline (or marking it busy) zeroes its availability score. */
  lemma UnavailableScoresZero(experts: seq<Expert>, id: string, availability: Availability)
    requires availability != Available
    requires exists i :: 0 <= i < |experts| && experts[i].id == id
    ensures FindExpert(WithAvailability(experts, id, availability), id).Some?
    ensures AvailabilityScore(FindExpert(WithAvailability(experts, id, availability), id).value) == 0.0
  {
    WithAvailabilityFound(experts, id, availability);
  }

  // ---------------------------------------------------------------------------
  // Seed data

  function SeedExperts(): seq<Expert>
  {
    [
      Expert("exp-001", "Dr. Michael Chen", "Senior Database Architect", Available, 96.0, 247, 5.0,
        ["PostgreSQL", "Connection Pooling", "Performance Tuning", "Database Architecture", "Query Optimization", "Monitoring"],
        ["Database Management", "Performance Optimization", "System Architecture"], "PST", 0.3,
        ["CASE-2024-089", "CASE-2024-092", "CASE-2024-095"], ["AWS Database Specialty", "PostgreSQL Professional"], 12),
      Expert("exp-002", "Elena Rodriguez", "DevOps Engineering Lead", Busy, 92.0, 189, 12.0,
        ["Infrastructure", "Database Scaling", "Load Balancing", "Monitoring", "AWS RDS", "Docker"],
        ["DevOps", "Infrastructure", "Cloud Architecture"], "EST", 0.8,
        ["CASE-2024-087", "CASE-2024-090"], ["AWS Solutions Architect", "Kubernetes Administrator"], 8),
      Expert("exp-003", "James Wilson", "Backend Systems Specialist", Available, 89.0, 156, 8.0,
        ["API Development", "Database Integration", "Connection Management", "Troubleshooting", "Node.js", "Redis"],
        ["Backend Development", "System Integration", "API Design"], "CST", 0.4,
        ["CASE-2024-088", "CASE-2024-091"], ["Node.js Certified Developer", "Redis Professional"], 6),
      Expert("exp-004", "Dr. Sarah Kim", "Senior Database Administrator", Available, 94.0, 203, 6.0,
        ["Database Administration", "Connection Pooling", "Performance Tuning", "Backup & Recovery", "Security", "PostgreSQL"],
        ["Database Administration", "Performance Optimization", "Security"], "PST", 0.2,
        ["CASE-2024-086", "CASE-2024-089", "CASE-2024-093"], ["Oracle DBA", "PostgreSQL Professional", "CISSP"], 10),
      Expert("exp-005", "Alex Thompson", "Cloud Infrastructure Engineer", Available, 91.0, 178, 10.0,
        ["Cloud Infrastructure", "Database Scaling", "AWS RDS", "Load Balancing", "Monitoring", "Terraform"],
        ["Cloud Architecture", "Infrastructure as Code", "DevOps"], "EST", 0.5,
        ["CASE-2024-085", "CASE-2024-088", "CASE-2024-092"],
        ["AWS Solutions Architect", "Kubernetes Administrator", "Terraform Associate"], 7)
    ]
  }

  function SeedHistory(): seq<HistoryEntry>
  {
    [
      HistoryEntry("CASE-2024-089", "Database Connection Pool Exhaustion", "Database Management", "high",
        Some("exp-001"), Some(45), ["Connection Pooling", "PostgreSQL", "Performance Tuning"], "resolved", None),
      HistoryEntry("CASE-2024-087", "Database Scaling Issues", "Infrastructure", "medium",
        Some("exp-002"), Some(120), ["Database Scaling", "AWS RDS", "Load Balancing"], "resolved", None),
      HistoryEntry("CASE-2024-088", "API Database Connection Timeout", "Backend Systems", "high",
        Some("exp-003"), Some(60), ["Database Integration", "Connection Management", "Troubleshooting"], "resolved", None)
    ]
  }

  /** The seeded roster is well formed: workloads in [0, 1], response times non-negative, success rates in [0, 100]. */
  lemma SeedExpertsWellFormed()
    ensures forall i :: 0 <= i < |SeedExperts()| ==> WellFormed(SeedExperts()[i])
  {
  }

  /** So every seeded expert's match percentage lies in [0, 100]. */
  lemma SeedExpertsScoresInRange(c: CaseData, history: seq<HistoryEntry>)
    ensures forall i :: 0 <= i < |SeedExperts()| ==> 0 <= MatchPercentage(c, SeedExperts()[i], history) <= 100
  {
    SeedExpertsWellFormed();
    forall i | 0 <= i < |SeedExperts()| ensures 0 <= MatchPercentage(c, SeedExperts()[i], history) <= 100 {
      MatchPercentageBounds(c, SeedExperts()[i], history);
    }
  }

  /** The `map` step of `matchExperts`: each roster expert copied with its scores, in roster order. */
  method ScoreRoster(c: CaseData, experts: seq<Expert>, history: seq<HistoryEntry>) returns (scored: seq<ScoredExpert>)
    ensures scored == ScoreAll(c, experts, history)
  {
    scored := [];
    var i := 0;
    while i < |experts|
      invariant 0 <= i <= |experts|
      invariant |scored| == i
      invariant forall j :: 0 <= j < i ==> scored[j] == Score(c, experts[j], history)
    {
      var e := experts[i];
      var skill := CalculateSkillRelevance(c, e.skills);
      scored := scored + [ScoredExpert(
        e, MatchPercentage(c, e, history), skill, AvailabilityScore(e),
        ResponseTimeScore(e), CaseSimilarityScore(c, e, history))];
      i := i + 1;
    }
  }

  // ---------------------------------------------------------------------------
  // The service object

  /** `ExpertMatchingService`: the roster and the case history, both updated in place. */
  class ExpertMatchingService {
    var experts: seq<Expert>
    var history: seq<HistoryEntry>

    constructor ()
      ensures experts == SeedExperts() && history == SeedHistory()
    {
      experts := SeedExperts();
      history := SeedHistory();
    }

    /**
     * Scores every expert, sorts a fresh array of the scored copies in place
     * by decreasing match percentage, keeps the qualified ones and reports.
     * It has no modifies clause: the roster and history are left as they are.
     */
    method MatchExperts(c: CaseData, analysisTime: nat) returns (r: MatchResult)
      ensures r == Match(c, experts, history, analysisTime)
    {
      var scored := ScoreRoster(c, experts, history);
      var sorted := new ScoredExpert[|scored|](j requires 0 <= j < |scored| => scored[j]);
      assert sorted[..] == scored;
      MoreMatchedOrder();
      StableSort.SortInPlace(sorted, MoreMatched);
      assert sorted[..] == Ranked(c, experts, history);
      var qualified := Qualified(sorted[..]);
      var keyFactors := GenerateKeyFactors(qualified);
      r := MatchResult(qualified, analysisTime, |experts|, OverallConfidence(qualified), Criteria, keyFactors);
    }

    function GetExpertById(id: string): (r: Option<Expert>)
      reads this
      ensures r.None? <==> forall i :: 0 <= i < |experts| ==> experts[i].id != id
      ensures r.Some? ==> r.value in experts && r.value.id == id
      ensures r.Some? ==> FirstIndexOf(experts, id).Some? && r.value == experts[FirstIndexOf(experts, id).value]
    {
      FindExpert(experts, id)
    }

    /** Sets the availability of the first expert with the id; does nothing for an unknown id. */
    method UpdateExpertAvailability(id: string, availability: Availability)
      modifies this
      ensures experts == WithAvailability(old(experts), id, availability)
      ensures history == old(history)
    {
      var i := 0;
      while i < |experts| && experts[i].id != id
        invariant 0 <= i <= |experts|
        invariant forall j :: 0 <= j < i ==> experts[j].id != id
      {
        i := i + 1;
      }
      if i < |experts| {
        assert FirstIndexOf(experts, id) == Some(i);
        experts := experts[i := experts[i].(availability := availability)];
      }
    }

    /** Appends one open entry for the case; earlier entries stay, duplicates are not checked. */
    method AddCaseToHistory(c: CaseData, createdAt: int)
      modifies this
      ensures history == old(history) + [OpenEntry(c, createdAt)]
      ensures experts == old(experts)
    {
      history := history + [OpenEntry(c, createdAt)];
    }
  }
}
