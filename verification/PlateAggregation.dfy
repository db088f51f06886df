/** From the readings of one track to its plate (application/voting.py, `aggregate`): clustering,
    scoring, consensus and normalization put together. */
module PlateAggregation {
  import EditDistance
  import PlateClusters
  import C = PlateConsensus
  import N = PlateNormalization
  import opened Options

  /** Missing texts are empty. */
  datatype Observation = Observation(
    raw: string, normalized: string, compact: string,
    ocr: real, quality: real, detection: real,
    corrections: seq<N.Correction>, partial: bool)

  datatype Rules = Rules(
    limit: nat,                              // edit distance within a cluster
    weights: seq<real>,                      // frequency, OCR, quality, detection, consensus
    reliability: Observation -> real,        // the cube root of the three scores' product
    support: nat -> real,                    // 1 - exp(-n / minimum observations)
    normalization: N.Config)

  datatype PlateCandidate = PlateCandidate(
    raw: string, normalized: string, compact: string, confidence: real,
    observationCount: nat, corrections: seq<N.Correction>, partial: bool)

  predicate UnitScores(o: Observation) {
    0.0 <= o.ocr <= 1.0 && 0.0 <= o.quality <= 1.0 && 0.0 <= o.detection <= 1.0
  }

  /** What the configuration and the two abstract functions guarantee. */
  ghost predicate Sensible(rules: Rules) {
    && |rules.weights| == 5 && (forall k :: 0 <= k < 5 ==> rules.weights[k] >= 0.0) && C.Weight(rules.weights) > 0.0
    && (forall o :: rules.reliability(o) >= 0.0)
    && (forall n :: 0.0 <= rules.support(n) <= 1.0)
  }

  // ----- which observations count

  predicate IsUseful(o: Observation) {
    o.compact != "" && o.normalized != ""
  }

  function Select(observations: seq<Observation>, completeOnly: bool): (selected: seq<Observation>)
    ensures forall o :: o in selected <==> o in observations && IsUseful(o) && (completeOnly ==> !o.partial)
  {
    if observations == [] then []
    else
      var last := observations[|observations| - 1];
      var before := Select(observations[..|observations| - 1], completeOnly);
      if IsUseful(last) && (completeOnly ==> !last.partial) then before + [last] else before
  }

  /** Complete readings when there are any, otherwise the partial ones. */
  function Useful(observations: seq<Observation>): seq<Observation> {
    if Select(observations, true) != [] then Select(observations, true) else Select(observations, false)
  }

  // ----- scoring a cluster

  function Ocr(cluster: seq<Observation>): real {
    if cluster == [] then 0.0 else Ocr(cluster[..|cluster| - 1]) + cluster[|cluster| - 1].ocr
  }

  function Quality(cluster: seq<Observation>): real {
    if cluster == [] then 0.0 else Quality(cluster[..|cluster| - 1]) + cluster[|cluster| - 1].quality
  }

  function Detection(cluster: seq<Observation>): real {
    if cluster == [] then 0.0 else Detection(cluster[..|cluster| - 1]) + cluster[|cluster| - 1].detection
  }

  lemma {:induction false} SumsAreBounded(cluster: seq<Observation>)
    requires forall k :: 0 <= k < |cluster| ==> UnitScores(cluster[k])
    ensures 0.0 <= Ocr(cluster) <= |cluster| as real
    ensures 0.0 <= Quality(cluster) <= |cluster| as real
    ensures 0.0 <= Detection(cluster) <= |cluster| as real
  {
    if cluster != [] { SumsAreBounded(cluster[..|cluster| - 1]); }
  }

  function Components(cluster: seq<Observation>, total: nat, agreement: real): seq<real>
    requires cluster != [] && total > 0
  {
    var n := |cluster| as real;
    [n / (total as real), Ocr(cluster) / n, Quality(cluster) / n, Detection(cluster) / n, agreement]
  }

  function Score(rules: Rules, cluster: seq<Observation>, total: nat, agreement: real): real
    requires cluster != [] && total > 0 && |rules.weights| == 5 && C.Weight(rules.weights) != 0.0
  {
    C.Dot(Components(cluster, total, agreement), rules.weights) / C.Weight(rules.weights)
  }

  lemma ScoreBounds(rules: Rules, cluster: seq<Observation>, total: nat, agreement: real)
    requires Sensible(rules) && cluster != [] && |cluster| <= total && 0.0 <= agreement <= 1.0
    requires forall k :: 0 <= k < |cluster| ==> UnitScores(cluster[k])
    ensures 0.0 <= Score(rules, cluster, total, agreement) <= 1.0
  {
    SumsAreBounded(cluster);
    var n := |cluster| as real;
    C.Ratio(n, total as real);
    C.Ratio(Ocr(cluster), n);
    C.Ratio(Quality(cluster), n);
    C.Ratio(Detection(cluster), n);
    C.ClusterScoreBounds(Components(cluster, total, agreement), rules.weights);
  }

  // ----- the parts of a candidate

  function VotesOf(rules: Rules, cluster: seq<Observation>): (votes: seq<C.Vote>)
    ensures |votes| == |cluster| && forall k :: 0 <= k < |votes| ==> votes[k] == C.Vote(cluster[k].compact, rules.reliability(cluster[k]))
  {
    seq(|cluster|, k requires 0 <= k < |cluster| => C.Vote(cluster[k].compact, rules.reliability(cluster[k])))
  }

  /** `k` is the first index of greatest reliability. */
  ghost predicate MostReliableAt(rules: Rules, cluster: seq<Observation>, k: nat) {
    && k < |cluster|
    && (forall i :: 0 <= i < |cluster| ==> rules.reliability(cluster[i]) <= rules.reliability(cluster[k]))
    && (forall i :: 0 <= i < k ==> rules.reliability(cluster[i]) < rules.reliability(cluster[k]))
  }

  method MostReliable(rules: Rules, cluster: seq<Observation>) returns (best: nat)
    requires cluster != []
    ensures MostReliableAt(rules, cluster, best)
  {
    best := 0;
    for k := 1 to |cluster|
      invariant best < k
      invariant forall i :: 0 <= i < k ==> rules.reliability(cluster[i]) <= rules.reliability(cluster[best])
      invariant forall i :: 0 <= i < best ==> rules.reliability(cluster[i]) < rules.reliability(cluster[best])
    {
      if rules.reliability(cluster[k]) > rules.reliability(cluster[best]) { best := k; }
    }
  }

  /** Nearer to the text, or as near and more reliable. */
  predicate Nearer(rules: Rules, o: Observation, other: Observation, compact: string) {
    || EditDistance.Lev(o.compact, compact) < EditDistance.Lev(other.compact, compact)
    || (EditDistance.Lev(o.compact, compact) == EditDistance.Lev(other.compact, compact) && rules.reliability(o) > rules.reliability(other))
  }

  /** `k` is the first index whose reading represents the text best. */
  ghost predicate RepresentsAt(rules: Rules, cluster: seq<Observation>, compact: string, k: nat) {
    && k < |cluster|
    && (forall i :: 0 <= i < |cluster| ==> !Nearer(rules, cluster[i], cluster[k], compact))
    && (forall i :: 0 <= i < k ==> Nearer(rules, cluster[k], cluster[i], compact))
  }

  method Representative(rules: Rules, cluster: seq<Observation>, compact: string) returns (best: nat)
    requires cluster != []
    ensures RepresentsAt(rules, cluster, compact, best)
  {
    best := 0;
    var least := EditDistance.TwoRowDistance(cluster[0].compact, compact);
    for k := 1 to |cluster|
      invariant best < k && least == EditDistance.Lev(cluster[best].compact, compact)
      invariant forall i :: 0 <= i < k ==> !Nearer(rules, cluster[i], cluster[best], compact)
      invariant forall i :: 0 <= i < best ==> Nearer(rules, cluster[best], cluster[i], compact)
    {
      var distance := EditDistance.TwoRowDistance(cluster[k].compact, compact);
      if distance < least || (distance == least && rules.reliability(cluster[k]) > rules.reliability(cluster[best])) {
        best, least := k, distance;
      }
    }
  }

  function Members(observations: seq<Observation>, indices: seq<nat>): (cluster: seq<Observation>)
    requires forall k :: 0 <= k < |indices| ==> indices[k] < |observations|
    ensures |cluster| == |indices| && forall k :: 0 <= k < |indices| ==> cluster[k] == observations[indices[k]]
  {
    seq(|indices|, k requires 0 <= k < |indices| => observations[indices[k]])
  }

  /** The most reliable reading, normalized. */
  ghost predicate FromBest(rules: Rules, cluster: seq<Observation>, m: N.Result) {
    exists k: nat :: MostReliableAt(rules, cluster, k) && N.Normalizes(rules.normalization, cluster[k].compact, m)
  }

  /** The consensus when it is a plate, otherwise the most reliable reading when that is one. */
  ghost predicate PlateFrom(rules: Rules, cluster: seq<Observation>, consensus: string, r: Option<N.Result>) {
    exists n :: N.Normalizes(rules.normalization, consensus, n) &&
      if n.valid then r == Some(n) else exists m :: FromBest(rules, cluster, m) && r == if m.valid then Some(m) else None
  }

  /** The plate of a cluster, and how far its readings agree. */
  method PlateOf(rules: Rules, cluster: seq<Observation>) returns (r: Option<N.Result>, consensus: string, agreement: real)
    requires Sensible(rules) && cluster != []
    ensures C.IsConsensus(VotesOf(rules, cluster), consensus) && agreement == C.Agreement(VotesOf(rules, cluster), consensus)
    ensures 0.0 <= agreement <= 1.0 && PlateFrom(rules, cluster, consensus, r)
  {
    var votes := VotesOf(rules, cluster);
    consensus, agreement := C.CharacterConsensus(votes);
    C.FullAgreementIff(votes, consensus);
    var normalized := N.Normalize(rules.normalization, consensus);
    if !normalized.valid {
      var best := MostReliable(rules, cluster);
      normalized := N.Normalize(rules.normalization, cluster[best].compact);
      assert FromBest(rules, cluster, normalized);
    }
    r := if normalized.valid then Some(normalized) else None;
  }

  // ----- the winning cluster

  predicate NotWorse(score: real, size: nat, other: real, otherSize: nat) {
    score > other || (score == other && size >= otherSize)
  }

  /** The score of a cluster, by its consensus. */
  ghost predicate ScoredBy(rules: Rules, cluster: seq<Observation>, total: nat, score: real)
    requires cluster != [] && total > 0 && |rules.weights| == 5 && C.Weight(rules.weights) != 0.0
  {
    exists consensus :: C.IsConsensus(VotesOf(rules, cluster), consensus)
      && score == Score(rules, cluster, total, C.Agreement(VotesOf(rules, cluster), consensus))
  }

  /** Indices of non-empty clusters of `useful`. */
  predicate Indexes(clusters: seq<seq<nat>>, n: nat) {
    forall g :: 0 <= g < |clusters| ==> clusters[g] != [] && forall k :: 0 <= k < |clusters[g]| ==> clusters[g][k] < n
  }

  /** The `g`-th score is that of the `g`-th cluster. */
  ghost predicate ScoreAt(rules: Rules, useful: seq<Observation>, clusters: seq<seq<nat>>, scores: seq<real>, g: nat)
    requires Sensible(rules) && useful != [] && Indexes(clusters, |useful|) && g < |clusters| && g < |scores|
  {
    ScoredBy(rules, Members(useful, clusters[g]), |useful|, scores[g])
  }

  lemma ScoresStay(rules: Rules, useful: seq<Observation>, clusters: seq<seq<nat>>, scores: seq<real>, score: real)
    requires Sensible(rules) && useful != [] && Indexes(clusters, |useful|) && |scores| < |clusters|
    requires forall g :: 0 <= g < |scores| ==> ScoreAt(rules, useful, clusters, scores, g)
    requires ScoredBy(rules, Members(useful, clusters[|scores|]), |useful|, score)
    ensures forall g :: 0 <= g < |scores| + 1 ==> ScoreAt(rules, useful, clusters, scores + [score], g)
  {
    forall g | 0 <= g < |scores| ensures ScoreAt(rules, useful, clusters, scores + [score], g) {
      assert ScoreAt(rules, useful, clusters, scores, g);
    }
    assert ScoreAt(rules, useful, clusters, scores + [score], |scores|);
  }

  method ScoreClusters(rules: Rules, useful: seq<Observation>, clusters: seq<seq<nat>>) returns (scores: seq<real>)
    requires Sensible(rules) && useful != [] && Indexes(clusters, |useful|)
    ensures |scores| == |clusters|
    ensures forall g :: 0 <= g < |clusters| ==> ScoreAt(rules, useful, clusters, scores, g)
  {
    scores := [];
    for g := 0 to |clusters|
      invariant |scores| == g
      invariant forall h :: 0 <= h < g ==> ScoreAt(rules, useful, clusters, scores, h)
    {
      var score := ScoreOf(rules, Members(useful, clusters[g]), |useful|);
      ScoresStay(rules, useful, clusters, scores, score);
      scores := scores + [score];
    }
  }

  method ScoreOf(rules: Rules, cluster: seq<Observation>, total: nat) returns (score: real)
    requires Sensible(rules) && cluster != [] && total > 0
    ensures ScoredBy(rules, cluster, total, score)
  {
    var consensus, agreement := C.CharacterConsensus(VotesOf(rules, cluster));
    score := Score(rules, cluster, total, agreement);
  }

  /** The first cluster of greatest score and, among equals, of greatest size. */
  method BestCluster(clusters: seq<seq<nat>>, scores: seq<real>) returns (winner: nat)
    requires clusters != [] && |scores| == |clusters|
    ensures winner < |clusters|
    ensures forall g :: 0 <= g < |clusters| ==> NotWorse(scores[winner], |clusters[winner]|, scores[g], |clusters[g]|)
    ensures forall g :: 0 <= g < winner ==> !NotWorse(scores[g], |clusters[g]|, scores[winner], |clusters[winner]|)
  {
    winner := 0;
    for g := 1 to |clusters|
      invariant winner < g
      invariant forall h :: 0 <= h < g ==> NotWorse(scores[winner], |clusters[winner]|, scores[h], |clusters[h]|)
      invariant forall h :: 0 <= h < winner ==> !NotWorse(scores[h], |clusters[h]|, scores[winner], |clusters[winner]|)
    {
      if !NotWorse(scores[winner], |clusters[winner]|, scores[g], |clusters[g]|) { winner := g; }
    }
  }

  // ----- the candidate

  function Texts(observations: seq<Observation>): (texts: seq<string>)
    ensures |texts| == |observations| && forall k :: 0 <= k < |texts| ==> texts[k] == observations[k].compact
  {
    seq(|observations|, k requires 0 <= k < |observations| => observations[k].compact)
  }

  /** The confidence that the cluster's score and agreement give. */
  function Confidence(rules: Rules, cluster: seq<Observation>, total: nat, agreement: real): real
    requires cluster != [] && total > 0 && |rules.weights| == 5 && C.Weight(rules.weights) != 0.0
  {
    C.Clamped(C.Raised(Score(rules, cluster, total, agreement), rules.support(|cluster|), agreement))
  }

  /** The candidate's texts are those of the normalized plate. */
  predicate Writes(c: PlateCandidate, n: N.Result) {
    n.compact == Some(c.compact) && n.normalized == Some(c.normalized) && n.partial == c.partial
  }

  /** It quotes the reading of the cluster that represents its text best; a plate that needed no
      correction carries the corrections of that reading. */
  ghost predicate Quotes(rules: Rules, cluster: seq<Observation>, n: N.Result, c: PlateCandidate) {
    exists k: nat :: RepresentsAt(rules, cluster, c.compact, k) && c.raw == cluster[k].raw
      && c.corrections == if n.corrections != [] then n.corrections else cluster[k].corrections
  }

  /** The candidate of a cluster with this consensus and normalized plate. */
  ghost predicate Built(rules: Rules, cluster: seq<Observation>, total: nat, consensus: string, n: N.Result, c: PlateCandidate)
    requires Sensible(rules) && cluster != [] && total > 0
  {
    && C.IsConsensus(VotesOf(rules, cluster), consensus) && PlateFrom(rules, cluster, consensus, Some(n))
    && Writes(c, n) && Quotes(rules, cluster, n, c) && c.observationCount == |cluster|
    && c.confidence == Confidence(rules, cluster, total, C.Agreement(VotesOf(rules, cluster), consensus))
  }

  ghost predicate CandidateOf(rules: Rules, cluster: seq<Observation>, total: nat, c: PlateCandidate)
    requires Sensible(rules) && cluster != [] && total > 0
  {
    exists consensus, n :: Built(rules, cluster, total, consensus, n, c)
  }

  /** A cluster whose consensus and whose most reliable reading are no plates has no candidate. */
  ghost predicate NoPlate(rules: Rules, cluster: seq<Observation>) {
    exists consensus :: C.IsConsensus(VotesOf(rules, cluster), consensus) && PlateFrom(rules, cluster, consensus, None)
  }

  /** What `aggregate` may return for a winning cluster. */
  ghost predicate Yields(rules: Rules, cluster: seq<Observation>, total: nat, r: Option<PlateCandidate>)
    requires Sensible(rules) && cluster != [] && total > 0
  {
    match r
    case None => NoPlate(rules, cluster)
    case Some(c) => CandidateOf(rules, cluster, total, c)
  }

  lemma ValidHasTexts(rules: Rules, cluster: seq<Observation>, consensus: string, n: N.Result)
    requires PlateFrom(rules, cluster, consensus, Some(n))
    ensures n.valid && n.compact.Some? && n.normalized.Some?
  {
  }

  /** The candidate of the winning cluster. */
  method Candidate(rules: Rules, cluster: seq<Observation>, total: nat) returns (r: Option<PlateCandidate>)
    requires Sensible(rules) && cluster != [] && total > 0
    ensures Yields(rules, cluster, total, r)
  {
    var plate, consensus, agreement := PlateOf(rules, cluster);
    if plate.None? { return None; }
    var n := plate.value;
    ValidHasTexts(rules, cluster, consensus, n);
    var confidence := Confidence(rules, cluster, total, agreement);
    var k := Representative(rules, cluster, n.compact.value);
    var corrections := if n.corrections != [] then n.corrections else cluster[k].corrections;
    var c := PlateCandidate(cluster[k].raw, n.normalized.value, n.compact.value, confidence, |cluster|, corrections, n.partial);
    Assembled(rules, cluster, total, consensus, n, k, c);
    r := Some(c);
  }

  lemma Assembled(rules: Rules, cluster: seq<Observation>, total: nat, consensus: string, n: N.Result, k: nat, c: PlateCandidate)
    requires Sensible(rules) && cluster != [] && total > 0
    requires C.IsConsensus(VotesOf(rules, cluster), consensus) && PlateFrom(rules, cluster, consensus, Some(n))
    requires Writes(c, n) && c.observationCount == |cluster|
    requires RepresentsAt(rules, cluster, c.compact, k) && c.raw == cluster[k].raw
    requires c.corrections == if n.corrections != [] then n.corrections else cluster[k].corrections
    requires c.confidence == Confidence(rules, cluster, total, C.Agreement(VotesOf(rules, cluster), consensus))
    ensures CandidateOf(rules, cluster, total, c)
  {
    assert Quotes(rules, cluster, n, c);
    assert Built(rules, cluster, total, consensus, n, c);
  }

  lemma ClustersIndex(useful: seq<Observation>, limit: nat, clusters: seq<seq<nat>>)
    requires useful != [] && PlateClusters.Components(Texts(useful), limit, clusters) && PlateClusters.InOrder(clusters)
    ensures clusters != [] && Indexes(clusters, |useful|)
  {
    assert PlateClusters.InSome(clusters, 0);
  }

  /** `winner` is the first cluster of greatest score and, among equals, of greatest size. */
  ghost predicate IsFirstBest(clusters: seq<seq<nat>>, scores: seq<real>, winner: nat)
    requires |scores| == |clusters|
  {
    && winner < |clusters|
    && (forall g :: 0 <= g < |clusters| ==> NotWorse(scores[winner], |clusters[winner]|, scores[g], |clusters[g]|))
    && (forall g :: 0 <= g < winner ==> !NotWorse(scores[g], |clusters[g]|, scores[winner], |clusters[winner]|))
  }

  ghost predicate Scored(rules: Rules, useful: seq<Observation>, clusters: seq<seq<nat>>, scores: seq<real>)
    requires Sensible(rules) && useful != [] && Indexes(clusters, |useful|)
  {
    |scores| == |clusters| && forall g :: 0 <= g < |clusters| ==> ScoreAt(rules, useful, clusters, scores, g)
  }

  ghost predicate Clustered(rules: Rules, useful: seq<Observation>, clusters: seq<seq<nat>>) {
    PlateClusters.Components(Texts(useful), rules.limit, clusters) && PlateClusters.InOrder(clusters) && Indexes(clusters, |useful|)
  }

  /** The connected components of the useful readings, and the one that wins. */
  ghost predicate Wins(rules: Rules, useful: seq<Observation>, clusters: seq<seq<nat>>, winner: nat)
    requires Sensible(rules) && useful != []
  {
    Clustered(rules, useful, clusters) && exists scores :: Scored(rules, useful, clusters, scores) && IsFirstBest(clusters, scores, winner)
  }

  method WinningCluster(rules: Rules, useful: seq<Observation>) returns (clusters: seq<seq<nat>>, winner: nat)
    requires Sensible(rules) && useful != []
    ensures Wins(rules, useful, clusters, winner)
  {
    clusters := PlateClusters.Clusters(Texts(useful), rules.limit);
    ClustersIndex(useful, rules.limit, clusters);
    var scores := ScoreClusters(rules, useful, clusters);
    winner := BestCluster(clusters, scores);
    assert Scored(rules, useful, clusters, scores) && IsFirstBest(clusters, scores, winner);
  }

  /** The result of the winning component of the useful readings. */
  ghost predicate Aggregates(rules: Rules, useful: seq<Observation>, r: Option<PlateCandidate>)
    requires Sensible(rules) && useful != []
  {
    exists clusters, winner :: Wins(rules, useful, clusters, winner) && Yields(rules, Members(useful, clusters[winner]), |useful|, r)
  }

  /** `aggregate`: among the connected components of the useful readings the first of greatest
      score and size gives the candidate. */
  method Aggregate(rules: Rules, observations: seq<Observation>) returns (r: Option<PlateCandidate>)
    requires Sensible(rules)
    ensures if Useful(observations) == [] then r == None else Aggregates(rules, Useful(observations), r)
  {
    var useful := Useful(observations);
    if useful == [] { return None; }
    var clusters, winner := WinningCluster(rules, useful);
    r := Candidate(rules, Members(useful, clusters[winner]), |useful|);
  }

  // ----- the result is determined

  lemma ScoreIsUnique(rules: Rules, cluster: seq<Observation>, total: nat, a: real, b: real)
    requires cluster != [] && total > 0 && |rules.weights| == 5 && C.Weight(rules.weights) != 0.0
    requires ScoredBy(rules, cluster, total, a) && ScoredBy(rules, cluster, total, b)
    ensures a == b
  {
    var votes := VotesOf(rules, cluster);
    var one :| C.IsConsensus(votes, one) && a == Score(rules, cluster, total, C.Agreement(votes, one));
    var two :| C.IsConsensus(votes, two) && b == Score(rules, cluster, total, C.Agreement(votes, two));
    C.ConsensusIsUnique(votes, one, two);
  }

  lemma FirstBestIsUnique(clusters: seq<seq<nat>>, scores: seq<real>, a: nat, b: nat)
    requires |scores| == |clusters| && IsFirstBest(clusters, scores, a) && IsFirstBest(clusters, scores, b)
    ensures a == b
  {
    assert NotWorse(scores[a], |clusters[a]|, scores[b], |clusters[b]|);
    assert NotWorse(scores[b], |clusters[b]|, scores[a], |clusters[a]|);
  }

  lemma WinnerIsUnique(rules: Rules, useful: seq<Observation>, clusters: seq<seq<nat>>, a: nat, others: seq<seq<nat>>, b: nat)
    requires Sensible(rules) && useful != [] && Wins(rules, useful, clusters, a) && Wins(rules, useful, others, b)
    ensures clusters == others && a == b
  {
    PlateClusters.ComponentsAreUnique(Texts(useful), rules.limit, clusters, others);
    var scores :| Scored(rules, useful, clusters, scores) && IsFirstBest(clusters, scores, a);
    var again :| Scored(rules, useful, others, again) && IsFirstBest(others, again, b);
    forall g | 0 <= g < |clusters| ensures scores[g] == again[g] {
      assert ScoreAt(rules, useful, clusters, scores, g) && ScoreAt(rules, useful, others, again, g);
      ScoreIsUnique(rules, Members(useful, clusters[g]), |useful|, scores[g], again[g]);
    }
    assert scores == again;
    FirstBestIsUnique(clusters, scores, a, b);
  }

  lemma FromBestIsUnique(rules: Rules, cluster: seq<Observation>, m: N.Result, n: N.Result)
    requires FromBest(rules, cluster, m) && FromBest(rules, cluster, n)
    ensures m == n
  {
    var j: nat :| MostReliableAt(rules, cluster, j) && N.Normalizes(rules.normalization, cluster[j].compact, m);
    var k: nat :| MostReliableAt(rules, cluster, k) && N.Normalizes(rules.normalization, cluster[k].compact, n);
    assert j == k;
    N.ResultIsUnique(rules.normalization, cluster[j].compact, m, n);
  }

  lemma PlateIsUnique(rules: Rules, cluster: seq<Observation>, consensus: string, a: Option<N.Result>, b: Option<N.Result>)
    requires PlateFrom(rules, cluster, consensus, a) && PlateFrom(rules, cluster, consensus, b)
    ensures a == b
  {
    var m :| N.Normalizes(rules.normalization, consensus, m)
      && if m.valid then a == Some(m) else exists x :: FromBest(rules, cluster, x) && a == if x.valid then Some(x) else None;
    var n :| N.Normalizes(rules.normalization, consensus, n)
      && if n.valid then b == Some(n) else exists x :: FromBest(rules, cluster, x) && b == if x.valid then Some(x) else None;
    N.ResultIsUnique(rules.normalization, consensus, m, n);
    if !m.valid {
      var x :| FromBest(rules, cluster, x) && a == if x.valid then Some(x) else None;
      var y :| FromBest(rules, cluster, y) && b == if y.valid then Some(y) else None;
      FromBestIsUnique(rules, cluster, x, y);
    }
  }

  lemma BuiltIsUnique(rules: Rules, cluster: seq<Observation>, total: nat, consensus: string, m: N.Result, a: PlateCandidate, n: N.Result, b: PlateCandidate)
    requires Sensible(rules) && cluster != [] && total > 0
    requires Built(rules, cluster, total, consensus, m, a) && Built(rules, cluster, total, consensus, n, b)
    ensures a == b
  {
    PlateIsUnique(rules, cluster, consensus, Some(m), Some(n));
    var j: nat :| RepresentsAt(rules, cluster, a.compact, j) && a.raw == cluster[j].raw
      && a.corrections == if m.corrections != [] then m.corrections else cluster[j].corrections;
    var k: nat :| RepresentsAt(rules, cluster, b.compact, k) && b.raw == cluster[k].raw
      && b.corrections == if n.corrections != [] then n.corrections else cluster[k].corrections;
    assert a.compact == b.compact && j == k;
  }

  lemma YieldIsUnique(rules: Rules, cluster: seq<Observation>, total: nat, a: Option<PlateCandidate>, b: Option<PlateCandidate>)
    requires Sensible(rules) && cluster != [] && total > 0
    requires Yields(rules, cluster, total, a) && Yields(rules, cluster, total, b)
    ensures a == b
  {
    var votes := VotesOf(rules, cluster);
    var one, m := PlateOfYield(rules, cluster, total, a);
    var two, n := PlateOfYield(rules, cluster, total, b);
    C.ConsensusIsUnique(votes, one, two);
    PlateIsUnique(rules, cluster, one, m, n);
    if m.Some? { BuiltIsUnique(rules, cluster, total, one, m.value, a.value, n.value, b.value); }
  }

  lemma PlateOfYield(rules: Rules, cluster: seq<Observation>, total: nat, r: Option<PlateCandidate>) returns (consensus: string, n: Option<N.Result>)
    requires Sensible(rules) && cluster != [] && total > 0 && Yields(rules, cluster, total, r)
    ensures C.IsConsensus(VotesOf(rules, cluster), consensus) && PlateFrom(rules, cluster, consensus, n)
    ensures n.Some? == r.Some? && (n.Some? ==> Built(rules, cluster, total, consensus, n.value, r.value))
  {
    if r.Some? {
      var text, plate :| Built(rules, cluster, total, text, plate, r.value);
      consensus, n := text, Some(plate);
    } else {
      consensus :| C.IsConsensus(VotesOf(rules, cluster), consensus) && PlateFrom(rules, cluster, consensus, None);
      n := None;
    }
  }

  lemma WinnerOf(rules: Rules, useful: seq<Observation>, r: Option<PlateCandidate>) returns (clusters: seq<seq<nat>>, winner: nat)
    requires Sensible(rules) && useful != [] && Aggregates(rules, useful, r)
    ensures Wins(rules, useful, clusters, winner) && Yields(rules, Members(useful, clusters[winner]), |useful|, r)
  {
    var found, best :| Wins(rules, useful, found, best) && Yields(rules, Members(useful, found[best]), |useful|, r);
    clusters, winner := found, best;
  }

  /** The readings determine the candidate: its plate, its quotation, its corrections and its
      confidence, ties included. */
  lemma AggregateIsDetermined(rules: Rules, useful: seq<Observation>, a: Option<PlateCandidate>, b: Option<PlateCandidate>)
    requires Sensible(rules) && useful != [] && Aggregates(rules, useful, a) && Aggregates(rules, useful, b)
    ensures a == b
  {
    var clusters, i := WinnerOf(rules, useful, a);
    var others, j := WinnerOf(rules, useful, b);
    WinnerIsUnique(rules, useful, clusters, i, others, j);
    YieldIsUnique(rules, Members(useful, clusters[i]), |useful|, a, b);
  }

  // ----- what the candidate means

  /** The confidence is a fraction below 1, and at least the cluster's score as far as the cap of
      0.999 allows. */
  lemma ConfidenceIsBounded(rules: Rules, cluster: seq<Observation>, total: nat, c: PlateCandidate, score: real)
    requires Sensible(rules) && cluster != [] && |cluster| <= total && forall k :: 0 <= k < |cluster| ==> UnitScores(cluster[k])
    requires CandidateOf(rules, cluster, total, c) && ScoredBy(rules, cluster, total, score)
    ensures 0.0 <= c.confidence <= 0.999 && (score <= c.confidence || c.confidence == 0.999)
  {
    var votes := VotesOf(rules, cluster);
    var consensus :| C.IsConsensus(votes, consensus) && score == Score(rules, cluster, total, C.Agreement(votes, consensus));
    var _ := PlateOfCandidate(rules, cluster, total, c, consensus);
    RaisedIsBounded(rules, cluster, total, consensus);
  }

  lemma RaisedIsBounded(rules: Rules, cluster: seq<Observation>, total: nat, consensus: string)
    requires Sensible(rules) && cluster != [] && |cluster| <= total && forall k :: 0 <= k < |cluster| ==> UnitScores(cluster[k])
    requires C.IsConsensus(VotesOf(rules, cluster), consensus)
    ensures var agreement := C.Agreement(VotesOf(rules, cluster), consensus);
      var confidence := Confidence(rules, cluster, total, agreement);
      0.0 <= confidence <= 0.999 && (Score(rules, cluster, total, agreement) <= confidence || confidence == 0.999)
  {
    var agreement := C.Agreement(VotesOf(rules, cluster), consensus);
    C.FullAgreementIff(VotesOf(rules, cluster), consensus);
    ScoreBounds(rules, cluster, total, agreement);
    C.ConfidenceBounds(Score(rules, cluster, total, agreement), rules.support(|cluster|), agreement);
  }

  lemma {:induction false} AscendingFits(indices: seq<nat>, n: nat)
    requires forall k, m :: 0 <= k < m < |indices| ==> indices[k] < indices[m]
    requires forall k :: 0 <= k < |indices| ==> indices[k] < n
    ensures |indices| <= n
  {
    if indices != [] {
      var last := indices[|indices| - 1];
      AscendingFits(indices[..|indices| - 1], last);
    }
  }

  lemma WinnerIsScored(rules: Rules, useful: seq<Observation>, clusters: seq<seq<nat>>, winner: nat) returns (score: real)
    requires Sensible(rules) && useful != [] && Wins(rules, useful, clusters, winner)
    ensures ScoredBy(rules, Members(useful, clusters[winner]), |useful|, score) && |clusters[winner]| <= |useful|
  {
    var scores :| Scored(rules, useful, clusters, scores) && IsFirstBest(clusters, scores, winner);
    assert ScoreAt(rules, useful, clusters, scores, winner);
    AscendingFits(clusters[winner], |useful|);
    score := scores[winner];
  }

  lemma MembersHaveUnitScores(useful: seq<Observation>, indices: seq<nat>)
    requires forall k :: 0 <= k < |useful| ==> UnitScores(useful[k])
    requires forall k :: 0 <= k < |indices| ==> indices[k] < |useful|
    ensures forall k :: 0 <= k < |indices| ==> UnitScores(Members(useful, indices)[k])
  {
  }

  lemma WinnerConfidence(rules: Rules, useful: seq<Observation>, clusters: seq<seq<nat>>, winner: nat, c: PlateCandidate)
    requires Sensible(rules) && useful != [] && Wins(rules, useful, clusters, winner)
    requires CandidateOf(rules, Members(useful, clusters[winner]), |useful|, c)
    requires forall k :: 0 <= k < |useful| ==> UnitScores(useful[k])
    ensures 0.0 <= c.confidence <= 0.999
  {
    var score := WinnerIsScored(rules, useful, clusters, winner);
    MembersHaveUnitScores(useful, clusters[winner]);
    ConfidenceIsBounded(rules, Members(useful, clusters[winner]), |useful|, c, score);
  }

  /** With scores in [0, 1] the returned confidence is one too, short of certainty. */
  lemma AggregateConfidence(rules: Rules, useful: seq<Observation>, c: PlateCandidate)
    requires Sensible(rules) && useful != [] && Aggregates(rules, useful, Some(c))
    requires forall k :: 0 <= k < |useful| ==> UnitScores(useful[k])
    ensures 0.0 <= c.confidence <= 0.999
  {
    var clusters, winner :| Wins(rules, useful, clusters, winner) && Yields(rules, Members(useful, clusters[winner]), |useful|, Some(c));
    WinnerConfidence(rules, useful, clusters, winner, c);
  }

  /** A text with more than half of the weight among the readings of consensus length decides the
      plate of the cluster, if it is a plate at all. */
  lemma MajorityIsThePlate(rules: Rules, cluster: seq<Observation>, total: nat, c: PlateCandidate, consensus: string, text: string, n: N.Result)
    requires Sensible(rules) && cluster != [] && total > 0 && CandidateOf(rules, cluster, total, c)
    requires C.IsConsensus(VotesOf(rules, cluster), consensus) && |text| == |consensus|
    requires var aligned := C.WithLength(VotesOf(rules, cluster), |consensus|); 2.0 * C.WeightOf(aligned, text) > C.Total(aligned)
    requires N.Normalizes(rules.normalization, text, n) && n.valid
    ensures Writes(c, n)
  {
    VotesAreWeighed(rules, cluster);
    C.MajorityWins(VotesOf(rules, cluster), consensus, text);
    var m := PlateOfCandidate(rules, cluster, total, c, consensus);
    PlateOfText(rules, cluster, text, n);
    PlateIsUnique(rules, cluster, consensus, Some(m), Some(n));
  }

  lemma VotesAreWeighed(rules: Rules, cluster: seq<Observation>)
    requires Sensible(rules)
    ensures C.Weighed(VotesOf(rules, cluster))
  {
  }

  lemma PlateOfText(rules: Rules, cluster: seq<Observation>, text: string, n: N.Result)
    requires N.Normalizes(rules.normalization, text, n) && n.valid
    ensures PlateFrom(rules, cluster, text, Some(n))
  {
  }

  lemma PlateOfCandidate(rules: Rules, cluster: seq<Observation>, total: nat, c: PlateCandidate, consensus: string) returns (n: N.Result)
    requires Sensible(rules) && cluster != [] && total > 0 && CandidateOf(rules, cluster, total, c)
    requires C.IsConsensus(VotesOf(rules, cluster), consensus)
    ensures PlateFrom(rules, cluster, consensus, Some(n)) && Writes(c, n)
    ensures c.confidence == Confidence(rules, cluster, total, C.Agreement(VotesOf(rules, cluster), consensus))
  {
    var other, m :| Built(rules, cluster, total, other, m, c);
    C.ConsensusIsUnique(VotesOf(rules, cluster), other, consensus);
    n := m;
  }

  /** A candidate is stable: normalizing its text again gives the same plate, uncorrected. */
  lemma CandidateIsStable(rules: Rules, cluster: seq<Observation>, total: nat, c: PlateCandidate, text: string, again: N.Result)
    requires Sensible(rules) && cluster != [] && total > 0 && CandidateOf(rules, cluster, total, c)
    requires (text == c.normalized || text == c.compact) && N.Normalizes(rules.normalization, text, again)
    ensures again == N.Result(again.cleaned, Some(c.compact), Some(c.normalized), true, [], c.partial)
  {
    var consensus, n :| Built(rules, cluster, total, consensus, n, c);
    var original := SomeOrigin(rules, cluster, consensus, n);
    N.Projection(rules.normalization, original, n, text, again);
  }

  lemma SomeOrigin(rules: Rules, cluster: seq<Observation>, consensus: string, n: N.Result) returns (text: string)
    requires PlateFrom(rules, cluster, consensus, Some(n))
    ensures N.Normalizes(rules.normalization, text, n) && n.valid
  {
    var m :| N.Normalizes(rules.normalization, consensus, m)
      && if m.valid then Some(n) == Some(m) else exists x :: FromBest(rules, cluster, x) && Some(n) == if x.valid then Some(x) else None;
    text := consensus;
    if !m.valid {
      var k: nat :| MostReliableAt(rules, cluster, k) && N.Normalizes(rules.normalization, cluster[k].compact, n);
      text := cluster[k].compact;
    }
  }
}
