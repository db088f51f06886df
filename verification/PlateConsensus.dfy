/** The weighted vote within a cluster of readings (application/voting.py). Reliabilities are
    non-negative reals; the cube root behind them is left to the caller. */
module PlateConsensus {

  datatype Vote = Vote(text: string, weight: real)

  ghost predicate Weighed(votes: seq<Vote>) {
    forall k :: 0 <= k < |votes| ==> votes[k].weight >= 0.0
  }

  ghost predicate Aligned(votes: seq<Vote>, length: nat) {
    Weighed(votes) && forall k :: 0 <= k < |votes| ==> |votes[k].text| == length
  }

  predicate Reads(v: Vote, p: nat, c: char) {
    p < |v.text| && v.text[p] == c
  }

  /** The weight of all votes for character `c` at position `p`. */
  function Support(votes: seq<Vote>, p: nat, c: char): real {
    if votes == [] then 0.0
    else Support(votes[..|votes| - 1], p, c) + if Reads(votes[|votes| - 1], p, c) then votes[|votes| - 1].weight else 0.0
  }

  function Total(votes: seq<Vote>): real {
    if votes == [] then 0.0 else Total(votes[..|votes| - 1]) + votes[|votes| - 1].weight
  }

  /** The weight of all votes for exactly this text. */
  function WeightOf(votes: seq<Vote>, text: string): real {
    if votes == [] then 0.0
    else WeightOf(votes[..|votes| - 1], text) + if votes[|votes| - 1].text == text then votes[|votes| - 1].weight else 0.0
  }

  lemma {:induction false} SupportBounds(votes: seq<Vote>, p: nat, c: char)
    requires Weighed(votes)
    ensures 0.0 <= Support(votes, p, c) <= Total(votes)
  {
    if votes != [] { SupportBounds(votes[..|votes| - 1], p, c); }
  }

  lemma {:induction false} RivalsShareTheTotal(votes: seq<Vote>, p: nat, c: char, d: char)
    requires Weighed(votes) && c != d
    ensures Support(votes, p, c) + Support(votes, p, d) <= Total(votes)
  {
    if votes != [] { RivalsShareTheTotal(votes[..|votes| - 1], p, c, d); }
  }

  lemma {:induction false} TextSupportsItsCharacters(votes: seq<Vote>, text: string, p: nat)
    requires Weighed(votes) && p < |text|
    ensures WeightOf(votes, text) <= Support(votes, p, text[p])
  {
    if votes != [] { TextSupportsItsCharacters(votes[..|votes| - 1], text, p); }
  }

  /** The whole weight reads `c` at `p` exactly when every vote that counts does. */
  lemma {:induction false} FullSupportIff(votes: seq<Vote>, p: nat, c: char)
    requires Weighed(votes)
    ensures Support(votes, p, c) == Total(votes) <==> forall k :: 0 <= k < |votes| && votes[k].weight > 0.0 ==> Reads(votes[k], p, c)
  {
    if votes != [] {
      var rest, last := votes[..|votes| - 1], votes[|votes| - 1];
      FullSupportIff(rest, p, c);
      SupportBounds(rest, p, c);
      assert votes == rest + [last];
    }
  }

  // ----- one position

  /** The first vote with this character at the position. */
  function FirstAt(votes: seq<Vote>, p: nat, c: char): (k: nat)
    ensures k <= |votes| && (k < |votes| ==> Reads(votes[k], p, c))
    ensures forall i :: 0 <= i < k ==> !Reads(votes[i], p, c)
  {
    if votes == [] || Reads(votes[0], p, c) then 0 else 1 + FirstAt(votes[1..], p, c)
  }

  /** `c` beats `d`, or it was read first and has as much support. */
  ghost predicate Beats(votes: seq<Vote>, p: nat, c: char, d: char) {
    || Support(votes, p, d) < Support(votes, p, c)
    || (Support(votes, p, d) == Support(votes, p, c) && FirstAt(votes, p, c) <= FirstAt(votes, p, d))
  }

  /** `c` has the most support at the position; among equals the one read first. */
  ghost predicate Leads(votes: seq<Vote>, p: nat, c: char) {
    && FirstAt(votes, p, c) < |votes|
    && forall d :: FirstAt(votes, p, d) < |votes| ==> Beats(votes, p, c, d)
  }

  lemma LeaderIsUnique(votes: seq<Vote>, p: nat, c: char, d: char)
    requires Leads(votes, p, c) && Leads(votes, p, d)
    ensures c == d
  {
    assert Reads(votes[FirstAt(votes, p, c)], p, c) && Reads(votes[FirstAt(votes, p, d)], p, d);
  }

  lemma FirstIs(votes: seq<Vote>, p: nat, c: char, k: nat)
    requires k < |votes| && Reads(votes[k], p, c) && forall i :: 0 <= i < k ==> !Reads(votes[i], p, c)
    ensures FirstAt(votes, p, c) == k
  {
  }

  ghost predicate Listed(chars: seq<char>, tally: map<char, real>) {
    forall c :: c in chars <==> c in tally
  }

  ghost predicate Covered(votes: seq<Vote>, p: nat, tally: map<char, real>) {
    forall k :: 0 <= k < |votes| && p < |votes[k].text| ==> votes[k].text[p] in tally
  }

  ghost predicate Counted(votes: seq<Vote>, p: nat, tally: map<char, real>) {
    forall c :: c in tally ==> FirstAt(votes, p, c) < |votes| && tally[c] == Support(votes, p, c)
  }

  ghost predicate InFirstOrder(votes: seq<Vote>, p: nat, chars: seq<char>) {
    forall i, j :: 0 <= i < j < |chars| ==> FirstAt(votes, p, chars[i]) < FirstAt(votes, p, chars[j])
  }

  /** Characters in the order they were first read at the position, with their weights. */
  ghost predicate Tallied(votes: seq<Vote>, p: nat, chars: seq<char>, tally: map<char, real>) {
    Listed(chars, tally) && Covered(votes, p, tally) && Counted(votes, p, tally) && InFirstOrder(votes, p, chars)
  }

  lemma {:induction false} FirstAtStays(votes: seq<Vote>, v: Vote, p: nat, c: char)
    requires FirstAt(votes, p, c) < |votes|
    ensures FirstAt(votes + [v], p, c) == FirstAt(votes, p, c)
  {
    var k := FirstAt(votes, p, c);
    forall i | 0 <= i < k ensures !Reads((votes + [v])[i], p, c) { assert (votes + [v])[i] == votes[i]; }
    FirstIs(votes + [v], p, c, k);
  }

  lemma OneMoreSupport(votes: seq<Vote>, v: Vote, p: nat, c: char)
    ensures Support(votes + [v], p, c) == Support(votes, p, c) + if Reads(v, p, c) then v.weight else 0.0
  {
    assert (votes + [v])[..|votes|] == votes;
  }

  lemma FirstAtLast(votes: seq<Vote>, v: Vote, p: nat, c: char)
    requires Reads(v, p, c) && forall i :: 0 <= i < |votes| ==> !Reads(votes[i], p, c)
    ensures FirstAt(votes + [v], p, c) == |votes|
  {
    forall i | 0 <= i < |votes| ensures !Reads((votes + [v])[i], p, c) { assert (votes + [v])[i] == votes[i]; }
    FirstIs(votes + [v], p, c, |votes|);
  }

  function TallyWith(tally: map<char, real>, c: char, weight: real): map<char, real> {
    tally[c := (if c in tally then tally[c] else 0.0) + weight]
  }

  function CharsWith(chars: seq<char>, tally: map<char, real>, c: char): seq<char> {
    if c in tally then chars else chars + [c]
  }

  lemma CountOne(votes: seq<Vote>, v: Vote, p: nat, tally: map<char, real>)
    requires Covered(votes, p, tally) && Counted(votes, p, tally) && p < |v.text|
    ensures Counted(votes + [v], p, TallyWith(tally, v.text[p], v.weight))
  {
    var c, next := v.text[p], TallyWith(tally, v.text[p], v.weight);
    forall d | d in next ensures FirstAt(votes + [v], p, d) < |votes + [v]| && next[d] == Support(votes + [v], p, d) {
      OneMoreSupport(votes, v, p, d);
      if d in tally {
        FirstAtStays(votes, v, p, d);
      } else {
        NoSupport(votes, p, d);
        FirstAtLast(votes, v, p, d);
      }
    }
  }

  lemma OrderOne(votes: seq<Vote>, v: Vote, p: nat, chars: seq<char>, tally: map<char, real>)
    requires Tallied(votes, p, chars, tally) && p < |v.text|
    ensures InFirstOrder(votes + [v], p, CharsWith(chars, tally, v.text[p]))
  {
    forall k | 0 <= k < |chars| ensures FirstAt(votes + [v], p, chars[k]) == FirstAt(votes, p, chars[k]) < |votes| {
      assert chars[k] in tally;
      FirstAtStays(votes, v, p, chars[k]);
    }
    if v.text[p] !in tally { FirstAtLast(votes, v, p, v.text[p]); }
  }

  lemma TallyOne(votes: seq<Vote>, v: Vote, p: nat, chars: seq<char>, tally: map<char, real>)
    requires Tallied(votes, p, chars, tally) && p < |v.text|
    ensures Tallied(votes + [v], p, CharsWith(chars, tally, v.text[p]), TallyWith(tally, v.text[p], v.weight))
  {
    CountOne(votes, v, p, tally);
    OrderOne(votes, v, p, chars, tally);
  }

  lemma TakeOneMore(votes: seq<Vote>, k: nat)
    requires k < |votes|
    ensures votes[..k + 1] == votes[..k] + [votes[k]]
  {
  }

  lemma TallyNext(votes: seq<Vote>, k: nat, p: nat, chars: seq<char>, tally: map<char, real>)
    requires k < |votes| && p < |votes[k].text| && Tallied(votes[..k], p, chars, tally)
    ensures Tallied(votes[..k + 1], p, CharsWith(chars, tally, votes[k].text[p]), TallyWith(tally, votes[k].text[p], votes[k].weight))
  {
    TakeOneMore(votes, k);
    TallyOne(votes[..k], votes[k], p, chars, tally);
  }

  lemma TallyNone(p: nat)
    ensures Tallied([], p, [], map[])
  {
  }

  lemma {:induction false} NoSupport(votes: seq<Vote>, p: nat, c: char)
    requires forall i :: 0 <= i < |votes| ==> !Reads(votes[i], p, c)
    ensures Support(votes, p, c) == 0.0
  {
    if votes != [] { NoSupport(votes[..|votes| - 1], p, c); }
  }

  /** The tally at one position. */
  method CountVotes(votes: seq<Vote>, p: nat, length: nat) returns (chars: seq<char>, tally: map<char, real>)
    requires Aligned(votes, length) && p < length
    ensures Tallied(votes, p, chars, tally)
  {
    chars, tally := [], map[];
    TallyNone(p);
    assert votes[..0] == [];
    for k := 0 to |votes|
      invariant Tallied(votes[..k], p, chars, tally)
    {
      TallyNext(votes, k, p, chars, tally);
      chars := CharsWith(chars, tally, votes[k].text[p]);
      tally := TallyWith(tally, votes[k].text[p], votes[k].weight);
    }
    assert votes[..|votes|] == votes;
  }

  /** The first entry of greatest weight: `max` over the tally. */
  method Greatest(chars: seq<char>, tally: map<char, real>) returns (best: nat)
    requires chars != [] && forall i :: 0 <= i < |chars| ==> chars[i] in tally
    ensures best < |chars| && forall i :: 0 <= i < |chars| ==> tally[chars[i]] <= tally[chars[best]]
    ensures forall i :: 0 <= i < best ==> tally[chars[i]] < tally[chars[best]]
  {
    best := 0;
    for k := 1 to |chars|
      invariant best < k
      invariant forall i :: 0 <= i < k ==> tally[chars[i]] <= tally[chars[best]]
      invariant forall i :: 0 <= i < best ==> tally[chars[i]] < tally[chars[best]]
    {
      if tally[chars[k]] > tally[chars[best]] { best := k; }
    }
  }

  lemma GreatestBeats(votes: seq<Vote>, p: nat, chars: seq<char>, tally: map<char, real>, best: nat, i: nat)
    requires Tallied(votes, p, chars, tally) && best < |chars| && i < |chars| && chars[i] in tally && chars[best] in tally
    requires tally[chars[i]] <= tally[chars[best]] && (i < best ==> tally[chars[i]] < tally[chars[best]])
    ensures Beats(votes, p, chars[best], chars[i])
  {
    assert best < i ==> FirstAt(votes, p, chars[best]) < FirstAt(votes, p, chars[i]);
  }

  lemma GreatestLeads(votes: seq<Vote>, p: nat, chars: seq<char>, tally: map<char, real>, best: nat)
    requires Tallied(votes, p, chars, tally) && best < |chars|
    requires forall i :: 0 <= i < |chars| ==> chars[i] in tally && tally[chars[i]] <= tally[chars[best]]
    requires forall i :: 0 <= i < best ==> tally[chars[i]] < tally[chars[best]]
    ensures Leads(votes, p, chars[best])
  {
    forall d | FirstAt(votes, p, d) < |votes| ensures Beats(votes, p, chars[best], d) {
      assert Reads(votes[FirstAt(votes, p, d)], p, d);
      var i :| 0 <= i < |chars| && chars[i] == d;
      GreatestBeats(votes, p, chars, tally, best, i);
    }
  }

  /** The winning character at one position and its weight. */
  method Leader(votes: seq<Vote>, p: nat, length: nat) returns (leader: char, weight: real)
    requires votes != [] && Aligned(votes, length) && p < length
    ensures Leads(votes, p, leader) && weight == Support(votes, p, leader)
  {
    var chars, tally := CountVotes(votes, p, length);
    assert votes[0].text[p] in tally;
    var best := Greatest(chars, tally);
    GreatestLeads(votes, p, chars, tally, best);
    leader, weight := chars[best], tally[chars[best]];
  }

  // ----- the target length

  function WithLength(votes: seq<Vote>, length: nat): (aligned: seq<Vote>)
    ensures forall k :: 0 <= k < |aligned| ==> |aligned[k].text| == length && aligned[k] in votes
    ensures |aligned| <= |votes|
  {
    if votes == [] then []
    else
      var before := WithLength(votes[..|votes| - 1], length);
      if |votes[|votes| - 1].text| == length then before + [votes[|votes| - 1]] else before
  }

  /** The most frequent text length; among equals the longest. */
  ghost predicate IsTarget(votes: seq<Vote>, length: nat) {
    && WithLength(votes, length) != []
    && forall k :: 0 <= k < |votes| ==> NotBetter(votes, |votes[k].text|, length)
  }

  predicate NotBetter(votes: seq<Vote>, other: nat, length: nat) {
    || |WithLength(votes, other)| < |WithLength(votes, length)|
    || (|WithLength(votes, other)| == |WithLength(votes, length)| && other <= length)
  }

  lemma {:induction false} OwnLengthOccurs(votes: seq<Vote>, k: nat)
    requires k < |votes|
    ensures votes[k] in WithLength(votes, |votes[k].text|)
  {
    if k < |votes| - 1 { OwnLengthOccurs(votes[..|votes| - 1], k); }
  }

  ghost predicate NoneBetter(votes: seq<Vote>, k: nat, length: nat)
    requires k <= |votes|
  {
    forall i :: 0 <= i < k ==> NotBetter(votes, |votes[i].text|, length)
  }

  lemma NextLength(votes: seq<Vote>, k: nat, length: nat, next: nat)
    requires k < |votes| && WithLength(votes, length) != [] && NoneBetter(votes, k, length)
    requires next == if NotBetter(votes, |votes[k].text|, length) then length else |votes[k].text|
    ensures WithLength(votes, next) != [] && NoneBetter(votes, k + 1, next)
  {
    OwnLengthOccurs(votes, k);
  }

  lemma TargetIsUnique(votes: seq<Vote>, n: nat, m: nat)
    requires IsTarget(votes, n) && IsTarget(votes, m)
    ensures n == m
  {
    var k :| 0 <= k < |votes| && votes[k] == WithLength(votes, n)[0];
    var j :| 0 <= j < |votes| && votes[j] == WithLength(votes, m)[0];
    assert NotBetter(votes, |votes[k].text|, m) && NotBetter(votes, |votes[j].text|, n);
  }

  method TargetLength(votes: seq<Vote>) returns (length: nat)
    requires votes != []
    ensures IsTarget(votes, length)
  {
    length := |votes[0].text|;
    OwnLengthOccurs(votes, 0);
    for k := 0 to |votes|
      invariant WithLength(votes, length) != [] && NoneBetter(votes, k, length)
    {
      var next := if NotBetter(votes, |votes[k].text|, length) then length else |votes[k].text|;
      NextLength(votes, k, length, next);
      length := next;
    }
  }

  // ----- consensus and agreement

  function Share(votes: seq<Vote>, p: nat, c: char): real {
    if Total(votes) == 0.0 then 0.0 else Support(votes, p, c) / Total(votes)
  }

  function Shares(votes: seq<Vote>, text: string, n: nat): real
    requires n <= |text|
  {
    if n == 0 then 0.0 else Shares(votes, text, n - 1) + Share(votes, n - 1, text[n - 1])
  }

  ghost predicate LeadsEverywhere(aligned: seq<Vote>, consensus: string) {
    forall p :: 0 <= p < |consensus| ==> Leads(aligned, p, consensus[p])
  }

  /** The consensus is the leader of every position of the votes of target length. */
  ghost predicate IsConsensus(votes: seq<Vote>, consensus: string) {
    IsTarget(votes, |consensus|) && LeadsEverywhere(WithLength(votes, |consensus|), consensus)
  }

  function Agreement(votes: seq<Vote>, consensus: string): real {
    if consensus == "" then 0.0 else Shares(WithLength(votes, |consensus|), consensus, |consensus|) / (|consensus| as real)
  }

  lemma OneMoreLeader(votes: seq<Vote>, consensus: string, leader: char)
    requires LeadsEverywhere(votes, consensus) && Leads(votes, |consensus|, leader)
    ensures LeadsEverywhere(votes, consensus + [leader])
  {
  }

  /** The vote position by position over texts of one length. */
  method VoteEachPosition(aligned: seq<Vote>, length: nat) returns (consensus: string, agreements: real)
    requires aligned != [] && Aligned(aligned, length)
    ensures |consensus| == length && LeadsEverywhere(aligned, consensus)
    ensures agreements == Shares(aligned, consensus, length)
  {
    consensus, agreements := "", 0.0;
    var total := Sum(aligned);
    for p := 0 to length
      invariant |consensus| == p
      invariant LeadsEverywhere(aligned, consensus)
      invariant agreements == Shares(aligned, consensus, p)
    {
      var character, weight := Leader(aligned, p, length);
      SharesOfPrefix(aligned, consensus, consensus + [character], p);
      OneMoreLeader(aligned, consensus, character);
      consensus := consensus + [character];
      agreements := agreements + if total == 0.0 then 0.0 else weight / total;
    }
  }

  /** `_character_consensus`. */
  method CharacterConsensus(votes: seq<Vote>) returns (consensus: string, agreement: real)
    requires votes != [] && Weighed(votes)
    ensures IsConsensus(votes, consensus) && agreement == Agreement(votes, consensus)
  {
    var length := TargetLength(votes);
    var agreements;
    consensus, agreements := VoteEachPosition(WithLength(votes, length), length);
    agreement := if length == 0 then 0.0 else agreements / (length as real);
  }

  method Sum(votes: seq<Vote>) returns (total: real)
    ensures total == Total(votes)
  {
    total := 0.0;
    for k := 0 to |votes|
      invariant total == Total(votes[..k])
    {
      assert votes[..k + 1][..k] == votes[..k];
      total := total + votes[k].weight;
    }
    assert votes[..|votes|] == votes;
  }

  lemma {:induction false} SharesOfPrefix(votes: seq<Vote>, text: string, longer: string, n: nat)
    requires n <= |text| && text <= longer
    ensures Shares(votes, longer, n) == Shares(votes, text, n)
  {
    if n > 0 { SharesOfPrefix(votes, text, longer, n - 1); }
  }

  /** The same votes have one consensus, whatever computes it. */
  lemma ConsensusIsUnique(votes: seq<Vote>, a: string, b: string)
    requires IsConsensus(votes, a) && IsConsensus(votes, b)
    ensures a == b
  {
    TargetIsUnique(votes, |a|, |b|);
    forall p | 0 <= p < |a| ensures a[p] == b[p] { LeaderIsUnique(WithLength(votes, |a|), p, a[p], b[p]); }
  }

  lemma MajorityLeads(votes: seq<Vote>, p: nat, leader: char, text: string)
    requires Weighed(votes) && p < |text| && Leads(votes, p, leader) && 2.0 * WeightOf(votes, text) > Total(votes)
    ensures leader == text[p]
  {
    TextSupportsItsCharacters(votes, text, p);
    SupportBounds(votes, p, text[p]);
    SupportedIsRead(votes, p, text[p]);
    if leader != text[p] { RivalsShareTheTotal(votes, p, leader, text[p]); }
  }

  lemma MajorityLeadsEverywhere(aligned: seq<Vote>, consensus: string, text: string)
    requires Weighed(aligned) && |text| == |consensus| && 2.0 * WeightOf(aligned, text) > Total(aligned)
    requires LeadsEverywhere(aligned, consensus)
    ensures consensus == text
  {
    forall p | 0 <= p < |consensus| ensures consensus[p] == text[p] { MajorityLeads(aligned, p, consensus[p], text); }
  }

  /** A text with more than half of the weight among the votes of target length is the consensus. */
  lemma MajorityWins(votes: seq<Vote>, consensus: string, text: string)
    requires Weighed(votes) && IsConsensus(votes, consensus) && |text| == |consensus|
    requires 2.0 * WeightOf(WithLength(votes, |consensus|), text) > Total(WithLength(votes, |consensus|))
    ensures consensus == text
  {
    AlignedIsWeighed(votes, |consensus|);
    MajorityLeadsEverywhere(WithLength(votes, |consensus|), consensus, text);
  }

  lemma SupportedIsRead(votes: seq<Vote>, p: nat, c: char)
    requires Support(votes, p, c) > 0.0
    ensures FirstAt(votes, p, c) < |votes|
  {
    if FirstAt(votes, p, c) == |votes| { NoSupport(votes, p, c); }
  }

  lemma ShareBounds(votes: seq<Vote>, p: nat, c: char)
    requires Weighed(votes)
    ensures 0.0 <= Share(votes, p, c) <= 1.0
    ensures Total(votes) > 0.0 ==> (Share(votes, p, c) == 1.0 <==> Support(votes, p, c) == Total(votes))
  {
    SupportBounds(votes, p, c);
    if Total(votes) > 0.0 { Ratio(Support(votes, p, c), Total(votes)); }
  }

  lemma Ratio(part: real, whole: real)
    requires 0.0 <= part <= whole && whole > 0.0
    ensures 0.0 <= part / whole <= 1.0 && (part / whole == 1.0 <==> part == whole)
  {
  }

  /** Every vote that carries weight reads exactly this text. */
  ghost predicate Unanimous(votes: seq<Vote>, text: string) {
    forall k :: 0 <= k < |votes| && votes[k].weight > 0.0 ==> votes[k].text == text
  }

  ghost predicate FullShares(votes: seq<Vote>, text: string, n: nat)
    requires n <= |text|
  {
    forall p :: 0 <= p < n ==> Share(votes, p, text[p]) == 1.0
  }

  lemma {:induction false} SharesBounds(votes: seq<Vote>, text: string, n: nat)
    requires Weighed(votes) && n <= |text|
    ensures 0.0 <= Shares(votes, text, n) <= n as real
    ensures Shares(votes, text, n) == n as real <==> FullShares(votes, text, n)
  {
    if n > 0 {
      SharesBounds(votes, text, n - 1);
      ShareBounds(votes, n - 1, text[n - 1]);
    }
  }

  lemma FullShareIff(votes: seq<Vote>, p: nat, c: char)
    requires Weighed(votes) && Total(votes) > 0.0
    ensures Share(votes, p, c) == 1.0 <==> forall k :: 0 <= k < |votes| && votes[k].weight > 0.0 ==> Reads(votes[k], p, c)
  {
    ShareBounds(votes, p, c);
    FullSupportIff(votes, p, c);
  }

  lemma UnanimousIff(votes: seq<Vote>, text: string)
    requires Aligned(votes, |text|) && Total(votes) > 0.0
    ensures FullShares(votes, text, |text|) <==> Unanimous(votes, text)
  {
    if FullShares(votes, text, |text|) {
      forall k | 0 <= k < |votes| && votes[k].weight > 0.0 ensures votes[k].text == text {
        forall p | 0 <= p < |text| ensures votes[k].text[p] == text[p] {
          FullShareIff(votes, p, text[p]);
          assert Reads(votes[k], p, text[p]);
        }
      }
    }
    if Unanimous(votes, text) {
      forall p | 0 <= p < |text| ensures Share(votes, p, text[p]) == 1.0 { FullShareIff(votes, p, text[p]); }
    }
  }

  /** Agreement lies between 0 and 1, and is 1 exactly when every vote of target length that
      carries weight reads the consensus. */
  lemma FullAgreementIff(votes: seq<Vote>, consensus: string)
    requires Weighed(votes) && IsConsensus(votes, consensus)
    ensures 0.0 <= Agreement(votes, consensus) <= 1.0
    ensures consensus != "" && Total(WithLength(votes, |consensus|)) > 0.0 ==>
      (Agreement(votes, consensus) == 1.0 <==> Unanimous(WithLength(votes, |consensus|), consensus))
  {
    var aligned, n := WithLength(votes, |consensus|), |consensus|;
    AlignedIsWeighed(votes, n);
    SharesBounds(aligned, consensus, n);
    if n > 0 {
      Ratio(Shares(aligned, consensus, n), n as real);
      if Total(aligned) > 0.0 { UnanimousIff(aligned, consensus); }
    }
  }

  lemma AlignedIsWeighed(votes: seq<Vote>, n: nat)
    requires Weighed(votes)
    ensures Aligned(WithLength(votes, n), n)
  {
  }

  // ----- the score of a cluster and the confidence of a candidate

  function Dot(values: seq<real>, weights: seq<real>): real
    requires |values| == |weights|
  {
    if values == [] then 0.0
    else Dot(values[..|values| - 1], weights[..|weights| - 1]) + values[|values| - 1] * weights[|weights| - 1]
  }

  function Weight(weights: seq<real>): real {
    if weights == [] then 0.0 else Weight(weights[..|weights| - 1]) + weights[|weights| - 1]
  }

  lemma Scaled(x: real, y: real, w: real)
    requires x <= y && w >= 0.0
    ensures x * w <= y * w
  {
  }

  /** A weighted mean is monotone in its values. */
  lemma {:induction false} DotIsMonotone(values: seq<real>, higher: seq<real>, weights: seq<real>)
    requires |values| == |higher| == |weights|
    requires forall k :: 0 <= k < |values| ==> values[k] <= higher[k] && weights[k] >= 0.0
    ensures Dot(values, weights) <= Dot(higher, weights)
  {
    if values != [] {
      var n := |values| - 1;
      DotIsMonotone(values[..n], higher[..n], weights[..n]);
      Scaled(values[n], higher[n], weights[n]);
    }
  }

  lemma {:induction false} DotOfConstant(values: seq<real>, weights: seq<real>, c: real)
    requires |values| == |weights| && forall k :: 0 <= k < |values| ==> values[k] == c
    ensures Dot(values, weights) == c * Weight(weights)
  {
    if values != [] { DotOfConstant(values[..|values| - 1], weights[..|weights| - 1], c); }
  }

  /** `_cluster_score`: the weighted mean of the five components stays between their bounds. */
  lemma ClusterScoreBounds(values: seq<real>, weights: seq<real>)
    requires |values| == |weights| && Weight(weights) > 0.0
    requires forall k :: 0 <= k < |values| ==> 0.0 <= values[k] <= 1.0 && weights[k] >= 0.0
    ensures 0.0 <= Dot(values, weights) / Weight(weights) <= 1.0
  {
    var zeros, ones := seq(|values|, _ => 0.0), seq(|values|, _ => 1.0);
    DotIsMonotone(zeros, values, weights);
    DotIsMonotone(values, ones, weights);
    DotOfConstant(zeros, weights, 0.0);
    DotOfConstant(ones, weights, 1.0);
    Ratio(Dot(values, weights), Weight(weights));
  }

  function Raised(evidence: real, support: real, agreement: real): real {
    evidence + (1.0 - evidence) * 0.15 * support * agreement
  }

  function Clamped(x: real): real {
    var atLeast := if x < 0.0 then 0.0 else x;
    if atLeast > 0.999 then 0.999 else atLeast
  }

  lemma ProductOfFractions(x: real, y: real)
    requires 0.0 <= x <= 1.0 && 0.0 <= y <= 1.0
    ensures 0.0 <= x * y <= x
  {
  }

  lemma Reordered(missing: real, support: real, agreement: real)
    ensures missing * 0.15 * support * agreement == 0.15 * (missing * support * agreement)
  {
  }

  /** Support and agreement can only raise the evidence, by at most 15% of what is missing: the
      confidence never falls below 0, so only the upper clamp can act. */
  lemma ConfidenceBounds(evidence: real, support: real, agreement: real)
    requires 0.0 <= evidence <= 1.0 && 0.0 <= support <= 1.0 && 0.0 <= agreement <= 1.0
    ensures evidence <= Raised(evidence, support, agreement) <= evidence + 0.15 * (1.0 - evidence) <= 1.0
    ensures Clamped(Raised(evidence, support, agreement)) ==
      if Raised(evidence, support, agreement) > 0.999 then 0.999 else Raised(evidence, support, agreement)
  {
    var missing := 1.0 - evidence;
    var gain := missing * support * agreement;
    ProductOfFractions(missing, support);
    ProductOfFractions(missing * support, agreement);
    Reordered(missing, support, agreement);
    assert Raised(evidence, support, agreement) == evidence + 0.15 * gain;
  }
}
