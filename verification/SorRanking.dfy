/** The ranking of `_rank_session`: what it decides for each member, as a function of all their features. */
module SorRanking {
  import opened Wrappers
  import opened SorFeatures
  import opened Ordering

  const EXPECTED_MEMBERS: nat := 24
  const SELECTED_CAP: nat := 7
  const NEAR_CAP: nat := 14

  // ----- the ranking, as a function of the features -----

  /** Ratio ascending, volume descending, instrument id ascending. */
  predicate KeyLess(a: Features, b: Features) {
    || a.ratio < b.ratio
    || (a.ratio == b.ratio && a.activity > b.activity)
    || (a.ratio == b.ratio && a.activity == b.activity && StringLess(a.instrumentId, b.instrumentId))
  }

  predicate IdLess(a: Features, b: Features) {
    StringLess(a.instrumentId, b.instrumentId)
  }

  predicate IsReady(f: Features) { f.Ready() }
  predicate IsMember(f: Features) { true }

  lemma KeyLessIsWeak()
    ensures StrictWeak(KeyLess)
  {
    forall a: Features, b: Features ensures KeyLess(a, b) ==> !KeyLess(b, a) {
      StringLessTotal(a.instrumentId, b.instrumentId);
    }
    forall a: Features, b: Features, c: Features ensures KeyLess(a, b) && KeyLess(b, c) ==> KeyLess(a, c) {
      if KeyLess(a, b) && KeyLess(b, c) && StringLess(a.instrumentId, b.instrumentId) && StringLess(b.instrumentId, c.instrumentId) {
        StringLessTransitive(a.instrumentId, b.instrumentId, c.instrumentId);
      }
    }
    forall a: Features, b: Features, c: Features ensures KeyLess(a, c) ==> KeyLess(a, b) || KeyLess(b, c) {
      if StringLess(a.instrumentId, c.instrumentId) {
        StringLessBetween(a.instrumentId, b.instrumentId, c.instrumentId);
      }
    }
  }

  lemma StringLessBetween(a: string, b: string, c: string)
    requires StringLess(a, c)
    ensures StringLess(a, b) || StringLess(b, c)
  {
    StringLessTotal(a, b);
    if StringLess(b, a) {
      StringLessTransitive(b, a, c);
    }
  }

  lemma IdLessIsWeak()
    ensures StrictWeak(IdLess)
  {
    forall a: Features, b: Features ensures IdLess(a, b) ==> !IdLess(b, a) {
      StringLessTotal(a.instrumentId, b.instrumentId);
    }
    forall a: Features, b: Features, c: Features | IdLess(a, b) && IdLess(b, c) ensures IdLess(a, c) {
      StringLessTransitive(a.instrumentId, b.instrumentId, c.instrumentId);
    }
    forall a: Features, b: Features, c: Features | IdLess(a, c) ensures IdLess(a, b) || IdLess(b, c) {
      StringLessBetween(a.instrumentId, b.instrumentId, c.instrumentId);
    }
  }

  datatype MemberState = Ineligible | PendingRank | Selected | NearThreshold | NotSelected

  datatype Decision = Decision(stableRank: Option<nat>, state: MemberState, selected: bool)

  function StateOf(rank: nat): MemberState {
    if rank <= SELECTED_CAP then Selected else if rank <= NEAR_CAP then NearThreshold else NotSelected
  }

  function Ranked(rank: nat): Decision {
    Decision(Some(rank), StateOf(rank), rank <= SELECTED_CAP)
  }

  const UNRANKED := Decision(None, Ineligible, false)

  /** The ready members that precede member i. */
  function Ahead(fs: seq<Features>, i: nat): set<nat>
    requires i < |fs|
  {
    Preceding(KeyLess, IsReady, fs, i)
  }

  /** What the ranking decides: a ready member ranks one after the ready members ahead of it. */
  function DecisionOf(fs: seq<Features>, i: nat): Decision
    requires i < |fs|
  {
    if fs[i].Ready() then Ranked(|Ahead(fs, i)| + 1) else UNRANKED
  }

  predicate HasRank(fs: seq<Features>, i: nat, rank: nat) {
    i < |fs| && DecisionOf(fs, i).stableRank == Some(rank)
  }

  function ReadyOrder(fs: seq<Features>): seq<nat> {
    Sorted(KeyLess, IsReady, fs, |fs|)
  }

  /** The sort of the ready members and the count of those ahead are the same thing. */
  lemma RankIsPlace(fs: seq<Features>)
    ensures forall k | 0 <= k < |ReadyOrder(fs)| ::
              ReadyOrder(fs)[k] < |fs| && fs[ReadyOrder(fs)[k]].Ready() && |Ahead(fs, ReadyOrder(fs)[k])| == k
    ensures forall i: nat | i < |fs| :: fs[i].Ready() <==> i in ReadyOrder(fs)
    ensures forall a, b | 0 <= a < b < |ReadyOrder(fs)| :: ReadyOrder(fs)[a] != ReadyOrder(fs)[b]
  {
    KeyLessIsWeak();
    var order := ReadyOrder(fs);
    SortedIsOrdered(KeyLess, IsReady, fs, |fs|);
    OrderedIsDistinct(KeyLess, fs, order);
    forall k | 0 <= k < |order| ensures order[k] < |fs| && fs[order[k]].Ready() && |Ahead(fs, order[k])| == k {
      assert order[k] in order;
      PlaceIsCount(KeyLess, IsReady, fs, k);
    }
  }

  ghost predicate RankTaken(fs: seq<Features>, rank: nat) {
    exists i: nat :: HasRank(fs, i, rank)
  }

  /** The place of a ready member. */
  lemma PlaceOf(fs: seq<Features>, i: nat)
    requires i < |fs| && fs[i].Ready()
    ensures |Ahead(fs, i)| < |ReadyOrder(fs)| && ReadyOrder(fs)[|Ahead(fs, i)|] == i
  {
    RankIsPlace(fs);
    var k :| 0 <= k < |ReadyOrder(fs)| && ReadyOrder(fs)[k] == i;
  }

  /** Ranks are a bijection from the ready members to 1..r ... */
  lemma RanksAreABijection(fs: seq<Features>)
    ensures forall i: nat | i < |fs| && fs[i].Ready() :: 1 <= |Ahead(fs, i)| + 1 <= |ReadyOrder(fs)|
    ensures forall rank: nat | 1 <= rank <= |ReadyOrder(fs)| :: RankTaken(fs, rank)
    ensures forall i: nat, j: nat, rank: nat :: HasRank(fs, i, rank) && HasRank(fs, j, rank) ==> i == j
  {
    RankIsPlace(fs);
    var order := ReadyOrder(fs);
    forall i: nat | i < |fs| && fs[i].Ready() ensures |Ahead(fs, i)| + 1 <= |order| && order[|Ahead(fs, i)|] == i {
      PlaceOf(fs, i);
    }
    forall rank: nat | 1 <= rank <= |order| ensures RankTaken(fs, rank) {
      assert HasRank(fs, order[rank - 1], rank);
    }
  }

  /** ... in this order: the smaller ratio first; of equal ratios the larger activity; of both equal the instrument id
      that comes first, letter by letter. */
  lemma RanksFollowTheKey(fs: seq<Features>, i: nat, j: nat)
    requires i < |fs| && j < |fs| && fs[i].Ready() && fs[j].Ready()
    ensures fs[i].ratio < fs[j].ratio ==> RankOf(fs, i) < RankOf(fs, j)
    ensures fs[i].ratio == fs[j].ratio && fs[i].activity > fs[j].activity ==> RankOf(fs, i) < RankOf(fs, j)
    ensures fs[i].ratio == fs[j].ratio && fs[i].activity == fs[j].activity ==>
              (forall d: nat :: FirstDifference(fs[i].instrumentId, fs[j].instrumentId, d) ==> RankOf(fs, i) < RankOf(fs, j))
  {
    if d: nat :| FirstDifference(fs[i].instrumentId, fs[j].instrumentId, d) {
      StringLessMeans(fs[i].instrumentId, fs[j].instrumentId);
    }
    KeyedRanks(fs, i, j);
  }

  /** The rank written for a ready member. */
  function RankOf(fs: seq<Features>, i: nat): nat
    requires i < |fs| && fs[i].Ready()
  {
    DecisionOf(fs, i).stableRank.value
  }

  lemma KeyedRanks(fs: seq<Features>, i: nat, j: nat)
    requires i < |fs| && j < |fs| && fs[i].Ready() && fs[j].Ready()
    ensures KeyLess(fs[i], fs[j]) ==> |Ahead(fs, i)| < |Ahead(fs, j)|
  {
    KeyLessIsWeak();
    PlaceOf(fs, i);
    PlaceOf(fs, j);
    SortedIsOrdered(KeyLess, IsReady, fs, |fs|);
    Places(KeyLess, fs, ReadyOrder(fs), |Ahead(fs, i)|, |Ahead(fs, j)|);
  }

  /** Selected are exactly the ready members ranked one to seven, which are the first seven of the sort; those ranked
      eight to fourteen are near the threshold, the other ready ones not selected, and the rest ineligible. */
  lemma SelectedExactly(fs: seq<Features>, i: nat)
    requires i < |fs|
    ensures DecisionOf(fs, i).selected <==> fs[i].Ready() && |Ahead(fs, i)| < 7
    ensures DecisionOf(fs, i).selected <==> exists k :: 0 <= k < |ReadyOrder(fs)| && k < 7 && ReadyOrder(fs)[k] == i
    ensures DecisionOf(fs, i).state == Selected <==> DecisionOf(fs, i).selected
    ensures DecisionOf(fs, i).state == NearThreshold <==> fs[i].Ready() && 8 <= RankOf(fs, i) <= 14
    ensures DecisionOf(fs, i).state == NotSelected <==> fs[i].Ready() && RankOf(fs, i) > 14
    ensures DecisionOf(fs, i).state == Ineligible <==> !fs[i].Ready()
    ensures DecisionOf(fs, i).stableRank.Some? <==> fs[i].Ready()
  {
    RankIsPlace(fs);
    if fs[i].Ready() {
      PlaceOf(fs, i);
    }
    hide ReadyOrder, Ahead;
    if k :| 0 <= k < |ReadyOrder(fs)| && k < 7 && ReadyOrder(fs)[k] == i {
      assert |Ahead(fs, ReadyOrder(fs)[k])| == k;
    }
  }

  // ----- independence of the input order -----

  predicate DistinctIds(fs: seq<Features>) {
    forall i, j | 0 <= i < j < |fs| :: fs[i].instrumentId != fs[j].instrumentId
  }

  function Members(fs: seq<Features>): set<Features> {
    set f | f in fs
  }

  /** The ready members ahead of f, without positions. */
  function AheadOf(all: set<Features>, f: Features): set<Features> {
    set g | g in all && g.Ready() && KeyLess(g, f)
  }

  lemma {:induction false} ImageCount(fs: seq<Features>, positions: set<nat>)
    requires DistinctIds(fs) && forall i <- positions :: i < |fs|
    ensures |positions| == |set i | i in positions :: fs[i]|
  {
    if positions != {} {
      var i :| i in positions;
      var rest := positions - {i};
      ImageCount(fs, rest);
      var image := set k | k in rest :: fs[k];
      assert (set k | k in positions :: fs[k]) == image + {fs[i]};
      assert fs[i] !in image;
    }
  }

  /** With distinct ids a decision depends on the member and on the set of all members alone. */
  lemma AheadIsUnordered(fs: seq<Features>, i: nat)
    requires DistinctIds(fs) && i < |fs|
    ensures |Ahead(fs, i)| == |AheadOf(Members(fs), fs[i])|
  {
    ImageCount(fs, Ahead(fs, i));
    var image := set k | k in Ahead(fs, i) :: fs[k];
    forall g ensures g in image <==> g in AheadOf(Members(fs), fs[i]) {
      if g in image {
        var k :| k in Ahead(fs, i) && fs[k] == g;
        StringLessTotal(fs[k].instrumentId, fs[i].instrumentId);
        assert k != i;
      }
      if g in AheadOf(Members(fs), fs[i]) {
        var k: nat :| k < |fs| && fs[k] == g;
        assert k in Ahead(fs, i);
      }
    }
    assert image == AheadOf(Members(fs), fs[i]);
  }

  /** The same members in any order get the same decisions. */
  lemma RankingIgnoresOrder(fs: seq<Features>, gs: seq<Features>, i: nat, j: nat)
    requires DistinctIds(fs) && DistinctIds(gs) && Members(fs) == Members(gs)
    requires i < |fs| && j < |gs| && fs[i] == gs[j]
    ensures DecisionOf(fs, i) == DecisionOf(gs, j)
  {
    AheadIsUnordered(fs, i);
    AheadIsUnordered(gs, j);
  }
}
