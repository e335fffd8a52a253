/** `_rank_session`, which writes ranks, states and digests into the members of one session, and the checks
    `verify_artifact` makes of the result. A digest stands for the payload it was taken of. */
module SorSession {
  import opened Wrappers
  import opened SorFeatures
  import opened Ordering
  import opened SorRanking

  datatype Digest = Sha256(payload: Payload)

  datatype Payload =
    | MemberPayload(features: Features, decision: Decision)
    | SourcePayload(windows: seq<(string, seq<Kline>)>)
    | SelectionPayload(sessionStartMs: int, candidateCount: nat, readyCount: nat, selectedCount: nat,
                       source: Digest, members: seq<Digest>)

  datatype Row = Row(features: Features, decision: Decision, memberDigest: Option<Digest>, selectionDigest: Option<Digest>)

  datatype Snapshot = Snapshot(
    sessionStartMs: int, readyCount: nat, selectedCount: nat, sourceDigest: Digest, selectionDigest: Digest)

  class Member {
    const features: Features
    var stableRank: Option<nat>
    var memberState: MemberState
    var selected: bool
    var memberDigest: Option<Digest>
    var selectionDigest: Option<Digest>

    constructor (features: Features)
      ensures this.features == features && Unranked()
    {
      this.features := features;
      stableRank, selected := None, false;
      memberState := if features.Ready() then PendingRank else Ineligible;
      memberDigest, selectionDigest := None, None;
    }

    predicate Unranked()
      reads this
    {
      stableRank.None? && !selected && memberState == if features.Ready() then PendingRank else Ineligible
    }

    function ToDecision(): Decision
      reads this
    {
      Decision(stableRank, memberState, selected)
    }

    function ToRow(): Row
      reads this
    {
      Row(features, ToDecision(), memberDigest, selectionDigest)
    }
  }

  // ----- the session, as a function of the features -----

  function FeaturesOf(members: seq<Member>): (fs: seq<Features>)
    ensures |fs| == |members| && forall i | 0 <= i < |members| :: fs[i] == members[i].features
  {
    seq(|members|, i requires 0 <= i < |members| => members[i].features)
  }

  function MemberDigestOf(fs: seq<Features>, i: nat): Digest
    requires i < |fs|
  {
    Sha256(MemberPayload(fs[i], DecisionOf(fs, i)))
  }

  function IdOrder(fs: seq<Features>): (order: seq<nat>)
    ensures Within(order, |fs|)
  {
    Sorted(IdLess, IsMember, fs, |fs|)
  }

  function SourceDigestOf(fs: seq<Features>): Digest {
    var order := IdOrder(fs);
    Sha256(SourcePayload(seq(|order|, k requires 0 <= k < |order| => (fs[order[k]].instrumentId, fs[order[k]].window))))
  }

  function MemberDigestsOf(fs: seq<Features>): seq<Digest> {
    var order := IdOrder(fs);
    seq(|order|, k requires 0 <= k < |order| => MemberDigestOf(fs, order[k]))
  }

  function AtMostCap(readyCount: nat): nat {
    if readyCount < SELECTED_CAP then readyCount else SELECTED_CAP
  }

  function SelectionDigest(fs: seq<Features>, sessionStartMs: int, readyCount: nat): Digest {
    Sha256(SelectionPayload(sessionStartMs, EXPECTED_MEMBERS, readyCount, AtMostCap(readyCount),
                            SourceDigestOf(fs), MemberDigestsOf(fs)))
  }

  lemma IdOrderHasAll(fs: seq<Features>)
    ensures |IdOrder(fs)| == |fs|
    ensures forall i: nat | i < |fs| :: i in IdOrder(fs)
    ensures Ordered(IdLess, fs, IdOrder(fs))
  {
    IdLessIsWeak();
    SortedIsOrdered(IdLess, IsMember, fs, |fs|);
    var order := IdOrder(fs);
    OrderedIsDistinct(IdLess, fs, order);
    DistinctCount(order);
    CountBelow(|fs|);
    assert Elements(order) == Below(|fs|);
  }

  function Below(n: nat): set<nat> {
    if n == 0 then {} else Below(n - 1) + {n - 1}
  }

  lemma {:induction false} CountBelow(n: nat)
    ensures |Below(n)| == n && forall i: nat :: i in Below(n) <==> i < n
  {
    if n > 0 {
      CountBelow(n - 1);
    }
  }

  /** The snapshot of a ranked session. */
  function SnapshotOf(fs: seq<Features>): Snapshot
    requires fs != []
  {
    IdOrderHasAll(fs);
    var sessionStartMs := fs[IdOrder(fs)[0]].sessionStartMs;
    var readyCount := |ReadyOrder(fs)|;
    Snapshot(sessionStartMs, readyCount, AtMostCap(readyCount), SourceDigestOf(fs),
             SelectionDigest(fs, sessionStartMs, readyCount))
  }

  function RowOf(fs: seq<Features>, i: nat): Row
    requires i < |fs|
  {
    Row(fs[i], DecisionOf(fs, i), Some(MemberDigestOf(fs, i)), Some(SnapshotOf(fs).selectionDigest))
  }

  // ----- the ranking, in place -----

  predicate Distinct(members: seq<Member>) {
    forall i, j | 0 <= i < j < |members| :: members[i] != members[j]
  }

  /** The ready members ahead of a member are where the sort puts it. */
  lemma AllPlaces(fs: seq<Features>)
    ensures forall i: nat | i < |fs| && fs[i].Ready() ::
              |Ahead(fs, i)| < |ReadyOrder(fs)| && ReadyOrder(fs)[|Ahead(fs, i)|] == i
    ensures forall k | 0 <= k < |ReadyOrder(fs)| ::
              ReadyOrder(fs)[k] < |fs| && fs[ReadyOrder(fs)[k]].Ready() && |Ahead(fs, ReadyOrder(fs)[k])| == k
  {
    RankIsPlace(fs);
    forall i: nat | i < |fs| && fs[i].Ready()
      ensures |Ahead(fs, i)| < |ReadyOrder(fs)| && ReadyOrder(fs)[|Ahead(fs, i)|] == i
    {
      PlaceOf(fs, i);
    }
  }

  /** The loop over the sorted ready members. */
  method RankReady(members: seq<Member>, order: seq<nat>, ghost fs: seq<Features>)
    requires Distinct(members) && fs == FeaturesOf(members) && order == ReadyOrder(fs)
    requires forall i: nat | i < |members| :: members[i].Unranked()
    modifies members
    ensures forall i: nat | i < |members| :: members[i].ToDecision() == DecisionOf(fs, i)
  {
    AllPlaces(fs);
    hide Ahead, ReadyOrder;
    for k := 0 to |order|
      invariant forall i: nat | i < |members| ::
                  if fs[i].Ready() && |Ahead(fs, i)| < k then members[i].ToDecision() == Ranked(|Ahead(fs, i)| + 1)
                  else members[i].Unranked()
    {
      var member := members[order[k]];
      var rank := k + 1;
      member.stableRank := Some(rank);
      if rank <= SELECTED_CAP {
        member.memberState, member.selected := Selected, true;
      } else if rank <= NEAR_CAP {
        member.memberState := NearThreshold;
      } else {
        member.memberState := NotSelected;
      }
    }
  }

  method DigestMembers(members: seq<Member>, ghost fs: seq<Features>)
    requires Distinct(members) && fs == FeaturesOf(members)
    requires forall i: nat | i < |members| :: members[i].ToDecision() == DecisionOf(fs, i)
    modifies members
    ensures forall i: nat | i < |members| ::
              members[i].ToDecision() == DecisionOf(fs, i) && members[i].memberDigest == Some(MemberDigestOf(fs, i))
  {
    hide DecisionOf;
    for i := 0 to |members|
      invariant forall k: nat | k < |members| :: members[k].ToDecision() == DecisionOf(fs, k)
      invariant forall k: nat | k < i :: members[k].memberDigest == Some(MemberDigestOf(fs, k))
    {
      members[i].memberDigest := Some(Sha256(MemberPayload(members[i].features, members[i].ToDecision())));
    }
  }

  function InIdOrder(fs: seq<Features>): seq<Features> {
    var order := IdOrder(fs);
    seq(|order|, k requires 0 <= k < |order| => fs[order[k]])
  }

  /** `_rank_session`: every row and the snapshot are those of the features alone. */
  method RankSession(members: seq<Member>) returns (r: Result<Snapshot, nat>)
    requires Distinct(members) && forall i: nat | i < |members| :: members[i].Unranked()
    modifies members
    ensures r.Err? <==> |members| != EXPECTED_MEMBERS
    ensures r.Err? ==> r.error == |members| && forall i: nat | i < |members| :: members[i].ToRow() == old(members[i].ToRow())
    ensures r.Ok? ==>
              var fs := FeaturesOf(members);
              r.value == SnapshotOf(fs) && forall i: nat | i < |members| :: members[i].ToRow() == RowOf(fs, i)
  {
    if |members| != EXPECTED_MEMBERS {
      return Err(|members|);
    }
    hide DecisionOf, ReadyOrder, IdOrder;
    var fs := FeaturesOf(members);
    var ready := ReadyOrder(fs);
    RankReady(members, ready, fs);
    DigestMembers(members, fs);
    var ordered := IdOrder(fs);
    IdOrderHasAll(fs);
    var sessionStartMs := fs[ordered[0]].sessionStartMs;
    var source := SourceDigestOf(fs);
    var digests := seq(|ordered|, k requires 0 <= k < |ordered| reads members =>
                         if members[ordered[k]].memberDigest.Some? then members[ordered[k]].memberDigest.value else source);
    assert digests == MemberDigestsOf(fs);
    var selectionDigest := Sha256(SelectionPayload(sessionStartMs, EXPECTED_MEMBERS, |ready|, AtMostCap(|ready|), source, digests));
    WriteSelectionDigest(members, fs, selectionDigest);
    return Ok(Snapshot(sessionStartMs, |ready|, AtMostCap(|ready|), source, selectionDigest));
  }

  method WriteSelectionDigest(members: seq<Member>, ghost fs: seq<Features>, digest: Digest)
    requires Distinct(members) && fs == FeaturesOf(members)
    requires forall i: nat | i < |members| ::
               members[i].ToDecision() == DecisionOf(fs, i) && members[i].memberDigest == Some(MemberDigestOf(fs, i))
    modifies members
    ensures forall i: nat | i < |members| ::
              members[i].ToRow() == Row(fs[i], DecisionOf(fs, i), Some(MemberDigestOf(fs, i)), Some(digest))
  {
    hide DecisionOf, MemberDigestOf;
    for i := 0 to |members|
      invariant forall k: nat | k < |members| ::
                  members[k].ToDecision() == DecisionOf(fs, k) && members[k].memberDigest == Some(MemberDigestOf(fs, k))
      invariant forall k: nat | k < i :: members[k].selectionDigest == Some(digest)
    {
      members[i].selectionDigest := Some(digest);
    }
  }

  // ----- the session does not depend on the order of its members -----

  predicate StrictlyById(fs: seq<Features>) {
    forall a, b | 0 <= a < b < |fs| :: IdLess(fs[a], fs[b])
  }

  lemma InIdOrderIsStrict(fs: seq<Features>)
    requires DistinctIds(fs)
    ensures StrictlyById(InIdOrder(fs)) && |InIdOrder(fs)| == |fs|
  {
    IdOrderHasAll(fs);
    IdLessIsWeak();
    var order := IdOrder(fs);
    OrderedIsDistinct(IdLess, fs, order);
    var sorted := InIdOrder(fs);
    hide IdOrder;
    forall a, b | 0 <= a < b < |sorted| ensures IdLess(sorted[a], sorted[b]) {
      var i, j := order[a], order[b];
      assert Before(IdLess, fs, i, j) && i != j;
      StringLessTotal(fs[i].instrumentId, fs[j].instrumentId);
    }
  }

  lemma InIdOrderHasAll(fs: seq<Features>)
    ensures Members(InIdOrder(fs)) == Members(fs)
  {
    IdOrderHasAll(fs);
    var order := IdOrder(fs);
    var sorted := InIdOrder(fs);
    hide IdOrder;
    forall f ensures f in sorted <==> f in fs {
      if f in fs {
        var i: nat :| i < |fs| && fs[i] == f;
        assert i in order;
        var k :| 0 <= k < |order| && order[k] == i;
        assert sorted[k] == f;
      }
    }
  }

  lemma NoMembers(fs: seq<Features>)
    ensures Members(fs) == {} ==> fs == []
  {
    if fs != [] {
      assert fs[0] in Members(fs);
    }
  }

  /** A set has only one listing strictly by id. */
  lemma {:induction false} OneListing(fs: seq<Features>, gs: seq<Features>)
    requires StrictlyById(fs) && StrictlyById(gs) && Members(fs) == Members(gs)
    ensures fs == gs
  {
    NoMembers(gs);
    NoMembers(fs);
    if fs != [] {
      assert fs[0] in Members(gs);
      SameLast(fs, gs);
      WithoutLast(fs);
      WithoutLast(gs);
      OneListing(fs[..|fs| - 1], gs[..|gs| - 1]);
      assert fs == fs[..|fs| - 1] + [fs[|fs| - 1]] && gs == gs[..|gs| - 1] + [gs[|gs| - 1]];
    }
  }

  lemma SameLast(fs: seq<Features>, gs: seq<Features>)
    requires StrictlyById(fs) && StrictlyById(gs) && Members(fs) == Members(gs) && fs != [] && gs != []
    ensures fs[|fs| - 1] == gs[|gs| - 1]
  {
    var last, end := fs[|fs| - 1], gs[|gs| - 1];
    assert last in Members(gs) && end in Members(fs);
    var a :| 0 <= a < |gs| && gs[a] == last;
    var b :| 0 <= b < |fs| && fs[b] == end;
    IdLessIsWeak();
    assert a < |gs| - 1 ==> IdLess(last, end);
    assert b < |fs| - 1 ==> IdLess(end, last);
  }

  lemma WithoutLast(fs: seq<Features>)
    requires StrictlyById(fs) && fs != []
    ensures StrictlyById(fs[..|fs| - 1]) && Members(fs[..|fs| - 1]) == Members(fs) - {fs[|fs| - 1]}
  {
    var init, last := fs[..|fs| - 1], fs[|fs| - 1];
    forall f ensures f in init <==> f in fs && f != last {
      if f in init {
        var a :| 0 <= a < |init| && init[a] == f;
        assert IdLess(fs[a], last);
        StringLessTotal(last.instrumentId, last.instrumentId);
      }
      if f in fs && f != last {
        var a :| 0 <= a < |fs| && fs[a] == f;
        assert init[a] == f;
      }
    }
  }

  /** The same members, in any order: the same snapshot, and the same row for each. */
  lemma SessionIsCanonical(fs: seq<Features>, gs: seq<Features>)
    requires DistinctIds(fs) && DistinctIds(gs) && Members(fs) == Members(gs) && fs != []
    ensures gs != [] && SnapshotOf(fs) == SnapshotOf(gs)
    ensures forall i: nat, j: nat | i < |fs| && j < |gs| && fs[i] == gs[j] :: RowOf(fs, i) == RowOf(gs, j)
  {
    NoMembers(gs);
    assert fs[0] in Members(gs);
    SameReadyCount(fs, gs);
    SameListing(fs, gs);
    forall i: nat, j: nat | i < |fs| && j < |gs| && fs[i] == gs[j] ensures DecisionOf(fs, i) == DecisionOf(gs, j) {
      RankingIgnoresOrder(fs, gs, i, j);
    }
    hide DecisionOf, ReadyOrder, IdOrder, SourceDigestOf, MemberDigestsOf;
    var start, count := fs[IdOrder(fs)[0]].sessionStartMs, |ReadyOrder(fs)|;
    assert SelectionDigest(fs, start, count) == SelectionDigest(gs, start, count);
    assert SnapshotOf(fs) == SnapshotOf(gs);
  }

  /** The digest of a session identifies it: equal exactly when the members are, whatever their order. */
  lemma SelectionDigestExact(fs: seq<Features>, gs: seq<Features>)
    requires DistinctIds(fs) && DistinctIds(gs) && fs != [] && gs != []
    ensures SnapshotOf(fs).selectionDigest == SnapshotOf(gs).selectionDigest <==> Members(fs) == Members(gs)
  {
    if Members(fs) == Members(gs) {
      SessionIsCanonical(fs, gs);
    }
    if SnapshotOf(fs).selectionDigest == SnapshotOf(gs).selectionDigest {
      assert MemberDigestsOf(fs) == MemberDigestsOf(gs);
      DigestsList(fs);
      DigestsList(gs);
      hide MemberDigestsOf, InIdOrder, IdOrder;
      forall k | 0 <= k < |InIdOrder(fs)| ensures InIdOrder(fs)[k] == InIdOrder(gs)[k] {
        assert MemberDigestsOf(fs)[k].payload.features == InIdOrder(fs)[k];
      }
      assert InIdOrder(fs) == InIdOrder(gs);
      InIdOrderHasAll(fs);
      InIdOrderHasAll(gs);
    }
  }

  /** The digests of the members, and the windows of the source, are listed by instrument id. */
  lemma DigestsList(fs: seq<Features>)
    ensures |MemberDigestsOf(fs)| == |InIdOrder(fs)|
    ensures forall k | 0 <= k < |InIdOrder(fs)| ::
              MemberDigestsOf(fs)[k].payload.MemberPayload? && MemberDigestsOf(fs)[k].payload.features == InIdOrder(fs)[k]
    ensures |SourceDigestOf(fs).payload.windows| == |InIdOrder(fs)|
    ensures forall k | 0 <= k < |InIdOrder(fs)| ::
              SourceDigestOf(fs).payload.windows[k] == (InIdOrder(fs)[k].instrumentId, InIdOrder(fs)[k].window)
  {
    hide DecisionOf;
  }

  /** The snapshot counts the ready members and selects seven of them at most; its digest is taken of these numbers, of
      the windows and of the members' digests, both listed by instrument id. */
  lemma SnapshotInFull(fs: seq<Features>)
    requires fs != []
    ensures
      var s := SnapshotOf(fs);
      var ready := |Positions(fs, (f: Features) => f.Ready())|;
      && s.readyCount == ready && s.selectedCount == (if ready < 7 then ready else 7)
      && s.sourceDigest == SourceDigestOf(fs) && |InIdOrder(fs)| == |fs|
      && s.sessionStartMs == InIdOrder(fs)[0].sessionStartMs
      && s.selectionDigest == Sha256(SelectionPayload(s.sessionStartMs, 24, s.readyCount, s.selectedCount,
                                                      s.sourceDigest, MemberDigestsOf(fs)))
  {
    IdOrderHasAll(fs);
    RankIsPlace(fs);
    hide IdOrder, SourceDigestOf, MemberDigestsOf;
    var order := ReadyOrder(fs);
    hide ReadyOrder;
    DistinctCount(order);
    assert Positions(fs, (f: Features) => f.Ready()) == Elements(order);
  }

  lemma SameListing(fs: seq<Features>, gs: seq<Features>)
    requires DistinctIds(fs) && DistinctIds(gs) && Members(fs) == Members(gs)
    ensures |IdOrder(fs)| == |IdOrder(gs)| == |fs| == |gs|
    ensures SourceDigestOf(fs) == SourceDigestOf(gs) && MemberDigestsOf(fs) == MemberDigestsOf(gs)
    ensures fs != [] ==> fs[IdOrder(fs)[0]] == gs[IdOrder(gs)[0]]
  {
    InIdOrderIsStrict(fs);
    InIdOrderIsStrict(gs);
    InIdOrderHasAll(fs);
    InIdOrderHasAll(gs);
    OneListing(InIdOrder(fs), InIdOrder(gs));
    var a, b := IdOrder(fs), IdOrder(gs);
    hide IdOrder, DecisionOf;
    forall k | 0 <= k < |a|
      ensures fs[a[k]] == gs[b[k]] && MemberDigestOf(fs, a[k]) == MemberDigestOf(gs, b[k])
    {
      assert InIdOrder(fs)[k] == InIdOrder(gs)[k];
      RankingIgnoresOrder(fs, gs, a[k], b[k]);
    }
    assert SourceDigestOf(fs).payload.windows == SourceDigestOf(gs).payload.windows;
    assert MemberDigestsOf(fs) == MemberDigestsOf(gs);
    if fs != [] {
      assert fs[a[0]] == gs[b[0]];
    }
  }

  lemma SameReadyCount(fs: seq<Features>, gs: seq<Features>)
    requires DistinctIds(fs) && DistinctIds(gs) && Members(fs) == Members(gs)
    ensures |ReadyOrder(fs)| == |ReadyOrder(gs)|
  {
    ReadyCount(fs);
    ReadyCount(gs);
  }

  lemma ReadyCount(fs: seq<Features>)
    requires DistinctIds(fs)
    ensures |ReadyOrder(fs)| == |set f | f in Members(fs) && f.Ready()|
  {
    RankIsPlace(fs);
    var order := ReadyOrder(fs);
    hide ReadyOrder;
    DistinctCount(order);
    ImageCount(fs, Elements(order));
    var image := set i | i in Elements(order) :: fs[i];
    var ready := set f | f in Members(fs) && f.Ready();
    forall f ensures f in image <==> f in ready {
      if f in ready {
        var i: nat :| i < |fs| && fs[i] == f;
        assert i in order;
      }
    }
    assert image == ready;
  }

  // ----- the checks of verify_artifact -----

  datatype SessionError =
    | MemberDigestMismatch
    | MemberCardinality
    | RankSequence
    | SelectedCount
    | SnapshotReadyCount
    | SnapshotSelectedCount
    | SnapshotDigest

  function Count<T>(s: seq<T>, p: T -> bool): nat {
    if s == [] then 0 else Count(s[..|s| - 1], p) + if p(s[|s| - 1]) then 1 else 0
  }

  function Positions<T>(s: seq<T>, p: T -> bool): set<nat> {
    set i: nat | i < |s| && p(s[i])
  }

  lemma {:induction false} CountIsPositions<T>(s: seq<T>, p: T -> bool)
    ensures Count(s, p) == |Positions(s, p)|
  {
    if s == [] {
      assert Positions(s, p) == {};
    } else {
      var n := |s| - 1;
      CountIsPositions(s[..n], p);
      assert Positions(s, p) == Positions(s[..n], p) + if p(s[n]) then {n} else {};
    }
  }

  function RanksIn(rows: seq<Row>): seq<nat> {
    if rows == [] then []
    else
      var last := rows[|rows| - 1].decision.stableRank;
      RanksIn(rows[..|rows| - 1]) + if last.Some? then [last.value] else []
  }

  function Range(n: nat): seq<nat> {
    if n == 0 then [] else Range(n - 1) + [n]
  }

  /** A row stands by its own digest. */
  predicate MemberRowHolds(row: Row) {
    row.memberDigest == Some(Sha256(MemberPayload(row.features, row.decision)))
  }

  /** The checks of one session, in order. Two lists of ranks sort alike when they are the same multiset. */
  function VerifySession(rows: seq<Row>, snapshot: Snapshot): Result<(), SessionError> {
    var readyCount := Count(rows, (row: Row) => row.features.Ready());
    var selectedCount := Count(rows, (row: Row) => row.decision.selected);
    if exists row <- rows :: !MemberRowHolds(row) then Err(MemberDigestMismatch)
    else if |rows| != EXPECTED_MEMBERS then Err(MemberCardinality)
    else if multiset(RanksIn(rows)) != multiset(Range(readyCount)) then Err(RankSequence)
    else if selectedCount != AtMostCap(readyCount) then Err(SelectedCount)
    else if snapshot.readyCount != readyCount then Err(SnapshotReadyCount)
    else if snapshot.selectedCount != selectedCount then Err(SnapshotSelectedCount)
    else if exists row <- rows :: row.selectionDigest != Some(snapshot.selectionDigest) then Err(SnapshotDigest)
    else Ok(())
  }

  lemma {:induction false} RankMultiplicity(rows: seq<Row>, rank: nat)
    ensures multiset(RanksIn(rows))[rank] == Count(rows, (row: Row) => row.decision.stableRank == Some(rank))
  {
    if rows != [] {
      RankMultiplicity(rows[..|rows| - 1], rank);
    }
  }

  lemma {:induction false} RangeMultiplicity(n: nat, rank: nat)
    ensures multiset(Range(n))[rank] == if 1 <= rank <= n then 1 else 0
  {
    if n > 0 {
      RangeMultiplicity(n - 1, rank);
    }
  }

  function RowsOf(fs: seq<Features>): (rows: seq<Row>)
    ensures |rows| == |fs| && forall i: nat | i < |fs| :: rows[i] == RowOf(fs, i)
  {
    seq(|fs|, i requires 0 <= i < |fs| => RowOf(fs, i))
  }

  /** Every rank from 1 to the number of ready members appears exactly once, and no other. */
  lemma RankPositions(fs: seq<Features>, rank: nat)
    ensures
      var positions := Positions(RowsOf(fs), (row: Row) => row.decision.stableRank == Some(rank));
      |positions| == if 1 <= rank <= |ReadyOrder(fs)| then 1 else 0
  {
    AllPlaces(fs);
    var rows := RowsOf(fs);
    var order := ReadyOrder(fs);
    hide ReadyOrder, Ahead;
    var positions := Positions(rows, (row: Row) => row.decision.stableRank == Some(rank));
    if 1 <= rank <= |order| {
      assert positions == {order[rank - 1]};
    } else {
      assert positions == {};
    }
  }

  lemma RanksAreTheRange(fs: seq<Features>)
    ensures multiset(RanksIn(RowsOf(fs))) == multiset(Range(|ReadyOrder(fs)|))
  {
    hide ReadyOrder, RowsOf, RanksIn, Range;
    var rows, n := RowsOf(fs), |ReadyOrder(fs)|;
    forall rank: nat ensures multiset(RanksIn(rows))[rank] == multiset(Range(n))[rank] {
      RankMultiplicity(rows, rank);
      RangeMultiplicity(n, rank);
      CountIsPositions(rows, (row: Row) => row.decision.stableRank == Some(rank));
      RankPositions(fs, rank);
    }
  }

  lemma ReadyInRows(fs: seq<Features>)
    ensures Count(RowsOf(fs), (row: Row) => row.features.Ready()) == |ReadyOrder(fs)|
  {
    RankIsPlace(fs);
    var rows, order := RowsOf(fs), ReadyOrder(fs);
    hide ReadyOrder, Ahead;
    CountIsPositions(rows, (row: Row) => row.features.Ready());
    assert Positions(rows, (row: Row) => row.features.Ready()) == Elements(order);
    DistinctCount(order);
  }

  lemma SelectedInRows(fs: seq<Features>)
    ensures Count(RowsOf(fs), (row: Row) => row.decision.selected) == AtMostCap(|ReadyOrder(fs)|)
  {
    AllPlaces(fs);
    RankIsPlace(fs);
    var rows, order := RowsOf(fs), ReadyOrder(fs);
    var n := AtMostCap(|order|);
    hide ReadyOrder, Ahead;
    var positions := Positions(rows, (row: Row) => row.decision.selected);
    CountIsPositions(rows, (row: Row) => row.decision.selected);
    forall i: nat ensures i in positions <==> i in order[..n] {
      if i in order[..n] {
        var k :| 0 <= k < n && order[..n][k] == i;
        assert order[k] == i;
      }
      if i in positions {
        assert order[..n][|Ahead(fs, i)|] == i;
      }
    }
    assert positions == Elements(order[..n]);
    DistinctCount(order[..n]);
  }

  /** The verifier accepts every session the ranking produces. */
  lemma RankedSessionVerifies(fs: seq<Features>)
    requires |fs| == EXPECTED_MEMBERS
    ensures VerifySession(RowsOf(fs), SnapshotOf(fs)) == Ok(())
  {
    RanksAreTheRange(fs);
    ReadyInRows(fs);
    SelectedInRows(fs);
    hide ReadyOrder;
    forall row | row in RowsOf(fs)
      ensures MemberRowHolds(row) && row.selectionDigest == Some(SnapshotOf(fs).selectionDigest)
    {
      var i: nat :| i < |fs| && RowsOf(fs)[i] == row;
      assert row == RowOf(fs, i);
    }
  }

  /** What the checks demand, place by place: each row stands by its own digest and carries the snapshot's; the ranks
      are one to the number of ready rows, each on exactly one row; as many rows are selected as there are ready ones,
      but seven at most; and the snapshot counts them rightly. */
  lemma VerifiesExactly(rows: seq<Row>, snapshot: Snapshot)
    ensures VerifySession(rows, snapshot) == Ok(()) <==>
              var r := |Positions(rows, (row: Row) => row.features.Ready())|;
              && |rows| == 24
              && (forall row <- rows :: MemberRowHolds(row) && row.selectionDigest == Some(snapshot.selectionDigest))
              && (forall rank: nat :: |Positions(rows, (row: Row) => row.decision.stableRank == Some(rank))|
                                      == if 1 <= rank <= r then 1 else 0)
              && |Positions(rows, (row: Row) => row.decision.selected)| == (if r < 7 then r else 7)
              && snapshot.readyCount == r && snapshot.selectedCount == if r < 7 then r else 7
  {
    CountIsPositions(rows, (row: Row) => row.features.Ready());
    CountIsPositions(rows, (row: Row) => row.decision.selected);
    var r := Count(rows, (row: Row) => row.features.Ready());
    RanksExactly(rows, r);
    hide RanksIn, Range, Count, Positions, MemberRowHolds;
  }

  /** Two lists of ranks are the same multiset exactly when each rank of the range is on one row, and no other on any. */
  lemma RanksExactly(rows: seq<Row>, r: nat)
    ensures multiset(RanksIn(rows)) == multiset(Range(r)) <==>
              forall rank: nat :: |Positions(rows, (row: Row) => row.decision.stableRank == Some(rank))|
                                  == if 1 <= rank <= r then 1 else 0
  {
    hide RanksIn, Range, Count, Positions;
    forall rank: nat
      ensures multiset(RanksIn(rows))[rank] == |Positions(rows, (row: Row) => row.decision.stableRank == Some(rank))|
      ensures multiset(Range(r))[rank] == if 1 <= rank <= r then 1 else 0
    {
      RankMultiplicity(rows, rank);
      RangeMultiplicity(r, rank);
      CountIsPositions(rows, (row: Row) => row.decision.stableRank == Some(rank));
    }
    if forall rank: nat :: |Positions(rows, (row: Row) => row.decision.stableRank == Some(rank))|
                           == if 1 <= rank <= r then 1 else 0 {
      forall rank: nat ensures multiset(RanksIn(rows))[rank] == multiset(Range(r))[rank] {
      }
    }
  }

  // ----- what the checks do not see -----

  function WithDecision(row: Row, decision: Decision): Row {
    row.(decision := decision, memberDigest := Some(Sha256(MemberPayload(row.features, decision))))
  }

  /** Two members exchange their decisions, each digested anew. */
  function Exchanged(rows: seq<Row>, i: nat, j: nat): seq<Row>
    requires i < j < |rows|
  {
    rows[i := WithDecision(rows[i], rows[j].decision)][j := WithDecision(rows[j], rows[i].decision)]
  }

  /** As many rows with a decision of some kind as before. */
  lemma ExchangeCounts(rows: seq<Row>, i: nat, j: nat, kind: Decision -> bool)
    requires i < j < |rows|
    ensures Count(Exchanged(rows, i, j), (row: Row) => kind(row.decision)) == Count(rows, (row: Row) => kind(row.decision))
  {
    var p := (row: Row) => kind(row.decision);
    var swapped := Exchanged(rows, i, j);
    assert forall k: nat | k < |rows| && k != i && k != j :: swapped[k] == rows[k];
    assert swapped[i].decision == rows[j].decision && swapped[j].decision == rows[i].decision;
    CountAcross(rows, swapped, i, j, p);
  }

  lemma CountAcross<T>(s: seq<T>, t: seq<T>, i: nat, j: nat, p: T -> bool)
    requires |s| == |t| && i < j < |s|
    requires forall k: nat | k < |s| && k != i && k != j :: p(t[k]) == p(s[k])
    requires p(t[i]) == p(s[j]) && p(t[j]) == p(s[i])
    ensures Count(t, p) == Count(s, p)
  {
    var mid := s[i := t[i]];
    CountAtOne(s, mid, i, p);
    CountAtOne(mid, t, j, p);
  }

  /** Two sequences that p tells apart at one place at most. */
  lemma {:induction false} CountAtOne<T>(s: seq<T>, t: seq<T>, i: nat, p: T -> bool)
    requires |s| == |t| && i < |s|
    requires forall k: nat | k < |s| && k != i :: p(t[k]) == p(s[k])
    ensures Count(t, p) + (if p(s[i]) then 1 else 0) == Count(s, p) + if p(t[i]) then 1 else 0
  {
    var n := |s| - 1;
    if i == n {
      CountAlike(s[..n], t[..n], p);
    } else {
      CountAtOne(s[..n], t[..n], i, p);
    }
  }

  lemma {:induction false} CountAlike<T>(s: seq<T>, t: seq<T>, p: T -> bool)
    requires |s| == |t| && forall k: nat | k < |s| :: p(t[k]) == p(s[k])
    ensures Count(t, p) == Count(s, p)
  {
    if s != [] {
      CountAlike(s[..|s| - 1], t[..|t| - 1], p);
    }
  }

  lemma {:induction false} CountSame<T>(s: seq<T>, p: T -> bool, q: T -> bool)
    requires forall t: T | t in s :: p(t) == q(t)
    ensures Count(s, p) == Count(s, q)
  {
    if s != [] {
      CountSame(s[..|s| - 1], p, q);
    }
  }

  lemma ExchangeRanks(rows: seq<Row>, i: nat, j: nat)
    requires i < j < |rows|
    ensures multiset(RanksIn(Exchanged(rows, i, j))) == multiset(RanksIn(rows))
  {
    var swapped := Exchanged(rows, i, j);
    forall rank: nat ensures multiset(RanksIn(swapped))[rank] == multiset(RanksIn(rows))[rank] {
      var kind := (d: Decision) => d.stableRank == Some(rank);
      RankMultiplicity(swapped, rank);
      RankMultiplicity(rows, rank);
      ExchangeCounts(rows, i, j, kind);
      CountSame(rows, (row: Row) => kind(row.decision), (row: Row) => row.decision.stableRank == Some(rank));
      CountSame(swapped, (row: Row) => kind(row.decision), (row: Row) => row.decision.stableRank == Some(rank));
    }
  }

  lemma ExchangeSelected(rows: seq<Row>, i: nat, j: nat)
    requires i < j < |rows|
    ensures Count(Exchanged(rows, i, j), (row: Row) => row.decision.selected) == Count(rows, (row: Row) => row.decision.selected)
  {
    var kind := (d: Decision) => d.selected;
    var swapped := Exchanged(rows, i, j);
    ExchangeCounts(rows, i, j, kind);
    CountSame(rows, (row: Row) => kind(row.decision), (row: Row) => row.decision.selected);
    CountSame(swapped, (row: Row) => kind(row.decision), (row: Row) => row.decision.selected);
  }

  lemma ExchangeReady(rows: seq<Row>, i: nat, j: nat)
    requires i < j < |rows|
    ensures Count(Exchanged(rows, i, j), (row: Row) => row.features.Ready()) == Count(rows, (row: Row) => row.features.Ready())
  {
    var p := (row: Row) => row.features.Ready();
    var swapped := Exchanged(rows, i, j);
    assert |swapped| == |rows| && forall k: nat | k < |rows| :: swapped[k].features == rows[k].features;
    hide Exchanged;
    CountAlike(rows, swapped, p);
  }

  /** The checks count ranks and selections; they do not look at the order. Exchanging the decisions of any two
      ready members gives a different session that is accepted all the same. */
  lemma VerifierIgnoresTheOrder(fs: seq<Features>, i: nat, j: nat)
    requires |fs| == EXPECTED_MEMBERS && i < j < |fs| && fs[i].Ready() && fs[j].Ready()
    ensures
      var swapped := Exchanged(RowsOf(fs), i, j);
      VerifySession(swapped, SnapshotOf(fs)) == Ok(()) && swapped != RowsOf(fs)
  {
    var rows := RowsOf(fs);
    var swapped := Exchanged(rows, i, j);
    RankedSessionVerifies(fs);
    ExchangeRanks(rows, i, j);
    ExchangeSelected(rows, i, j);
    ExchangeReady(rows, i, j);
    RowsDiffer(fs, i, j);
    hide RanksIn, Range, Count, RowsOf;
    forall row | row in swapped
      ensures MemberRowHolds(row) && row.selectionDigest == Some(SnapshotOf(fs).selectionDigest)
    {
      var k: nat :| k < |swapped| && swapped[k] == row;
      assert rows[k] in rows && rows[i] in rows && rows[j] in rows;
    }
  }

  lemma RowsDiffer(fs: seq<Features>, i: nat, j: nat)
    requires i < j < |fs| && fs[i].Ready() && fs[j].Ready()
    ensures RowsOf(fs)[i].decision != RowsOf(fs)[j].decision
  {
    RanksAreABijection(fs);
    assert HasRank(fs, i, |Ahead(fs, i)| + 1);
    assert HasRank(fs, j, |Ahead(fs, j)| + 1);
  }

  // ----- when an accepted session is the ranked one -----

  /** The rows of a session over the given features. */
  predicate RowsOver(fs: seq<Features>, rows: seq<Row>) {
    |rows| == |fs| && forall i: nat | i < |fs| :: rows[i].features == fs[i]
  }

  /** Ranks ascend with the ratio, at equal ratios descend with the activity, and at equal both ascend with the id; only
      ready rows have one; and each state and selection is that of its rank. */
  ghost predicate RankedByKey(fs: seq<Features>, rows: seq<Row>)
    requires RowsOver(fs, rows)
  {
    && (forall i: nat | i < |fs| :: RankStands(rows[i]))
    && forall i: nat, j: nat | i < |fs| && j < |fs| && HasRankIn(rows, i) && HasRankIn(rows, j) && ComesFirst(fs[i], fs[j]) ::
         RankIn(rows, i) < RankIn(rows, j)
  }

  ghost predicate ComesFirst(f: Features, g: Features) {
    if f.ratio != g.ratio then f.ratio < g.ratio
    else if f.activity != g.activity then g.activity < f.activity
    else exists d: nat :: FirstDifference(f.instrumentId, g.instrumentId, d)
  }

  /** The sort key is that order. */
  lemma KeyIsOrder(f: Features, g: Features)
    ensures KeyLess(f, g) <==> ComesFirst(f, g)
  {
    StringLessMeans(f.instrumentId, g.instrumentId);
  }

  predicate RankStands(row: Row) {
    match row.decision.stableRank
    case Some(rank) =>
      && row.features.Ready() && row.decision.selected == (rank <= 7)
      && row.decision.state == if rank <= 7 then Selected else if rank <= 14 then NearThreshold else NotSelected
    case None => row.decision.state == Ineligible && !row.decision.selected
  }

  predicate HasRankIn(rows: seq<Row>, i: nat)
    requires i < |rows|
  {
    rows[i].decision.stableRank.Some?
  }

  function RankIn(rows: seq<Row>, i: nat): nat
    requires i < |rows| && HasRankIn(rows, i)
  {
    rows[i].decision.stableRank.value
  }

  function PositionsRanked(rows: seq<Row>, rank: nat): set<nat> {
    Positions(rows, (row: Row) => row.decision.stableRank == Some(rank))
  }

  function PositionsBelow(rows: seq<Row>, rank: nat): set<nat> {
    Positions(rows, (row: Row) => row.decision.stableRank.Some? && row.decision.stableRank.value < rank)
  }

  /** The accepted ranks are 1 to r, each once. */
  lemma AcceptedRanks(rows: seq<Row>, r: nat, rank: nat)
    requires multiset(RanksIn(rows)) == multiset(Range(r))
    ensures |PositionsRanked(rows, rank)| == if 1 <= rank <= r then 1 else 0
  {
    RankMultiplicity(rows, rank);
    RangeMultiplicity(r, rank);
    CountIsPositions(rows, (row: Row) => row.decision.stableRank == Some(rank));
  }

  lemma BelowSplits(rows: seq<Row>, rank: nat)
    ensures PositionsBelow(rows, rank + 1) == PositionsBelow(rows, rank) + PositionsRanked(rows, rank)
    ensures PositionsBelow(rows, rank) !! PositionsRanked(rows, rank)
    ensures PositionsBelow(rows, 0) == {}
  {
  }

  /** So below each rank there are as many rows as lower ranks. */
  lemma {:induction false} AcceptedBelow(rows: seq<Row>, r: nat, rank: nat)
    requires multiset(RanksIn(rows)) == multiset(Range(r)) && 1 <= rank <= r + 1
    ensures |PositionsBelow(rows, rank)| == rank - 1
  {
    hide RanksIn, Range, PositionsBelow, PositionsRanked;
    BelowSplits(rows, rank - 1);
    AcceptedRanks(rows, r, rank - 1);
    if rank > 1 {
      AcceptedBelow(rows, r, rank - 1);
    }
  }

  /** No rank is above r, and no row is without the range. */
  lemma AcceptedRange(rows: seq<Row>, r: nat, i: nat)
    requires multiset(RanksIn(rows)) == multiset(Range(r)) && i < |rows| && HasRankIn(rows, i)
    ensures 1 <= RankIn(rows, i) <= r
  {
    AcceptedRanks(rows, r, RankIn(rows, i));
    assert i in PositionsRanked(rows, RankIn(rows, i));
  }

  /** Two rows with one rank are one. */
  lemma AcceptedOnce(rows: seq<Row>, r: nat, i: nat, j: nat)
    requires multiset(RanksIn(rows)) == multiset(Range(r))
    requires i < |rows| && j < |rows| && HasRankIn(rows, i) && HasRankIn(rows, j) && RankIn(rows, i) == RankIn(rows, j)
    ensures i == j
  {
    AcceptedRanks(rows, r, RankIn(rows, i));
    var at := PositionsRanked(rows, RankIn(rows, i));
    assert i in at && j in at;
    if i != j {
      assert {i, j} <= at;
      SubsetCount({i, j}, at);
    }
  }

  lemma SubsetCount(a: set<nat>, b: set<nat>)
    requires a <= b
    ensures |a| <= |b| && (|a| == |b| ==> a == b)
  {
    assert b == a + (b - a);
  }

  /** With r ready rows and r ranks on ready rows, every ready row is ranked. */
  lemma {:induction false} AllReadyRanked(rows: seq<Row>, r: nat, i: nat)
    requires multiset(RanksIn(rows)) == multiset(Range(r))
    requires Count(rows, (row: Row) => row.features.Ready()) == r
    requires forall k: nat | k < |rows| :: RankStands(rows[k])
    requires i < |rows| && rows[i].features.Ready()
    ensures HasRankIn(rows, i)
  {
    var ready := Positions(rows, (row: Row) => row.features.Ready());
    CountIsPositions(rows, (row: Row) => row.features.Ready());
    AcceptedBelow(rows, r, r + 1);
    var ranked := PositionsBelow(rows, r + 1);
    forall k | k in ranked ensures k in ready {
      assert RankStands(rows[k]);
    }
    SubsetCount(ranked, ready);
    assert i in ready;
  }

  /** Rows that rank every ready member along the key rank it by the members ahead of it. */
  lemma {:induction false} AheadIsBelow(fs: seq<Features>, rows: seq<Row>, r: nat, i: nat)
    requires RowsOver(fs, rows) && RankedByKey(fs, rows) && DistinctIds(fs)
    requires multiset(RanksIn(rows)) == multiset(Range(r)) && Count(rows, (row: Row) => row.features.Ready()) == r
    requires i < |fs| && HasRankIn(rows, i)
    ensures Ahead(fs, i) == PositionsBelow(rows, RankIn(rows, i))
  {
    KeyLessIsWeak();
    forall j: nat ensures j in Ahead(fs, i) <==> j in PositionsBelow(rows, RankIn(rows, i)) {
      if j < |fs| && fs[j].Ready() {
        AllReadyRanked(rows, r, j);
        KeysDecide(fs, i, j);
        if RankIn(rows, i) == RankIn(rows, j) {
          AcceptedOnce(rows, r, i, j);
        }
      }
      if j in PositionsBelow(rows, RankIn(rows, i)) {
        assert RankStands(rows[j]);
      }
    }
  }

  /** With distinct ids the key alone decides who is ahead. */
  lemma KeysDecide(fs: seq<Features>, i: nat, j: nat)
    requires DistinctIds(fs) && i < |fs| && j < |fs|
    ensures Before(KeyLess, fs, j, i) <==> ComesFirst(fs[j], fs[i])
    ensures i != j ==> ComesFirst(fs[i], fs[j]) || ComesFirst(fs[j], fs[i])
    ensures !(ComesFirst(fs[i], fs[j]) && ComesFirst(fs[j], fs[i]))
  {
    StringLessTotal(fs[i].instrumentId, fs[j].instrumentId);
    KeyIsOrder(fs[i], fs[j]);
    KeyIsOrder(fs[j], fs[i]);
    hide ComesFirst;
  }

  /** Exactly when a session the checks accept is the ranked one: when its ranks ascend along the key, only ready rows
      have one, and each state and selection is that of its rank. */
  lemma {:induction false} AcceptedIsRankedExactly(fs: seq<Features>, rows: seq<Row>, snapshot: Snapshot)
    requires |fs| == EXPECTED_MEMBERS && DistinctIds(fs) && RowsOver(fs, rows)
    requires VerifySession(rows, snapshot).Ok?
    ensures (forall i: nat | i < |fs| :: rows[i].decision == DecisionOf(fs, i)) <==> RankedByKey(fs, rows)
  {
    var r := Count(rows, (row: Row) => row.features.Ready());
    if RankedByKey(fs, rows) {
      forall i: nat | i < |fs| ensures rows[i].decision == DecisionOf(fs, i) {
        AcceptedDecision(fs, rows, r, i);
      }
    }
    if forall i: nat | i < |fs| :: rows[i].decision == DecisionOf(fs, i) {
      forall i: nat, j: nat | i < |fs| && j < |fs| && HasRankIn(rows, i) && HasRankIn(rows, j) && ComesFirst(fs[i], fs[j])
        ensures RankIn(rows, i) < RankIn(rows, j)
      {
        KeyIsOrder(fs[i], fs[j]);
        KeyedRanks(fs, i, j);
      }
    }
  }

  lemma {:induction false} AcceptedDecision(fs: seq<Features>, rows: seq<Row>, r: nat, i: nat)
    requires RowsOver(fs, rows) && RankedByKey(fs, rows) && DistinctIds(fs)
    requires multiset(RanksIn(rows)) == multiset(Range(r)) && Count(rows, (row: Row) => row.features.Ready()) == r
    requires i < |fs|
    ensures rows[i].decision == DecisionOf(fs, i)
  {
    assert RankStands(rows[i]);
    if fs[i].Ready() {
      AllReadyRanked(rows, r, i);
      AheadIsBelow(fs, rows, r, i);
      AcceptedRange(rows, r, i);
      AcceptedBelow(rows, r, RankIn(rows, i));
    }
  }
}
