/** Section boundaries of a recording: change points taken greedily, best first, at a minimum distance. */
module Sections {
  import opened Common
  import opened Sorting

  const MAX_SECTIONS := 10
  const MINIMUM := 20

  /** A timeline of rows, with the change score around a row and the score threshold left opaque. */
  datatype Timeline = Timeline(rows: nat, score: (seq<nat>, nat) -> real, threshold: seq<real> -> real)

  datatype Scored = Scored(score: real, index: nat)

  /** Comparison windows at most a third of the timeline long. */
  function Windows(rows: nat): (ws: seq<nat>)
    ensures |ws| > 0 && forall w :: w in ws ==> w <= LargestWindow(rows)
    ensures LargestWindow(rows) in ws
  {
    var fitting: seq<nat> :=
        (if rows >= 12 then [4] else []) + (if rows >= 24 then [8] else []) + (if rows >= 48 then [16] else []);
    if fitting == [] then [4] else fitting
  }

  function LargestWindow(rows: nat): nat {
    if rows >= 48 then 16 else if rows >= 24 then 8 else 4
  }

  function ScoreAt(t: Timeline, index: nat): real {
    t.score(Windows(t.rows), index)
  }

  /** The scored rows: those with a full largest window on either side. */
  function Scores(t: Timeline): (s: seq<Scored>)
    ensures forall k :: 0 <= k < |s| ==>
            s[k] == Scored(ScoreAt(t, LargestWindow(t.rows) + k), LargestWindow(t.rows) + k)
    ensures |s| == SaturatingSub(t.rows, 2 * LargestWindow(t.rows))
  {
    seq(SaturatingSub(t.rows, 2 * LargestWindow(t.rows)),
        k requires 0 <= k => Scored(ScoreAt(t, LargestWindow(t.rows) + k), LargestWindow(t.rows) + k))
  }

  function Threshold(t: Timeline): real {
    t.threshold(Map((s: Scored) => s.score, Scores(t)))
  }

  /** Higher scores first; of equal scores the later row first. */
  function BestFirst(): (Scored, Scored) -> bool {
    (a: Scored, b: Scored) => a.score > b.score || (a.score == b.score && a.index > b.index)
  }

  function Ascending(): (nat, nat) -> bool {
    (a: nat, b: nat) => a < b
  }

  // ----- the choice, stated without the loop -----

  predicate Precedes(t: Timeline, i: nat, j: nat) {
    ScoreAt(t, i) > ScoreAt(t, j) || (ScoreAt(t, i) == ScoreAt(t, j) && i > j)
  }

  predicate Near(i: nat, j: nat) {
    i - j < MINIMUM && j - i < MINIMUM
  }

  /** A row that may start a section, as far as it alone is concerned. */
  predicate Candidate(t: Timeline, i: nat) {
    && LargestWindow(t.rows) <= i < t.rows - LargestWindow(t.rows)
    && ScoreAt(t, i) >= Threshold(t)
    && MINIMUM <= i <= t.rows - MINIMUM
  }

  ghost function Better(t: Timeline, chosen: set<nat>, i: nat): set<nat> {
    set c | c in chosen && Precedes(t, c, i)
  }

  predicate Clear(t: Timeline, chosen: set<nat>, i: nat) {
    forall c :: c in chosen && Precedes(t, c, i) ==> !Near(c, i)
  }

  /** A candidate is chosen exactly when fewer than nine better rows are, none of them near it. */
  ghost predicate Greedy(t: Timeline, chosen: set<nat>) {
    forall i: nat :: i in chosen <==>
        Candidate(t, i) && |Better(t, chosen, i)| < MAX_SECTIONS - 1 && Clear(t, chosen, i)
  }

  // ----- the loop -----

  lemma BestFirstIsStrict()
    ensures Transitive(BestFirst()) && Asymmetric(BestFirst())
  {
  }

  predicate IsScored(t: Timeline, i: nat) {
    LargestWindow(t.rows) <= i < t.rows - LargestWindow(t.rows)
  }

  /** The scored rows, best first: each once, in strict order. */
  ghost predicate RankedScores(t: Timeline, s: seq<Scored>) {
    && Ordered(s, BestFirst())
    && (forall k :: 0 <= k < |s| ==> IsScored(t, s[k].index) && s[k].score == ScoreAt(t, s[k].index))
    && (forall i: nat :: IsScored(t, i) ==> Scored(ScoreAt(t, i), i) in s)
  }

  lemma OrderedScores(t: Timeline)
    ensures RankedScores(t, Sort(Scores(t), BestFirst()))
  {
    var scores, s := Scores(t), Sort(Scores(t), BestFirst());
    BestFirstIsStrict();
    PairwiseComparable(scores, BestFirst());
    SortOrders(scores, BestFirst());
    forall k | 0 <= k < |s| ensures IsScored(t, s[k].index) && s[k].score == ScoreAt(t, s[k].index) {
      assert s[k] in multiset(scores);
    }
    forall i: nat | IsScored(t, i) ensures Scored(ScoreAt(t, i), i) in s {
      assert scores[i - LargestWindow(t.rows)] in multiset(s);
    }
  }


  ghost predicate AmongFirst(s: seq<Scored>, k: nat, i: nat)
    requires k <= |s|
  {
    exists j :: 0 <= j < k && s[j].index == i
  }

  ghost predicate Justified(t: Timeline, chosen: set<nat>, i: nat) {
    i in chosen <==> Candidate(t, i) && |Better(t, chosen, i)| < MAX_SECTIONS - 1 && Clear(t, chosen, i)
  }

  /** The first k ranked rows are settled, and no other row is chosen. */
  ghost predicate Settled(t: Timeline, s: seq<Scored>, k: nat, chosen: set<nat>)
    requires k <= |s|
  {
    && (forall c :: c in chosen ==> AmongFirst(s, k, c))
    && (forall j :: 0 <= j < k ==> Justified(t, chosen, s[j].index))
  }

  lemma RankDecides(t: Timeline, s: seq<Scored>, j: nat, k: nat)
    requires RankedScores(t, s) && j < k < |s|
    ensures Precedes(t, s[j].index, s[k].index) && !Precedes(t, s[k].index, s[j].index) && s[j].index != s[k].index
  {
    assert BestFirst()(s[j], s[k]);
  }

  lemma ChosenAreBetter(t: Timeline, s: seq<Scored>, k: nat, chosen: set<nat>)
    requires RankedScores(t, s) && k < |s| && forall c :: c in chosen ==> AmongFirst(s, k, c)
    ensures Better(t, chosen, s[k].index) == chosen && s[k].index !in chosen
  {
    forall c | c in chosen ensures Precedes(t, c, s[k].index) && c != s[k].index {
      var j: nat :| j < k && s[j].index == c;
      RankDecides(t, s, j, k);
    }
  }

  lemma SettledStays(t: Timeline, s: seq<Scored>, k: nat, chosen: set<nat>, j: nat)
    requires RankedScores(t, s) && j < k < |s| && Justified(t, chosen, s[j].index)
    ensures Justified(t, chosen + {s[k].index}, s[j].index)
  {
    RankDecides(t, s, j, k);
    assert Better(t, chosen + {s[k].index}, s[j].index) == Better(t, chosen, s[j].index);
  }

  lemma SettleTaken(t: Timeline, s: seq<Scored>, k: nat, chosen: set<nat>)
    requires RankedScores(t, s) && k < |s| && Settled(t, s, k, chosen)
    requires var i := s[k].index;
             Candidate(t, i) && |chosen| < MAX_SECTIONS - 1 && forall c :: c in chosen ==> !Near(c, i)
    ensures Settled(t, s, k + 1, chosen + {s[k].index})
  {
    var i := s[k].index;
    var next := chosen + {i};
    ChosenAreBetter(t, s, k, chosen);
    assert Better(t, next, i) == chosen;
    assert Justified(t, next, i);
    forall j | 0 <= j < k ensures Justified(t, next, s[j].index) {
      SettledStays(t, s, k, chosen, j);
    }
    forall c | c in next ensures AmongFirst(s, k + 1, c) {
      assert c == i || AmongFirst(s, k, c);
    }
  }

  lemma SettlePassed(t: Timeline, s: seq<Scored>, k: nat, chosen: set<nat>)
    requires RankedScores(t, s) && k < |s| && Settled(t, s, k, chosen)
    requires var i := s[k].index;
             !(Candidate(t, i) && |chosen| < MAX_SECTIONS - 1 && forall c :: c in chosen ==> !Near(c, i))
    ensures Settled(t, s, k + 1, chosen)
  {
    ChosenAreBetter(t, s, k, chosen);
    assert Justified(t, chosen, s[k].index);
    forall c | c in chosen ensures AmongFirst(s, k + 1, c) {
      assert AmongFirst(s, k, c);
    }
  }

  /** Once the scores fall below the threshold, or nine rows are chosen, no later row can be. */
  lemma SettleRest(t: Timeline, s: seq<Scored>, k: nat, chosen: set<nat>)
    requires RankedScores(t, s) && k <= |s| && Settled(t, s, k, chosen)
    requires k == |s| || s[k].score < Threshold(t) || |chosen| >= MAX_SECTIONS - 1
    ensures Greedy(t, chosen)
  {
    forall i: nat ensures Justified(t, chosen, i) {
      if IsScored(t, i) {
        var j :| 0 <= j < |s| && s[j] == Scored(ScoreAt(t, i), i);
        if j < k {
          assert Justified(t, chosen, s[j].index);
        } else {
          SettleLater(t, s, k, j, chosen);
        }
      } else if i in chosen {
        assert AmongFirst(s, k, i);
      }
    }
    assert forall i: nat {:trigger i in chosen} :: Justified(t, chosen, i);
  }

  lemma SettleLater(t: Timeline, s: seq<Scored>, k: nat, j: nat, chosen: set<nat>)
    requires RankedScores(t, s) && k <= j < |s| && Settled(t, s, k, chosen)
    requires s[k].score < Threshold(t) || |chosen| >= MAX_SECTIONS - 1
    ensures Justified(t, chosen, s[j].index)
  {
    if k < j {
      assert BestFirst()(s[k], s[j]);
    }
    forall c | c in chosen ensures AmongFirst(s, j, c) {
      assert AmongFirst(s, k, c);
    }
    ChosenAreBetter(t, s, j, chosen);
  }

  function Elements(s: seq<nat>): set<nat> {
    set i | i in s
  }

  /** Walk the ranked rows and take each that is far enough from those taken before, up to nine. */
  method SelectRows(t: Timeline, ordered: seq<Scored>, threshold: real) returns (selected: seq<nat>)
    requires RankedScores(t, ordered) && threshold == Threshold(t)
    ensures Greedy(t, Elements(selected)) && |selected| == |Elements(selected)|
  {
    selected := [];
    var k := 0;
    while k < |ordered|
      invariant k <= |ordered| && Settled(t, ordered, k, Elements(selected)) && |selected| == |Elements(selected)|
    {
      if ordered[k].score < threshold || |selected| >= MAX_SECTIONS - 1 {
        break;
      }
      selected := ConsiderRow(t, ordered, k, selected);
      k := k + 1;
    }
    SettleRest(t, ordered, k, Elements(selected));
  }

  method ConsiderRow(t: Timeline, ordered: seq<Scored>, k: nat, selected: seq<nat>) returns (r: seq<nat>)
    requires RankedScores(t, ordered) && k < |ordered| && Settled(t, ordered, k, Elements(selected))
    requires ordered[k].score >= Threshold(t) && |selected| == |Elements(selected)| < MAX_SECTIONS - 1
    ensures Settled(t, ordered, k + 1, Elements(r)) && |r| == |Elements(r)|
  {
    var index := ordered[k].index;
    if index < MINIMUM || t.rows - index < MINIMUM {
      SettlePassed(t, ordered, k, Elements(selected));
      return selected;
    }
    if forall c :: c in selected ==> !Near(c, index) {
      SettleTaken(t, ordered, k, Elements(selected));
      ChosenAreBetter(t, ordered, k, Elements(selected));
      assert Elements(selected + [index]) == Elements(selected) + {index};
      return selected + [index];
    }
    SettlePassed(t, ordered, k, Elements(selected));
    return selected;
  }

  lemma SortAscending(selected: seq<nat>)
    requires |selected| == |Elements(selected)|
    ensures Ordered(Sort(selected, Ascending()), Ascending()) &&
            Elements(Sort(selected, Ascending())) == Elements(selected)
  {
    assert Transitive(Ascending()) && Asymmetric(Ascending());
    NoRepeats(selected);
    PairwiseComparable(selected, Ascending());
    SortOrders(selected, Ascending());
    var r := Sort(selected, Ascending());
    forall i ensures i in r <==> i in selected {
      assert i in r <==> i in multiset(selected);
    }
  }

  lemma {:induction false} NoRepeats(s: seq<nat>)
    requires |s| == |Elements(s)|
    ensures forall i, j :: 0 <= i < j < |s| ==> s[i] != s[j]
    decreases |s|
  {
    if s != [] {
      var front, last := s[..|s| - 1], s[|s| - 1];
      assert Elements(s) == Elements(front) + {last};
      AtMostLength(front);
      assert last !in Elements(front);
      NoRepeats(front);
    }
  }

  lemma {:induction false} AtMostLength(s: seq<nat>)
    ensures |Elements(s)| <= |s|
    decreases |s|
  {
    if s != [] {
      AtMostLength(s[..|s| - 1]);
      assert Elements(s) == Elements(s[..|s| - 1]) + {s[|s| - 1]};
    }
  }

  /** Boundaries run from 0 to the end over the greedily chosen rows. */
  ghost predicate AreBoundaries(t: Timeline, b: seq<nat>) {
    && |b| >= 2 && b[0] == 0 && b[|b| - 1] == t.rows
    && Ordered(b[1..|b| - 1], Ascending())
    && Greedy(t, Elements(b[1..|b| - 1]))
  }

  method ChangeBoundaries(t: Timeline) returns (b: seq<nat>)
    ensures AreBoundaries(t, b)
  {
    if t.rows < 12 {
      return [0, t.rows];
    }
    assert Scores(t) != []; // no window is longer than a third of the rows
    OrderedScores(t);
    var ordered := Sort(Scores(t), BestFirst());
    var selected := SelectRows(t, ordered, Threshold(t));
    SortAscending(selected);
    selected := Sort(selected, Ascending());
    b := [0] + selected + [t.rows];
    assert b[1..|b| - 1] == selected;
  }

  // ----- what being greedy amounts to -----

  lemma ChosenApart(t: Timeline, chosen: set<nat>, i: nat, j: nat)
    requires Greedy(t, chosen) && i in chosen && j in chosen && i != j
    ensures !Near(i, j) && MINIMUM <= i <= t.rows - MINIMUM
  {
    assert Clear(t, chosen, i) && Clear(t, chosen, j);
  }

  /** Among any rows there is one all the others precede. */
  lemma LastRanked(t: Timeline, rows: set<nat>) returns (last: nat)
    requires rows != {}
    ensures last in rows && forall i :: i in rows && i != last ==> Precedes(t, i, last)
    decreases rows
  {
    var x :| x in rows;
    last := x;
    if rows != {x} {
      var y := LastRanked(t, rows - {x});
      last := if Precedes(t, x, y) then y else x;
      assert forall i :: i in rows - {x} && i != y ==> Precedes(t, i, y);
      forall i | i in rows && i != last ensures Precedes(t, i, last) {
        assert i == x || i == y || i in rows - {x};
      }
    }
  }

  lemma AtMostNine(t: Timeline, chosen: set<nat>)
    requires Greedy(t, chosen)
    ensures |chosen| <= MAX_SECTIONS - 1
  {
    if chosen != {} {
      var last := LastRanked(t, chosen);
      assert Better(t, chosen, last) >= chosen - {last};
      assert |Better(t, chosen, last)| < MAX_SECTIONS - 1;
      SubsetSize(chosen - {last}, Better(t, chosen, last));
    }
  }

  /** A non-empty recording is cut into at most ten sections, in order, none shorter than twenty rows when there are
      several. */
  lemma BoundariesWellFormed(t: Timeline, b: seq<nat>)
    requires AreBoundaries(t, b) && t.rows > 0
    ensures |b| <= MAX_SECTIONS + 1
    ensures forall k :: 0 <= k < |b| - 1 ==> b[k] < b[k + 1]
    ensures |b| > 2 ==> forall k :: 0 <= k < |b| - 1 ==> b[k + 1] - b[k] >= MINIMUM
    ensures forall k :: 0 < k < |b| - 1 ==> ScoreAt(t, b[k]) >= Threshold(t)
  {
    forall k | 0 < k < |b| - 1 ensures ScoreAt(t, b[k]) >= Threshold(t) {
      assert b[1..|b| - 1][k - 1] == b[k] && b[k] in Elements(b[1..|b| - 1]);
    }
    var inner := b[1..|b| - 1];
    InnerSize(inner);
    AtMostNine(t, Elements(inner));
    forall k | 0 <= k < |b| - 1
      ensures b[k] < b[k + 1] && (|b| > 2 ==> b[k + 1] - b[k] >= MINIMUM) {
      if |b| > 2 {
        SectionLength(t, b, k);
      }
    }
  }

  lemma SectionLength(t: Timeline, b: seq<nat>, k: nat)
    requires AreBoundaries(t, b) && |b| > 2 && k < |b| - 1
    ensures b[k + 1] - b[k] >= MINIMUM
  {
    var inner := b[1..|b| - 1];
    assert forall i :: 0 <= i < |inner| ==> inner[i] == b[i + 1] && inner[i] in Elements(inner);
    assert forall i :: i in Elements(inner) ==> Candidate(t, i);
    if 0 < k < |b| - 2 {
      assert Ascending()(inner[k - 1], inner[k]);
      ChosenApart(t, Elements(inner), inner[k - 1], inner[k]);
    }
  }

  lemma {:induction false} InnerSize(s: seq<nat>)
    requires Ordered(s, Ascending())
    ensures |Elements(s)| == |s|
    decreases |s|
  {
    if s != [] {
      var front, last := s[..|s| - 1], s[|s| - 1];
      InnerSize(front);
      assert Elements(s) == Elements(front) + {last};
      forall i | 0 <= i < |front| ensures front[i] < last {
        assert Ascending()(s[i], last);
      }
      assert last !in Elements(front);
    }
  }

  /** A row passed over although it scored high enough lost to a better row near it, or to nine better rows. */
  lemma RejectedRowsAreBeaten(t: Timeline, chosen: set<nat>, i: nat)
    requires Greedy(t, chosen) && i !in chosen
    requires LargestWindow(t.rows) <= i < t.rows - LargestWindow(t.rows) && 20 <= i <= t.rows - 20
    requires ScoreAt(t, i) >= Threshold(t)
    ensures || (exists c :: c in chosen && Near(c, i) && ScoreAt(t, c) >= ScoreAt(t, i))
            || (|chosen| == MAX_SECTIONS - 1 && forall c :: c in chosen ==> ScoreAt(t, c) >= ScoreAt(t, i))
  {
    if Clear(t, chosen, i) {
      AtMostNine(t, chosen);
      var better := Better(t, chosen, i);
      assert better <= chosen && |better| >= MAX_SECTIONS - 1;
      SubsetSize(better, chosen);
      if c :| c in chosen && c !in better {
        SubsetSize(better + {c}, chosen);
      }
    }
  }

  lemma AgreeOne(t: Timeline, a: set<nat>, b: set<nat>, i: nat)
    requires Greedy(t, a) && Greedy(t, b) && Better(t, a, i) == Better(t, b, i)
    ensures i in a <==> i in b
  {
    assert forall c :: c in a && Precedes(t, c, i) <==> c in Better(t, a, i);
    assert forall c :: c in b && Precedes(t, c, i) <==> c in Better(t, b, i);
    assert Clear(t, a, i) <==> Clear(t, b, i);
  }

  lemma {:induction false} AgreeUpTo(t: Timeline, s: seq<Scored>, a: set<nat>, b: set<nat>, k: nat)
    requires RankedScores(t, s) && Greedy(t, a) && Greedy(t, b) && k <= |s|
    ensures forall j :: 0 <= j < k ==> (s[j].index in a <==> s[j].index in b)
    decreases k
  {
    if k > 0 {
      AgreeUpTo(t, s, a, b, k - 1);
      BetterAgree(t, s, a, b, k - 1);
      AgreeOne(t, a, b, s[k - 1].index);
    }
  }

  lemma BetterAgree(t: Timeline, s: seq<Scored>, a: set<nat>, b: set<nat>, k: nat)
    requires RankedScores(t, s) && Greedy(t, a) && Greedy(t, b) && k < |s|
    requires forall j :: 0 <= j < k ==> (s[j].index in a <==> s[j].index in b)
    ensures Better(t, a, s[k].index) == Better(t, b, s[k].index)
  {
    forall c ensures c in Better(t, a, s[k].index) <==> c in Better(t, b, s[k].index) {
      if (c in a || c in b) && Precedes(t, c, s[k].index) {
        assert Candidate(t, c);
        var j :| 0 <= j < |s| && s[j] == Scored(ScoreAt(t, c), c);
        if j > k {
          RankDecides(t, s, k, j);
        }
        assert j < k;
      }
    }
  }

  /** The greedy choice is determined: any two ways of meeting its definition choose the same rows. */
  lemma GreedyIsUnique(t: Timeline, a: set<nat>, b: set<nat>)
    requires Greedy(t, a) && Greedy(t, b)
    ensures a == b
  {
    var s := Sort(Scores(t), BestFirst());
    OrderedScores(t);
    AgreeUpTo(t, s, a, b, |s|);
    forall i ensures i in a <==> i in b {
      if i in a || i in b {
        assert Candidate(t, i);
        var j :| 0 <= j < |s| && s[j] == Scored(ScoreAt(t, i), i);
      }
    }
  }
}
