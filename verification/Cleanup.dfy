/** Resolving rename collisions: each folder hands out file names nobody else has, so that the renames can be applied
    in any order. */
module Cleanup {
  import opened Common
  import opened Text
  import opened Filenames
  import opened PortableNames

  datatype Track = Track(id: nat, folder: string, leaf: string)

  /** One track's plan: the proposed stem, if it is to be renamed, and the labels that tell it from its competitors. */
  datatype Plan = Plan(id: nat, leaf: string, rename: Option<string>, labels: seq<string>)

  /** Stem and suffix of a file name; a leading or final full stop starts no suffix. */
  function StemAndSuffix(leaf: string): (r: (string, string))
    ensures r.0 + r.1 == leaf
    ensures r.1 == "" || (|r.1| > 1 && r.1[0] == '.' && r.0 != "" && '.' !in r.1[1..])
  {
    match LastIndex(leaf, '.')
    case None => (leaf, "")
    case Some(i) => if i == 0 || i + 1 == |leaf| then (leaf, "") else (leaf[..i], leaf[i..])
  }

  function Suffix(plan: Plan): string {
    StemAndSuffix(plan.leaf).1
  }

  // ----- one name -----

  /** The names of a folder by case key: those on disk and those already promised. */
  datatype Names = Names(existing: map<string, nat>, proposed: map<string, nat>)

  predicate Taken(fold: Folding, names: Names, id: nat, name: string) {
    var key := CaseKey(fold, name);
    (key in names.existing && names.existing[key] != id) || key in names.proposed
  }

  /** The stems a rename may fall back on, and which of them are taken. */
  datatype Choices = Choices(wanted: string, labelled: string -> string, numbered: nat -> string, taken: string -> bool)

  function ChoicesFor(fold: Folding, names: Names, plan: Plan): Choices
    requires plan.rename.Some?
  {
    var stem, suffix := plan.rename.value, Suffix(plan);
    Choices(stem, mark => CollisionStem(stem, mark, suffix), (n: nat) => CollisionStem(stem, Decimal(n), suffix),
            s => Taken(fold, names, plan.id, s + suffix))
  }

  /** The first label that gives a free name. */
  function FreeLabel(c: Choices, labels: seq<string>): (r: Option<string>)
    ensures r.Some? ==> !c.taken(r.value)
  {
    if labels == [] then None
    else if !c.taken(c.labelled(labels[0])) then Some(c.labelled(labels[0]))
    else FreeLabel(c, labels[1..])
  }

  predicate NumberTaken(c: Choices, n: nat) {
    c.taken(c.numbered(n))
  }

  predicate TakenBelow(c: Choices, n: nat) {
    forall d: nat :: 2 <= d < n ==> NumberTaken(c, d)
  }

  predicate LowestFreeNumber(c: Choices, n: nat) {
    n >= 2 && !NumberTaken(c, n) && TakenBelow(c, n)
  }

  /** What a rename becomes: itself when free, nothing when the suffix leaves no room, else the first free labelled
      name, else the first free numbered one. */
  ghost predicate Resolution(c: Choices, suffix: string, labels: seq<string>, r: Option<string>) {
    if !c.taken(c.wanted) then r == Some(c.wanted)
    else if ByteLength(suffix) > LONGEST_SUFFIX then r == None
    else if FreeLabel(c, labels).Some? then r == FreeLabel(c, labels)
    else r.Some? && exists n: nat :: LowestFreeNumber(c, n) && r.value == c.numbered(n)
  }

  method TryLabels(c: Choices, labels: seq<string>) returns (stem: string)
    ensures stem == match FreeLabel(c, labels) case Some(s) => s case None => c.wanted
  {
    stem := c.wanted;
    var i := 0;
    while i < |labels|
      invariant i <= |labels| && stem == c.wanted && FreeLabel(c, labels) == FreeLabel(c, labels[i..])
    {
      var candidate := c.labelled(labels[i]);
      if !c.taken(candidate) {
        stem := candidate;
        return;
      }
      i := i + 1;
    }
  }

  /** Numbers from two on run out of taken names: there are no more of them than `bound`. */
  ghost predicate FewTaken(c: Choices, bound: nat) {
    forall n: nat :: 2 <= n <= bound + 3 && TakenBelow(c, n) ==> n - 2 <= bound
  }

  /** Count upwards from two until the name is free: at most one try more than there are names. */
  method CountUp(c: Choices, start: string, ghost bound: nat) returns (stem: string)
    requires FewTaken(c, bound)
    ensures if !c.taken(start) then stem == start
            else exists n: nat :: LowestFreeNumber(c, n) && stem == c.numbered(n) && n <= bound + 2
  {
    stem := start;
    var counter: nat := 2;
    while c.taken(stem)
      invariant 2 <= counter <= bound + 3
      invariant if counter == 2 then stem == start else c.taken(start) && stem == c.numbered(counter - 1)
      invariant TakenBelow(c, counter - 1)
      decreases bound + 3 - counter
    {
      assert counter > 2 ==> NumberTaken(c, counter - 1);
      assert TakenBelow(c, counter);
      stem := c.numbered(counter);
      counter := counter + 1;
    }
    assert counter > 2 ==> LowestFreeNumber(c, counter - 1);
  }

  // ----- why a free number exists -----

  lemma {:induction false} DistinctKeysCount(key: nat -> string, n: nat)
    requires n >= 2 && forall i: nat, j: nat :: 2 <= i < j < n ==> key(i) != key(j)
    ensures |set d: nat | 2 <= d < n :: key(d)| == n - 2
    decreases n
  {
    var keys := set d: nat | 2 <= d < n :: key(d);
    if n == 2 {
      assert keys == {};
    } else {
      DistinctKeysCount(key, n - 1);
      var fewer := set d: nat | 2 <= d < n - 1 :: key(d);
      assert keys == fewer + {key(n - 1)};
      assert key(n - 1) !in fewer;
    }
  }

  /** Pigeonhole: numbers with pairwise different keys, all of them names of the folder, are no more than the names. */
  lemma TakenKeysFit(names: Names, key: nat -> string, n: nat)
    requires n >= 2 && forall i: nat, j: nat :: 2 <= i < j < n ==> key(i) != key(j)
    requires forall d: nat :: 2 <= d < n ==> key(d) in names.existing || key(d) in names.proposed
    ensures n - 2 <= |names.existing| + |names.proposed|
  {
    var keys, all := set d: nat | 2 <= d < n :: key(d), names.existing.Keys + names.proposed.Keys;
    DistinctKeysCount(key, n);
    SubsetSize(keys, all);
    assert |all| == |names.existing.Keys| + |names.proposed.Keys| - |names.existing.Keys * names.proposed.Keys|;
  }

  /** Room for the 32-bit counter to pass every name of the folder. */
  predicate Countable(names: Names) {
    |names.existing| + |names.proposed| + 3 <= I32_MAX
  }

  lemma NumbersRunOut(fold: Folding, names: Names, plan: Plan)
    requires plan.rename.Some? && KeepsNumerals(fold) && Countable(names) && ByteLength(Suffix(plan)) <= LONGEST_SUFFIX
    ensures FewTaken(ChoicesFor(fold, names, plan), |names.existing| + |names.proposed|)
  {
    var c, bound := ChoicesFor(fold, names, plan), |names.existing| + |names.proposed|;
    var key := NumberKey(fold, plan.rename.value, Suffix(plan));
    forall n: nat | 2 <= n <= bound + 3 && TakenBelow(c, n) ensures n - 2 <= bound {
      forall i: nat, j: nat | 2 <= i < j < n ensures key(i) != key(j) {
        NumberKeysDiffer(fold, plan.rename.value, Suffix(plan), i, j);
      }
      forall d: nat | 2 <= d < n ensures key(d) in names.existing || key(d) in names.proposed {
        assert NumberTaken(c, d);
      }
      TakenKeysFit(names, key, n);
    }
  }

  function NumberKey(fold: Folding, stem: string, suffix: string): nat -> string {
    (n: nat) => CaseKey(fold, CollisionStem(stem, Decimal(n), suffix) + suffix)
  }

  lemma NumberKeysDiffer(fold: Folding, stem: string, suffix: string, i: nat, j: nat)
    requires KeepsNumerals(fold) && ByteLength(suffix) <= LONGEST_SUFFIX && i < j <= I32_MAX
    ensures NumberKey(fold, stem, suffix)(i) != NumberKey(fold, stem, suffix)(j)
  {
    if NumberKey(fold, stem, suffix)(i) == NumberKey(fold, stem, suffix)(j) {
      CountersDistinct(fold, stem, i, j, suffix);
    }
  }

  method ChooseStem(c: Choices, suffix: string, labels: seq<string>, ghost bound: nat) returns (r: Option<string>)
    requires ByteLength(suffix) <= LONGEST_SUFFIX ==> FewTaken(c, bound)
    ensures Resolution(c, suffix, labels, r)
  {
    var stem := c.wanted;
    if c.taken(stem) {
      if ByteLength(suffix) > LONGEST_SUFFIX {
        return None;
      }
      stem := TryLabels(c, labels);
      stem := CountUp(c, stem, bound);
    }
    return Some(stem);
  }

  method ResolveName(fold: Folding, names: Names, plan: Plan) returns (r: Option<string>)
    requires plan.rename.Some? && KeepsNumerals(fold) && Countable(names)
    ensures Resolution(ChoicesFor(fold, names, plan), Suffix(plan), plan.labels, r)
  {
    if ByteLength(Suffix(plan)) <= LONGEST_SUFFIX {
      NumbersRunOut(fold, names, plan);
    }
    r := ChooseStem(ChoicesFor(fold, names, plan), Suffix(plan), plan.labels, |names.existing| + |names.proposed|);
  }

  lemma {:induction false} FreeLabelIsLabelled(c: Choices, labels: seq<string>)
    requires FreeLabel(c, labels).Some?
    ensures exists i :: 0 <= i < |labels| && FreeLabel(c, labels).value == c.labelled(labels[i])
    decreases |labels|
  {
    if c.taken(c.labelled(labels[0])) {
      FreeLabelIsLabelled(c, labels[1..]);
      var i :| 0 <= i < |labels[1..]| && FreeLabel(c, labels[1..]).value == c.labelled(labels[1..][i]);
      assert labels[i + 1] == labels[1..][i];
    }
  }

  predicate LabelTaken(c: Choices, label_: string) {
    c.taken(c.labelled(label_))
  }

  /** The label that is used is the first that gives a free name; none is used exactly if none gives one. */
  lemma {:induction false} FirstFreeLabel(c: Choices, labels: seq<string>) returns (i: nat)
    ensures i <= |labels| && forall j :: 0 <= j < i ==> LabelTaken(c, labels[j])
    ensures FreeLabel(c, labels) ==
            if i == |labels| then None else Some(c.labelled(labels[i]))
    ensures i < |labels| ==> !LabelTaken(c, labels[i])
    decreases |labels|
  {
    i := 0;
    if labels != [] && LabelTaken(c, labels[0]) {
      var rest := FirstFreeLabel(c, labels[1..]);
      i := rest + 1;
      forall j | 0 <= j < i ensures LabelTaken(c, labels[j]) {
        if j > 0 {
          assert labels[j] == labels[1..][j - 1];
        }
      }
    }
  }

  /** A resolved name is free; unless it is the one wanted, that was taken, and the new name fits into 240 bytes. */
  lemma ResolvedNameIsFree(fold: Folding, names: Names, plan: Plan, r: Option<string>)
    requires plan.rename.Some? && Resolution(ChoicesFor(fold, names, plan), Suffix(plan), plan.labels, r)
    ensures r.Some? ==> !Taken(fold, names, plan.id, r.value + Suffix(plan))
    ensures r != plan.rename ==> Taken(fold, names, plan.id, plan.rename.value + Suffix(plan))
    ensures r.Some? && r != plan.rename ==> ByteLength(r.value + Suffix(plan)) <= NAME_BYTES
    ensures r.None? ==> ByteLength(Suffix(plan)) > LONGEST_SUFFIX
  {
    var c, suffix := ChoicesFor(fold, names, plan), Suffix(plan);
    if r.Some? && r != plan.rename {
      if FreeLabel(c, plan.labels).Some? {
        FreeLabelIsLabelled(c, plan.labels);
        var i :| 0 <= i < |plan.labels| && r.value == c.labelled(plan.labels[i]);
        CollisionNameFits(plan.rename.value, plan.labels[i], suffix);
      } else {
        var n: nat :| LowestFreeNumber(c, n) && r.value == c.numbered(n);
        CollisionNameFits(plan.rename.value, Decimal(n), suffix);
      }
    }
  }

  /** The mark behind a name that had to be altered. */
  ghost predicate IsMark(c: Choices, labels: seq<string>, mark: string) {
    if FreeLabel(c, labels).Some? then mark in labels
    else exists n: nat :: LowestFreeNumber(c, n) && mark == Decimal(n)
  }

  lemma ResolvedMark(fold: Folding, names: Names, plan: Plan, r: Option<string>) returns (mark: string)
    requires plan.rename.Some? && Resolution(ChoicesFor(fold, names, plan), Suffix(plan), plan.labels, r)
    requires r.Some? && r != plan.rename
    ensures r.value == CollisionStem(plan.rename.value, mark, Suffix(plan))
    ensures IsMark(ChoicesFor(fold, names, plan), plan.labels, mark)
  {
    var c := ChoicesFor(fold, names, plan);
    if FreeLabel(c, plan.labels).Some? {
      FreeLabelIsLabelled(c, plan.labels);
      var i :| 0 <= i < |plan.labels| && r.value == c.labelled(plan.labels[i]);
      mark := plan.labels[i];
    } else {
      var n: nat :| LowestFreeNumber(c, n) && r.value == c.numbered(n);
      mark := Decimal(n);
    }
  }

  /** A name that had to be altered is the wanted title, cut no shorter than it must be, with one of the track's labels
      behind it, or else the lowest free number. */
  lemma ResolvedNameKeepsTitle(fold: Folding, names: Names, plan: Plan, r: Option<string>)
    returns (base: string, mark: string, kept: string)
    requires plan.rename.Some? && Resolution(ChoicesFor(fold, names, plan), Suffix(plan), plan.labels, r)
    requires r.Some? && r != plan.rename
    ensures r.value == base + " (" + kept + ")" && IsMark(ChoicesFor(fold, names, plan), plan.labels, mark)
    ensures IsMarkedTitle(base, kept, PortablePart(plan.rename.value), PortablePart(mark), Suffix(plan))
  {
    mark := ResolvedMark(fold, names, plan, r);
    base, kept := CollisionStemKeepsTitle(plan.rename.value, mark, Suffix(plan));
  }

  // ----- one folder -----

  /** The folder's names by case key; of names that differ only in case the last one counts. */
  function ExistingNames(fold: Folding, tracks: seq<Track>): (m: map<string, nat>)
    ensures |m| <= |tracks|
  {
    if tracks == [] then map[]
    else
      var last := tracks[|tracks| - 1];
      ExistingNames(fold, tracks[..|tracks| - 1])[CaseKey(fold, last.leaf) := last.id]
  }

  function NewLeaf(plan: Plan, stem: string): string {
    stem + Suffix(plan)
  }

  /** The names promised to the first plans. */
  function ProposedNames(fold: Folding, plans: seq<Plan>, results: seq<Option<string>>): (m: map<string, nat>)
    requires |results| <= |plans|
    ensures |m| <= |results|
  {
    if results == [] then map[]
    else
      var n := |results| - 1;
      var before := ProposedNames(fold, plans, results[..n]);
      if results[n].Some? then before[CaseKey(fold, NewLeaf(plans[n], results[n].value)) := plans[n].id] else before
  }

  ghost predicate Resolved(fold: Folding, existing: map<string, nat>, plans: seq<Plan>, results: seq<Option<string>>,
      i: nat)
    requires i < |results| <= |plans|
  {
    if plans[i].rename.None? then results[i].None?
    else Resolution(ChoicesFor(fold, Names(existing, ProposedNames(fold, plans, results[..i])), plans[i]),
                    Suffix(plans[i]), plans[i].labels, results[i])
  }

  /** Every plan is resolved against the folder and the plans before it. */
  ghost predicate FolderResolved(fold: Folding, tracks: seq<Track>, plans: seq<Plan>, results: seq<Option<string>>)
    requires |results| <= |plans|
  {
    forall i :: 0 <= i < |results| ==> Resolved(fold, ExistingNames(fold, tracks), plans, results, i)
  }

  lemma FolderResolvedExtends(fold: Folding, tracks: seq<Track>, plans: seq<Plan>, results: seq<Option<string>>,
      r: Option<string>)
    requires |results| < |plans| && FolderResolved(fold, tracks, plans, results)
    requires Resolved(fold, ExistingNames(fold, tracks), plans, results + [r], |results|)
    ensures FolderResolved(fold, tracks, plans, results + [r])
  {
    var existing, next := ExistingNames(fold, tracks), results + [r];
    forall i | 0 <= i < |results| ensures Resolved(fold, existing, plans, next, i) {
      assert next[..i] == results[..i];
      assert Resolved(fold, existing, plans, results, i);
    }
  }

  method CollectExisting(fold: Folding, tracks: seq<Track>) returns (existing: map<string, nat>)
    ensures existing == ExistingNames(fold, tracks)
  {
    existing := map[];
    for i := 0 to |tracks|
      invariant existing == ExistingNames(fold, tracks[..i])
    {
      assert tracks[..i + 1][..i] == tracks[..i];
      existing := existing[CaseKey(fold, tracks[i].leaf) := tracks[i].id];
    }
    assert tracks[..|tracks|] == tracks;
  }

  method ResolvePlan(fold: Folding, names: Names, plan: Plan) returns (r: Option<string>, proposed: map<string, nat>)
    requires KeepsNumerals(fold) && Countable(names)
    ensures if plan.rename.None? then r.None?
            else Resolution(ChoicesFor(fold, names, plan), Suffix(plan), plan.labels, r)
    ensures proposed == if r.Some? then names.proposed[CaseKey(fold, NewLeaf(plan, r.value)) := plan.id]
            else names.proposed
  {
    r, proposed := None, names.proposed;
    if plan.rename.Some? {
      r := ResolveName(fold, names, plan);
      if r.Some? {
        proposed := proposed[CaseKey(fold, NewLeaf(plan, r.value)) := plan.id];
      }
    }
  }

  method ResolveFolder(fold: Folding, tracks: seq<Track>, plans: seq<Plan>) returns (results: seq<Option<string>>)
    requires KeepsNumerals(fold) && |tracks| + |plans| + 3 <= I32_MAX
    ensures |results| == |plans| && FolderResolved(fold, tracks, plans, results)
  {
    var existing := CollectExisting(fold, tracks);
    var proposed: map<string, nat> := map[];
    results := [];
    for i := 0 to |plans|
      invariant |results| == i && FolderResolved(fold, tracks, plans, results)
      invariant proposed == ProposedNames(fold, plans, results)
    {
      var r: Option<string>;
      r, proposed := ResolvePlan(fold, Names(existing, proposed), plans[i]);
      assert (results + [r])[..i] == results;
      FolderResolvedExtends(fold, tracks, plans, results, r);
      results := results + [r];
    }
  }

  // ----- the whole library -----

  function InFolder(tracks: seq<Track>, folder: string): (r: seq<Track>)
    ensures |r| <= |tracks| && forall t :: t in r <==> t in tracks && t.folder == folder
  {
    if tracks == [] then []
    else
      var front, last := InFolder(tracks[..|tracks| - 1], folder), tracks[|tracks| - 1];
      assert tracks == tracks[..|tracks| - 1] + [last];
      if last.folder == folder then front + [last] else front
  }

  datatype Group = Group(folder: string, plans: seq<Plan>)

  ghost predicate LibraryResolved(fold: Folding, tracks: seq<Track>, groups: seq<Group>,
      results: seq<seq<Option<string>>>) {
    && |results| <= |groups|
    && forall g :: 0 <= g < |results| ==>
         && |results[g]| == |groups[g].plans|
         && FolderResolved(fold, InFolder(tracks, groups[g].folder), groups[g].plans, results[g])
  }

  /** Folder by folder, against all the tracks of the library in it. */
  method AnalyzeCleanup(fold: Folding, tracks: seq<Track>, groups: seq<Group>)
    returns (results: seq<seq<Option<string>>>)
    requires KeepsNumerals(fold)
    requires forall g :: 0 <= g < |groups| ==> |tracks| + |groups[g].plans| + 3 <= I32_MAX
    ensures |results| == |groups| && LibraryResolved(fold, tracks, groups, results)
  {
    results := [];
    for g := 0 to |groups|
      invariant |results| == g && LibraryResolved(fold, tracks, groups, results)
    {
      var r := ResolveFolder(fold, InFolder(tracks, groups[g].folder), groups[g].plans);
      results := results + [r];
    }
  }
}
