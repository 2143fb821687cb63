/** Renames from one analysis never land on a name another track holds, whichever of them are applied and in whatever
    order. */
module CleanupSafety {
  import opened Common
  import opened Text
  import opened Filenames
  import opened Cleanup

  datatype Place = Place(folder: string, leaf: string)

  predicate SamePlace(fold: Folding, a: Place, b: Place) {
    a.folder == b.folder && CaseKey(fold, a.leaf) == CaseKey(fold, b.leaf)
  }

  /** No two tracks of a folder have names that differ in case only. */
  predicate CaseDistinct(fold: Folding, tracks: seq<Track>) {
    forall s, t ::
      s in tracks && t in tracks && s.folder == t.folder && CaseKey(fold, s.leaf) == CaseKey(fold, t.leaf) ==> s == t
  }

  /** The plans of a group are for tracks of its folder, and each folder is one group. */
  predicate GroupsFit(tracks: seq<Track>, groups: seq<Group>) {
    && (forall g, h :: 0 <= g < h < |groups| ==> groups[g].folder != groups[h].folder)
    && (forall g, i :: 0 <= g < |groups| && 0 <= i < |groups[g].plans| ==>
          Track(groups[g].plans[i].id, groups[g].folder, groups[g].plans[i].leaf) in tracks)
  }

  /** Where every track is, by id. */
  predicate ArePlaces(tracks: seq<Track>, places: map<nat, Place>) {
    forall id :: id in places ==> Track(id, places[id].folder, places[id].leaf) in tracks
  }

  predicate IsRenameAt(groups: seq<Group>, results: seq<seq<Option<string>>>, id: nat, to: Place, g: nat, i: nat) {
    && g < |results| && |results| <= |groups| && i < |results[g]| && |results[g]| <= |groups[g].plans|
    && results[g][i].Some? && groups[g].plans[i].id == id
    && to == Place(groups[g].folder, NewLeaf(groups[g].plans[i], results[g][i].value))
  }

  predicate IsRename(groups: seq<Group>, results: seq<seq<Option<string>>>, id: nat, to: Place) {
    exists g: nat, i: nat :: g < |results| && i < |results[g]| && IsRenameAt(groups, results, id, to, g, i)
  }

  /** Any selection of the analysed renames. */
  predicate AreRenames(groups: seq<Group>, results: seq<seq<Option<string>>>, renames: map<nat, Place>) {
    forall id :: id in renames ==> IsRename(groups, results, id, renames[id])
  }

  // ----- a new name against the old ones -----

  lemma {:induction false} OwnerOfName(fold: Folding, tracks: seq<Track>, t: Track)
    requires CaseDistinct(fold, tracks) && t in tracks && forall s :: s in tracks ==> s.folder == t.folder
    ensures var m := ExistingNames(fold, tracks); CaseKey(fold, t.leaf) in m && m[CaseKey(fold, t.leaf)] == t.id
    decreases |tracks|
  {
    var front, last := tracks[..|tracks| - 1], tracks[|tracks| - 1];
    assert tracks == front + [last];
    if t != last {
      OwnerOfName(fold, front, t);
      assert CaseKey(fold, t.leaf) != CaseKey(fold, last.leaf);
    }
  }

  lemma ResultIsFree(fold: Folding, existing: map<string, nat>, plans: seq<Plan>, results: seq<Option<string>>, i: nat)
    requires i < |results| <= |plans| && Resolved(fold, existing, plans, results, i) && results[i].Some?
    ensures !Taken(fold, Names(existing, ProposedNames(fold, plans, results[..i])), plans[i].id,
            NewLeaf(plans[i], results[i].value))
  {
    ResolvedNameIsFree(fold, Names(existing, ProposedNames(fold, plans, results[..i])), plans[i], results[i]);
  }

  /** A new name differs from the present name of every other track. */
  lemma NewNameAvoidsOldNames(fold: Folding, tracks: seq<Track>, groups: seq<Group>, results: seq<seq<Option<string>>>,
                              id: nat, to: Place, t: Track)
    requires CaseDistinct(fold, tracks) && LibraryResolved(fold, tracks, groups, results)
    requires IsRename(groups, results, id, to) && t in tracks && t.id != id
    ensures !SamePlace(fold, Place(t.folder, t.leaf), to)
  {
    var g: nat, i: nat :| g < |results| && i < |results[g]| && IsRenameAt(groups, results, id, to, g, i);
    if t.folder == to.folder {
      var folder, plans := InFolder(tracks, to.folder), groups[g].plans;
      assert Resolved(fold, ExistingNames(fold, folder), plans, results[g], i);
      ResultIsFree(fold, ExistingNames(fold, folder), plans, results[g], i);
      OwnerOfName(fold, folder, t);
    }
  }

  // ----- new names against each other -----

  lemma {:induction false} PromisedIsProposed(fold: Folding, plans: seq<Plan>, results: seq<Option<string>>, i: nat)
    requires i < |results| <= |plans| && results[i].Some?
    ensures CaseKey(fold, NewLeaf(plans[i], results[i].value)) in ProposedNames(fold, plans, results)
    decreases |results|
  {
    if i < |results| - 1 {
      PromisedIsProposed(fold, plans, results[..|results| - 1], i);
    }
  }

  lemma LaterAvoidsEarlier(fold: Folding, existing: map<string, nat>, plans: seq<Plan>, results: seq<Option<string>>,
      i: nat, j: nat)
    requires i < j < |results| <= |plans| && Resolved(fold, existing, plans, results, j) && results[i].Some? &&
             results[j].Some?
    ensures CaseKey(fold, NewLeaf(plans[i], results[i].value)) != CaseKey(fold, NewLeaf(plans[j], results[j].value))
  {
    ResultIsFree(fold, existing, plans, results, j);
    PromisedIsProposed(fold, plans, results[..j], i);
  }

  lemma NewNamesDiffer(fold: Folding, tracks: seq<Track>, groups: seq<Group>, results: seq<seq<Option<string>>>,
                       a: nat, toA: Place, b: nat, toB: Place)
    requires GroupsFit(tracks, groups) && LibraryResolved(fold, tracks, groups, results)
    requires a != b && IsRename(groups, results, a, toA) && IsRename(groups, results, b, toB)
    ensures !SamePlace(fold, toA, toB)
  {
    var g: nat, i: nat :| g < |results| && i < |results[g]| && IsRenameAt(groups, results, a, toA, g, i);
    var h: nat, j: nat :| h < |results| && j < |results[h]| && IsRenameAt(groups, results, b, toB, h, j);
    if toA.folder == toB.folder {
      assert g == h;
      var existing := ExistingNames(fold, InFolder(tracks, toA.folder));
      if i < j {
        assert Resolved(fold, existing, groups[g].plans, results[g], j);
        LaterAvoidsEarlier(fold, existing, groups[g].plans, results[g], i, j);
      } else {
        assert Resolved(fold, existing, groups[g].plans, results[g], i);
        LaterAvoidsEarlier(fold, existing, groups[g].plans, results[g], j, i);
      }
    }
  }

  // ----- applying them -----

  function AfterRenames(places: map<nat, Place>, renames: map<nat, Place>, order: seq<nat>): map<nat, Place>
    requires forall k :: 0 <= k < |order| ==> order[k] in renames
  {
    if order == [] then places
    else
      var id := order[|order| - 1];
      AfterRenames(places, renames, order[..|order| - 1])[id := renames[id]]
  }

  lemma {:induction false} OldOrNew(places: map<nat, Place>, renames: map<nat, Place>, order: seq<nat>, id: nat)
    requires forall k :: 0 <= k < |order| ==> order[k] in renames
    requires id in AfterRenames(places, renames, order)
    ensures var p := AfterRenames(places, renames, order)[id];
            (id in places && p == places[id]) || (id in renames && p == renames[id])
    decreases |order|
  {
    if order != [] && id != order[|order| - 1] {
      OldOrNew(places, renames, order[..|order| - 1], id);
    }
  }

  predicate AllDistinct(fold: Folding, now: map<nat, Place>) {
    forall a, b :: a in now && b in now && a != b ==> !SamePlace(fold, now[a], now[b])
  }

  predicate Vacant(fold: Folding, now: map<nat, Place>, id: nat, to: Place) {
    forall other :: other in now && other != id ==> !SamePlace(fold, now[other], to)
  }

  /** New places that nobody has at first, and that differ from each other. */
  predicate SafeTargets(fold: Folding, places: map<nat, Place>, renames: map<nat, Place>) {
    && (forall id :: id in renames ==> Vacant(fold, places, id, renames[id]))
    && AllDistinct(fold, renames)
  }

  lemma RenamesAreSafe(fold: Folding, tracks: seq<Track>, groups: seq<Group>, results: seq<seq<Option<string>>>,
                       places: map<nat, Place>, renames: map<nat, Place>)
    requires CaseDistinct(fold, tracks) && GroupsFit(tracks, groups) && LibraryResolved(fold, tracks, groups, results)
    requires ArePlaces(tracks, places) && AreRenames(groups, results, renames)
    ensures SafeTargets(fold, places, renames)
  {
    forall id, other | id in renames && other in places && other != id
      ensures !SamePlace(fold, places[other], renames[id]) {
      NewNameAvoidsOldNames(fold, tracks, groups, results, id, renames[id],
          Track(other, places[other].folder, places[other].leaf));
    }
    forall a, b | a in renames && b in renames && a != b ensures !SamePlace(fold, renames[a], renames[b]) {
      NewNamesDiffer(fold, tracks, groups, results, a, renames[a], b, renames[b]);
    }
  }

  lemma DistinctAtFirst(fold: Folding, tracks: seq<Track>, places: map<nat, Place>)
    requires CaseDistinct(fold, tracks) && ArePlaces(tracks, places)
    ensures AllDistinct(fold, places)
  {
    forall a, b | a in places && b in places && a != b ensures !SamePlace(fold, places[a], places[b]) {
      assert Track(a, places[a].folder, places[a].leaf) != Track(b, places[b].folder, places[b].leaf);
    }
  }

  lemma NextIsVacant(fold: Folding, places: map<nat, Place>, renames: map<nat, Place>, order: seq<nat>, next: nat)
    requires SafeTargets(fold, places, renames) && next in renames &&
             forall k :: 0 <= k < |order| ==> order[k] in renames
    ensures Vacant(fold, AfterRenames(places, renames, order), next, renames[next])
  {
    var now := AfterRenames(places, renames, order);
    forall other | other in now && other != next ensures !SamePlace(fold, now[other], renames[next]) {
      OldOrNew(places, renames, order, other);
      assert Vacant(fold, places, next, renames[next]);
    }
  }

  lemma {:induction false} StayDistinct(fold: Folding, places: map<nat, Place>, renames: map<nat, Place>,
      order: seq<nat>)
    requires SafeTargets(fold, places, renames) && AllDistinct(fold, places)
    requires forall k :: 0 <= k < |order| ==> order[k] in renames
    ensures AllDistinct(fold, AfterRenames(places, renames, order))
    decreases |order|
  {
    if order != [] {
      var front, last := order[..|order| - 1], order[|order| - 1];
      StayDistinct(fold, places, renames, front);
      NextIsVacant(fold, places, renames, front, last);
    }
  }

  /** After any of the renames in any order, the library's names differ by more than case, and the next rename lands on
      a name no other track holds. */
  lemma AnyOrderIsSafe(fold: Folding, tracks: seq<Track>, groups: seq<Group>, results: seq<seq<Option<string>>>,
                       places: map<nat, Place>, renames: map<nat, Place>, order: seq<nat>, next: nat)
    requires CaseDistinct(fold, tracks) && GroupsFit(tracks, groups) && LibraryResolved(fold, tracks, groups, results)
    requires ArePlaces(tracks, places) && AreRenames(groups, results, renames)
    requires next in renames && forall k :: 0 <= k < |order| ==> order[k] in renames
    ensures AllDistinct(fold, AfterRenames(places, renames, order))
    ensures Vacant(fold, AfterRenames(places, renames, order), next, renames[next])
  {
    RenamesAreSafe(fold, tracks, groups, results, places, renames);
    DistinctAtFirst(fold, tracks, places);
    StayDistinct(fold, places, renames, order);
    NextIsVacant(fold, places, renames, order, next);
  }

  // ----- exactly when -----

  predicate DistinctIds(tracks: seq<Track>) {
    forall s, t :: s in tracks && t in tracks && s.id == t.id ==> s == t
  }

  /** Some renames that an analysis of these tracks may have produced, and where the tracks are. */
  ghost predicate Analysed(fold: Folding, tracks: seq<Track>, groups: seq<Group>, results: seq<seq<Option<string>>>,
                           places: map<nat, Place>, renames: map<nat, Place>) {
    && GroupsFit(tracks, groups) && LibraryResolved(fold, tracks, groups, results)
    && ArePlaces(tracks, places) && AreRenames(groups, results, renames)
  }

  /** Whatever is planned for these tracks, the renames are safe. */
  ghost predicate AlwaysSafe(fold: Folding, tracks: seq<Track>) {
    forall groups, results, places, renames ::
      Analysed(fold, tracks, groups, results, places, renames) ==> SafeTargets(fold, places, renames)
  }

  lemma {:induction false} NameHasOwner(fold: Folding, tracks: seq<Track>, t: Track) returns (owner: Track)
    requires t in tracks
    ensures owner in tracks && CaseKey(fold, owner.leaf) == CaseKey(fold, t.leaf)
    ensures var m := ExistingNames(fold, tracks); CaseKey(fold, t.leaf) in m && m[CaseKey(fold, t.leaf)] == owner.id
    decreases |tracks|
  {
    var front, last := tracks[..|tracks| - 1], tracks[|tracks| - 1];
    assert tracks == front + [last];
    owner := last;
    if CaseKey(fold, last.leaf) != CaseKey(fold, t.leaf) {
      owner := NameHasOwner(fold, front, t);
    }
  }

  /** The owner of a name may be given any spelling of it. */
  lemma OwnSpellingIsGranted(fold: Folding, tracks: seq<Track>, owner: Track, stem: string)
    requires var m := ExistingNames(fold, tracks);
             CaseKey(fold, owner.leaf) in m && m[CaseKey(fold, owner.leaf)] == owner.id
    requires CaseKey(fold, NewLeaf(Plan(owner.id, owner.leaf, Some(stem), []), stem)) == CaseKey(fold, owner.leaf)
    ensures FolderResolved(fold, tracks, [Plan(owner.id, owner.leaf, Some(stem), [])], [Some(stem)])
  {
    var plan, results := Plan(owner.id, owner.leaf, Some(stem), []), [Some(stem)];
    assert results[..0] == [];
    var names := Names(ExistingNames(fold, tracks), map[]);
    assert !Taken(fold, names, owner.id, NewLeaf(plan, stem));
    assert !ChoicesFor(fold, names, plan).taken(stem);
    assert Resolved(fold, ExistingNames(fold, tracks), [plan], results, 0);
  }

  lemma OneRename(fold: Folding, tracks: seq<Track>, folder: string, plan: Plan, stem: string, places: map<nat, Place>)
    requires FolderResolved(fold, InFolder(tracks, folder), [plan], [Some(stem)])
    requires Track(plan.id, folder, plan.leaf) in tracks && ArePlaces(tracks, places)
    ensures Analysed(fold, tracks, [Group(folder, [plan])], [[Some(stem)]], places,
            map[plan.id := Place(folder, NewLeaf(plan, stem))])
  {
    var groups, results := [Group(folder, [plan])], [[Some(stem)]];
    assert IsRenameAt(groups, results, plan.id, Place(folder, NewLeaf(plan, stem)), 0, 0);
    assert results[0] == [Some(stem)] && groups[0].plans == [plan];
  }

  lemma OccupiedTargetIsUnsafe(fold: Folding, other: Track, id: nat, to: Place)
    requires id != other.id && SamePlace(fold, Place(other.folder, other.leaf), to)
    ensures !SafeTargets(fold, map[other.id := Place(other.folder, other.leaf)], map[id := to])
  {
    var places, renames := map[other.id := Place(other.folder, other.leaf)], map[id := to];
    assert other.id in places && id in renames;
    assert !Vacant(fold, places, id, renames[id]);
  }

  lemma GrantedTwinIsUnsafe(fold: Folding, tracks: seq<Track>, folder: string, plan: Plan, stem: string, other: Track)
    requires FolderResolved(fold, InFolder(tracks, folder), [plan], [Some(stem)])
    requires Track(plan.id, folder, plan.leaf) in tracks && other in tracks && plan.id != other.id
    requires SamePlace(fold, Place(other.folder, other.leaf), Place(folder, NewLeaf(plan, stem)))
    ensures !AlwaysSafe(fold, tracks)
  {
    var places := map[other.id := Place(other.folder, other.leaf)];
    var renames := map[plan.id := Place(folder, NewLeaf(plan, stem))];
    OneRename(fold, tracks, folder, plan, stem, places);
    OccupiedTargetIsUnsafe(fold, other, plan.id, Place(folder, NewLeaf(plan, stem)));
    assert Analysed(fold, tracks, [Group(folder, [plan])], [[Some(stem)]], places, renames) &&
        !SafeTargets(fold, places, renames);
  }

  /** Of two names that differ in case only, the owner of both may be given the other's stem, or, where that with its
      own extension does not spell the same name, its own: either way the new name is the other's too. */
  lemma TwinsAreUnsafe(fold: Folding, tracks: seq<Track>, owner: Track, other: Track)
    requires owner in tracks && other in tracks && owner.id != other.id && owner.folder == other.folder
    requires CaseKey(fold, owner.leaf) == CaseKey(fold, other.leaf)
    requires var m := ExistingNames(fold, InFolder(tracks, owner.folder));
             CaseKey(fold, owner.leaf) in m && m[CaseKey(fold, owner.leaf)] == owner.id
    ensures !AlwaysSafe(fold, tracks)
  {
    var (own, suffix) := StemAndSuffix(owner.leaf);
    var others := StemAndSuffix(other.leaf).0;
    var stem := if CaseKey(fold, others + suffix) == CaseKey(fold, owner.leaf) then others else own;
    OwnSpellingIsGranted(fold, InFolder(tracks, owner.folder), owner, stem);
    GrantedTwinIsUnsafe(fold, tracks, owner.folder, Plan(owner.id, owner.leaf, Some(stem), []), stem, other);
  }

  /** Renames are safe whatever is planned exactly when no two names of a folder differ in case only. */
  lemma SafeExactly(fold: Folding, tracks: seq<Track>)
    requires DistinctIds(tracks)
    ensures AlwaysSafe(fold, tracks) <==> CaseDistinct(fold, tracks)
  {
    if CaseDistinct(fold, tracks) {
      forall groups, results, places, renames | Analysed(fold, tracks, groups, results, places, renames)
        ensures SafeTargets(fold, places, renames) {
        RenamesAreSafe(fold, tracks, groups, results, places, renames);
      }
    } else {
      var s, t :| s in tracks && t in tracks && s.folder == t.folder &&
          CaseKey(fold, s.leaf) == CaseKey(fold, t.leaf) && s != t;
      var owner := NameHasOwner(fold, InFolder(tracks, s.folder), s);
      TwinsAreUnsafe(fold, tracks, owner, if owner.id == s.id then t else s);
    }
  }

  /** A name is changed from the one proposed only when that one was taken; and every name made up fits its bound. */
  lemma ChangedOnlyWhenTaken(fold: Folding, tracks: seq<Track>, plans: seq<Plan>, results: seq<Option<string>>, i: nat)
    requires i < |results| <= |plans| && FolderResolved(fold, tracks, plans, results) && plans[i].rename.Some?
    ensures results[i] != plans[i].rename ==>
              Taken(fold, Names(ExistingNames(fold, tracks), ProposedNames(fold, plans, results[..i])), plans[i].id,
                  NewLeaf(plans[i], plans[i].rename.value))
    ensures results[i] != plans[i].rename && results[i].Some? ==>
            ByteLength(NewLeaf(plans[i], results[i].value)) <= NAME_BYTES
    ensures results[i].None? ==> ByteLength(Suffix(plans[i])) > LONGEST_SUFFIX
  {
    assert Resolved(fold, ExistingNames(fold, tracks), plans, results, i);
    ResolvedNameIsFree(fold, Names(ExistingNames(fold, tracks), ProposedNames(fold, plans, results[..i])), plans[i],
        results[i]);
  }

  const TWINS := [Track(1, "", "A.mp3"), Track(2, "", "a.mp3")]
  const TWIN_PLAN := Plan(2, "a.mp3", Some("A"), [])

  lemma TwinKeys(fold: Folding)
    requires fold('A') == fold('a')
    ensures CaseKey(fold, "A.mp3") == CaseKey(fold, "a.mp3")
  {
    CaseKeyAppend(fold, "A", ".mp3");
    CaseKeyAppend(fold, "a", ".mp3");
    assert "A" + ".mp3" == "A.mp3" && "a" + ".mp3" == "a.mp3";
    assert CaseKey(fold, "A") == CaseKey(fold, "") + fold('A') && CaseKey(fold, "a") == CaseKey(fold, "") + fold('a');
  }

  lemma TwinSuffix()
    ensures Suffix(TWIN_PLAN) == ".mp3"
  {
    LastIndexOfJoined("a", '.', "mp3");
    assert "a" + ['.'] + "mp3" == "a.mp3";
  }

  lemma TwinNames(fold: Folding)
    requires fold('A') == fold('a')
    ensures ExistingNames(fold, TWINS) == map[CaseKey(fold, "a.mp3") := 2]
  {
    TwinKeys(fold);
    assert TWINS[..1] == [TWINS[0]] && TWINS[..1][..0] == [];
    assert ExistingNames(fold, TWINS[..1]) == map[CaseKey(fold, "A.mp3") := 1];
  }

  /** Names that differ in case only defeat the resolver: the map keeps one owner for both, and that owner is given the
      other track's very name. */
  lemma CaseTwinsCollide(fold: Folding)
    requires fold('A') == fold('a')
    ensures FolderResolved(fold, TWINS, [TWIN_PLAN], [Some("A")]) && NewLeaf(TWIN_PLAN, "A") == TWINS[0].leaf
  {
    TwinKeys(fold);
    TwinNames(fold);
    TwinSuffix();
    assert "A" + ".mp3" == "A.mp3";
    var names := Names(ExistingNames(fold, TWINS), map[]);
    assert !Taken(fold, names, 2, "A.mp3");
    assert [Some("A")][..0] == [];
    assert !ChoicesFor(fold, names, TWIN_PLAN).taken("A");
    assert Resolved(fold, ExistingNames(fold, TWINS), [TWIN_PLAN], [Some("A")], 0);
  }
}
