/** The library automatic playlists are resolved from, over its whole history, and whether a playlist's signature
    tells when to resolve it again. */
module PlaylistLibrary {
  import opened Common
  import opened Playlists
  import opened Sorting

  // ----- the library -----

  datatype File = File(path: string, title: string, bpm: Option<int>, sizeBytes: nat, mtime: int)

  /** A file is published under its path, by a scan or an upload; a track is edited or converted, tagged, or deleted. */
  datatype Change =
    | Publish(file: File, now: int)
    | Edit(id: int, displayTitle: string, file: File)
    | Tag(id: int, tags: set<string>)
    | Delete(id: int)

  function Described(t: Track, f: File): Track {
    t.(path := f.path, title := f.title, bpm := f.bpm, sizeBytes := f.sizeBytes, mtime := f.mtime)
  }

  function OfId(id: int): Entry -> bool {
    (e: Entry) => e.track.id == id
  }

  function OfPath(path: string): Entry -> bool {
    (e: Entry) => e.track.path == path
  }

  function Find(library: seq<Entry>, wanted: Entry -> bool): (at: Option<nat>)
    ensures at.Some? ==> at.value < |library| && wanted(library[at.value])
    ensures at.None? ==> forall i :: 0 <= i < |library| ==> !wanted(library[i])
  {
    if library == [] then None
    else if wanted(library[|library| - 1]) then Some(|library| - 1)
    else Find(library[..|library| - 1], wanted)
  }

  /** Rows are in the order of their ids, and a new row takes the id after the highest there is. */
  function NextId(library: seq<Entry>): int {
    if library == [] then 1 else library[|library| - 1].track.id + 1
  }

  /** A known path keeps its row, its id, tags and time of adding; a new one gets a row of its own. */
  function Published(library: seq<Entry>, f: File, now: int): seq<Entry> {
    match Find(library, OfPath(f.path))
    case Some(at) => library[at := library[at].(track := Described(library[at].track, f))]
    case None => library + [Entry(Described(Track(NextId(library), "", "", "", None, 0, 0, now), f), {})]
  }

  /** An edit may not take the path of another track. */
  function Edited(library: seq<Entry>, at: nat, displayTitle: string, f: File): seq<Entry>
    requires at < |library|
  {
    if exists i :: 0 <= i < |library| && i != at && library[i].track.path == f.path then library
    else library[at := library[at].(track := Described(library[at].track, f).(displayTitle := displayTitle))]
  }

  function Changed(library: seq<Entry>, change: Change): seq<Entry> {
    match change
    case Publish(f, now) => Published(library, f, now)
    case Edit(id, displayTitle, f) =>
      var at := Find(library, OfId(id));
      if at.Some? then Edited(library, at.value, displayTitle, f) else library
    case Tag(id, tags) =>
      var at := Find(library, OfId(id));
      if at.Some? then library[at.value := library[at.value].(tags := tags)] else library
    case Delete(id) =>
      var at := Find(library, OfId(id));
      if at.Some? then library[..at.value] + library[at.value + 1..] else library
  }

  /** What a new library comes to by these changes. */
  function Reached(changes: seq<Change>): seq<Entry> {
    if changes == [] then [] else Changed(Reached(changes[..|changes| - 1]), changes[|changes| - 1])
  }

  /** The clock does not run backwards. */
  predicate Timely(changes: seq<Change>) {
    forall i, j :: 0 <= i < j < |changes| && changes[i].Publish? && changes[j].Publish? ==>
        changes[i].now <= changes[j].now
  }

  /** Ids grow from 1, paths differ, and later ids were added no earlier. */
  predicate IsLibrary(library: seq<Entry>) {
    && (forall i :: 0 <= i < |library| ==> library[i].track.id >= 1)
    && (forall i, j :: 0 <= i < j < |library| ==>
          && library[i].track.id < library[j].track.id
          && library[i].track.path != library[j].track.path
          && library[i].track.addedAt <= library[j].track.addedAt)
  }

  predicate AddedBy(library: seq<Entry>, now: int) {
    forall i :: 0 <= i < |library| ==> library[i].track.addedAt <= now
  }

  lemma ChangeKeepsTimes(library: seq<Entry>, change: Change, now: int)
    requires AddedBy(library, now) && (change.Publish? ==> change.now <= now)
    ensures AddedBy(Changed(library, change), now)
  {
  }

  lemma {:induction false} ReachedInTime(changes: seq<Change>, now: int)
    requires forall i :: 0 <= i < |changes| && changes[i].Publish? ==> changes[i].now <= now
    ensures AddedBy(Reached(changes), now)
    decreases |changes|
  {
    if changes != [] {
      ReachedInTime(changes[..|changes| - 1], now);
      ChangeKeepsTimes(Reached(changes[..|changes| - 1]), changes[|changes| - 1], now);
    }
  }

  lemma PublishKeepsLibrary(library: seq<Entry>, f: File, now: int)
    requires IsLibrary(library) && AddedBy(library, now)
    ensures IsLibrary(Published(library, f, now))
  {
  }

  lemma ChangeKeepsLibrary(library: seq<Entry>, change: Change)
    requires IsLibrary(library) && (change.Publish? ==> AddedBy(library, change.now))
    ensures IsLibrary(Changed(library, change))
  {
    if change.Publish? {
      PublishKeepsLibrary(library, change.file, change.now);
    }
  }

  /** Whatever happens to a library, ids and paths stay distinct, and tracks of later ids were added no earlier. */
  lemma {:induction false} ReachedIsLibrary(changes: seq<Change>)
    requires Timely(changes)
    ensures IsLibrary(Reached(changes)) && DistinctIds(Reached(changes))
    decreases |changes|
  {
    if changes != [] {
      var front, last := changes[..|changes| - 1], changes[|changes| - 1];
      ReachedIsLibrary(front);
      if last.Publish? {
        ReachedInTime(front, last.now);
      }
      ChangeKeepsLibrary(Reached(front), last);
    }
  }

  // ----- what the signature tells -----

  predicate BoundAlike(a: Result<Resolution, RuleError>, b: Result<Resolution, RuleError>) {
    a.Ok? && b.Ok? && a.value.signature == b.value.signature ==>
      Map(SignedTrack, a.value.tracks) == Map(SignedTrack, b.value.tracks)
  }

  /** Whenever a library signs as it did at an earlier time, it lists the same tracks as it did then. */
  ghost predicate SignatureBinds(u: Unicode, hash: (Rule, seq<Entry>) -> string, rule: Rule) {
    forall changes, n :: Timely(changes) && 0 <= n <= |changes| ==>
      BoundAlike(Resolved(u, hash, rule, Reached(changes[..n])), Resolved(u, hash, rule, Reached(changes)))
  }

  lemma OthersAreBound(u: Unicode, hash: (Rule, seq<Entry>) -> string, rule: Rule, a: seq<Entry>, b: seq<Entry>)
    requires Normalized(u, rule).Ok? && CollisionFree(hash) && rule.orderBy != Newest
    ensures BoundAlike(Resolved(u, hash, rule, a), Resolved(u, hash, rule, b))
  {
    var n := Normalized(u, rule).value;
    if ResolvedBy(u, hash, n, a).signature == ResolvedBy(u, hash, n, b).signature {
      SignatureDecidesPlaylist(u, hash, n, a, b);
    }
  }

  // ----- a run that is not bound -----

  function MatchingBpm(rule: Rule): int {
    if rule.minBpm.Some? then rule.minBpm.value else if rule.maxBpm.Some? then rule.maxBpm.value else 120
  }

  function MatchingFile(rule: Rule, path: string): File {
    File(path, "Song", Some(MatchingBpm(rule)), 1, 1)
  }

  function MatchingTags(rule: Rule): set<string> {
    set t | t in rule.includeTags
  }

  function MatchingEntry(rule: Rule, id: int, path: string, now: int): Entry {
    Entry(Described(Track(id, "", "", "", None, 0, 0, now), MatchingFile(rule, path)), MatchingTags(rule))
  }

  /** Every accepted rule has tracks that match it. */
  lemma AcceptedRulesMatch(u: Unicode, rule: Rule, id: int, path: string, now: int)
    requires Normalized(u, rule).Ok?
    ensures Matches(Normalized(u, rule).value, MatchingEntry(Normalized(u, rule).value, id, path, now))
  {
    var n := Normalized(u, rule).value;
    if n.includeTags != [] {
      assert n.includeTags[0] in n.includeTags;
    }
  }

  lemma ReachedNext(changes: seq<Change>, change: Change)
    ensures Reached(changes + [change]) == Changed(Reached(changes), change)
  {
    assert (changes + [change])[..|changes|] == changes;
  }

  const FIRST := "a.flac"
  const SECOND := "b.flac"

  /** A scan finds two files, which are then tagged. */
  function TwoFound(rule: Rule, now: int): seq<Change> {
    [Publish(MatchingFile(rule, FIRST), now), Publish(MatchingFile(rule, SECOND), now),
     Tag(1, MatchingTags(rule)), Tag(2, MatchingTags(rule))]
  }

  /** A scan misses the second file, a later one finds it again, and it is tagged as before. */
  function FoundAgain(rule: Rule, now: int): seq<Change> {
    [Delete(2), Publish(MatchingFile(rule, SECOND), now), Tag(2, MatchingTags(rule))]
  }

  function Untagged(e: Entry): Entry {
    e.(tags := {})
  }

  lemma SecondIsPublished(rule: Rule, e: Entry, now: int)
    requires e.track.id == 1 && e.track.path == FIRST
    ensures Changed([e], Publish(MatchingFile(rule, SECOND), now)) == [e, Untagged(MatchingEntry(rule, 2, SECOND, now))]
  {
    assert Find([e], OfPath(SECOND)).None?;
  }

  lemma SecondIsTagged(rule: Rule, e: Entry, now: int)
    requires e.track.id == 1
    ensures Changed([e, Untagged(MatchingEntry(rule, 2, SECOND, now))], Tag(2, MatchingTags(rule))) ==
            [e, MatchingEntry(rule, 2, SECOND, now)]
  {
    assert Find([e, Untagged(MatchingEntry(rule, 2, SECOND, now))], OfId(2)) == Some(1);
  }

  lemma FirstIsPublished(rule: Rule, now: int)
    ensures Changed([], Publish(MatchingFile(rule, FIRST), now)) == [Untagged(MatchingEntry(rule, 1, FIRST, now))]
  {
    assert Find([], OfPath(FIRST)).None?;
  }

  lemma FirstIsTagged(rule: Rule, rest: seq<Entry>, now: int)
    requires forall e :: e in rest ==> e.track.id != 1
    ensures Changed([Untagged(MatchingEntry(rule, 1, FIRST, now))] + rest, Tag(1, MatchingTags(rule))) ==
            [MatchingEntry(rule, 1, FIRST, now)] + rest
  {
    var library := [Untagged(MatchingEntry(rule, 1, FIRST, now))] + rest;
    assert library[0].track.id == 1 && OfId(1)(library[0]);
    assert forall i :: 0 < i < |library| ==> library[i] in rest;
    assert Find(library, OfId(1)) == Some(0);
  }

  lemma SecondIsDeleted(e: Entry, f: Entry)
    requires e.track.id == 1 && f.track.id == 2
    ensures Changed([e, f], Delete(2)) == [e]
  {
    assert Find([e, f], OfId(2)) == Some(1);
    assert [e, f][..1] + [e, f][2..] == [e];
  }

  lemma TwoPublishedReaches(rule: Rule, now: int)
    ensures Reached(TwoFound(rule, now)[..2]) ==
            [Untagged(MatchingEntry(rule, 1, FIRST, now)), Untagged(MatchingEntry(rule, 2, SECOND, now))]
  {
    var all := TwoFound(rule, now);
    ReachedNext([], all[0]);
    ReachedNext([all[0]], all[1]);
    assert [] + [all[0]] == [all[0]] && [all[0]] + [all[1]] == all[..2];
    FirstIsPublished(rule, now);
    SecondIsPublished(rule, Untagged(MatchingEntry(rule, 1, FIRST, now)), now);
  }

  lemma TwoFoundReaches(rule: Rule, now: int)
    ensures Reached(TwoFound(rule, now)) == [MatchingEntry(rule, 1, FIRST, now), MatchingEntry(rule, 2, SECOND, now)]
  {
    var all := TwoFound(rule, now);
    TwoPublishedReaches(rule, now);
    ReachedNext(all[..2], all[2]);
    ReachedNext(all[..2] + [all[2]], all[3]);
    assert all[..2] + [all[2]] + [all[3]] == all;
    FirstIsTagged(rule, [Untagged(MatchingEntry(rule, 2, SECOND, now))], now);
    SecondIsTagged(rule, MatchingEntry(rule, 1, FIRST, now), now);
  }

  lemma FoundAgainReaches(rule: Rule, now: int, later: int)
    ensures Reached(TwoFound(rule, now) + FoundAgain(rule, later)) ==
            [MatchingEntry(rule, 1, FIRST, now), MatchingEntry(rule, 2, SECOND, later)]
  {
    var before, again := TwoFound(rule, now), FoundAgain(rule, later);
    var e := MatchingEntry(rule, 1, FIRST, now);
    TwoFoundReaches(rule, now);
    ReachedNext(before, again[0]);
    ReachedNext(before + [again[0]], again[1]);
    ReachedNext(before + [again[0]] + [again[1]], again[2]);
    assert before + [again[0]] + [again[1]] + [again[2]] == before + again;
    SecondIsDeleted(e, MatchingEntry(rule, 2, SECOND, now));
    SecondIsPublished(rule, e, later);
    SecondIsTagged(rule, e, later);
  }

  lemma MatchingPair(rule: Rule, e: Entry, f: Entry)
    requires Matches(rule, e) && Matches(rule, f)
    ensures Matching(rule, [e, f]) == [e.track, f.track]
  {
    assert [e, f][..1] == [e] && [e][..0] == [];
    assert Matching(rule, [e]) == [e.track];
  }

  lemma ArrangedPair(u: Unicode, rule: Rule, e: Entry, f: Entry)
    requires Matches(rule, e) && Matches(rule, f) && e.track.id < f.track.id
    ensures Sort([e, f], ById()) == [e, f]
    ensures Arranged(u, rule, [e, f]) == if Before(u, rule.orderBy)(f.track, e.track) then [f.track, e.track]
            else [e.track, f.track]
  {
    SortPair(e, f, ById());
    SortPair(e.track, f.track, Before(u, rule.orderBy));
    MatchingPair(rule, e, f);
  }

  /** Of two tracks of one title the one added later comes first, and of one second the one of the lower id. */
  lemma NewestOfPair(u: Unicode, order: Order, s: Track, t: Track)
    requires order == Newest && s.id < t.id && s.addedAt <= t.addedAt && AutomaticTitle(u, s) == AutomaticTitle(u, t)
    ensures Before(u, order)(t, s) <==> s.addedAt < t.addedAt
  {
    OrderReverse(u, order, s, t);
  }

  lemma NewestIsListedFirst(u: Unicode, rule: Rule, e: Entry, f: Entry)
    requires rule.orderBy == Newest && rule.maximumTracks > 0 && Matches(rule, e) && Matches(rule, f)
    requires e.track.id < f.track.id && e.track.addedAt <= f.track.addedAt
    requires AutomaticTitle(u, e.track) == AutomaticTitle(u, f.track)
    ensures Map(Signed, Sort([e, f], ById())) == [Signed(e), Signed(f)] && Listed(u, rule, [e, f]) != []
    ensures Listed(u, rule, [e, f])[0] == if e.track.addedAt < f.track.addedAt then f.track else e.track
  {
    NewestOfPair(u, rule.orderBy, e.track, f.track);
    ArrangedPair(u, rule, e, f);
    MapPair(Signed, e, f);
  }

  lemma SecondSignsAlike(u: Unicode, hash: (Rule, seq<Entry>) -> string, n: Rule, now: int, later: int)
    requires n.orderBy == Newest && n.maximumTracks > 0 && now < later
    requires Matches(n, MatchingEntry(n, 1, FIRST, now)) && Matches(n, MatchingEntry(n, 2, SECOND, now))
    requires Matches(n, MatchingEntry(n, 2, SECOND, later))
    ensures var e, f, g := MatchingEntry(n, 1, FIRST, now), MatchingEntry(n, 2, SECOND, now),
            MatchingEntry(n, 2, SECOND, later);
            var x, y := ResolvedBy(u, hash, n, [e, f]), ResolvedBy(u, hash, n, [e, g]);
            && x.signature == y.signature && x.tracks != [] && y.tracks != [] && x.tracks[0].id == 1 &&
               y.tracks[0].id == 2
  {
    var e, f, g := MatchingEntry(n, 1, FIRST, now), MatchingEntry(n, 2, SECOND, now),
        MatchingEntry(n, 2, SECOND, later);
    NewestIsListedFirst(u, n, e, f);
    NewestIsListedFirst(u, n, e, g);
  }

  lemma FoundAgainIsTimely(rule: Rule, now: int, later: int)
    requires now <= later
    ensures Timely(TwoFound(rule, now) + FoundAgain(rule, later))
  {
  }

  /** Two tracks of one scan, of which the second is later missed and found again, sign as before and list in the other
      order. */
  lemma NewestIsNotSigned(u: Unicode, hash: (Rule, seq<Entry>) -> string, rule: Rule, now: int, later: int)
    requires Normalized(u, rule).Ok? && rule.orderBy == Newest && now < later
    ensures var n := Normalized(u, rule).value; var before, again := TwoFound(n, now), FoundAgain(n, later);
            var x, y := Resolved(u, hash, rule, Reached(before)), Resolved(u, hash, rule, Reached(before + again));
            && Timely(before + again) && x.Ok? && y.Ok? && x.value.signature == y.value.signature
            && x.value.tracks != [] && y.value.tracks != [] && x.value.tracks[0].id == 1 && y.value.tracks[0].id == 2
  {
    var n := Normalized(u, rule).value;
    FoundAgainIsTimely(n, now, later);
    TwoFoundReaches(n, now);
    FoundAgainReaches(n, now, later);
    AcceptedRulesMatch(u, rule, 1, FIRST, now);
    AcceptedRulesMatch(u, rule, 2, SECOND, now);
    AcceptedRulesMatch(u, rule, 2, SECOND, later);
    SecondSignsAlike(u, hash, n, now, later);
  }

  lemma NewestIsNotBound(u: Unicode, hash: (Rule, seq<Entry>) -> string, rule: Rule)
    requires Normalized(u, rule).Ok? && rule.orderBy == Newest
    ensures !SignatureBinds(u, hash, rule)
  {
    var n := Normalized(u, rule).value;
    var before, all := TwoFound(n, 0), TwoFound(n, 0) + FoundAgain(n, 1);
    NewestIsNotSigned(u, hash, rule, 0, 1);
    assert all[..|before|] == before;
    var x, y := Resolved(u, hash, rule, Reached(before)), Resolved(u, hash, rule, Reached(all));
    assert Map(SignedTrack, x.value.tracks)[0].id == 1 && Map(SignedTrack, y.value.tracks)[0].id == 2;
    assert !BoundAlike(x, y);
  }

  /** With a hash that never collides, the signature binds the listed tracks exactly for the rules that are not ordered
      by the time of adding. */
  lemma SignatureBindsExactly(u: Unicode, hash: (Rule, seq<Entry>) -> string, rule: Rule)
    requires Normalized(u, rule).Ok? && CollisionFree(hash)
    ensures SignatureBinds(u, hash, rule) <==> rule.orderBy != Newest
  {
    if rule.orderBy == Newest {
      NewestIsNotBound(u, hash, rule);
    } else {
      forall changes, n | Timely(changes) && 0 <= n <= |changes|
        ensures BoundAlike(Resolved(u, hash, rule, Reached(changes[..n])), Resolved(u, hash, rule, Reached(changes))) {
        OthersAreBound(u, hash, rule, Reached(changes[..n]), Reached(changes));
      }
    }
  }
}
