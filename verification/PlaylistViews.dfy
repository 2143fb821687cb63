/** The stored list of an automatic playlist, and whether opening the playlist shows what its rule resolves to. */
module PlaylistViews {
  import opened Common
  import opened PlaylistLibrary
  import opened Playlists
  import opened Sorting

  // ----- the stored list -----

  /** The list holds ids, and loses those whose tracks are deleted. Kept beside it: the library it was written from, and
      whether it has lost an id since. */
  datatype View = View(library: seq<Entry>, signature: Option<string>, items: seq<int>, source: seq<Entry>, lost: bool)

  /** The library changes; the playlist is opened, which writes the list anew unless the signature is the stored one; or
      the list is written anew on request. */
  datatype Event = Happen(change: Change) | Open | Refresh

  function TrackId(t: Track): int {
    t.id
  }

  function Without(items: seq<int>, id: int): (r: seq<int>)
    ensures |r| <= |items| && (id in items ==> |r| < |items|) && (id !in items ==> r == items)
  {
    if items == [] then []
    else
      var front := Without(items[..|items| - 1], id);
      if items[|items| - 1] == id then front else front + [items[|items| - 1]]
  }

  function Happened(v: View, change: Change): View {
    var after := v.(library := Changed(v.library, change));
    if change.Delete? && Find(v.library, OfId(change.id)).Some?
    then after.(items := Without(v.items, change.id), lost := v.lost || change.id in v.items)
    else after
  }

  function Written(v: View, r: Resolution): View {
    View(v.library, Some(r.signature), Map(TrackId, r.tracks), v.library, false)
  }

  function After(u: Unicode, hash: (Rule, seq<Entry>) -> string, rule: Rule, v: View, event: Event): View {
    match event
    case Happen(change) => Happened(v, change)
    case Open =>
      var r := ResolvedBy(u, hash, rule, v.library);
      if v.signature == Some(r.signature) then v else Written(v, r)
    case Refresh => Written(v, ResolvedBy(u, hash, rule, v.library))
  }

  /** From an empty library, for a playlist of the given rule. */
  function Ran(u: Unicode, hash: (Rule, seq<Entry>) -> string, rule: Rule, events: seq<Event>): View {
    if events == [] then View([], None, [], [], false)
    else After(u, hash, rule, Ran(u, hash, rule, events[..|events| - 1]), events[|events| - 1])
  }

  lemma RanNext(u: Unicode, hash: (Rule, seq<Entry>) -> string, rule: Rule, events: seq<Event>, event: Event)
    ensures Ran(u, hash, rule, events + [event]) == After(u, hash, rule, Ran(u, hash, rule, events), event)
  {
    assert (events + [event])[..|events|] == events;
  }

  // ----- what opening shows -----

  predicate ShowsRule(u: Unicode, rule: Rule, v: View) {
    v.items == Map(TrackId, Listed(u, rule, v.library))
  }

  /** The list was written from the library kept beside it, and is shorter than it was written exactly if it has lost an
      id. */
  predicate Kept(u: Unicode, hash: (Rule, seq<Entry>) -> string, rule: Rule, v: View) {
    v.signature.Some? ==>
      var r := ResolvedBy(u, hash, rule, v.source);
      && v.signature.value == r.signature
      && (if v.lost then |v.items| < |r.tracks| else v.items == Map(TrackId, r.tracks))
  }

  lemma EventKeeps(u: Unicode, hash: (Rule, seq<Entry>) -> string, rule: Rule, v: View, event: Event)
    requires Kept(u, hash, rule, v)
    ensures Kept(u, hash, rule, After(u, hash, rule, v, event))
  {
  }

  lemma {:induction false} RanKeeps(u: Unicode, hash: (Rule, seq<Entry>) -> string, rule: Rule, events: seq<Event>)
    ensures Kept(u, hash, rule, Ran(u, hash, rule, events))
    decreases |events|
  {
    if events != [] {
      RanKeeps(u, hash, rule, events[..|events| - 1]);
      EventKeeps(u, hash, rule, Ran(u, hash, rule, events[..|events| - 1]), events[|events| - 1]);
    }
  }

  lemma SignedAlikeSameIds(s: seq<Track>, t: seq<Track>)
    requires Map(SignedTrack, s) == Map(SignedTrack, t)
    ensures Map(TrackId, s) == Map(TrackId, t)
  {
    assert |s| == |Map(SignedTrack, s)| == |t|;
    forall i | 0 <= i < |s| ensures s[i].id == t[i].id {
      assert Map(SignedTrack, s)[i] == Map(SignedTrack, t)[i];
    }
  }

  lemma KeptIsRight(u: Unicode, hash: (Rule, seq<Entry>) -> string, rule: Rule, v: View)
    requires Kept(u, hash, rule, v) && CollisionFree(hash) && rule.orderBy != Newest && !v.lost
    requires v.signature == Some(ResolvedBy(u, hash, rule, v.library).signature)
    ensures ShowsRule(u, rule, v)
  {
    SignatureDecidesPlaylist(u, hash, rule, v.source, v.library);
    SignedAlikeSameIds(Listed(u, rule, v.source), Listed(u, rule, v.library));
  }

  lemma SignedAlikeSameLength(u: Unicode, rule: Rule, a: seq<Entry>, b: seq<Entry>)
    requires Map(Signed, Sort(a, ById())) == Map(Signed, Sort(b, ById()))
    ensures |Listed(u, rule, a)| == |Listed(u, rule, b)|
  {
    MatchingOfSigned(rule, Sort(a, ById()));
    MatchingOfSigned(rule, Sort(b, ById()));
    assert |Matching(rule, Sort(a, ById()))| == |Matching(rule, Map(Signed, Sort(a, ById())))|;
  }

  lemma LostIsWrong(u: Unicode, hash: (Rule, seq<Entry>) -> string, rule: Rule, v: View)
    requires Kept(u, hash, rule, v) && CollisionFree(hash) && v.lost
    requires v.signature == Some(ResolvedBy(u, hash, rule, v.library).signature)
    ensures !ShowsRule(u, rule, v)
  {
    SameHashSameEntries(hash, rule, Sort(v.source, ById()), Sort(v.library, ById()));
    SignedAlikeSameLength(u, rule, v.source, v.library);
  }

  /** The list has lost a track since it was written, and the library signs as it did then. */
  predicate Overlooked(u: Unicode, hash: (Rule, seq<Entry>) -> string, rule: Rule, v: View) {
    v.lost && v.signature == Some(ResolvedBy(u, hash, rule, v.library).signature)
  }

  lemma WrittenShows(u: Unicode, hash: (Rule, seq<Entry>) -> string, rule: Rule, v: View)
    ensures ShowsRule(u, rule, Written(v, ResolvedBy(u, hash, rule, v.library)))
  {
  }

  lemma OpeningShows(u: Unicode, hash: (Rule, seq<Entry>) -> string, rule: Rule, v: View)
    requires Kept(u, hash, rule, v) && CollisionFree(hash)
    ensures Overlooked(u, hash, rule, v) ==> !ShowsRule(u, rule, After(u, hash, rule, v, Open))
    ensures rule.orderBy != Newest && !Overlooked(u, hash, rule, v) ==>
              ShowsRule(u, rule, After(u, hash, rule, v, Open))
  {
    var r := ResolvedBy(u, hash, rule, v.library);
    if v.signature == Some(r.signature) {
      assert After(u, hash, rule, v, Open) == v;
      if v.lost {
        LostIsWrong(u, hash, rule, v);
      } else if rule.orderBy != Newest {
        KeptIsRight(u, hash, rule, v);
      }
    } else {
      WrittenShows(u, hash, rule, v);
      assert After(u, hash, rule, v, Open) == Written(v, r);
    }
  }

  /** An opened playlist does not show what its rule resolves to if a track of the list was deleted since the list was
      written and the library has come to sign as before. Under the rules not ordered by newest it shows it in all other
      cases. A refreshed one always does. */
  lemma OpenedShowsRuleExactly(u: Unicode, hash: (Rule, seq<Entry>) -> string, rule: Rule, events: seq<Event>)
    requires CollisionFree(hash)
    ensures var wrong := Overlooked(u, hash, rule, Ran(u, hash, rule, events));
            var shows := ShowsRule(u, rule, Ran(u, hash, rule, events + [Open]));
            (wrong ==> !shows) && (rule.orderBy != Newest ==> (shows <==> !wrong))
    ensures ShowsRule(u, rule, Ran(u, hash, rule, events + [Refresh]))
  {
    RanKeeps(u, hash, rule, events);
    RanNext(u, hash, rule, events, Open);
    RanNext(u, hash, rule, events, Refresh);
    OpeningShows(u, hash, rule, Ran(u, hash, rule, events));
  }

  // ----- a run whose list stays short -----

  /** A file is found and tagged. */
  function Found(rule: Rule, now: int): seq<Event> {
    [Happen(Publish(MatchingFile(rule, FIRST), now)), Happen(Tag(1, MatchingTags(rule)))]
  }

  /** The playlist is opened; a scan misses the file, a later one finds it again, and it is tagged as before. */
  function OpenedThenMissed(rule: Rule, now: int, later: int): seq<Event> {
    Found(rule, now) + [Open] + [Happen(Delete(1))] + Found(rule, later)
  }

  lemma OnlyTrackIsListed(u: Unicode, rule: Rule, e: Entry)
    requires rule.maximumTracks > 0 && Matches(rule, e)
    ensures Sort([e], ById()) == [e] && Listed(u, rule, [e]) == [e.track]
  {
    SortOne(e, ById());
    assert [e][..0] == [];
    assert Matching(rule, [e]) == [e.track];
    SortOne(e.track, Before(u, rule.orderBy));
  }

  lemma FoundFromEmpty(u: Unicode, hash: (Rule, seq<Entry>) -> string, rule: Rule, events: seq<Event>, now: int)
    requires Ran(u, hash, rule, events).library == []
    ensures Ran(u, hash, rule, events + Found(rule, now)) ==
            Ran(u, hash, rule, events).(library := [MatchingEntry(rule, 1, FIRST, now)])
  {
    var publish, tag := Found(rule, now)[0], Found(rule, now)[1];
    RanNext(u, hash, rule, events, publish);
    RanNext(u, hash, rule, events + [publish], tag);
    assert events + [publish] + [tag] == events + Found(rule, now);
    FirstIsPublished(rule, now);
    FirstIsTagged(rule, [], now);
    var e := MatchingEntry(rule, 1, FIRST, now);
    assert [Untagged(e)] + [] == [Untagged(e)] && [e] + [] == [e];
  }

  lemma OpenedListsFound(u: Unicode, hash: (Rule, seq<Entry>) -> string, rule: Rule, now: int)
    requires rule.maximumTracks > 0 && Matches(rule, MatchingEntry(rule, 1, FIRST, now))
    ensures var e := MatchingEntry(rule, 1, FIRST, now);
            Ran(u, hash, rule, Found(rule, now) + [Open]) == View([e], Some(hash(rule, [Signed(e)])), [1], [e], false)
  {
    var e := MatchingEntry(rule, 1, FIRST, now);
    FoundFromEmpty(u, hash, rule, [], now);
    assert [] + Found(rule, now) == Found(rule, now);
    OnlyTrackIsListed(u, rule, e);
    RanNext(u, hash, rule, Found(rule, now), Open);
    assert Map(Signed, [e]) == [Signed(e)] && Map(TrackId, [e.track]) == [1];
  }

  lemma MissedLosesItem(u: Unicode, hash: (Rule, seq<Entry>) -> string, rule: Rule, now: int)
    requires rule.maximumTracks > 0 && Matches(rule, MatchingEntry(rule, 1, FIRST, now))
    ensures var e := MatchingEntry(rule, 1, FIRST, now);
            Ran(u, hash, rule, Found(rule, now) + [Open] + [Happen(Delete(1))]) ==
            View([], Some(hash(rule, [Signed(e)])), [], [e], true)
  {
    var e := MatchingEntry(rule, 1, FIRST, now);
    OpenedListsFound(u, hash, rule, now);
    RanNext(u, hash, rule, Found(rule, now) + [Open], Happen(Delete(1)));
    assert Find([e], OfId(1)) == Some(0) && [e][..0] + [e][1..] == [] && [1][..0] == [] && Without([], 1) == [];
  }

  lemma OpeningKeepsList(u: Unicode, hash: (Rule, seq<Entry>) -> string, rule: Rule, v: View, now: int, later: int)
    requires v.library == [MatchingEntry(rule, 1, FIRST, later)]
    requires v.signature == Some(hash(rule, [Signed(MatchingEntry(rule, 1, FIRST, now))]))
    requires Sort(v.library, ById()) == v.library
    ensures After(u, hash, rule, v, Open) == v
  {
    assert Map(Signed, v.library) == [Signed(MatchingEntry(rule, 1, FIRST, now))];
  }

  lemma FoundAgainStaysEmpty(u: Unicode, hash: (Rule, seq<Entry>) -> string, n: Rule, now: int, later: int)
    requires n.maximumTracks > 0 && Matches(n, MatchingEntry(n, 1, FIRST, now)) &&
             Matches(n, MatchingEntry(n, 1, FIRST, later))
    ensures var v := Ran(u, hash, n, OpenedThenMissed(n, now, later) + [Open]);
            v.items == [] && v.library == [MatchingEntry(n, 1, FIRST, later)]
  {
    var missed := Found(n, now) + [Open] + [Happen(Delete(1))];
    MissedLosesItem(u, hash, n, now);
    FoundFromEmpty(u, hash, n, missed, later);
    OnlyTrackIsListed(u, n, MatchingEntry(n, 1, FIRST, later));
    RanNext(u, hash, n, OpenedThenMissed(n, now, later), Open);
    OpeningKeepsList(u, hash, n, Ran(u, hash, n, OpenedThenMissed(n, now, later)), now, later);
  }

  /** Whatever the accepted rule, a playlist opened before its only track is missed and found again stays empty when
      it is opened afterwards, although the rule resolves to that track. */
  lemma LostItemStaysLost(u: Unicode, hash: (Rule, seq<Entry>) -> string, rule: Rule, now: int, later: int)
    requires Normalized(u, rule).Ok?
    ensures var n := Normalized(u, rule).value;
            var v := Ran(u, hash, n, OpenedThenMissed(n, now, later) + [Open]);
            v.items == [] && Map(TrackId, Listed(u, n, v.library)) == [1]
  {
    var n := Normalized(u, rule).value;
    AcceptedRulesMatch(u, rule, 1, FIRST, now);
    AcceptedRulesMatch(u, rule, 1, FIRST, later);
    FoundAgainStaysEmpty(u, hash, n, now, later);
    OnlyTrackIsListed(u, n, MatchingEntry(n, 1, FIRST, later));
  }
}
