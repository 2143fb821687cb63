/** What a playlist rule asks for, in the words of the rule: which tracks it takes, and in which order it lists them. */
module PlaylistOrders {
  import opened Common
  import opened Playlists
  import opened Sorting

  // ----- which tracks -----

  function TagSet(tags: seq<string>): set<string> {
    set t | t in tags
  }

  predicate Between(bpm: int, minBpm: Option<int>, maxBpm: Option<int>) {
    (minBpm.Some? ==> minBpm.value <= bpm) && (maxBpm.Some? ==> bpm <= maxBpm.value)
  }

  /** A rule takes a track that has one or all of the tags it includes, as it says, none of those it excludes, and a
      tempo within its bounds, or none if it takes unknown ones. */
  lemma MatchesExactly(rule: Rule, e: Entry)
    ensures var wanted, barred := TagSet(rule.includeTags), TagSet(rule.excludeTags);
            Matches(rule, e) <==>
              && (wanted == {} || if rule.match_.All? then wanted <= e.tags else wanted * e.tags != {})
              && barred * e.tags == {}
              && (if e.track.bpm.Some? then Between(e.track.bpm.value, rule.minBpm, rule.maxBpm)
                  else rule.includeUnknownBpm)
  {
    var wanted, barred := TagSet(rule.includeTags), TagSet(rule.excludeTags);
    assert wanted == {} <==> rule.includeTags == [] by {
      if rule.includeTags != [] {
        assert rule.includeTags[0] in wanted;
      }
    }
    assert wanted * e.tags != {} <==> exists t :: t in rule.includeTags && t in e.tags by {
      if t :| t in rule.includeTags && t in e.tags {
        assert t in wanted * e.tags;
      }
      if t :| t in wanted * e.tags {
        assert t in rule.includeTags && t in e.tags;
      }
    }
    assert barred * e.tags == {} <==> !exists t :: t in rule.excludeTags && t in e.tags by {
      if t :| t in rule.excludeTags && t in e.tags {
        assert t in barred * e.tags;
      }
      if t :| t in barred * e.tags {
        assert t in rule.excludeTags && t in e.tags;
      }
    }
  }

  // ----- in which order -----

  /** Two texts agree up to the i-th character; there the first has the smaller one, or ends. */
  predicate DifferAt(a: string, b: string, i: nat) {
    i <= |a| && i < |b| && a[..i] == b[..i] && (i == |a| || a[i] < b[i])
  }

  lemma DifferLater(a: string, b: string, i: nat)
    requires a != [] && b != [] && a[0] == b[0]
    ensures DifferAt(a[1..], b[1..], i) <==> DifferAt(a, b, i + 1)
  {
    if i + 1 <= |a| && i + 1 <= |b| {
      assert a[..i + 1] == [a[0]] + a[1..][..i] && b[..i + 1] == [b[0]] + b[1..][..i];
      assert a[..i + 1][1..] == a[1..][..i] && b[..i + 1][1..] == b[1..][..i];
    }
  }

  lemma {:induction false} CompareTextExactly(a: string, b: string)
    ensures CompareText(a, b).Less? <==> exists i: nat :: DifferAt(a, b, i)
    decreases |a|
  {
    if a == [] || b == [] {
      if |a| < |b| {
        assert DifferAt(a, b, 0);
      }
    } else if a[0] == b[0] {
      CompareTextExactly(a[1..], b[1..]);
      if i: nat :| DifferAt(a[1..], b[1..], i) {
        DifferLater(a, b, i);
      }
      if i: nat :| DifferAt(a, b, i) {
        DifferLater(a, b, i - 1);
      }
    } else {
      if a[0] < b[0] {
        assert DifferAt(a, b, 0);
      }
      if i: nat :| DifferAt(a, b, i) && i > 0 {
        assert a[..i][0] == b[..i][0];
      }
    }
  }

  /** The title a track is listed under: the one it is shown by, else the one in its tags, else its path. */
  function ListedTitle(u: Unicode, t: Track): string {
    if t.displayTitle != "" then u.foldTitle(t.displayTitle)
    else if t.title != "" then u.foldTitle(t.title)
    else u.foldTitle(t.path)
  }

  /** Smaller titles come first, and of one title the smaller id. */
  predicate TitleBefore(u: Unicode, s: Track, t: Track) {
    || (exists i: nat :: i <= |ListedTitle(u, s)| && DifferAt(ListedTitle(u, s), ListedTitle(u, t), i))
    || (ListedTitle(u, s) == ListedTitle(u, t) && s.id < t.id)
  }

  lemma TitlesCompare(u: Unicode, s: Track, t: Track)
    ensures TitleThenId(u, s, t).Less? <==> TitleBefore(u, s, t)
  {
    CompareTextExactly(ListedTitle(u, s), ListedTitle(u, t));
    CompareTextReverse(ListedTitle(u, s), ListedTitle(u, t));
  }

  /** Known tempos come first, slow ones or fast ones as asked, and tracks of one tempo, or of none known, by title. */
  predicate TempoBefore(u: Unicode, s: Track, t: Track, fastFirst: bool) {
    match (s.bpm, t.bpm)
    case (Some(a), Some(b)) => (if fastFirst then a > b else a < b) || (a == b && TitleBefore(u, s, t))
    case (Some(_), None) => true
    case (None, Some(_)) => false
    case (None, None) => TitleBefore(u, s, t)
  }

  /** What each order means. */
  lemma BeforeExactly(u: Unicode, order: Order, s: Track, t: Track)
    ensures Before(u, order)(s, t) <==>
            match order
            case Title => TitleBefore(u, s, t)
            case Newest => s.addedAt > t.addedAt || (s.addedAt == t.addedAt && TitleBefore(u, s, t))
            case BpmAscending => TempoBefore(u, s, t, false)
            case BpmDescending => TempoBefore(u, s, t, true)
  {
    TitlesCompare(u, s, t);
  }

  /** Under an accepted rule ordered by tempo no listed track of known tempo stands behind one of unknown tempo, and
      those of known tempo stand in the direction asked for. */
  lemma TemposAreOrdered(u: Unicode, hash: (Rule, seq<Entry>) -> string, rule: Rule, source: seq<Entry>, i: nat, j: nat)
    requires DistinctIds(source) && Resolved(u, hash, rule, source).Ok?
    requires rule.orderBy.BpmAscending? || rule.orderBy.BpmDescending?
    requires i < j < |Resolved(u, hash, rule, source).value.tracks|
    ensures var tracks := Resolved(u, hash, rule, source).value.tracks; var a, b := tracks[i].bpm, tracks[j].bpm;
            && (a.None? ==> b.None?)
            && (a.Some? && b.Some? ==> if rule.orderBy.BpmAscending? then a.value <= b.value else a.value >= b.value)
  {
    var tracks := Resolved(u, hash, rule, source).value.tracks;
    ResolvedIsLongestAllowedPrefix(u, hash, rule, source);
    BeforeExactly(u, rule.orderBy, tracks[i], tracks[j]);
  }
}
