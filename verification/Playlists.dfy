/** Automatic playlists: rule normalisation, matching, the four orders, and the resolved list. */
module Playlists {
  import opened Common
  import opened Sorting

  const SCHEMA := "automatic-playlist/v1"
  const MAX_TAGS := 32
  const MAX_TAG_CHARACTERS := 64

  datatype Match = Any | All
  datatype Order = Title | Newest | BpmAscending | BpmDescending

  datatype Rule = Rule(schema: string, includeTags: seq<string>, match_: Match, excludeTags: seq<string>,
                       minBpm: Option<int>, maxBpm: Option<int>, includeUnknownBpm: bool,
                       maximumTracks: nat, orderBy: Order)

  datatype RuleError = UnsupportedSchema | TooManyTags | BlankTag | TagTooLong | InvalidTagCharacter
                     | OverlappingTags | BpmOutOfRange | InvalidBpmRange | MaximumTracksOutOfRange

  datatype Track = Track(id: int, path: string, displayTitle: string, title: string, bpm: Option<int>,
                         sizeBytes: nat, mtime: int, addedAt: int)

  datatype Entry = Entry(track: Track, tags: set<string>)

  /** The Unicode tables, left opaque: tag folding, title folding, and the "other" categories. */
  datatype Unicode = Unicode(foldTag: string -> string, foldTitle: string -> string, isOther: char -> bool)

  datatype Resolution = Resolution(signature: string, libraryTracks: nat, tracks: seq<Track>)

  // ----- rules -----

  function TagError(u: Unicode, tag: string): Option<RuleError> {
    var folded := u.foldTag(tag);
    if folded == "" then Some(BlankTag)
    else if |folded| > MAX_TAG_CHARACTERS then Some(TagTooLong)
    else if exists i :: 0 <= i < |folded| && u.isOther(folded[i]) then Some(InvalidTagCharacter)
    else None
  }

  function AddTag(tags: seq<string>, tag: string): seq<string> {
    if tag in tags then tags else tags + [tag]
  }

  /** The folded tags in order of first appearance, or the first tag error. */
  function NormalizedTags(u: Unicode, tags: seq<string>): Result<seq<string>, RuleError> {
    if tags == [] then Ok([])
    else
      var front :- NormalizedTags(u, tags[..|tags| - 1]);
      var tag := tags[|tags| - 1];
      match TagError(u, tag)
      case Some(e) => Err(e)
      case None => Ok(AddTag(front, u.foldTag(tag)))
  }

  lemma {:induction false} NormalizedTagsFail(u: Unicode, tags: seq<string>, i: nat)
    requires i <= |tags| && NormalizedTags(u, tags[..i]).Err?
    ensures NormalizedTags(u, tags) == NormalizedTags(u, tags[..i])
    decreases |tags|
  {
    if i == |tags| {
      assert tags[..i] == tags;
    } else {
      var front := tags[..|tags| - 1];
      assert front[..i] == tags[..i];
      NormalizedTagsFail(u, front, i);
    }
  }

  method NormalizeTags(u: Unicode, tags: seq<string>) returns (r: Result<seq<string>, RuleError>)
    ensures r == NormalizedTags(u, tags)
  {
    var unique: set<string> := {};
    var normalized: seq<string> := [];
    for i := 0 to |tags|
      invariant NormalizedTags(u, tags[..i]) == Ok(normalized)
      invariant unique == set t | t in normalized
    {
      assert tags[..i + 1][..i] == tags[..i];
      var error := TagError(u, tags[i]);
      if error.Some? {
        NormalizedTagsFail(u, tags, i + 1);
        return Err(error.value);
      }
      var folded := u.foldTag(tags[i]);
      if folded !in unique {
        unique := unique + {folded};
        normalized := normalized + [folded];
      }
    }
    assert tags[..|tags|] == tags;
    return Ok(normalized);
  }

  /** Tags normalise exactly when each of them is good, to each folded tag once. */
  lemma {:induction false} NormalizedTagsExactly(u: Unicode, tags: seq<string>)
    ensures NormalizedTags(u, tags).Ok? <==> forall t :: t in tags ==> TagError(u, t).None?
    ensures var r := NormalizedTags(u, tags);
            r.Ok? ==>
              && Distinct(r.value) && |r.value| <= |tags|
              && forall f :: f in r.value <==> exists t :: t in tags && u.foldTag(t) == f
    decreases |tags|
  {
    if tags != [] {
      var front, tag := tags[..|tags| - 1], tags[|tags| - 1];
      assert tags == front + [tag];
      NormalizedTagsExactly(u, front);
      var r := NormalizedTags(u, tags);
      if r.Ok? {
        var before := NormalizedTags(u, front).value;
        forall f ensures f in r.value <==> exists t :: t in tags && u.foldTag(t) == f {
          if f in before {
            var t :| t in front && u.foldTag(t) == f;
            assert t in tags;
          }
          if f == u.foldTag(tag) {
            assert tag in tags;
          }
        }
      }
    }
  }

  predicate BpmBound(bound: Option<int>) {
    bound.Some? ==> 1 <= bound.value <= 999
  }

  predicate TagsOverlap(a: seq<string>, b: seq<string>) {
    exists t :: t in a && t in b
  }

  function Normalized(u: Unicode, rule: Rule): Result<Rule, RuleError> {
    if rule.schema != SCHEMA then Err(UnsupportedSchema)
    else if |rule.includeTags| > MAX_TAGS || |rule.excludeTags| > MAX_TAGS then Err(TooManyTags)
    else
      var included :- NormalizedTags(u, rule.includeTags);
      var excluded :- NormalizedTags(u, rule.excludeTags);
      if TagsOverlap(included, excluded) then Err(OverlappingTags)
      else if !BpmBound(rule.minBpm) || !BpmBound(rule.maxBpm) then Err(BpmOutOfRange)
      else if rule.minBpm.Some? && rule.maxBpm.Some? && rule.minBpm.value > rule.maxBpm.value then Err(InvalidBpmRange)
      else if !(1 <= rule.maximumTracks <= 1000) then Err(MaximumTracksOutOfRange)
      else Ok(rule.(includeTags := included, excludeTags := excluded))
  }

  predicate GoodTag(u: Unicode, tag: string) {
    var folded := u.foldTag(tag);
    1 <= |folded| <= MAX_TAG_CHARACTERS && forall i :: 0 <= i < |folded| ==> !u.isOther(folded[i])
  }

  /** Some tag is both included and excluded once folded. */
  predicate FoldedClash(u: Unicode, rule: Rule) {
    exists i, j :: 0 <= i < |rule.includeTags| && 0 <= j < |rule.excludeTags| &&
                   u.foldTag(rule.includeTags[i]) == u.foldTag(rule.excludeTags[j])
  }

  predicate FoldsTo(u: Unicode, tags: seq<string>, folded: seq<string>) {
    && Distinct(folded)
    && (forall i :: 0 <= i < |tags| ==> u.foldTag(tags[i]) in folded)
    && (forall f :: f in folded ==> exists i :: 0 <= i < |tags| && u.foldTag(tags[i]) == f)
  }

  lemma TagsFold(u: Unicode, tags: seq<string>)
    ensures NormalizedTags(u, tags).Ok? <==> forall i :: 0 <= i < |tags| ==> GoodTag(u, tags[i])
    ensures NormalizedTags(u, tags).Ok? ==> FoldsTo(u, tags, NormalizedTags(u, tags).value)
  {
    NormalizedTagsExactly(u, tags);
    forall t ensures TagError(u, t).None? <==> GoodTag(u, t) {
    }
    if NormalizedTags(u, tags).Ok? {
      var folded := NormalizedTags(u, tags).value;
      forall i | 0 <= i < |tags| ensures u.foldTag(tags[i]) in folded {
        assert tags[i] in tags;
      }
    }
  }

  lemma OverlapMeansClash(u: Unicode, rule: Rule, included: seq<string>, excluded: seq<string>)
    requires FoldsTo(u, rule.includeTags, included) && FoldsTo(u, rule.excludeTags, excluded)
    ensures TagsOverlap(included, excluded) <==> FoldedClash(u, rule)
  {
    if TagsOverlap(included, excluded) {
      var t :| t in included && t in excluded;
      var i :| 0 <= i < |rule.includeTags| && u.foldTag(rule.includeTags[i]) == t;
      var j :| 0 <= j < |rule.excludeTags| && u.foldTag(rule.excludeTags[j]) == t;
    }
  }

  /** A rule is accepted exactly if its schema is known, it lists at most 32 tags each way, every tag folds to between
      1 and 64 printable characters, no tag is both included and excluded once folded, the tempo bounds are between 1
      and 999 and in order, and it asks for 1 to 1000 tracks. What is accepted differs in its tags only, each folding
      once. */
  lemma NormalizedExactly(u: Unicode, rule: Rule)
    ensures Normalized(u, rule).Ok? <==>
            && rule.schema == SCHEMA && |rule.includeTags| <= 32 && |rule.excludeTags| <= 32
            && (forall i :: 0 <= i < |rule.includeTags| ==> GoodTag(u, rule.includeTags[i]))
            && (forall i :: 0 <= i < |rule.excludeTags| ==> GoodTag(u, rule.excludeTags[i]))
            && !FoldedClash(u, rule)
            && (rule.minBpm.Some? ==> 1 <= rule.minBpm.value <= 999) &&
               (rule.maxBpm.Some? ==> 1 <= rule.maxBpm.value <= 999)
            && (rule.minBpm.Some? && rule.maxBpm.Some? ==> rule.minBpm.value <= rule.maxBpm.value)
            && 1 <= rule.maximumTracks <= 1000
    ensures Normalized(u, rule).Ok? ==>
              var n := Normalized(u, rule).value;
              && FoldsTo(u, rule.includeTags, n.includeTags) && FoldsTo(u, rule.excludeTags, n.excludeTags)
              && n.(includeTags := rule.includeTags, excludeTags := rule.excludeTags) == rule
  {
    TagsFold(u, rule.includeTags);
    TagsFold(u, rule.excludeTags);
    var included, excluded := NormalizedTags(u, rule.includeTags), NormalizedTags(u, rule.excludeTags);
    if included.Ok? && excluded.Ok? {
      OverlapMeansClash(u, rule, included.value, excluded.value);
    }
  }

  ghost predicate FoldingIsStable(u: Unicode) {
    forall t {:trigger u.foldTag(u.foldTag(t))} :: u.foldTag(u.foldTag(t)) == u.foldTag(t)
  }

  /** Normalising again changes nothing, provided folding a folded tag changes nothing. */
  lemma NormalizedTwice(u: Unicode, rule: Rule)
    requires Normalized(u, rule).Ok?
    requires FoldingIsStable(u)
    ensures Normalized(u, Normalized(u, rule).value) == Normalized(u, rule)
  {
    NormalizedTagsTwice(u, rule.includeTags);
    NormalizedTagsTwice(u, rule.excludeTags);
  }

  lemma NormalizedTagsTwice(u: Unicode, tags: seq<string>)
    requires NormalizedTags(u, tags).Ok?
    requires FoldingIsStable(u)
    ensures NormalizedTags(u, NormalizedTags(u, tags).value) == NormalizedTags(u, tags)
    ensures |NormalizedTags(u, tags).value| <= |tags|
  {
    NormalizedTagsExactly(u, tags);
    var r := NormalizedTags(u, tags).value;
    forall f | f in r ensures u.foldTag(f) == f && TagError(u, f).None? {
      var t :| t in tags && u.foldTag(t) == f;
      assert u.foldTag(u.foldTag(t)) == u.foldTag(t);
      assert TagError(u, t).None?;
    }
    FoldedDistinctStay(u, r);
  }

  lemma {:induction false} FoldedDistinctStay(u: Unicode, tags: seq<string>)
    requires Distinct(tags) && forall t :: t in tags ==> u.foldTag(t) == t && TagError(u, t).None?
    ensures NormalizedTags(u, tags) == Ok(tags)
    decreases |tags|
  {
    if tags != [] {
      var front, last := tags[..|tags| - 1], tags[|tags| - 1];
      FoldedDistinctStay(u, front);
      assert last in tags && last !in front;
      assert tags == front + [last];
    }
  }

  // ----- matching -----

  predicate Matches(rule: Rule, entry: Entry) {
    && (match rule.match_
        case Any => rule.includeTags == [] || exists t :: t in rule.includeTags && t in entry.tags
        case All => forall t :: t in rule.includeTags ==> t in entry.tags)
    && !(exists t :: t in rule.excludeTags && t in entry.tags)
    && match entry.track.bpm
       case None => rule.includeUnknownBpm
       case Some(bpm) =>
           (rule.minBpm.None? || bpm >= rule.minBpm.value) && (rule.maxBpm.None? || bpm <= rule.maxBpm.value)
  }

  function Matching(rule: Rule, entries: seq<Entry>): seq<Track> {
    if entries == [] then []
    else
      var front, last := Matching(rule, entries[..|entries| - 1]), entries[|entries| - 1];
      if Matches(rule, last) then front + [last.track] else front
  }

  // ----- orders -----

  datatype Ordering = Less | Equal | Greater {
    function Then(next: Ordering): Ordering {
      if Equal? then next else this
    }

    function Reverse(): Ordering {
      match this
      case Less => Greater
      case Equal => Equal
      case Greater => Less
    }
  }

  function CompareInt(a: int, b: int): Ordering {
    if a < b then Less else if a == b then Equal else Greater
  }

  /** Strings compare character by character; a proper prefix comes first. */
  function CompareText(a: string, b: string): Ordering {
    if a == [] || b == [] then CompareInt(|a|, |b|)
    else if a[0] == b[0] then CompareText(a[1..], b[1..])
    else if a[0] < b[0] then Less else Greater
  }

  function CompareBpm(left: Track, right: Track, descending: bool): Ordering {
    match (left.bpm, right.bpm)
    case (Some(l), Some(r)) => if descending then CompareInt(r, l) else CompareInt(l, r)
    case (Some(_), None) => Less
    case (None, Some(_)) => Greater
    case (None, None) => Equal
  }

  function AutomaticTitle(u: Unicode, track: Track): string {
    u.foldTitle(if track.displayTitle != "" then track.displayTitle else if track.title != "" then track.title
        else track.path)
  }

  function TitleThenId(u: Unicode, left: Track, right: Track): Ordering {
    CompareText(AutomaticTitle(u, left), AutomaticTitle(u, right)).Then(CompareInt(left.id, right.id))
  }

  function AutomaticOrder(u: Unicode, order: Order, left: Track, right: Track): Ordering {
    match order
    case Title => TitleThenId(u, left, right)
    case Newest => CompareInt(right.addedAt, left.addedAt).Then(TitleThenId(u, left, right))
    case BpmAscending => CompareBpm(left, right, false).Then(TitleThenId(u, left, right))
    case BpmDescending => CompareBpm(left, right, true).Then(TitleThenId(u, left, right))
  }

  function Before(u: Unicode, order: Order): (Track, Track) -> bool {
    (left, right) => AutomaticOrder(u, order, left, right).Less?
  }

  /** What comparisons of a with b, b with c and a with c must tell of each other. */
  predicate Lawful(ab: Ordering, bc: Ordering, ac: Ordering) {
    && (ab.Equal? ==> ac == bc)
    && (bc.Equal? ==> ac == ab)
    && (ab == bc ==> ac == ab)
  }

  lemma LawfulThen(ab: Ordering, bc: Ordering, ac: Ordering, ab': Ordering, bc': Ordering, ac': Ordering)
    requires Lawful(ab, bc, ac) && Lawful(ab', bc', ac')
    ensures Lawful(ab.Then(ab'), bc.Then(bc'), ac.Then(ac'))
  {
  }

  lemma {:induction false} CompareTextLawful(a: string, b: string, c: string)
    ensures Lawful(CompareText(a, b), CompareText(b, c), CompareText(a, c))
    decreases |a| + |b| + |c|
  {
    if a != [] && b != [] && c != [] {
      CompareTextLawful(a[1..], b[1..], c[1..]);
    }
  }

  lemma {:induction false} CompareTextReverse(a: string, b: string)
    ensures CompareText(b, a) == CompareText(a, b).Reverse()
    ensures CompareText(a, b).Equal? <==> a == b
    decreases |a|
  {
    if a != [] && b != [] {
      CompareTextReverse(a[1..], b[1..]);
      assert a == [a[0]] + a[1..] && b == [b[0]] + b[1..];
    }
  }

  lemma TitleThenIdLawful(u: Unicode, a: Track, b: Track, c: Track)
    ensures Lawful(TitleThenId(u, a, b), TitleThenId(u, b, c), TitleThenId(u, a, c))
  {
    var x, y, z := AutomaticTitle(u, a), AutomaticTitle(u, b), AutomaticTitle(u, c);
    CompareTextLawful(x, y, z);
    LawfulThen(CompareText(x, y), CompareText(y, z), CompareText(x, z),
               CompareInt(a.id, b.id), CompareInt(b.id, c.id), CompareInt(a.id, c.id));
  }

  lemma CompareBpmLawful(a: Track, b: Track, c: Track, descending: bool)
    ensures Lawful(CompareBpm(a, b, descending), CompareBpm(b, c, descending), CompareBpm(a, c, descending))
  {
  }

  lemma OrderLawful(u: Unicode, order: Order, a: Track, b: Track, c: Track)
    ensures Lawful(AutomaticOrder(u, order, a, b), AutomaticOrder(u, order, b, c), AutomaticOrder(u, order, a, c))
  {
    TitleThenIdLawful(u, a, b, c);
    var ab, bc, ac := TitleThenId(u, a, b), TitleThenId(u, b, c), TitleThenId(u, a, c);
    match order
    case Title =>
    case Newest =>
      LawfulThen(CompareInt(b.addedAt, a.addedAt), CompareInt(c.addedAt, b.addedAt), CompareInt(c.addedAt, a.addedAt),
          ab, bc, ac);
    case BpmAscending =>
      CompareBpmLawful(a, b, c, false);
      LawfulThen(CompareBpm(a, b, false), CompareBpm(b, c, false), CompareBpm(a, c, false), ab, bc, ac);
    case BpmDescending =>
      CompareBpmLawful(a, b, c, true);
      LawfulThen(CompareBpm(a, b, true), CompareBpm(b, c, true), CompareBpm(a, c, true), ab, bc, ac);
  }

  lemma OrderReverse(u: Unicode, order: Order, a: Track, b: Track)
    ensures AutomaticOrder(u, order, b, a) == AutomaticOrder(u, order, a, b).Reverse()
    ensures AutomaticOrder(u, order, a, b).Equal? ==> a.id == b.id
  {
    CompareTextReverse(AutomaticTitle(u, a), AutomaticTitle(u, b));
  }

  /** Each order is a strict total order on tracks with different ids. */
  lemma OrdersAreStrictAndTotal(u: Unicode, order: Order)
    ensures Transitive(Before(u, order)) && Asymmetric(Before(u, order))
    ensures forall a: Track, b: Track :: a.id != b.id ==> Before(u, order)(a, b) || Before(u, order)(b, a)
  {
    forall a, b, c | Before(u, order)(a, b) && Before(u, order)(b, c) ensures Before(u, order)(a, c) {
      OrderLawful(u, order, a, b, c);
    }
    forall a, b ensures Before(u, order)(a, b) ==> !Before(u, order)(b, a)
      ensures a.id != b.id ==> Before(u, order)(a, b) || Before(u, order)(b, a) {
      OrderReverse(u, order, a, b);
    }
  }

  // ----- resolution -----

  function ById(): (Entry, Entry) -> bool {
    (left: Entry, right: Entry) => left.track.id < right.track.id
  }

  predicate DistinctIds(entries: seq<Entry>) {
    forall i, j :: 0 <= i < j < |entries| ==> entries[i].track.id != entries[j].track.id
  }

  /** The matching tracks of a source, in playlist order. */
  function Arranged(u: Unicode, rule: Rule, source: seq<Entry>): seq<Track> {
    Sort(Matching(rule, Sort(source, ById())), Before(u, rule.orderBy))
  }

  /** The part of a track the source signature is computed from: all but the time it was added. */
  function SignedTrack(t: Track): Track {
    t.(addedAt := 0)
  }

  function Signed(e: Entry): Entry {
    e.(track := SignedTrack(e.track))
  }

  /** The source signature: a hash of the rule and of the signed part of the entries. */
  function SourceSignature(hash: (Rule, seq<Entry>) -> string, rule: Rule, entries: seq<Entry>): string {
    hash(rule, Map(Signed, entries))
  }

  function Listed(u: Unicode, rule: Rule, source: seq<Entry>): seq<Track> {
    var arranged := Arranged(u, rule, source);
    arranged[..Min(|arranged|, rule.maximumTracks)]
  }

  function ResolvedBy(u: Unicode, hash: (Rule, seq<Entry>) -> string, rule: Rule, source: seq<Entry>): Resolution {
    Resolution(SourceSignature(hash, rule, Sort(source, ById())), |source|, Listed(u, rule, source))
  }

  function Resolved(u: Unicode, hash: (Rule, seq<Entry>) -> string, rule: Rule, source: seq<Entry>)
    : Result<Resolution, RuleError> {
    var r :- Normalized(u, rule);
    Ok(ResolvedBy(u, hash, r, source))
  }

  method Normalize(u: Unicode, rule: Rule) returns (r: Result<Rule, RuleError>)
    ensures r == Normalized(u, rule)
  {
    if rule.schema != SCHEMA {
      return Err(UnsupportedSchema);
    }
    if |rule.includeTags| > MAX_TAGS || |rule.excludeTags| > MAX_TAGS {
      return Err(TooManyTags);
    }
    var included := NormalizeTags(u, rule.includeTags);
    if included.Err? {
      return Err(included.error);
    }
    var excluded := NormalizeTags(u, rule.excludeTags);
    if excluded.Err? {
      return Err(excluded.error);
    }
    if TagsOverlap(included.value, excluded.value) {
      return Err(OverlappingTags);
    }
    if !BpmBound(rule.minBpm) || !BpmBound(rule.maxBpm) {
      return Err(BpmOutOfRange);
    }
    if rule.minBpm.Some? && rule.maxBpm.Some? && rule.minBpm.value > rule.maxBpm.value {
      return Err(InvalidBpmRange);
    }
    if !(1 <= rule.maximumTracks <= 1000) {
      return Err(MaximumTracksOutOfRange);
    }
    return Ok(rule.(includeTags := included.value, excludeTags := excluded.value));
  }

  /** Sort by id, sign, filter, sort, truncate. */
  method Resolve(u: Unicode, hash: (Rule, seq<Entry>) -> string, rule: Rule, source: seq<Entry>)
    returns (r: Result<Resolution, RuleError>)
    ensures r == Resolved(u, hash, rule, source)
  {
    var normalized := Normalize(u, rule);
    if normalized.Err? {
      return Err(normalized.error);
    }
    var entries := Sort(source, ById());
    var signature := SourceSignature(hash, normalized.value, entries);
    var tracks: seq<Track> := [];
    for i := 0 to |entries|
      invariant tracks == Matching(normalized.value, entries[..i])
    {
      assert entries[..i + 1][..i] == entries[..i];
      if Matches(normalized.value, entries[i]) {
        tracks := tracks + [entries[i].track];
      }
    }
    assert entries[..|entries|] == entries;
    tracks := Sort(tracks, Before(u, normalized.value.orderBy));
    tracks := tracks[..Min(|tracks|, normalized.value.maximumTracks)];
    return Ok(Resolution(signature, |source|, tracks));
  }

  lemma ByIdIsStrict()
    ensures Transitive(ById()) && Asymmetric(ById())
  {
  }

  predicate IsMatchingTrack(rule: Rule, source: seq<Entry>, t: Track) {
    exists i :: 0 <= i < |source| && source[i].track == t && Matches(rule, source[i])
  }

  lemma {:induction false} MatchingExactly(rule: Rule, entries: seq<Entry>, t: Track)
    ensures t in Matching(rule, entries) <==> IsMatchingTrack(rule, entries, t)
    decreases |entries|
  {
    if entries != [] {
      var front, last := entries[..|entries| - 1], entries[|entries| - 1];
      MatchingExactly(rule, front, t);
      if IsMatchingTrack(rule, front, t) {
        var i :| 0 <= i < |front| && front[i].track == t && Matches(rule, front[i]);
        assert entries[i] == front[i];
      }
      if IsMatchingTrack(rule, entries, t) {
        var i :| 0 <= i < |entries| && entries[i].track == t && Matches(rule, entries[i]);
        assert entries[i] == if i < |front| then front[i] else last;
      }
    }
  }

  predicate IncreasingIds(ts: seq<Track>) {
    forall i, j :: 0 <= i < j < |ts| ==> ts[i].id < ts[j].id
  }

  lemma {:induction false} MatchingIdsIncrease(rule: Rule, entries: seq<Entry>)
    requires Ordered(entries, ById())
    ensures IncreasingIds(Matching(rule, entries))
    ensures entries != [] ==> forall t :: t in Matching(rule, entries) ==> t.id <= entries[|entries| - 1].track.id
    decreases |entries|
  {
    if entries != [] {
      var front, last := entries[..|entries| - 1], entries[|entries| - 1];
      MatchingIdsIncrease(rule, front);
      if front != [] {
        assert ById()(entries[|front| - 1], last);
      }
      var ts := Matching(rule, front);
      forall i | 0 <= i < |ts| ensures ts[i].id < last.track.id {
        assert ts[i] in ts;
      }
    }
  }

  /** The sources of a library, listed in any order, are told apart by id. */
  lemma SortedById(source: seq<Entry>)
    requires DistinctIds(source)
    ensures Ordered(Sort(source, ById()), ById()) && Comparable(multiset(source), ById())
  {
    ByIdIsStrict();
    PairwiseComparable(source, ById());
    SortOrders(source, ById());
  }

  lemma ArrangedInOrder(u: Unicode, rule: Rule, source: seq<Entry>)
    requires DistinctIds(source)
    ensures Ordered(Arranged(u, rule, source), Before(u, rule.orderBy))
  {
    SortedById(source);
    var ts := Matching(rule, Sort(source, ById()));
    MatchingIdsIncrease(rule, Sort(source, ById()));
    SortTracks(u, rule.orderBy, ts);
  }

  lemma SortTracks(u: Unicode, order: Order, ts: seq<Track>)
    requires IncreasingIds(ts)
    ensures Ordered(Sort(ts, Before(u, order)), Before(u, order))
  {
    OrdersAreStrictAndTotal(u, order);
    PairwiseComparable(ts, Before(u, order));
    SortOrders(ts, Before(u, order));
  }

  lemma ArrangedExactly(u: Unicode, rule: Rule, source: seq<Entry>, t: Track)
    ensures t in Arranged(u, rule, source) <==> IsMatchingTrack(rule, source, t)
  {
    var sorted := Sort(source, ById());
    var ts := Matching(rule, sorted);
    assert t in Arranged(u, rule, source) <==> t in multiset(ts);
    MatchingExactly(rule, sorted, t);
    if i :| 0 <= i < |sorted| && sorted[i].track == t && Matches(rule, sorted[i]) {
      assert sorted[i] in multiset(source);
    }
    if i :| 0 <= i < |source| && source[i].track == t && Matches(rule, source[i]) {
      assert source[i] in multiset(sorted);
    }
  }

  lemma ListedIsLongestAllowedPrefix(u: Unicode, rule: Rule, source: seq<Entry>, t: Track)
    requires DistinctIds(source)
    ensures var tracks := Listed(u, rule, source);
            && Ordered(tracks, Before(u, rule.orderBy)) && |tracks| <= rule.maximumTracks
            && (t in tracks ==> IsMatchingTrack(rule, source, t))
            && (IsMatchingTrack(rule, source, t) && t !in tracks ==>
                  |tracks| == rule.maximumTracks && forall c :: c in tracks ==> Before(u, rule.orderBy)(c, t))
  {
    var tracks, arranged := Listed(u, rule, source), Arranged(u, rule, source);
    ArrangedInOrder(u, rule, source);
    ArrangedExactly(u, rule, source, t);
    if IsMatchingTrack(rule, source, t) && t !in tracks {
      var i :| 0 <= i < |arranged| && arranged[i] == t;
      assert forall k :: 0 <= k < |tracks| ==> arranged[k] == tracks[k];
    }
  }

  /** A playlist holds matching tracks only, strictly in order; when one is left out the list is full and every
      listed track comes before it. */
  lemma ResolvedIsLongestAllowedPrefix(u: Unicode, hash: (Rule, seq<Entry>) -> string, rule: Rule, source: seq<Entry>)
    requires DistinctIds(source) && Resolved(u, hash, rule, source).Ok?
    ensures var n, tracks := Normalized(u, rule).value, Resolved(u, hash, rule, source).value.tracks;
            && Resolved(u, hash, rule, source).value.libraryTracks == |source|
            && Ordered(tracks, Before(u, n.orderBy))
            && |tracks| <= n.maximumTracks
            && (forall t :: t in tracks ==> IsMatchingTrack(n, source, t))
            && (forall t :: IsMatchingTrack(n, source, t) && t !in tracks ==>
                  && |tracks| == n.maximumTracks
                  && forall c :: c in tracks ==> Before(u, n.orderBy)(c, t))
  {
    var n := Normalized(u, rule).value;
    var tracks := Listed(u, n, source);
    forall t: Track
      ensures t in tracks ==> IsMatchingTrack(n, source, t)
      ensures IsMatchingTrack(n, source, t) && t !in tracks ==>
                |tracks| == n.maximumTracks && forall c :: c in tracks ==> Before(u, n.orderBy)(c, t) {
      ListedIsLongestAllowedPrefix(u, n, source, t);
    }
    ArrangedInOrder(u, n, source);
  }

  /** The order in which the library lists its tracks makes no difference to the playlist. */
  lemma ListingOrderDoesNotMatter(u: Unicode, hash: (Rule, seq<Entry>) -> string, rule: Rule, a: seq<Entry>,
      b: seq<Entry>)
    requires DistinctIds(a) && multiset(a) == multiset(b)
    ensures Resolved(u, hash, rule, a) == Resolved(u, hash, rule, b)
  {
    SortedById(a);
    ByIdIsStrict();
    SortIsCanonical(a, b, ById());
    assert |a| == |multiset(a)| == |multiset(b)| == |b|;
  }

  // ----- what the signature covers -----

  lemma {:induction false} MatchingOfSigned(rule: Rule, entries: seq<Entry>)
    ensures Map(SignedTrack, Matching(rule, entries)) == Matching(rule, Map(Signed, entries))
    decreases |entries|
  {
    if entries != [] {
      var front, last := entries[..|entries| - 1], entries[|entries| - 1];
      MatchingOfSigned(rule, front);
      assert Map(Signed, entries)[..|front|] == Map(Signed, front);
      MapAppend(SignedTrack, Matching(rule, front), last.track);
    }
  }

  lemma OrderOfSigned(u: Unicode, order: Order, a: Track, b: Track)
    requires order != Newest
    ensures Before(u, order)(a, b) == Before(u, order)(SignedTrack(a), SignedTrack(b))
  {
  }

  lemma SignedAlikeArrangedAlike(u: Unicode, rule: Rule, a: seq<Entry>, b: seq<Entry>)
    requires Map(Signed, Sort(a, ById())) == Map(Signed, Sort(b, ById())) && rule.orderBy != Newest
    ensures Map(SignedTrack, Arranged(u, rule, a)) == Map(SignedTrack, Arranged(u, rule, b))
  {
    forall s: Track, t: Track
      ensures Before(u, rule.orderBy)(s, t) == Before(u, rule.orderBy)(SignedTrack(s), SignedTrack(t)) {
      OrderOfSigned(u, rule.orderBy, s, t);
    }
    var before := Before(u, rule.orderBy);
    MatchingOfSigned(rule, Sort(a, ById()));
    MatchingOfSigned(rule, Sort(b, ById()));
    MapSort(SignedTrack, Matching(rule, Sort(a, ById())), before, before);
    MapSort(SignedTrack, Matching(rule, Sort(b, ById())), before, before);
  }

  ghost predicate CollisionFree(hash: (Rule, seq<Entry>) -> string) {
    forall rule, a, b :: hash(rule, a) == hash(rule, b) ==> a == b
  }

  lemma SignedAlikeListedAlike(u: Unicode, rule: Rule, a: seq<Entry>, b: seq<Entry>)
    requires Map(Signed, Sort(a, ById())) == Map(Signed, Sort(b, ById())) && rule.orderBy != Newest
    ensures Map(SignedTrack, Listed(u, rule, a)) == Map(SignedTrack, Listed(u, rule, b))
  {
    SignedAlikeArrangedAlike(u, rule, a, b);
    var x, y := Arranged(u, rule, a), Arranged(u, rule, b);
    assert |x| == |Map(SignedTrack, x)| == |y|;
    MapPrefix(SignedTrack, x, Min(|x|, rule.maximumTracks));
    MapPrefix(SignedTrack, y, Min(|x|, rule.maximumTracks));
  }

  lemma SameHashSameEntries(hash: (Rule, seq<Entry>) -> string, rule: Rule, a: seq<Entry>, b: seq<Entry>)
    requires CollisionFree(hash) && SourceSignature(hash, rule, a) == SourceSignature(hash, rule, b)
    ensures Map(Signed, a) == Map(Signed, b)
  {
  }

  /** Libraries that sign alike list alike, unless the newest come first. */
  lemma SignatureDecidesPlaylist(u: Unicode, hash: (Rule, seq<Entry>) -> string, rule: Rule, a: seq<Entry>,
      b: seq<Entry>)
    requires CollisionFree(hash) && rule.orderBy != Newest
    requires ResolvedBy(u, hash, rule, a).signature == ResolvedBy(u, hash, rule, b).signature
    ensures Map(SignedTrack, ResolvedBy(u, hash, rule, a).tracks) ==
            Map(SignedTrack, ResolvedBy(u, hash, rule, b).tracks)
  {
    SameHashSameEntries(hash, rule, Sort(a, ById()), Sort(b, ById()));
    SignedAlikeListedAlike(u, rule, a, b);
  }
}
