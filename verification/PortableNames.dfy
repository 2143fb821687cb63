/** What portable parts and collision stems keep of the text they are made from. */
module PortableNames {
  import opened Common
  import opened Filenames
  import opened Text

  // ----- collapsing whitespace -----

  /** The characters that are not whitespace, in order. */
  function Visible(s: string): string {
    if s == "" then ""
    else Visible(s[..|s| - 1]) + if IsWhitespace(s[|s| - 1]) then "" else [s[|s| - 1]]
  }

  /** Whitespace is a single space behind something visible. */
  predicate SpacedAt(s: string, i: nat)
    requires i < |s|
  {
    IsWhitespace(s[i]) ==> s[i] == ' ' && 0 < i && !IsWhitespace(s[i - 1])
  }

  predicate StartsTidy(s: string) {
    forall i :: 0 <= i < |s| ==> SpacedAt(s, i)
  }

  /** All whitespace is single spaces between visible characters. */
  predicate Tidy(s: string) {
    StartsTidy(s) && (s != "" ==> !IsWhitespace(s[|s| - 1]))
  }

  lemma JoinLonger(words: seq<string>, c: char)
    requires words != []
    ensures JoinWords(words[..|words| - 1] + [words[|words| - 1] + [c]]) == JoinWords(words) + [c]
  {
    var n := |words| - 1;
    var longer := words[..n] + [words[n] + [c]];
    assert longer[..n] == words[..n];
  }

  lemma JoinMore(words: seq<string>, word: string)
    ensures JoinWords(words + [word]) == if words == [] then word else JoinWords(words) + " " + word
  {
    assert (words + [word])[..|words|] == words;
  }

  lemma {:induction false} WordsShow(s: string)
    ensures Words(s) == [] <==> CollapseWhitespace(s) == ""
    decreases |s|
  {
    if s != "" {
      var front, c := s[..|s| - 1], s[|s| - 1];
      WordsShow(front);
      if !IsWhitespace(c) {
        CollapseNext(front, c);
      }
    }
  }

  /** What one more character does to the collapsed text. */
  lemma CollapseNext(front: string, c: char)
    ensures CollapseWhitespace(front + [c]) ==
            if IsWhitespace(c) then CollapseWhitespace(front)
            else if front != "" && !IsWhitespace(front[|front| - 1]) then CollapseWhitespace(front) + [c]
            else if Words(front) == [] then [c]
            else CollapseWhitespace(front) + " " + [c]
  {
    assert (front + [c])[..|front|] == front;
    if !IsWhitespace(c) {
      if front != "" && !IsWhitespace(front[|front| - 1]) {
        JoinLonger(Words(front), c);
      } else {
        JoinMore(Words(front), [c]);
      }
    }
  }

  lemma VisibleNext(s: string, c: char)
    ensures Visible(s + [c]) == Visible(s) + if IsWhitespace(c) then "" else [c]
  {
    assert (s + [c])[..|s|] == s;
  }

  lemma VisibleNextWord(s: string, c: char)
    requires !IsWhitespace(c)
    ensures Visible(s + " " + [c]) == Visible(s) + [c]
  {
    VisibleNext(s, ' ');
    VisibleNext(s + " ", c);
    assert s + [' '] == s + " ";
  }

  /** Collapsing whitespace keeps every visible character in its place. */
  lemma {:induction false} CollapseKeepsVisible(s: string)
    ensures Visible(CollapseWhitespace(s)) == Visible(s)
    decreases |s|
  {
    if s != "" {
      var front, c := s[..|s| - 1], s[|s| - 1];
      var before := CollapseWhitespace(front);
      CollapseKeepsVisible(front);
      CollapseNext(front, c);
      assert s == front + [c];
      VisibleNext(before, c);
      WordsShow(front);
      assert before == "" ==> before + [c] == [c];
      if !IsWhitespace(c) {
        VisibleNextWord(before, c);
      }
    }
  }

  lemma TidyNext(s: string, c: char)
    ensures StartsTidy(s + [c]) <==>
            StartsTidy(s) && (IsWhitespace(c) ==> c == ' ' && s != "" && !IsWhitespace(s[|s| - 1]))
  {
    var t := s + [c];
    if StartsTidy(t) {
      forall i | 0 <= i < |s| ensures SpacedAt(s, i) {
        assert SpacedAt(t, i);
      }
      assert SpacedAt(t, |s|);
    } else {
      var i :| 0 <= i < |t| && !SpacedAt(t, i);
      assert i < |s| ==> !SpacedAt(s, i);
    }
  }

  lemma {:induction false} CollapseIsTidy(s: string)
    ensures Tidy(CollapseWhitespace(s))
    decreases |s|
  {
    if s != "" {
      var front, c := s[..|s| - 1], s[|s| - 1];
      var before := CollapseWhitespace(front);
      CollapseIsTidy(front);
      CollapseNext(front, c);
      WordsShow(front);
      assert s == front + [c];
      TidyNext(before, c);
      TidyNext(before, ' ');
      TidyNext(before + " ", c);
      TidyNext("", c);
      assert before + [' '] == before + " " && "" + [c] == [c];
    }
  }

  /** A tidy text is its own collapse, but for a last space. */
  lemma {:induction false} TidyStays(s: string)
    requires StartsTidy(s)
    ensures CollapseWhitespace(s) == if s != "" && IsWhitespace(s[|s| - 1]) then s[..|s| - 1] else s
    ensures Words(s) == [] ==> s == ""
    decreases |s|
  {
    if s != "" {
      var front, c := s[..|s| - 1], s[|s| - 1];
      TidyNext(front, c);
      assert s == front + [c];
      TidyStays(front);
      CollapseNext(front, c);
      WordsShow(s);
      WordsShow(front);
      if front != "" && IsWhitespace(front[|front| - 1]) {
        assert SpacedAt(front, |front| - 1);
        assert front == front[..|front| - 1] + " ";
      }
    }
  }

  // ----- portable parts -----

  predicate AllTrimmed(s: string) {
    forall i :: 0 <= i < |s| ==> IsTrimmed(s[i])
  }

  predicate EndsWell(s: string) {
    s != "" ==> !IsTrimmed(s[0]) && !IsTrimmed(s[|s| - 1])
  }

  lemma {:induction false} TrimStartDrops(s: string)
    ensures AllTrimmed(s[..|s| - |TrimStart(s)|])
    decreases |s|
  {
    if s != "" && IsTrimmed(s[0]) {
      TrimStartDrops(s[1..]);
      var n := |s| - |TrimStart(s)|;
      assert s[..n] == [s[0]] + s[1..][..n - 1];
    }
  }

  lemma TrimEndDrops(s: string)
    ensures AllTrimmed(s[|TrimEnd(s)|..])
  {
  }

  lemma Between(s: string, started: string, inner: string)
    requires |started| <= |s| && started == s[|s| - |started|..] && inner <= started
    ensures s == s[..|s| - |started|] + inner + started[|inner|..]
  {
    assert s == s[..|s| - |started|] + started && started == inner + started[|inner|..];
  }

  /** Trimming takes away spaces and full stops at the ends. */
  lemma TrimmedInside(s: string) returns (a: string, b: string)
    ensures AllTrimmed(a) && AllTrimmed(b) && s == a + TrimEnd(TrimStart(s)) + b
  {
    var started := TrimStart(s);
    var inner := TrimEnd(started);
    a, b := s[..|s| - |started|], started[|inner|..];
    TrimStartDrops(s);
    TrimEndDrops(started);
    Between(s, started, inner);
  }

  /** A portable part keeps the visible characters of its text, reserved ones replaced, up to spaces and full stops at
      the ends. */
  lemma PortablePartKeeps(value: string) returns (a: string, b: string)
    ensures AllTrimmed(a) && AllTrimmed(b) && Tidy(a + PortablePart(value) + b)
    ensures Visible(a + PortablePart(value) + b) == Visible(ReplaceReserved(value))
  {
    var collapsed := CollapseWhitespace(ReplaceReserved(value));
    CollapseKeepsVisible(ReplaceReserved(value));
    CollapseIsTidy(ReplaceReserved(value));
    a, b := TrimmedInside(collapsed);
  }

  /** What can stand as a portable part: no reserved character, tidy, and no space or full stop at the ends. */
  predicate CanStand(s: string) {
    IsPortable(s) && Tidy(s) && EndsWell(s)
  }

  lemma InsideIsTidy(a: string, inner: string, b: string)
    requires StartsTidy(a + inner + b) && EndsWell(inner)
    ensures Tidy(inner)
  {
    var s := a + inner + b;
    forall i | 0 <= i < |inner| ensures SpacedAt(inner, i) {
      assert s[|a| + i] == inner[i] && (i > 0 ==> s[|a| + i - 1] == inner[i - 1]);
      assert SpacedAt(s, |a| + i);
    }
    if inner != "" {
      assert SpacedAt(inner, |inner| - 1);
    }
  }

  lemma StandingStays(value: string)
    requires CanStand(value)
    ensures PortablePart(value) == value
  {
    assert ReplaceReserved(value) == value;
    TidyStays(value);
  }

  /** The texts that are their own portable parts. */
  lemma PortablePartExactly(value: string)
    ensures CanStand(PortablePart(value))
    ensures PortablePart(value) == value <==> CanStand(value)
  {
    PortablePartIsPortable(value);
    var a, b := PortablePartKeeps(value);
    InsideIsTidy(a, PortablePart(value), b);
    if CanStand(value) {
      StandingStays(value);
    }
  }

  // ----- collision stems -----

  /** What is left of the text when it is cut to a number of bytes: a prefix, and no longer one fits. */
  predicate IsCut(r: string, whole: string, bytes: nat) {
    r <= whole && ByteLength(r) <= bytes && (r == whole || ByteLength(whole[..|r| + 1]) > bytes)
  }

  lemma ShorterPrefixFits(whole: string, i: nat, j: nat)
    requires i <= j <= |whole|
    ensures ByteLength(whole[..i]) <= ByteLength(whole[..j])
  {
    assert whole[..j][..i] == whole[..i];
    PrefixBytes(whole[..i], whole[..j]);
  }

  /** A prefix that ends well; every longer one that fits ends in a space or a full stop. */
  predicate IsTitle(base: string, whole: string, bytes: nat) {
    && base <= whole && (base != "" ==> !IsTrimmed(base[|base| - 1]))
    && forall n :: |base| < n <= |whole| ==> IsNoTitle(whole, n, bytes)
  }

  predicate IsNoTitle(whole: string, n: nat, bytes: nat)
    requires 0 < n <= |whole|
  {
    ByteLength(whole[..n]) <= bytes ==> IsTrimmed(whole[n - 1])
  }

  lemma LongerIsNoTitle(whole: string, cut: string, n: nat, bytes: nat)
    requires IsCut(cut, whole, bytes) && |TrimEnd(cut)| < n <= |whole|
    ensures IsNoTitle(whole, n, bytes)
  {
    if n > |cut| {
      ShorterPrefixFits(whole, |cut| + 1, n);
    } else {
      assert whole[n - 1] == cut[n - 1];
    }
  }

  lemma TrimmedCutIsTitle(whole: string, bytes: nat)
    ensures IsTitle(TrimEnd(TruncateBytes(whole, bytes)), whole, bytes)
  {
    var cut := TruncateBytes(whole, bytes);
    var base := TrimEnd(cut);
    forall n | |base| < n <= |whole| ensures IsNoTitle(whole, n, bytes) {
      LongerIsNoTitle(whole, cut, n, bytes);
    }
  }

  lemma TruncatedIsCut(whole: string, bytes: nat)
    ensures IsCut(TruncateBytes(whole, bytes), whole, bytes)
  {
  }

  lemma Spelled(base: string, mark: string)
    ensures base + Annotation(mark) == base + " (" + mark + ")"
  {
  }

  /** The mark is cut to 96 bytes and to 8 less than the extension leaves of 240; the title to what both leave. */
  predicate IsMarkedTitle(base: string, kept: string, title: string, mark: string, extension: string) {
    && IsCut(kept, mark, Min(SaturatingSub(NAME_BYTES, ByteLength(extension) + 8), LABEL_BYTES))
    && IsTitle(base, title, SaturatingSub(NAME_BYTES, ByteLength(extension) + ByteLength(kept) + 3))
  }

  /** The bytes an extension leaves for the mark, and what extension and mark leave for the title. */
  function MarkBytes(extension: string): nat {
    Min(SaturatingSub(NAME_BYTES, ByteLength(extension) + 8), LABEL_BYTES)
  }

  function TitleBytes(extension: string, kept: string): nat {
    SaturatingSub(NAME_BYTES, ByteLength(extension) + ByteLength(kept) + 3)
  }

  lemma PartsAreMarked(title: string, mark: string, extension: string)
    ensures var kept := TruncateBytes(mark, MarkBytes(extension));
            IsMarkedTitle(TrimEnd(TruncateBytes(title, TitleBytes(extension, kept))), kept, title, mark, extension)
  {
    var kept := TruncateBytes(mark, MarkBytes(extension));
    TruncatedIsCut(mark, MarkBytes(extension));
    TrimmedCutIsTitle(title, TitleBytes(extension, kept));
  }

  lemma StemParts(stem: string, mark: string, extension: string)
    ensures var kept := TruncateBytes(PortablePart(mark), MarkBytes(extension));
            CollisionStem(stem, mark, extension) ==
            TrimEnd(TruncateBytes(PortablePart(stem), TitleBytes(extension, kept))) + Annotation(kept)
  {
    var budget := SaturatingSub(NAME_BYTES, ByteLength(extension));
    assert Min(SaturatingSub(budget, 8), LABEL_BYTES) == MarkBytes(extension);
    var kept := LabelWithin(mark, budget);
    AnnotationBytes(kept);
    assert SaturatingSub(budget, ByteLength(Annotation(kept))) == TitleBytes(extension, kept);
  }

  /** A collision stem is the title followed by the mark, each made portable and cut no shorter than it must be. */
  lemma CollisionStemKeepsTitle(stem: string, mark: string, extension: string) returns (base: string, kept: string)
    ensures CollisionStem(stem, mark, extension) == base + " (" + kept + ")"
    ensures IsMarkedTitle(base, kept, PortablePart(stem), PortablePart(mark), extension)
  {
    StemParts(stem, mark, extension);
    PartsAreMarked(PortablePart(stem), PortablePart(mark), extension);
    kept := TruncateBytes(PortablePart(mark), MarkBytes(extension));
    base := TrimEnd(TruncateBytes(PortablePart(stem), TitleBytes(extension, kept)));
    Spelled(base, kept);
  }

  lemma WholeIsKept(whole: string, r: string, bytes: nat)
    requires IsCut(r, whole, bytes) && ByteLength(whole) <= bytes
    ensures r == whole
  {
    if r != whole {
      assert whole[..|whole|] == whole;
      ShorterPrefixFits(whole, |r| + 1, |whole|);
    }
  }

  lemma NameBytes(stem: string, mark: string, extension: string)
    ensures ByteLength(stem + " (" + mark + ")" + extension) ==
            ByteLength(stem) + ByteLength(mark) + 3 + ByteLength(extension)
  {
    Spelled(stem, mark);
    ByteLengthAppend(stem + Annotation(mark), extension);
    ByteLengthAppend(stem, Annotation(mark));
    AnnotationBytes(mark);
  }

  lemma WholeIsTitle(base: string, whole: string, bytes: nat)
    requires IsTitle(base, whole, bytes) && EndsWell(whole) && ByteLength(whole) <= bytes
    ensures base == whole
  {
    assert whole[..|whole|] == whole;
    assert base != whole ==> IsNoTitle(whole, |whole|, bytes);
  }

  /** A title and a mark that can stand as they are, and that fit, are kept whole. */
  lemma FittingTitleIsKept(stem: string, mark: string, extension: string)
    requires CanStand(stem) && CanStand(mark)
    requires ByteLength(mark) <= LABEL_BYTES && ByteLength(mark) + 8 + ByteLength(extension) <= NAME_BYTES
    requires ByteLength(stem + " (" + mark + ")" + extension) <= NAME_BYTES
    ensures CollisionStem(stem, mark, extension) == stem + " (" + mark + ")"
  {
    PortablePartExactly(stem);
    PortablePartExactly(mark);
    NameBytes(stem, mark, extension);
    var base, kept := CollisionStemKeepsTitle(stem, mark, extension);
    WholeIsKept(mark, kept, MarkBytes(extension));
    WholeIsTitle(base, stem, TitleBytes(extension, kept));
  }
}
