/** Collision-free file names: case keys, portable parts, and stems that carry a distinguishing mark within a byte
    budget. */
module Filenames {
  import opened Common
  import opened Text

  const NAME_BYTES := 240
  const LABEL_BYTES := 96
  const LONGEST_SUFFIX := 208

  // ----- case keys -----

  /** Lower-casing of one character; it may give several. */
  type Folding = char -> string

  /** Digits, spaces and parentheses have no case. */
  predicate KeepsNumerals(fold: Folding) {
    && fold(' ') == " " && fold('(') == "(" && fold(')') == ")"
    && forall c :: '0' <= c <= '9' ==> fold(c) == [c]
  }

  function CaseKey(fold: Folding, s: string): string {
    if s == "" then "" else CaseKey(fold, s[..|s| - 1]) + fold(s[|s| - 1])
  }

  lemma {:induction false} CaseKeyAppend(fold: Folding, a: string, b: string)
    ensures CaseKey(fold, a + b) == CaseKey(fold, a) + CaseKey(fold, b)
    decreases |b|
  {
    if b == "" {
      assert a + b == a;
    } else {
      var front, last := b[..|b| - 1], b[|b| - 1];
      assert (a + b)[..|a + b| - 1] == a + front;
      CaseKeyAppend(fold, a, front);
      assert CaseKey(fold, a) + (CaseKey(fold, front) + fold(last)) ==
          (CaseKey(fold, a) + CaseKey(fold, front)) + fold(last);
    }
  }

  lemma {:induction false} CaseKeyFixed(fold: Folding, s: string)
    requires forall i :: 0 <= i < |s| ==> fold(s[i]) == [s[i]]
    ensures CaseKey(fold, s) == s
    decreases |s|
  {
    if s != "" {
      CaseKeyFixed(fold, s[..|s| - 1]);
      assert s == s[..|s| - 1] + [s[|s| - 1]];
    }
  }

  // ----- portable parts -----

  predicate IsWhitespace(c: char) {
    var n := c as int;
    9 <= n <= 13 || n in {0x20, 0x85, 0xA0, 0x1680, 0x2028, 0x2029, 0x202F, 0x205F, 0x3000} || 0x2000 <= n <= 0x200A
  }

  function Words(s: string): (words: seq<string>)
    ensures s != "" && !IsWhitespace(s[|s| - 1]) ==> words != []
  {
    if s == "" then []
    else
      var front, c := s[..|s| - 1], s[|s| - 1];
      var before := Words(front);
      if IsWhitespace(c) then before
      else if front == "" || IsWhitespace(front[|front| - 1]) then before + [[c]]
      else before[..|before| - 1] + [before[|before| - 1] + [c]]
  }

  function JoinWords(words: seq<string>): string {
    if words == [] then ""
    else if |words| == 1 then words[0]
    else JoinWords(words[..|words| - 1]) + " " + words[|words| - 1]
  }

  function CollapseWhitespace(s: string): string {
    JoinWords(Words(s))
  }

  predicate IsTrimmed(c: char) {
    c == ' ' || c == '.'
  }

  function TrimEnd(s: string): (r: string)
    ensures r <= s && (r == "" || !IsTrimmed(r[|r| - 1]))
    ensures forall i :: |r| <= i < |s| ==> IsTrimmed(s[i])
  {
    if s == "" || !IsTrimmed(s[|s| - 1]) then s else TrimEnd(s[..|s| - 1])
  }

  function TrimStart(s: string): (r: string)
    ensures |r| <= |s| && r == s[|s| - |r|..] && (r == "" || !IsTrimmed(r[0]))
  {
    if s == "" || !IsTrimmed(s[0]) then s else TrimStart(s[1..])
  }

  predicate IsReserved(c: char) {
    IsControl(c) || c in {'<', '>', ':', '"', '/', '\\', '|', '?', '*'}
  }

  function ReplaceReserved(s: string): (r: string)
    ensures |r| == |s| && forall i :: 0 <= i < |s| ==> r[i] == (if IsReserved(s[i]) then '-' else s[i])
  {
    seq(|s|, i requires 0 <= i < |s| => if IsReserved(s[i]) then '-' else s[i])
  }

  function PortablePart(value: string): string {
    TrimEnd(TrimStart(CollapseWhitespace(ReplaceReserved(value))))
  }

  predicate IsPortable(s: string) {
    forall i :: 0 <= i < |s| ==> !IsReserved(s[i])
  }

  lemma {:induction false} WordsPortable(s: string)
    requires IsPortable(s)
    ensures forall i :: 0 <= i < |Words(s)| ==> IsPortable(Words(s)[i])
    decreases |s|
  {
    if s != "" {
      WordsPortable(s[..|s| - 1]);
    }
  }

  lemma {:induction false} JoinPortable(words: seq<string>)
    requires forall i :: 0 <= i < |words| ==> IsPortable(words[i])
    ensures IsPortable(JoinWords(words))
    decreases |words|
  {
    if |words| > 1 {
      JoinPortable(words[..|words| - 1]);
    }
  }

  /** A portable part has no reserved character and neither starts nor ends with a space or a full stop. */
  lemma PortablePartIsPortable(value: string)
    ensures var r := PortablePart(value);
            IsPortable(r) && (r != "" ==> !IsTrimmed(r[0]) && !IsTrimmed(r[|r| - 1]))
  {
    var replaced := ReplaceReserved(value);
    WordsPortable(replaced);
    JoinPortable(Words(replaced));
    var started := TrimStart(CollapseWhitespace(replaced));
    assert TrimEnd(started) <= started;
  }

  lemma {:induction false} OneWord(s: string)
    requires s != "" && forall i :: 0 <= i < |s| ==> !IsWhitespace(s[i])
    ensures Words(s) == [s]
    decreases |s|
  {
    var front := s[..|s| - 1];
    assert s == front + [s[|s| - 1]];
    if front != "" {
      OneWord(front);
    }
  }

  predicate IsPlain(c: char) {
    !IsReserved(c) && !IsWhitespace(c) && !IsTrimmed(c)
  }

  lemma DigitsArePlain(c: char)
    requires '0' <= c <= '9'
    ensures IsPlain(c) && c as int < 0x80 && c != '('
  {
  }

  lemma PlainPart(s: string)
    requires s != "" && forall i :: 0 <= i < |s| ==> IsPlain(s[i])
    ensures PortablePart(s) == s
  {
    assert ReplaceReserved(s) == s;
    OneWord(s);
    assert CollapseWhitespace(s) == s;
    assert IsPlain(s[0]) && IsPlain(s[|s| - 1]);
  }

  // ----- byte budgets -----

  /** The longest prefix within n bytes. */
  function TruncateBytes(s: string, n: nat): (r: string)
    ensures r <= s && ByteLength(r) <= n
    ensures r == s || ByteLength(s[..|r| + 1]) > n
  {
    if ByteLength(s) <= n then assert s[..|s|] == s; s
    else
      var r := TruncateBytes(s[..|s| - 1], n);
      assert r < s;
      assert |r| < |s| - 1 ==> s[..|s| - 1][..|r| + 1] == s[..|r| + 1];
      r
  }

  function Annotation(mark: string): string {
    " (" + mark + ")"
  }

  function LabelWithin(mark: string, budget: nat): (r: string)
    ensures ByteLength(r) <= Min(SaturatingSub(budget, 8), LABEL_BYTES)
  {
    TruncateBytes(PortablePart(mark), Min(SaturatingSub(budget, 8), LABEL_BYTES))
  }

  function BaseWithin(stem: string, budget: nat): (r: string)
    ensures ByteLength(r) <= budget
  {
    var base := TruncateBytes(PortablePart(stem), budget);
    PrefixBytes(TrimEnd(base), base);
    TrimEnd(base)
  }

  /** The stem with a mark behind it, both cut so that the name fits with its extension. */
  function CollisionStem(stem: string, mark: string, extension: string): string {
    var budget := SaturatingSub(NAME_BYTES, ByteLength(extension));
    var annotation := Annotation(LabelWithin(mark, budget));
    BaseWithin(stem, SaturatingSub(budget, ByteLength(annotation))) + annotation
  }

  lemma PrefixBytes(a: string, b: string)
    requires a <= b
    ensures ByteLength(a) <= ByteLength(b)
  {
    assert b == a + b[|a|..];
    ByteLengthAppend(a, b[|a|..]);
  }

  lemma AnnotationBytes(mark: string)
    ensures ByteLength(Annotation(mark)) == ByteLength(mark) + 3
  {
    ByteLengthAppend(" (" + mark, ")");
    ByteLengthAppend(" (", mark);
    AsciiByteLength(" (");
    AsciiByteLength(")");
  }

  /** The whole name fits into 240 bytes exactly when its extension leaves room for an empty annotation. */
  lemma CollisionNameFits(stem: string, mark: string, extension: string)
    ensures ByteLength(CollisionStem(stem, mark, extension) + extension) <= NAME_BYTES <==>
            ByteLength(extension) <= NAME_BYTES - 3
  {
    var budget := SaturatingSub(NAME_BYTES, ByteLength(extension));
    var mark' := LabelWithin(mark, budget);
    var annotation := Annotation(mark');
    AnnotationBytes(mark');
    var base := BaseWithin(stem, SaturatingSub(budget, ByteLength(annotation)));
    ByteLengthAppend(base, annotation);
    ByteLengthAppend(base + annotation, extension);
  }

  // ----- numbered names -----

  const I32_MAX := 0x7FFF_FFFF

  lemma {:induction false} DecimalWidth(n: nat, bound: nat, width: nat)
    requires 1 <= width && n < bound && bound == Power10(width)
    ensures |Decimal(n)| <= width
    decreases width
  {
    DecimalLast(n);
    if n >= 10 {
      assert width > 1;
      DecimalWidth(n / 10, Power10(width - 1), width - 1);
    }
  }

  function Power10(k: nat): nat {
    if k == 0 then 1 else 10 * Power10(k - 1)
  }

  lemma NumeralIsPlain(n: nat)
    ensures PortablePart(Decimal(n)) == Decimal(n) && ByteLength(Decimal(n)) == |Decimal(n)| && '(' !in Decimal(n)
  {
    var s := Decimal(n);
    forall i | 0 <= i < |s| ensures IsPlain(s[i]) && s[i] as int < 0x80 && s[i] != '(' {
      DigitsArePlain(s[i]);
    }
    PlainPart(s);
    AsciiByteLength(s);
  }

  lemma CounterWidth(n: nat)
    requires n <= I32_MAX
    ensures |Decimal(n)| <= 10
  {
    assert Power10(5) == 100_000;
    assert Power10(10) == 10_000_000_000;
    DecimalWidth(n, Power10(10), 10);
  }

  /** A 32-bit counter survives the cut to 24 bytes that the longest allowed extension enforces. */
  lemma CounterKept(n: nat, budget: nat)
    requires n <= I32_MAX && budget >= NAME_BYTES - LONGEST_SUFFIX
    ensures LabelWithin(Decimal(n), budget) == Decimal(n)
  {
    NumeralIsPlain(n);
    CounterWidth(n);
  }

  lemma AnnotationKey(fold: Folding, n: nat)
    requires KeepsNumerals(fold)
    ensures CaseKey(fold, Annotation(Decimal(n))) == Annotation(Decimal(n))
  {
    var s := Annotation(Decimal(n));
    forall i | 0 <= i < |s| ensures fold(s[i]) == [s[i]] {
    }
    CaseKeyFixed(fold, s);
  }

  lemma Unfolded(base: string, mark: string, suffix: string)
    ensures (base + Annotation(mark)) + suffix == base + " " + "(" + mark + (")" + suffix)
  {
    assert Annotation(mark) == " " + ("(" + (mark + ")"));
  }

  lemma NumberedKey(fold: Folding, stem: string, n: nat, suffix: string) returns (base: string)
    requires KeepsNumerals(fold) && n <= I32_MAX && ByteLength(suffix) <= LONGEST_SUFFIX
    ensures CaseKey(fold, CollisionStem(stem, Decimal(n), suffix) + suffix) ==
            base + " " + "(" + Decimal(n) + (")" + CaseKey(fold, suffix))
  {
    var budget := SaturatingSub(NAME_BYTES, ByteLength(suffix));
    CounterKept(n, budget);
    var annotation := Annotation(Decimal(n));
    var kept := BaseWithin(stem, SaturatingSub(budget, ByteLength(annotation)));
    base := CaseKey(fold, kept);
    CaseKeyAppend(fold, kept + annotation, suffix);
    CaseKeyAppend(fold, kept, annotation);
    AnnotationKey(fold, n);
    Unfolded(base, Decimal(n), CaseKey(fold, suffix));
  }

  /** Different counters give names that differ even without regard to case. */
  lemma CountersDistinct(fold: Folding, stem: string, m: nat, n: nat, suffix: string)
    requires KeepsNumerals(fold) && m <= I32_MAX && n <= I32_MAX && ByteLength(suffix) <= LONGEST_SUFFIX
    requires CaseKey(fold, CollisionStem(stem, Decimal(m), suffix) + suffix) ==
             CaseKey(fold, CollisionStem(stem, Decimal(n), suffix) + suffix)
    ensures m == n
  {
    var a := NumberedKey(fold, stem, m, suffix);
    var b := NumberedKey(fold, stem, n, suffix);
    var tail := ")" + CaseKey(fold, suffix);
    SameTail(a + " " + "(" + Decimal(m), b + " " + "(" + Decimal(n), tail);
    SameNumeral(a + " ", Decimal(m), b + " ", Decimal(n));
    DecimalInjective(m, n);
  }

  lemma SameTail(a: string, b: string, tail: string)
    requires a + tail == b + tail
    ensures a == b
  {
    assert |a| == |b|;
    assert (a + tail)[..|a|] == a && (b + tail)[..|b|] == b;
  }

  lemma SameNumeral(a: string, m: string, b: string, n: string)
    requires a + "(" + m == b + "(" + n && '(' !in m && '(' !in n
    ensures m == n
  {
    LastIndexOfJoined(a, '(', m);
    LastIndexOfJoined(b, '(', n);
    assert (a + "(" + m)[|a| + 1..] == m && (b + "(" + n)[|b| + 1..] == n;
  }
}
