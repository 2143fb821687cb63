/** Canonical media paths relative to one root: what is accepted, and the algebra of parents, joins and extensions. */
module MediaPath {
  import opened Common
  import opened Text

  const MAX_MEDIA_PATH_BYTES := 1_024

  datatype PathError =
    | Empty
    | TooLong
    | Absolute
    | PlatformSeparator
    | EmptyComponent
    | CurrentDirectoryComponent
    | ParentDirectoryComponent
    | PlatformPrefix
    | ControlCharacter

  /** The components between slashes, first to last. */
  function Components(s: string): (cs: seq<string>)
    ensures |cs| >= 1
    decreases |s|
  {
    var slash := LastIndex(s, '/');
    if slash.None? then [s] else Components(s[..slash.value]) + [s[slash.value + 1..]]
  }

  predicate HasDrivePrefix(c: string) {
    |c| >= 2 && ('a' <= c[0] <= 'z' || 'A' <= c[0] <= 'Z') && c[1] == ':'
  }

  function ComponentError(c: string): Option<PathError> {
    if c == "" then Some(EmptyComponent)
    else if c == "." then Some(CurrentDirectoryComponent)
    else if c == ".." then Some(ParentDirectoryComponent)
    else if HasDrivePrefix(c) then Some(PlatformPrefix)
    else None
  }

  function FirstComponentError(cs: seq<string>): (e: Option<PathError>)
    ensures e.None? <==> forall i :: 0 <= i < |cs| ==> ComponentError(cs[i]).None?
  {
    if cs == [] then None
    else if ComponentError(cs[0]).Some? then ComponentError(cs[0])
    else
      assert forall i :: 1 <= i < |cs| ==> cs[i] == cs[1..][i - 1];
      assert forall i :: 0 <= i < |cs[1..]| ==> cs[1..][i] == cs[i + 1];
      FirstComponentError(cs[1..])
  }

  function Validate(s: string): Option<PathError> {
    if s == "" then Some(Empty)
    else if ByteLength(s) > MAX_MEDIA_PATH_BYTES then Some(TooLong)
    else if s[0] == '/' then Some(Absolute)
    else if '\\' in s then Some(PlatformSeparator)
    else if exists i :: 0 <= i < |s| && IsControl(s[i]) then Some(ControlCharacter)
    else FirstComponentError(Components(s))
  }

  /** Text that may stand in a path: no backslash and no control character. */
  predicate CleanText(s: string) {
    forall i :: 0 <= i < |s| ==> s[i] != '\\' && !IsControl(s[i])
  }

  predicate GoodComponents(cs: seq<string>) {
    forall i :: 0 <= i < |cs| ==> ComponentError(cs[i]).None?
  }

  type Path = s: string | Validate(s).None? witness MinimalPath()

  function MinimalPath(): (s: string)
    ensures Validate(s).None?
  {
    assert LastIndex("a", '/') == None;
    assert Components("a") == ["a"];
    "a"
  }

  function Parse(value: string): Result<Path, PathError> {
    if Validate(value).None? then Ok(value) else Err(Validate(value).value)
  }

  function FileName(p: Path): string {
    var slash := LastIndex(p, '/');
    if slash.None? then p else p[slash.value + 1..]
  }

  /** The path up to its last slash, built without validating it again. */
  function UncheckedParent(p: Path): Option<string> {
    var slash := LastIndex(p, '/');
    if slash.None? then None else Some(p[..slash.value])
  }

  function Join(p: Path, descendant: string): Result<Path, PathError> {
    Parse(p + "/" + descendant)
  }

  /** The final component before its extension; a leading dot is part of the stem. */
  function FileStem(p: Path): string {
    StemOf(FileName(p))
  }

  function StemOf(name: string): string {
    var dot := LastIndex(name, '.');
    if dot.Some? && dot.value > 0 then name[..dot.value] else name
  }

  predicate HasExtension(p: Path) {
    StemOf(FileName(p)) != FileName(p)
  }

  function ExtensionOf(p: Path): string
    requires HasExtension(p)
  {
    FileName(p)[LastIndex(FileName(p), '.').value + 1..]
  }

  function WithExtension(p: Path, extension: string): Result<Path, PathError> {
    var name := FileStem(p) + "." + extension;
    ParentIsValid(p);
    if UncheckedParent(p).None? then Parse(name) else Join(UncheckedParent(p).value, name)
  }

  // ----- what is accepted -----

  /** The staged checks accept exactly the short, clean texts all of whose components are good. */
  lemma AcceptedExactly(s: string)
    ensures Validate(s).None? <==>
            ByteLength(s) <= MAX_MEDIA_PATH_BYTES && CleanText(s) && GoodComponents(Components(s))
  {
    if s == "" {
      assert Components(s) == [""];
      assert ComponentError(Components(s)[0]).Some?;
    } else if s[0] == '/' {
      FirstComponentOfAbsolute(s);
      assert ComponentError(Components(s)[0]).Some?;
    }
  }

  lemma {:induction false} ComponentsHaveNoSlash(s: string)
    ensures forall c :: c in Components(s) ==> '/' !in c
    decreases |s|
  {
    var slash := LastIndex(s, '/');
    if slash.Some? {
      ComponentsHaveNoSlash(s[..slash.value]);
    }
  }

  /** What is accepted, in full: between 1 and 1024 bytes without backslash and control character, of which no part
      between two slashes is empty, names this or the parent directory, or starts like a drive. */
  lemma AcceptedMeans(s: string)
    ensures Validate(s).None? <==>
            && s != "" && ByteLength(s) <= 1_024
            && (forall i :: 0 <= i < |s| ==> s[i] != '\\' && !IsControl(s[i]))
            && forall c :: c in Components(s) ==>
                 && c != "" && c != "." && c != ".."
                 && !(|c| >= 2 && ('a' <= c[0] <= 'z' || 'A' <= c[0] <= 'Z') && c[1] == ':')
  {
    AcceptedExactly(s);
    var cs := Components(s);
    if s == "" {
      assert cs == [""];
    }
    if forall c :: c in cs ==> ComponentError(c).None? {
      assert GoodComponents(cs);
    }
    if GoodComponents(cs) {
      forall c | c in cs ensures ComponentError(c).None? {
      }
    }
  }

  lemma {:induction false} FirstComponentOfAbsolute(s: string)
    requires s != "" && s[0] == '/'
    ensures Components(s)[0] == ""
    decreases |s|
  {
    var slash := LastIndex(s, '/').value;
    if slash == 0 {
      assert LastIndex("", '/') == None;
      assert s[..0] == "";
    } else {
      FirstComponentOfAbsolute(s[..slash]);
    }
  }

  /** A path says no more than its components: rebuilding them gives the path back. */
  function Rebuilt(cs: seq<string>): string
    requires cs != []
  {
    if |cs| == 1 then cs[0] else Rebuilt(cs[..|cs| - 1]) + "/" + cs[|cs| - 1]
  }

  lemma {:induction false} ComponentsRebuild(s: string)
    ensures Rebuilt(Components(s)) == s
    decreases |s|
  {
    var slash := LastIndex(s, '/');
    if slash.Some? {
      var cs := Components(s);
      ComponentsRebuild(s[..slash.value]);
      var front, last := Components(s[..slash.value]), s[slash.value + 1..];
      assert cs == front + [last] && cs[..|cs| - 1] == front;
      assert s == s[..slash.value] + "/" + last;
    }
  }

  // ----- parents and joins -----

  /** The parent skips validation, and needs none. */
  lemma ParentIsValid(p: Path)
    ensures UncheckedParent(p).Some? ==> Validate(UncheckedParent(p).value).None?
  {
    var slash := LastIndex(p, '/');
    if slash.Some? {
      var parent := p[..slash.value];
      AcceptedExactly(p);
      assert p == parent + p[slash.value..];
      ByteLengthAppend(parent, p[slash.value..]);
      var cs := Components(p);
      assert forall i :: 0 <= i < |cs| - 1 ==> cs[i] == Components(parent)[i];
      AcceptedExactly(parent);
    }
  }

  lemma {:induction false} ComponentsOfJoined(a: string, b: string)
    ensures Components(a + "/" + b) == Components(a) + Components(b)
    decreases |b|
  {
    var slash := LastIndex(b, '/');
    var s := a + "/" + b;
    if slash.None? {
      LastIndexOfJoined(a, '/', b);
      assert s[..|a|] == a && s[|a| + 1..] == b;
    } else {
      var front, last := b[..slash.value], b[slash.value + 1..];
      assert s == (a + "/" + front) + ['/'] + last;
      LastIndexOfJoined(a + "/" + front, '/', last);
      assert s[..|a + "/" + front|] == a + "/" + front && s[|a + "/" + front| + 1..] == last;
      ComponentsOfJoined(a, front);
    }
  }

  /** A join succeeds exactly when the descendant is clean, its components are good and the whole fits; it then
      appends the descendant's components. */
  lemma JoinAccepts(p: Path, descendant: string)
    ensures Join(p, descendant).Ok? <==>
            && ByteLength(p) + 1 + ByteLength(descendant) <= MAX_MEDIA_PATH_BYTES
            && CleanText(descendant) && GoodComponents(Components(descendant))
    ensures Join(p, descendant).Ok? ==>
              Components(Join(p, descendant).value) == Components(p) + Components(descendant)
  {
    var s := p + "/" + descendant;
    AcceptedExactly(p);
    AcceptedExactly(s);
    ComponentsOfJoined(p, descendant);
    ByteLengthAppend(p + "/", descendant);
    ByteLengthAppend(p, "/");
    AsciiByteLength("/");
    JoinedComponentsAreGood(Components(p), Components(descendant));
    JoinedTextIsClean(p, descendant);
  }

  lemma JoinedComponentsAreGood(a: seq<string>, b: seq<string>)
    ensures GoodComponents(a + b) <==> GoodComponents(a) && GoodComponents(b)
  {
    if GoodComponents(a + b) {
      forall i | 0 <= i < |a| ensures ComponentError(a[i]).None? {
        assert a[i] == (a + b)[i];
      }
      forall i | 0 <= i < |b| ensures ComponentError(b[i]).None? {
        assert b[i] == (a + b)[|a| + i];
      }
    }
  }

  lemma JoinedTextIsClean(a: string, b: string)
    ensures CleanText(a + "/" + b) <==> CleanText(a) && CleanText(b)
  {
    var s := a + "/" + b;
    if CleanText(s) {
      forall i | 0 <= i < |a| ensures a[i] != '\\' && !IsControl(a[i]) {
        assert a[i] == s[i];
      }
      forall i | 0 <= i < |b| ensures b[i] != '\\' && !IsControl(b[i]) {
        assert b[i] == s[|a| + 1 + i];
      }
    }
  }

  /** Joining one component and taking the parent gives back the path, and the component is the file name. */
  lemma JoinThenParent(p: Path, name: string)
    requires '/' !in name && Join(p, name).Ok?
    ensures UncheckedParent(Join(p, name).value) == Some(p) && FileName(Join(p, name).value) == name
  {
    LastIndexOfJoined(p, '/', name);
    var s := p + "/" + name;
    assert s[..|p|] == p && s[|p| + 1..] == name;
  }

  /** Conversely, a parent joined with the file name is the path. */
  lemma ParentThenJoin(p: Path)
    requires UncheckedParent(p).Some?
    ensures Validate(UncheckedParent(p).value).None? && Join(UncheckedParent(p).value, FileName(p)) == Ok(p)
  {
    ParentIsValid(p);
    assert UncheckedParent(p).value + "/" + FileName(p) == p;
  }

  // ----- extensions -----

  lemma StemOfExtended(stem: string, extension: string)
    requires stem != "" && '.' !in extension
    ensures StemOf(stem + "." + extension) == stem
  {
    LastIndexOfJoined(stem, '.', extension);
    assert (stem + "." + extension)[..|stem|] == stem;
  }

  lemma FileNameIsGood(p: Path)
    ensures FileName(p) != "" && '/' !in FileName(p) && FileStem(p) != ""
  {
    AcceptedExactly(p);
    var cs := Components(p);
    assert cs[|cs| - 1] == FileName(p);
    assert ComponentError(cs[|cs| - 1]).None?;
  }

  /** Changing the extension keeps the directory and the stem. */
  lemma ExtensionChangeKeepsStem(p: Path, extension: string)
    requires '.' !in extension && '/' !in extension && WithExtension(p, extension).Ok?
    ensures var q := WithExtension(p, extension).value;
            && UncheckedParent(q) == UncheckedParent(p)
            && FileName(q) == FileStem(p) + "." + extension
            && FileStem(q) == FileStem(p)
  {
    var name := FileStem(p) + "." + extension;
    var q := WithExtension(p, extension).value;
    FileNameIsGood(p);
    StemOfExtended(FileStem(p), extension);
    ParentIsValid(p);
    if UncheckedParent(p).Some? {
      JoinThenParent(UncheckedParent(p).value, name);
    } else {
      assert q == name;
      assert LastIndex(q, '/').Some? ==> false by {
        assert '/' !in name;
      }
    }
  }

  /** Changing an extension and changing it back restores the path. */
  lemma ExtensionRoundTrip(p: Path, extension: string)
    requires HasExtension(p) && '.' !in extension && '/' !in extension && WithExtension(p, extension).Ok?
    ensures WithExtension(WithExtension(p, extension).value, ExtensionOf(p)) == Ok(p)
  {
    ExtensionChangeKeepsStem(p, extension);
    var name := FileName(p);
    assert FileStem(p) + "." + ExtensionOf(p) == name;
    if UncheckedParent(p).Some? {
      ParentThenJoin(p);
    } else {
      assert name == p;
    }
  }
}
