/**
 * A platform-agnostic absolute filesystem path (src/path.rs).
 *
 * Three layers, leaf to root:
 *  - the classifier `IsAbsolute` (Unix `/…`, Windows drive `C:…`, Windows UNC `\\…`);
 *  - the `Path` object, whose buffer is always absolute, with `Push` (join or replace)
 *    and `Borrow` (a read-only view of the same text);
 *  - the URI projection `UriOf` / `Path.ToUri`.
 *
 * Strings are `seq<char>`. The source inspects UTF-8 bytes, but every byte it compares
 * against is ASCII, so comparing characters gives the same answers.
 */
module Paths {

  datatype Option<T> = None | Some(value: T)

  // ---------------------------------------------------------------------------
  // Classifier
  // ---------------------------------------------------------------------------

  predicate IsAsciiLetter(c: char) {
    'A' <= c <= 'Z' || 'a' <= c <= 'z'
  }

  /** The character after the first one exists and is `c`. */
  predicate SecondIs(p: string, c: char) {
    |p| >= 2 && p[1] == c
  }

  const UnixRoot: string := "/"
  const UncRoot: string := "\\\\"

  /** The three absolute-path grammars, stated as prefixes. */
  predicate UnixForm(p: string) { UnixRoot <= p }
  predicate DriveForm(p: string) { |p| >= 2 && IsAsciiLetter(p[0]) && p[1] == ':' }
  predicate UncForm(p: string) { UncRoot <= p }

  /**
   * Classifies `p` by its first character, then (for a letter or a backslash)
   * by its second one. Nothing after the second character is looked at.
   */
  function IsAbsolute(p: string): (abs: bool)
    ensures p == [] ==> !abs
    ensures abs <==> UnixForm(p) || DriveForm(p) || UncForm(p)
  {
    if |p| == 0 then false
    else if p[0] == '/' then true
    else if IsAsciiLetter(p[0]) then SecondIs(p, ':')
    else if p[0] == '\\' then SecondIs(p, '\\')
    else false
  }

  /** Appending anything to an absolute path leaves it absolute: only its head is inspected. */
  lemma AbsoluteExtends(p: string, tail: string)
    ensures IsAbsolute(p) ==> IsAbsolute(p + tail)
  {
  }

  /** Whether `p` is absolute depends on its first two characters only. */
  lemma AbsoluteByHead(p: string, q: string)
    requires |p| >= 2 && |q| >= 2 && p[..2] == q[..2]
    ensures IsAbsolute(p) == IsAbsolute(q)
  {
  }

  // ---------------------------------------------------------------------------
  // String helpers (Rust's `str::ends_with` with a char pattern, `strip_prefix`)
  // ---------------------------------------------------------------------------

  predicate EndsWithChar(s: string, c: char) {
    |s| > 0 && s[|s| - 1] == c
  }

  /** The text after `prefix`, when `p` starts with it. */
  function StripPrefix(p: string, prefix: string): (rest: Option<string>)
    ensures rest.Some? <==> prefix <= p
    ensures rest.Some? ==> prefix + rest.value == p
  {
    if prefix <= p then Some(p[|prefix|..]) else None
  }

  // ---------------------------------------------------------------------------
  // Path buffer: copy-on-write storage and the join specification
  // ---------------------------------------------------------------------------

  /**
   * Storage of a path's text: either a read-only view of text owned elsewhere,
   * or a buffer this path owns and may extend in place.
   */
  datatype Cow = Borrowed(text: string) | Owned(text: string)

  /**
   * A path is taken to be in Unix style when it starts with `/` and in Windows
   * style otherwise; the style is sniffed from the text, not from the platform.
   */
  predicate UnixStyle(path: string) {
    |path| > 0 && path[0] == '/'
  }

  /** The separator a path uses, chosen by its style. */
  function Separator(base: string): char {
    if UnixStyle(base) then '/' else '\\'
  }

  /**
   * The text a path holds after pushing `seg` onto `base`: an absolute segment
   * replaces the base; a relative one is appended after the base's separator,
   * which is added only when the base does not already end with it.
   */
  function Join(base: string, seg: string): (joined: string)
    ensures IsAbsolute(base) ==> IsAbsolute(joined)
  {
    if IsAbsolute(seg) then seg
    else
      var sep := Separator(base);
      var tail := if EndsWithChar(base, sep) then seg else [sep] + seg;
      AbsoluteExtends(base, tail);
      base + tail
  }

  /** `base` with one trailing separator removed, if it has one. */
  function TrimSeparator(base: string): string {
    if EndsWithChar(base, Separator(base)) then base[..|base| - 1] else base
  }

  /** An absolute segment discards everything the path held before. */
  lemma JoinAbsoluteReplaces(base: string, seg: string)
    requires IsAbsolute(seg)
    ensures Join(base, seg) == seg
  {
  }

  /**
   * A relative segment is appended with exactly one separator at the junction:
   * the one the base already ends with, or one that is added.
   */
  lemma JoinRelativeJunction(base: string, seg: string)
    requires !IsAbsolute(seg)
    ensures Join(base, seg) == TrimSeparator(base) + [Separator(base)] + seg
    ensures EndsWithChar(base, Separator(base)) <==> Join(base, seg) == base + seg
    ensures !EndsWithChar(base, Separator(base)) <==> Join(base, seg) == base + [Separator(base)] + seg
  {
  }

  /**
   * A relative push keeps the old text as a prefix, ends with the segment and
   * keeps the separator style, so later pushes use the same separator.
   */
  lemma JoinRelativeKeepsStyle(base: string, seg: string)
    requires !IsAbsolute(seg)
    ensures base <= Join(base, seg)
    ensures Join(base, seg)[|Join(base, seg)| - |seg|..] == seg
    ensures Separator(Join(base, seg)) == Separator(base)
  {
  }

  /** The text after pushing every segment of `segs`, in order, onto `base`. */
  function PushAll(base: string, segs: seq<string>): string
    decreases |segs|
  {
    if segs == [] then base else PushAll(Join(base, segs[0]), segs[1..])
  }

  /** However many segments are pushed, an absolute path stays absolute. */
  lemma {:induction false} PushAllKeepsAbsolute(base: string, segs: seq<string>)
    requires IsAbsolute(base)
    ensures IsAbsolute(PushAll(base, segs))
    decreases |segs|
  {
    if segs != [] {
      PushAllKeepsAbsolute(Join(base, segs[0]), segs[1..]);
    }
  }

  /** Pushing an absolute segment forgets the base and every segment before it. */
  lemma {:induction false} PushAllRestartsAtAbsolute(base: string, segs: seq<string>, k: nat)
    requires k < |segs| && IsAbsolute(segs[k])
    ensures PushAll(base, segs) == PushAll(segs[k], segs[k + 1..])
    decreases k
  {
    if k > 0 {
      PushAllRestartsAtAbsolute(Join(base, segs[0]), segs[1..], k - 1);
      assert segs[1..][k - 1 + 1..] == segs[k + 1..];
    }
  }

  /** Pushing relative segments only ever extends the text. */
  lemma {:induction false} PushAllRelativeExtends(base: string, segs: seq<string>)
    requires forall i :: 0 <= i < |segs| ==> !IsAbsolute(segs[i])
    ensures base <= PushAll(base, segs)
    ensures Separator(PushAll(base, segs)) == Separator(base)
    decreases |segs|
  {
    if segs != [] {
      JoinRelativeKeepsStyle(base, segs[0]);
      PushAllRelativeExtends(Join(base, segs[0]), segs[1..]);
    }
  }

  // ---------------------------------------------------------------------------
  // URI projection
  // ---------------------------------------------------------------------------

  const RustcPrefix: string := "/rustc/"
  /**
   * Raw-file host of the Rust repository. Written as two literals: the verifier
   * does not see the individual characters of a single literal this long.
   */
  const RustSourceUrl: string := "https://raw.githubusercontent.com" + "/rust-lang/rust/"
  const FileScheme: string := "file://"
  const FileRoot: string := "file:///"

  /** A `file:` URI is never mistaken for a rewritten compiler source. */
  lemma FileUriIsNotRustSource(uri: string)
    requires FileRoot <= uri
    ensures !(RustSourceUrl <= uri)
  {
    assert uri[0] == FileRoot[0] == 'f';
    assert RustSourceUrl[0] == 'h';
  }

  /**
   * The URI of a path: compiler-bundled sources under `/rustc/` map to the Rust
   * repository's raw file host; any other path becomes a `file:` URI with no
   * percent-encoding and backslashes passed through.
   */
  function UriOf(path: string): (uri: string)
    ensures RustSourceUrl <= uri || FileRoot <= uri
    ensures RustSourceUrl <= uri <==> RustcPrefix <= path
  {
    match StripPrefix(path, RustcPrefix)
    case Some(rest) => RustSourceUrl + rest
    case None =>
      if UnixStyle(path) then
        assert FileRoot == FileScheme + [path[0]];
        assert (FileScheme + path)[..|FileRoot|] == FileRoot;
        FileUriIsNotRustSource(FileScheme + path);
        FileScheme + path
      else
        assert (FileRoot + path)[..|FileRoot|] == FileRoot;
        FileUriIsNotRustSource(FileRoot + path);
        FileRoot + path
  }

  /**
   * Reads a path back from a URI produced by `UriOf`, given whether that path
   * was in Unix style (the URI itself does not always tell, see
   * `UriStylesCollide`).
   */
  function PathOfUri(uri: string, unix: bool): Option<string> {
    if RustSourceUrl <= uri then Some(RustcPrefix + uri[|RustSourceUrl|..])
    else if FileRoot <= uri then Some(if unix then uri[|FileScheme|..] else uri[|FileRoot|..])
    else None
  }

  /** The three cases of the projection, each for every path of its shape. */
  lemma UriOfCases(path: string)
    ensures RustcPrefix <= path ==> UriOf(path) == RustSourceUrl + path[|RustcPrefix|..]
    ensures !(RustcPrefix <= path) && UnixStyle(path) ==> UriOf(path) == FileScheme + path
    ensures !UnixStyle(path) ==> UriOf(path) == FileRoot + path
  {
  }

  /** Knowing the path's style, its URI determines it. */
  lemma UriRoundTrip(path: string)
    ensures PathOfUri(UriOf(path), UnixStyle(path)) == Some(path)
  {
  }

  /** Two paths of the same style never share a URI. */
  lemma UriInjectiveWithinStyle(p: string, q: string)
    requires UnixStyle(p) == UnixStyle(q)
    requires UriOf(p) == UriOf(q)
    ensures p == q
  {
    UriRoundTrip(p);
    UriRoundTrip(q);
  }

  /** Across styles the projection can collide: a Unix path and a drive path share a URI. */
  lemma UriStylesCollide()
    ensures IsAbsolute("/C:\\") && IsAbsolute("C:\\")
    ensures UriOf("/C:\\") == UriOf("C:\\") == "file:///C:\\"
  {
  }

  // ---------------------------------------------------------------------------
  // The path object
  // ---------------------------------------------------------------------------

  /** A path whose buffer always holds an absolute path. */
  class Path {
    var cow: Cow

    ghost predicate Valid()
      reads this
    {
      IsAbsolute(cow.text)
    }

    /** The current text of the path, whoever owns it. */
    function Contents(): string
      reads this
    {
      cow.text
    }

    /** Only an absolute text may start a path; it is kept as given. */
    constructor (s: Cow)
      requires IsAbsolute(s.text)
      ensures Valid()
      ensures cow == s
    {
      cow := s;
    }

    /**
     * Joins `seg` onto the path. An absolute segment replaces the storage
     * outright; otherwise the storage is first made owned (a borrowed view
     * is copied, so whatever it shares is left alone) and then extended.
     */
    method Push(seg: Cow)
      requires Valid()
      modifies this
      ensures Valid()
      ensures Contents() == Join(old(Contents()), seg.text)
      ensures IsAbsolute(seg.text) ==> cow == seg
      ensures !IsAbsolute(seg.text) ==> cow.Owned?
    {
      if IsAbsolute(seg.text) {
        cow := seg;
      } else {
        // Promote to an owned buffer before mutating.
        if cow.Borrowed? {
          cow := Owned(cow.text);
        }
        if UnixStyle(cow.text) {
          // Unix style: add a slash unless it is already there.
          if !EndsWithChar(cow.text, '/') {
            cow := Owned(cow.text + ['/']);
          }
        } else {
          // Windows style: add a backslash unless it is already there.
          if !EndsWithChar(cow.text, '\\') {
            cow := Owned(cow.text + ['\\']);
          }
        }
        cow := Owned(cow.text + seg.text);
      }
    }

    /** A new path that views this path's text without owning it. */
    method Borrow() returns (view: Path)
      requires Valid()
      ensures fresh(view) && view.Valid()
      ensures view.cow == Borrowed(Contents())
    {
      view := new Path(Borrowed(cow.text));
    }

    /**
     * The URI of the current text: the raw-file host exactly for text under
     * `/rustc/`, a `file:` URI otherwise; together with the style it gives
     * the text back.
     */
    function ToUri(): (uri: string)
      reads this
      ensures uri == UriOf(Contents())
      ensures RustSourceUrl <= uri <==> RustcPrefix <= Contents()
      ensures RustSourceUrl <= uri || FileRoot <= uri
      ensures PathOfUri(uri, UnixStyle(Contents())) == Some(Contents())
    {
      UriRoundTrip(cow.text);
      UriOf(cow.text)
    }
  }
}
