/**
 * The unit tests of src/path.rs, restated: classifier cases as lemmas, and
 * the path-building scenarios as methods that build `Path` objects and
 * return the URIs they produce.
 */
module PathTests {
  import opened Paths

  /** The empty string is not absolute. */
  lemma IsAbsoluteEmpty()
    ensures !IsAbsolute("")
  {
  }

  /** Unix-style paths are absolute; a relative one is not. */
  lemma IsAbsoluteUnix()
    ensures IsAbsolute("/") && IsAbsolute("/sbin") && IsAbsolute("/home/user")
    ensures !IsAbsolute("") && !IsAbsolute("usr/local")
  {
  }

  /** Drive-letter paths in either case are absolute; a lone backslash or a bare name is not. */
  lemma IsAbsoluteWindows()
    ensures IsAbsolute("a:\\") && IsAbsolute("A:\\")
    ensures IsAbsolute("c:\\Windows\\System32") && IsAbsolute("C:\\Windows\\System32")
    ensures !IsAbsolute("\\User") && !IsAbsolute("User\\Someone Special")
  {
  }

  // The scenarios first as facts about the text a sequence of pushes builds
  // and the URI of that text, then replayed on `Path` objects.

  /** Appending `etc` and `passwd` to the Unix root. */
  lemma UnixAppendScenario()
    ensures Join(Join("/", "etc"), "passwd") == "/etc/passwd"
    ensures UriOf("/etc/passwd") == "file:///etc/passwd"
  {
    assert !(RustcPrefix <= "/etc/passwd") by { assert "/etc/passwd"[1] != RustcPrefix[1]; }
    UriOfCases("/etc/passwd");
  }

  /** An absolute segment replaces `/etc/passwd`. */
  lemma UnixReplaceScenario()
    ensures Join(Join("/etc", "passwd"), "/etc/hosts") == "/etc/hosts"
    ensures UriOf("/etc/hosts") == "file:///etc/hosts"
  {
    assert !(RustcPrefix <= "/etc/hosts") by { assert "/etc/hosts"[1] != RustcPrefix[1]; }
    UriOfCases("/etc/hosts");
  }

  /** Appending to a drive root uses backslashes and the three-slash `file:` form. */
  lemma WindowsDriveScenario()
    ensures Join(Join("C:\\", "Windows"), "System32") == "C:\\Windows\\System32"
    ensures UriOf("C:\\Windows\\System32") == "file:///C:\\Windows\\System32"
  {
    UriOfCases("C:\\Windows\\System32");
  }

  /** Appending to a bare UNC root. */
  lemma WindowsUncScenario()
    ensures Join(Join("\\\\", "Server"), "Share") == "\\\\Server\\Share"
    ensures UriOf("\\\\Server\\Share") == "file:///\\\\Server\\Share"
  {
    UriOfCases("\\\\Server\\Share");
  }

  /** A path on another drive replaces the whole buffer. */
  lemma WindowsReplaceScenario()
    ensures Join(Join("a:\\", "Folder"), "F:\\Directory\\File.html") == "F:\\Directory\\File.html"
    ensures UriOf("F:\\Directory\\File.html") == "file:///F:\\Directory\\File.html"
  {
    UriOfCases("F:\\Directory\\File.html");
  }

  /** A path under `/rustc/` maps to the Rust repository's raw-file host. */
  lemma RustcScenario()
    ensures UriOf("/rustc/folder/file.rs")
         == "https://raw.githubusercontent.com" + "/rust-lang/rust/folder/file.rs"
  {
  }

  /** Unix scenarios on `Path` objects: appending to `/`, and replacing with an absolute segment. */
  method PathUnix() returns (appended: string, replaced: string)
    ensures appended == "file:///etc/passwd"
    ensures replaced == "file:///etc/hosts"
  {
    UnixAppendScenario();
    UnixReplaceScenario();
    var path := new Path(Owned("/"));
    path.Push(Owned("etc"));
    path.Push(Owned("passwd"));
    appended := path.ToUri();

    path := new Path(Owned("/etc"));
    path.Push(Owned("passwd"));
    path.Push(Owned("/etc/hosts"));
    replaced := path.ToUri();
  }

  /** Windows scenarios on `Path` objects: drive root, UNC root, and replacement by another drive. */
  method PathWindows() returns (drive: string, unc: string, replaced: string)
    ensures drive == "file:///C:\\Windows\\System32"
    ensures unc == "file:///\\\\Server\\Share"
    ensures replaced == "file:///F:\\Directory\\File.html"
  {
    WindowsDriveScenario();
    WindowsUncScenario();
    WindowsReplaceScenario();
    var path := new Path(Owned("C:\\"));
    path.Push(Owned("Windows"));
    path.Push(Owned("System32"));
    drive := path.ToUri();

    path := new Path(Owned("\\\\"));
    path.Push(Owned("Server"));
    path.Push(Owned("Share"));
    unc := path.ToUri();

    path := new Path(Owned("a:\\"));
    path.Push(Owned("Folder"));
    path.Push(Owned("F:\\Directory\\File.html"));
    replaced := path.ToUri();
  }

  /** The `/rustc/` scenario on a `Path` object. */
  method PathRustc() returns (uri: string)
    ensures uri == "https://raw.githubusercontent.com" + "/rust-lang/rust/folder/file.rs"
  {
    RustcScenario();
    var path := new Path(Owned("/rustc/folder/file.rs"));
    uri := path.ToUri();
  }

  /**
   * A borrowed view and the path it was taken from evolve independently:
   * pushing onto the view copies the text first, and pushing onto the
   * original leaves the view as it was.
   */
  method BorrowIndependence() returns (original: string, view: string)
    ensures original == "/etc/hosts"
    ensures view == "/etc/passwd"
  {
    var path := new Path(Owned("/etc"));
    var borrowed := path.Borrow();
    borrowed.Push(Borrowed("passwd"));
    path.Push(Owned("hosts"));
    original, view := path.Contents(), borrowed.Contents();
  }

  /**
   * For every path and every two segments: a view borrowed from the path and
   * the path itself, each pushed onto afterwards, hold exactly what their own
   * push produces from the shared text, so neither push reaches the other.
   */
  method BorrowThenPushBoth(path: Path, onView: Cow, onPath: Cow) returns (view: Path)
    requires path.Valid()
    modifies path
    ensures view.Contents() == Join(old(path.Contents()), onView.text)
    ensures path.Contents() == Join(old(path.Contents()), onPath.text)
  {
    view := path.Borrow();
    view.Push(onView);
    path.Push(onPath);
  }
}
