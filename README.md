# Absolute paths and their URIs (wasm-source-map, `src/path.rs`)

This project models the path helper of wasm-source-map in Dafny. It has three parts:

- **The classifier.** `IsAbsolute` accepts a string in one of three styles: Unix (`/…`), a Windows drive letter (`C:…`) or Windows UNC (`\\…`). It looks at the first one or two characters only.
- **The `Path` object.** Its buffer is always absolute. The buffer is a `Cow`: either a read-only view of text owned elsewhere (`Borrowed`) or a buffer the path owns (`Owned`).
  - `Push` either replaces the buffer with an absolute segment, or appends a relative one. Before appending, it adds the separator sniffed from the buffer's first character, unless the buffer already ends with that separator.
  - Appending first promotes a borrowed view to an owned copy.
  - `Borrow` makes a new path that views the same text.
- **The URI projection.** `UriOf` / `Path.ToUri` gives one of three results:
  - paths under `/rustc/` map to `https://raw.githubusercontent.com/rust-lang/rust/…`;
  - other Unix paths map to `file://` + path;
  - Windows paths map to `file:///` + path.

  No percent-encoding is done, and backslashes pass through unchanged.

Two modules make up the model:

- `Paths` (`paths.dfy`) models the source file.
- `PathTests` (`path_tests.dfy`) restates the file's unit tests. Each scenario appears twice:
  - as a lemma about `Join` and `UriOf`;
  - as a method that replays it on `Path` objects and returns the URIs, pinned by its `ensures`.

`Join(base, seg)` is the specification of `Push`: `Push` is proved to leave `Join(old text, seg)` in the buffer. `PushAll` folds `Join` over a sequence of segments. It stands for the usual life of a path: build it, push several times, then ask for the URI. Three proofs by induction use it.

A path's style is decided once, by `UnixStyle`: Unix when the text starts with `/`, Windows otherwise. Both the separator and the URI form follow it.

Strings are `seq<char>`. The source compares UTF-8 bytes, but only against ASCII bytes, so comparing characters gives the same result.

## Model

| member | source | states |
|---|---|---|
| `Paths.IsAbsolute` | src/path.rs:7-22 | false on the empty string; true exactly for a leading `/`, an ASCII letter followed by `:`, or two leading backslashes (the three grammars written as prefixes) |
| `Paths.AbsoluteExtends` | src/path.rs:13-21 | appending anything to an absolute string keeps it absolute (only the head is inspected) |
| `Paths.AbsoluteByHead` | src/path.rs:7-22 | two strings of length at least two that share their first two characters are both absolute or both not |
| `Paths.StripPrefix` | src/path.rs:24-30 | returns a value exactly when `p` starts with `prefix`, and then that value is the suffix with `prefix + rest == p` |
| `Paths.Join` | src/path.rs:40-58 | the text after a push; an absolute base stays absolute whatever the segment |
| `Paths.JoinAbsoluteReplaces` | src/path.rs:41-42 | an absolute segment becomes the whole text; the old contents are discarded |
| `Paths.JoinRelativeJunction` | src/path.rs:44-56 | a relative segment is appended with exactly one separator at the junction: `base + seg` when `base` already ends with the sniffed separator, `base + sep + seg` otherwise, in both directions |
| `Paths.JoinRelativeKeepsStyle` | src/path.rs:44-56 | a relative push keeps the old text as a prefix, ends with the segment, and leaves the sniffed separator unchanged |
| `Paths.PushAllKeepsAbsolute` | src/path.rs:40-58 | any sequence of pushes onto an absolute path leaves it absolute |
| `Paths.PushAllRestartsAtAbsolute` | src/path.rs:41-42 | pushing an absolute segment at position k forgets the base and every segment before k |
| `Paths.PushAllRelativeExtends` | src/path.rs:44-56 | pushing only relative segments extends the text (old text is a prefix) and keeps its separator style |
| `Paths.FileUriIsNotRustSource` | src/path.rs:67-76 | a URI starting with `file:///` never starts with the Rust raw-file host |
| `Paths.UriOf` | src/path.rs:64-77 | every URI starts with `file:///` or the Rust raw-file host, and with the latter exactly when the path starts with `/rustc/` |
| `Paths.UriOfCases` | src/path.rs:64-77 | `/rustc/` + rest maps to the raw-file host + rest; another path starting with `/` maps to `file://` + path; any other path maps to `file:///` + path |
| `Paths.UriRoundTrip` | src/path.rs:64-77 | given the path's style, its URI reads back to exactly the path |
| `Paths.UriInjectiveWithinStyle` | src/path.rs:71-76 | two paths of the same style with the same URI are equal |
| `Paths.UriStylesCollide` | src/path.rs:71-76 | the absolute paths `/C:\` and `C:\` both give `file:///C:\` |
| `Paths.Path.constructor` | src/path.rs:35-38 | only an absolute text can start a path, and it is stored unchanged |
| `Paths.Path.Push` | src/path.rs:40-58 | the buffer becomes `Join(old buffer, seg)` and stays absolute; an absolute segment is stored as given; a relative one leaves the buffer owned |
| `Paths.Path.Borrow` | src/path.rs:60-62 | a fresh, valid path that borrows the identical text |
| `Paths.Path.ToUri` | src/path.rs:64-78 | the URI of the buffer is `UriOf` of it: the raw-file host exactly when the buffer starts with `/rustc/`, `file:///` otherwise, and with the buffer's style it reads back to the buffer |
| `PathTests.IsAbsoluteEmpty` | src/path.rs:85-88 | the empty string is not absolute |
| `PathTests.IsAbsoluteUnix` | src/path.rs:90-97 | `/`, `/sbin`, `/home/user` are absolute; `""` and `usr/local` are not |
| `PathTests.IsAbsoluteWindows` | src/path.rs:99-107 | `a:\`, `A:\`, `c:\Windows\System32`, `C:\Windows\System32` are absolute; `\User` and `User\Someone Special` are not |
| `PathTests.UnixAppendScenario` | src/path.rs:111-114 | `/` + `etc` + `passwd` is `/etc/passwd`, with URI `file:///etc/passwd` |
| `PathTests.UnixReplaceScenario` | src/path.rs:116-119 | `/etc` + `passwd` + `/etc/hosts` is `/etc/hosts`, with URI `file:///etc/hosts` |
| `PathTests.WindowsDriveScenario` | src/path.rs:124-127 | `C:\` + `Windows` + `System32` gives `file:///C:\Windows\System32` |
| `PathTests.WindowsUncScenario` | src/path.rs:129-132 | `\\` + `Server` + `Share` gives `file:///\\Server\Share` |
| `PathTests.WindowsReplaceScenario` | src/path.rs:134-137 | `a:\` + `Folder` + `F:\Directory\File.html` gives `file:///F:\Directory\File.html` |
| `PathTests.RustcScenario` | src/path.rs:141-146 | `/rustc/folder/file.rs` maps to the raw-file URL of `folder/file.rs` |
| `PathTests.PathUnix` | src/path.rs:110-120 | built with `Path` objects, the two Unix scenarios return `file:///etc/passwd` and `file:///etc/hosts` |
| `PathTests.PathWindows` | src/path.rs:123-138 | built with `Path` objects, the three Windows scenarios return the URIs the tests expect |
| `PathTests.PathRustc` | src/path.rs:141-146 | a `Path` on `/rustc/folder/file.rs` returns the raw-file URL |
| `PathTests.BorrowIndependence` | src/path.rs:44-62 | after `Borrow`, pushing onto the view and onto the original changes each alone: `/etc/hosts` and `/etc/passwd` |
| `PathTests.BorrowThenPushBoth` | src/path.rs:40-62 | for every valid path and any two segments: after borrowing a view and pushing one segment onto each, each holds `Join` of the shared old text and its own segment |

## Left out

- Rust lifetimes and the borrow checker. A `Cow` here holds its text as a value. Rust forbids pushing onto a path while a borrowed view of it is alive. The model allows this and proves, for every path and segment, that the view is unaffected (`PathTests.BorrowThenPushBoth`).
- The `Cow` a caller passes in is taken as a value tagged `Borrowed` or `Owned`. Where that text lives in memory is not modelled.
- The `assert!` in `Path::new` is a precondition of the constructor. The panic itself is not modelled.
- The unchecked slice in `strip_prefix` is a checked slice `p[|prefix|..]`. Its bounds follow from the prefix test.
- UTF-8 bytes versus characters: the model works on characters (see above).
- `format!` is modelled as string concatenation.
- The test harness is replaced by lemmas and methods whose `ensures` state the expected values.
- `UriOf` does not follow the file URI scheme of RFC 8089 (no percent-encoding, raw backslashes). The model follows the code. One consequence: the projection is not injective across styles (`Paths.UriStylesCollide`).
