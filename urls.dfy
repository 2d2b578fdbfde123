/**
 * The part of `url::Url` the connection relies on: `join` with a relative
 * reference made of plain path characters, resolved by the rules of section
 * 5.2 of RFC 3986 (which the url crate follows for such references).
 */
module Urls {
  import opened Wrappers

  /**
   * A parsed URL. `origin` is the scheme and authority, untouched by `join`;
   * `cannotBeABase` marks URLs such as `mailto:x` that nothing can be joined onto.
   */
  datatype Url = Url(origin: string, path: string, query: Option<string>, fragment: Option<string>,
                     cannotBeABase: bool)

  datatype UrlError = RelativeUrlWithCannotBeABaseBase

  /** Unreserved characters other than `.`: they are never percent-encoded and form no dot segment. */
  predicate SegmentChar(c: char) {
    'a' <= c <= 'z' || 'A' <= c <= 'Z' || '0' <= c <= '9' || c == '-' || c == '_' || c == '~'
  }

  predicate IsSegment(s: string) { forall i :: 0 <= i < |s| ==> SegmentChar(s[i]) }

  /** A single path segment: no `/`, no dot segment, nothing the parser would encode or split off. */
  type Segment = s: string | IsSegment(s)

  /**
   * A reference `join` resolves as a path alone: segment characters and `/`,
   * not starting with `//` (which would name a new host).
   */
  predicate PlainReference(r: string) {
    (forall i :: 0 <= i < |r| ==> SegmentChar(r[i]) || r[i] == '/') &&
    !(2 <= |r| && r[0] == '/' && r[1] == '/')
  }

  /** The prefix of `p` up to and including its last `/`; empty when `p` has none. */
  function Dir(p: string): (d: string)
    ensures d <= p
    ensures d == [] || d[|d| - 1] == '/'
    ensures forall i :: |d| <= i < |p| ==> p[i] != '/'
    decreases |p|
  {
    if p == [] then [] else if p[|p| - 1] == '/' then p else Dir(p[..|p| - 1])
  }

  /** The directory a relative path is merged into (section 5.2.3 of RFC 3986; the base has an authority). */
  function BaseDir(basePath: string): (d: string)
    ensures basePath == [] ==> d == "/"
    ensures basePath != [] ==> d <= basePath
    ensures basePath != [] ==> d == [] || d[|d| - 1] == '/'
    ensures basePath != [] ==> forall i :: |d| <= i < |basePath| ==> basePath[i] != '/'
    ensures basePath != [] && basePath[0] == '/' ==> d != [] && d[|d| - 1] == '/'
  {
    if basePath == [] then "/" else Dir(basePath)
  }

  /**
   * `Url::join(r)`: an empty reference keeps the base path and query, one
   * starting with `/` replaces the path, any other is appended to the base
   * path's directory. Query and fragment of the base are dropped otherwise.
   */
  function Join(base: Url, r: string): (u: Result<Url, UrlError>)
    requires PlainReference(r)
    ensures u.Err? <==> base.cannotBeABase
    ensures u.Ok? ==> u.value.origin == base.origin && !u.value.cannotBeABase && u.value.fragment.None?
    ensures u.Ok? && r == [] ==> u.value.path == base.path && u.value.query == base.query
    ensures u.Ok? && r != [] ==> u.value.query.None?
    ensures u.Ok? && r != [] && r[0] == '/' ==> u.value.path == r
    ensures u.Ok? && r != [] && r[0] != '/' ==> u.value.path == BaseDir(base.path) + r
  {
    if base.cannotBeABase then Err(RelativeUrlWithCannotBeABaseBase)
    else
      var path := if r == [] then base.path else if r[0] == '/' then r else BaseDir(base.path) + r;
      var query := if r == [] then base.query else None;
      Ok(Url(base.origin, path, query, None, false))
  }

  /** A directory is its own directory. */
  lemma DirOfDirectory(d: string)
    requires d != [] && d[|d| - 1] == '/'
    ensures Dir(d) == d && BaseDir(d) == d
  {
  }

  /** Appending a segment without `/` to a directory does not move the directory. */
  lemma {:induction false} DirAfterSegment(d: string, seg: string)
    requires d != [] && d[|d| - 1] == '/'
    requires IsSegment(seg)
    ensures Dir(d + seg) == d && BaseDir(d + seg) == d
    decreases |seg|
  {
    if seg == [] {
      assert d + seg == d;
    } else {
      var s := d + seg;
      assert s[|s| - 1] == seg[|seg| - 1];
      assert s[..|s| - 1] == d + seg[..|seg| - 1];
      DirAfterSegment(d, seg[..|seg| - 1]);
    }
  }

  /** Joining onto a path that ends in `/` appends the reference. */
  lemma JoinIntoDirectory(base: Url, r: string)
    requires !base.cannotBeABase && base.path != [] && base.path[|base.path| - 1] == '/'
    requires PlainReference(r) && (r == [] || r[0] != '/')
    ensures Join(base, r).Ok? && Join(base, r).value.path == base.path + r
  {
    DirOfDirectory(base.path);
  }

  /** Joining onto a path whose last segment has no trailing `/` replaces that segment. */
  lemma JoinReplacesLastSegment(base: Url, d: string, last: string, r: string)
    requires !base.cannotBeABase && base.path == d + last
    requires d != [] && d[|d| - 1] == '/' && IsSegment(last)
    requires PlainReference(r) && r != [] && r[0] != '/'
    ensures Join(base, r).Ok? && Join(base, r).value.path == d + r
  {
    DirAfterSegment(d, last);
  }
}
