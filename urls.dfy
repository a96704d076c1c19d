/** The parts of Python 2's `urlparse` module that the core uses: splitting a URL
    into scheme, network location and the rest (`urlsplit`), its path, putting the
    parts back together (`urlunsplit`) and resolving a reference against a base
    (`urljoin`, section 5.2 of RFC 3986 without dot-segment removal). */
module Urls {
  import opened Strings

  predicate IsSchemeChar(c: char) {
    IsCased(c) || IsDigit(c) || c == '+' || c == '-' || c == '.'
  }

  /** What a scheme looks like after `urlsplit`: scheme characters, lower case. */
  predicate IsScheme(s: string) {
    forall j :: 0 <= j < |s| ==> IsSchemeChar(s[j]) && !IsUpper(s[j])
  }

  predicate IsNetlocDelimiter(c: char) {
    c == '/' || c == '?' || c == '#'
  }

  predicate IsNetloc(n: string) {
    forall j :: 0 <= j < |n| ==> !IsNetlocDelimiter(n[j])
  }

  /** The end of the network location that starts at `from` (`_splitnetloc`). */
  function NetlocEnd(s: string, from: nat): (d: nat)
    requires from <= |s|
    ensures from <= d <= |s|
    decreases |s| - from
  {
    if from == |s| then from
    else if IsNetlocDelimiter(s[from]) then from
    else NetlocEnd(s, from + 1)
  }

  /** The network location runs up to the first delimiter after `from`. */
  lemma {:induction false} NetlocEndSpec(s: string, from: nat)
    requires from <= |s|
    ensures forall j :: from <= j < NetlocEnd(s, from) ==> !IsNetlocDelimiter(s[j])
    ensures NetlocEnd(s, from) < |s| ==> IsNetlocDelimiter(s[NetlocEnd(s, from)])
    decreases |s| - from
  {
    if from < |s| && !IsNetlocDelimiter(s[from]) {
      NetlocEndSpec(s, from + 1);
    }
  }

  /** A string of digits after the first colon is a port, not the rest of a URL. */
  predicate IsPortNumber(s: string) {
    s != [] && forall j :: 0 <= j < |s| ==> IsDigit(s[j])
  }

  /** The result of `urlsplit`; `rest` is the path with its query and fragment. */
  datatype Parts = Parts(scheme: string, netloc: string, rest: string)

  /** The scheme of `url` and what follows its colon (the first half of `urlsplit`). */
  function SplitScheme(url: string): (string, string) {
    var i := IndexOf(url, ':');
    if 0 < i < |url| && url[..i] == "http" then ("http", url[i + 1..])
    else if 0 < i < |url| && (forall j :: 0 <= j < i ==> IsSchemeChar(url[j]))
            && !IsPortNumber(url[i + 1..])
    then (Lower(url[..i]), url[i + 1..])
    else ("", url)
  }

  function Split(url: string): Parts {
    var (scheme, after) := SplitScheme(url);
    if StartsWith(after, "//") then
      var d := NetlocEnd(after, 2);
      Parts(scheme, after[2..d], after[d..])
    else Parts(scheme, "", after)
  }

  /** A split scheme is in lower case and made of scheme characters; a network
      location holds no delimiter. */
  lemma SplitParts(url: string)
    ensures IsScheme(Split(url).scheme) && IsNetloc(Split(url).netloc)
  {
    var (scheme, after) := SplitScheme(url);
    if StartsWith(after, "//") {
      NetlocEndSpec(after, 2);
    }
  }

  /** The path: what precedes the query and the fragment. */
  function PathOf(rest: string): (path: string)
    ensures StartsWith(rest, path)
  {
    var q := IndexOf(rest, '?');
    var f := IndexOf(rest, '#');
    rest[..if q < f then q else f]
  }

  function Netloc(url: string): string {
    Split(url).netloc
  }

  function Path(url: string): string {
    PathOf(Split(url).rest)
  }

  /** `scheme + "://" + netloc` of a URL (`Client.base_host`). */
  function BaseHost(url: string): string {
    Split(url).scheme + "://" + Split(url).netloc
  }

  /** `urlunsplit`, every scheme taken to use a network location. */
  function Unsplit(scheme: string, netloc: string, rest: string): string {
    var path := PathOf(rest);
    var body :=
      if netloc != "" || (scheme != "" && !StartsWith(rest, "//")) then
        "//" + netloc + (if path != "" && rest[0] != '/' then "/" + rest else rest)
      else rest;
    if scheme != "" then scheme + ":" + body else body
  }

  /** The directory part of a path: up to and including its last '/'. */
  function Directory(path: string): (d: string)
    ensures StartsWith(path, d)
  {
    if path == "" then ""
    else if path[|path| - 1] == '/' then path
    else
      var d := Directory(path[..|path| - 1]);
      assert path[..|path| - 1][..|d|] == path[..|d|];
      d
  }

  /** `urljoin(base, url)`. */
  function UrlJoin(base: string, url: string): string {
    if base == "" then url
    else if url == "" then base
    else
      var b := Split(base);
      var u := Split(url);
      var scheme := if u.scheme == "" then b.scheme else u.scheme;
      if scheme != b.scheme then url
      else if u.netloc != "" then Unsplit(scheme, u.netloc, u.rest)
      else if StartsWith(u.rest, "/") then Unsplit(scheme, b.netloc, u.rest)
      else if PathOf(u.rest) == "" then Unsplit(scheme, b.netloc, PathOf(b.rest) + u.rest)
      else Unsplit(scheme, b.netloc, Directory(PathOf(b.rest)) + u.rest)
  }

  lemma LowerOfScheme(s: string)
    requires IsScheme(s)
    ensures Lower(s) == s
  {
  }

  /** A URL put together from a scheme, a network location and a tail that starts a
      path (or is empty) splits back into exactly those three parts. */
  lemma SplitOrigin(scheme: string, netloc: string, tail: string)
    requires scheme != "" && IsScheme(scheme) && IsNetloc(netloc)
    requires tail == "" || IsNetlocDelimiter(tail[0])
    ensures Split(scheme + "://" + netloc + tail) == Parts(scheme, netloc, tail)
  {
    var after := "//" + netloc + tail;
    assert scheme + "://" + netloc + tail == scheme + ":" + after;
    SchemeOfOrigin(scheme, after);
    NetlocEndOfOrigin(netloc, tail);
    assert after[2..2 + |netloc|] == netloc;
    assert after[2 + |netloc|..] == tail;
  }

  /** The scheme of `scheme:rest`, when `rest` starts with "//". */
  lemma SchemeOfOrigin(scheme: string, rest: string)
    requires scheme != "" && IsScheme(scheme) && StartsWith(rest, "//")
    ensures SplitScheme(scheme + ":" + rest) == (scheme, rest)
  {
    var url := scheme + ":" + rest;
    var i := |scheme|;
    assert url[i] == ':';
    assert forall j :: 0 <= j < i ==> url[j] == scheme[j] && url[j] != ':';
    assert IndexOf(url, ':') == i;
    assert url[..i] == scheme && url[i + 1..] == rest;
    assert !IsPortNumber(rest) by { assert !IsDigit(rest[0]); }
    LowerOfScheme(scheme);
  }

  /** After "//", the network location ends where the tail starts. */
  lemma NetlocEndOfOrigin(netloc: string, tail: string)
    requires IsNetloc(netloc)
    requires tail == "" || IsNetlocDelimiter(tail[0])
    ensures NetlocEnd("//" + netloc + tail, 2) == 2 + |netloc|
  {
    var after := "//" + netloc + tail;
    NetlocEndSpec(after, 2);
    assert forall j :: 2 <= j < 2 + |netloc| ==> after[j] == netloc[j - 2];
    assert 2 + |netloc| < |after| ==> after[2 + |netloc|] == tail[0];
  }

  /** `Client.__init__`: the base host keeps the scheme and the host of the base URL. */
  lemma BaseHostKeepsHost(url: string)
    requires Split(url).scheme != ""
    ensures Split(BaseHost(url)) == Parts(Split(url).scheme, Split(url).netloc, "")
  {
    var p := Split(url);
    SplitParts(url);
    SplitOrigin(p.scheme, p.netloc, "");
    assert BaseHost(url) == p.scheme + "://" + p.netloc + "";
  }

  /** A reference that is an absolute path is resolved against the scheme and host of
      the base: the result is the base host followed by the reference, so it has the
      base's host and the reference's path (section 5.2.2 of RFC 3986). */
  lemma {:induction false} JoinAbsolutePath(base: string, ref: string)
    requires Split(base).scheme != ""
    requires StartsWith(ref, "/") && !StartsWith(ref, "//")
    ensures UrlJoin(base, ref) == BaseHost(base) + ref
    ensures Split(UrlJoin(base, ref)) == Parts(Split(base).scheme, Split(base).netloc, ref)
    ensures Netloc(UrlJoin(base, ref)) == Netloc(base)
    ensures Path(UrlJoin(base, ref)) == PathOf(ref)
  {
    var b := Split(base);
    SplitParts(base);
    assert base != "";
    SplitOfPath(ref);
    var joined := UrlJoin(base, ref);
    assert joined == Unsplit(b.scheme, b.netloc, ref);
    UnsplitPath(b.scheme, b.netloc, ref);
    SplitOrigin(b.scheme, b.netloc, ref);
  }

  lemma UnsplitPath(scheme: string, netloc: string, ref: string)
    requires scheme != ""
    requires StartsWith(ref, "/") && !StartsWith(ref, "//")
    ensures Unsplit(scheme, netloc, ref) == scheme + "://" + netloc + ref
  {
  }

  /** A reference that starts with a single '/' has no scheme and no host. */
  lemma SplitOfPath(ref: string)
    requires StartsWith(ref, "/") && !StartsWith(ref, "//")
    ensures Split(ref) == Parts("", "", ref)
  {
    var i := IndexOf(ref, ':');
    assert ref[0] == '/';
    if 0 < i < |ref| {
      assert ref[..i][0] == '/';
      assert !IsSchemeChar(ref[0]);
    }
    assert SplitScheme(ref) == ("", ref);
  }
}
