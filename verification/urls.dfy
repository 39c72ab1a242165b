/** An abstract URL: Foundation parsing (`URL(string:)`, `URLComponents`) is
    not modelled, so a URL is the record of the parts the core reads or
    rewrites. */
module Urls {
  import opened Wrappers

  datatype QueryItem = QueryItem(name: string, value: string)

  /** `authority` (user, host and port) is carried through unchanged by every
      operation of the core. */
  datatype Url = Url(scheme: Option<string>, authority: string, path: string, query: seq<QueryItem>)

  predicate EndsWithSlash(s: string) {
    |s| > 0 && s[|s| - 1] == '/'
  }

  predicate StartsWithSlash(s: string) {
    |s| > 0 && s[0] == '/'
  }

  /** Foundation's `appending(path:)`: joins one path onto the URL's path with
      exactly one separator between them when the base path does not already
      end with one. */
  function AppendingPath(u: Url, component: string): (r: Url)
    ensures r.scheme == u.scheme && r.authority == u.authority && r.query == u.query
    ensures |u.path| <= |r.path| && r.path[..|u.path|] == u.path
    ensures |r.path| == |u.path| + |component| + (if EndsWithSlash(u.path) then 0 else 1)
    ensures r.path[|r.path| - |component|..] == component
    ensures !EndsWithSlash(u.path) ==> r.path[|u.path|] == '/'
  {
    if EndsWithSlash(u.path) then u.(path := u.path + component)
    else u.(path := u.path + "/" + component)
  }

  /** ASCII lower-casing, which is what `lowercased()` does to a URL scheme. */
  function LowerChar(c: char): (r: char)
    ensures 'A' <= c <= 'Z' ==> 'a' <= r <= 'z' && r as int - c as int == 32
    ensures !('A' <= c <= 'Z') ==> r == c
  {
    if 'A' <= c <= 'Z' then (c as int + 32) as char else c
  }

  function Lower(s: string): (r: string)
    ensures |r| == |s|
    ensures forall i :: 0 <= i < |s| ==> r[i] == LowerChar(s[i])
  {
    seq(|s|, i requires 0 <= i < |s| => LowerChar(s[i]))
  }

  /** Lower-casing twice is lower-casing once. */
  lemma LowerIdempotent(s: string)
    ensures Lower(Lower(s)) == Lower(s)
  {
    var l := Lower(s);
    assert forall i :: 0 <= i < |l| ==> LowerChar(l[i]) == l[i];
  }
}
