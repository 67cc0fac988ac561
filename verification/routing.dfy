/** How the HTTP framework matches a request path against a registered
    route under its default settings: letters match regardless of ASCII
    case, and one trailing slash is tolerated. */
module Routing {

  /** ASCII lower-casing; other characters are left alone (a non-ASCII
      letter never folds onto an ASCII one in a case-insensitive match). */
  function AsciiLower(s: string): (r: string)
    ensures |r| == |s|
    ensures forall i :: 0 <= i < |s| ==> (r[i] == s[i] || ('A' <= s[i] <= 'Z' && r[i] as int == s[i] as int + 32))
    ensures forall i :: 0 <= i < |s| ==> !('A' <= r[i] <= 'Z')
  {
    seq(|s|, i requires 0 <= i < |s| => if 'A' <= s[i] <= 'Z' then (s[i] as int + 32) as char else s[i])
  }

  /** `path` reaches the handler registered for the lower-case `route`. */
  predicate RouteMatches(route: string, path: string)
  {
    var p := AsciiLower(path);
    p == route || p == route + "/"
  }

  /** The route itself, its upper-case spelling and its trailing-slash
      form all reach the handler; a longer path does not. */
  lemma RouteMatchingExamples()
    ensures RouteMatches("/log", "/log") && RouteMatches("/log", "/LOG/") && RouteMatches("/log", "/Log")
    ensures !RouteMatches("/log", "/log//") && !RouteMatches("/log", "/logs")
  {
    assert AsciiLower("/LOG/") == "/log/";
    assert AsciiLower("/Log") == "/log";
    assert AsciiLower("/log") == "/log";
    assert |AsciiLower("/log//")| == 6;
    assert AsciiLower("/logs")[4] == 's';
  }

  /** Lower-casing is idempotent, so matching depends on the path only up
      to ASCII case; and a matching path is the route itself or the route
      plus one character. */
  lemma RouteMatchingIgnoresCase(route: string, path: string)
    ensures AsciiLower(AsciiLower(path)) == AsciiLower(path)
    ensures RouteMatches(route, path) <==> RouteMatches(route, AsciiLower(path))
    ensures RouteMatches(route, path) ==> |path| == |route| || |path| == |route| + 1
  {
  }
}
