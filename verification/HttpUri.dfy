/** Adding a query parameter or a path to a URI that was parsed before. */
module HttpUri {
  import opened Wrappers
  import opened Text

  datatype PathAndQuery = PathAndQuery(path: string, query: Option<string>)

  datatype Uri = Uri(scheme: Option<string>, authority: Option<string>, pathAndQuery: Option<PathAndQuery>)

  datatype UriError = InvalidUri | InvalidUriParts

  /** Which characters the URI library takes in a path and in a query. */
  datatype Grammar = Grammar(pathChar: char -> bool, queryChar: char -> bool) {
    ghost predicate Usual() {
      && !pathChar('?') && pathChar('/')
      && queryChar('&') && queryChar('=') && queryChar(':')
      && forall c :: IsDigit(c) || 'a' <= c <= 'z' ==> queryChar(c)
    }

    predicate PathText(s: string) {
      forall i :: 0 <= i < |s| ==> pathChar(s[i])
    }

    predicate QueryText(s: string) {
      forall i :: 0 <= i < |s| ==> queryChar(s[i])
    }

    predicate Parsed(p: PathAndQuery) {
      PathText(p.path) && (p.query.Some? ==> QueryText(p.query.value))
    }
  }

  function Print(p: PathAndQuery): string {
    p.path + if p.query.Some? then "?" + p.query.value else ""
  }

  /** A query begins after the first question mark. */
  function ParsePathAndQuery(g: Grammar, s: string): Option<PathAndQuery> {
    var p :=
      match SplitOnce(s, '?')
      case None => PathAndQuery(s, None)
      case Some((path, query)) => PathAndQuery(path, Some(query));
    if g.Parsed(p) then Some(p) else None
  }

  /** The URI library refuses a scheme without an authority or without a path, and an authority with a
      path but no scheme. */
  function FromParts(u: Uri): Result<Uri, UriError> {
    if u.scheme.Some? && (u.authority.None? || u.pathAndQuery.None?) then Failure(InvalidUriParts)
    else if u.scheme.None? && u.authority.Some? && u.pathAndQuery.Some? then Failure(InvalidUriParts)
    else Success(u)
  }

  function WithPathAndQuery(g: Grammar, u: Uri, text: string): Result<Uri, UriError> {
    match ParsePathAndQuery(g, text)
    case None => Failure(InvalidUri)
    case Some(p) => FromParts(u.(pathAndQuery := Some(p)))
  }

  /** `append_query_parameter`. */
  function AppendQueryParameter(g: Grammar, u: Uri, key: string, value: string): Result<Uri, UriError> {
    var text :=
      match u.pathAndQuery
      case None => "/?" + key + "=" + value
      case Some(p) =>
        var path := if p.path == "" then "/" else p.path;
        if p.query.Some? then path + "?" + p.query.value + "&" + key + "=" + value
        else path + "?" + key + "=" + value;
    WithPathAndQuery(g, u, text)
  }

  /** The directory, ended by a slash, and the path after it. */
  function Joined(u: Uri, path: string): string {
    if PathOf(u)[|PathOf(u)| - 1] == '/' then PathOf(u) + path else PathOf(u) + "/" + path
  }

  /** `extend_dir_with_path`. */
  function ExtendDirWithPath(g: Grammar, u: Uri, path: string): Result<Uri, UriError> {
    if path == "" then Success(u)
    else WithPathAndQuery(g, u, Print(PathAndQuery(Joined(u, path), QueryOf(u))))
  }

  function PathOf(u: Uri): (path: string)
    ensures path != ""
  {
    if u.pathAndQuery.Some? && u.pathAndQuery.value.path != "" then u.pathAndQuery.value.path else "/"
  }

  predicate HasPath(u: Uri) {
    u.pathAndQuery.Some? && u.pathAndQuery.value.path != ""
  }

  function QueryOf(u: Uri): Option<string> {
    if u.pathAndQuery.Some? then u.pathAndQuery.value.query else None
  }

  predicate SoundUri(g: Grammar, u: Uri) {
    u.pathAndQuery.Some? ==> g.Parsed(u.pathAndQuery.value)
  }

  /** What parsing a URI yields: a scheme and an authority that print back apart from each other, or
      neither, and a path that is absent, empty or begins with a slash. */
  predicate Located(u: Uri) {
    && (u.scheme.Some? <==> u.authority.Some?)
    && (u.scheme.Some? ==> u.scheme.value != "" && ':' !in u.scheme.value && '/' !in u.scheme.value)
    && (u.authority.Some? ==> '/' !in u.authority.value && '?' !in u.authority.value)
    && (u.pathAndQuery.Some? && u.pathAndQuery.value.path != "" ==> u.pathAndQuery.value.path[0] == '/')
  }

  /** The parameters of a query, separated by ampersands; an empty query is one empty parameter. */
  function Parameters(query: Option<string>): seq<string> {
    if query.None? then [] else Split(query.value, '&')
  }

  lemma {:induction false} SplitConcat(a: string, b: string, sep: char)
    ensures Split(a + [sep] + b, sep) == Split(a, sep) + Split(b, sep)
    decreases |a|
  {
    hide Split, SplitOnce;
    if sep !in a {
      SplitHead(a, b, sep);
    } else {
      SplitOnceCuts(a, sep);
      var (first, rest) := SplitOnce(a, sep).value;
      assert a + [sep] + b == first + [sep] + (rest + [sep] + b);
      SplitHead(first, rest, sep);
      SplitHead(first, rest + [sep] + b, sep);
      SplitConcat(rest, b, sep);
    }
  }

  /** Printing a parsed path and query, with a path free of question marks, and parsing it again. */
  lemma PrintedParses(g: Grammar, p: PathAndQuery)
    requires '?' !in p.path
    ensures ParsePathAndQuery(g, Print(p)) == if g.Parsed(p) then Some(p) else None
  {
    if p.query.Some? {
      SplitOnceFinds(p.path, p.query.value, '?');
      assert Print(p) == p.path + ['?'] + p.query.value;
    } else {
      SplitOnceFinds(p.path, "", '?');
      assert Print(p) == p.path;
    }
  }

  /** Appending a parameter succeeds exactly when it is written in query characters and the URI has both
      a scheme and an authority or neither; then the parameters are those of before and, after them, the new one, and
      nothing else of the URI changes, except that an empty path becomes "/". */
  lemma AppendAddsOneParameter(g: Grammar, u: Uri, key: string, value: string)
    requires g.Usual() && SoundUri(g, u)
    ensures var r := AppendQueryParameter(g, u, key, value);
            && (r.Success? <==> g.QueryText(key) && g.QueryText(value) && (u.scheme.Some? <==> u.authority.Some?))
            && (r.Failure? ==>
                  r.error == if g.QueryText(key) && g.QueryText(value) then InvalidUriParts else InvalidUri)
            && (r.Success? ==>
                  && SoundUri(g, r.value)
                  && r.value.scheme == u.scheme && r.value.authority == u.authority
                  && r.value.pathAndQuery.Some? && r.value.pathAndQuery.value.path == PathOf(u)
                  && (HasPath(u) ==> r.value.pathAndQuery.value.path == u.pathAndQuery.value.path)
                  && (!HasPath(u) ==> r.value.pathAndQuery.value.path == "/")
                  && ('&' !in key && '&' !in value ==>
                        Parameters(QueryOf(r.value)) == Parameters(QueryOf(u)) + [key + "=" + value]))
  {
    var parameter := key + "=" + value;
    var query := if QueryOf(u).Some? then QueryOf(u).value + "&" + parameter else parameter;
    var p := PathAndQuery(PathOf(u), Some(query));
    assert '?' !in p.path;
    PrintedParses(g, p);
    AppendPrints(g, u, key, value);
    ParameterText(g, key, value);
    if QueryOf(u).Some? {
      JoinedText(g, QueryOf(u).value, parameter);
      if '&' !in parameter {
        SplitConcat(QueryOf(u).value, parameter, '&');
        assert QueryOf(u).value + ['&'] + parameter == query;
      }
    }
    if '&' !in parameter {
      SplitHead(parameter, "", '&');
    }
  }

  lemma AppendPrints(g: Grammar, u: Uri, key: string, value: string)
    ensures var parameter := key + "=" + value;
            var query := if QueryOf(u).Some? then QueryOf(u).value + "&" + parameter else parameter;
            AppendQueryParameter(g, u, key, value)
            == WithPathAndQuery(g, u, Print(PathAndQuery(PathOf(u), Some(query))))
  {
    hide WithPathAndQuery;
    var parameter := key + "=" + value;
    if QueryOf(u).Some? {
      var query := QueryOf(u).value;
      assert PathOf(u) + "?" + query + "&" + key + "=" + value == PathOf(u) + ("?" + (query + "&" + parameter));
    } else {
      assert PathOf(u) + "?" + key + "=" + value == PathOf(u) + ("?" + parameter);
      assert "/?" + key + "=" + value == "/" + ("?" + parameter);
    }
  }

  lemma ParameterText(g: Grammar, key: string, value: string)
    requires g.Usual()
    ensures g.QueryText(key + "=" + value) <==> g.QueryText(key) && g.QueryText(value)
  {
    var all := key + "=" + value;
    assert forall i :: 0 <= i < |key| ==> all[i] == key[i];
    assert all[|key|] == '=';
    assert forall i :: 0 <= i < |value| ==> all[|key| + 1 + i] == value[i];
  }

  lemma JoinedText(g: Grammar, a: string, b: string)
    requires g.Usual() && g.QueryText(a)
    ensures g.QueryText(a + "&" + b) <==> g.QueryText(b)
  {
    var all := a + "&" + b;
    assert forall i :: 0 <= i < |b| ==> all[|a| + 1 + i] == b[i];
  }

  lemma PathHasNoMark(g: Grammar, u: Uri)
    requires g.Usual() && SoundUri(g, u)
    ensures '?' !in PathOf(u)
  {
  }

  /** A question mark in the added path begins the query, and the old one comes after it. */
  lemma MarkedPathCuts(g: Grammar, u: Uri, path: string)
    requires '?' !in PathOf(u) && '?' in path
    ensures var p := ParsePathAndQuery(g, Print(PathAndQuery(Joined(u, path), QueryOf(u))));
            p.Some? ==> p.value.query.Some? && p.value.query != QueryOf(u)
  {
    hide PathOf, QueryOf;
    SplitOnceCuts(path, '?');
    var (before, after) := SplitOnce(path, '?').value;
    var dir := Joined(u, "");
    var rest := after + if QueryOf(u).Some? then "?" + QueryOf(u).value else "";
    assert Joined(u, path) == dir + path;
    assert Print(PathAndQuery(Joined(u, path), QueryOf(u))) == (dir + before) + ['?'] + rest;
    SplitOnceFinds(dir + before, rest, '?');
    assert QueryOf(u).Some? ==> |rest| > |QueryOf(u).value|;
  }

  /** Nothing is added, or a path without a question mark is: then extending succeeds exactly when it is written
      in path characters and the URI has both a scheme and an authority or neither. */
  lemma ExtendSucceeds(g: Grammar, u: Uri, path: string)
    requires g.Usual() && SoundUri(g, u) && '?' !in path
    ensures var r := ExtendDirWithPath(g, u, path);
            if path == "" then r == Success(u)
            else if !g.PathText(path) then r == Failure(InvalidUri)
            else if u.scheme.Some? != u.authority.Some? then r == Failure(InvalidUriParts)
            else r.Success?
  {
    hide Print, ParsePathAndQuery, Joined, PathOf;
    if path != "" {
      PathHasNoMark(g, u);
      JoinedHasNoMark(u, path);
      JoinedPathText(g, u, path);
      QueryIsText(g, u);
      PrintedParses(g, PathAndQuery(Joined(u, path), QueryOf(u)));
    }
  }

  lemma QueryIsText(g: Grammar, u: Uri)
    requires SoundUri(g, u)
    ensures QueryOf(u).Some? ==> g.QueryText(QueryOf(u).value)
  {
  }

  lemma JoinedPathText(g: Grammar, u: Uri, path: string)
    requires g.Usual() && SoundUri(g, u)
    ensures g.PathText(Joined(u, path)) <==> g.PathText(path)
  {
    var all, n := Joined(u, path), |Joined(u, path)| - |path|;
    assert forall i :: 0 <= i < |path| ==> all[n + i] == path[i];
    assert forall i :: 0 <= i < n ==> g.pathChar(all[i]);
  }

  /** Extending a directory keeps the query, as promised, exactly when what is added has no question
      mark; then the path is the old one, with a slash at its end, and what is added. */
  lemma ExtendKeepsQuery(g: Grammar, u: Uri, path: string)
    requires g.Usual() && SoundUri(g, u)
    requires ExtendDirWithPath(g, u, path).Success?
    ensures var v := ExtendDirWithPath(g, u, path).value;
            && v.scheme == u.scheme && v.authority == u.authority
            && (QueryOf(v) == QueryOf(u) <==> '?' !in path)
            && ('?' !in path && path != "" ==>
                  && v.pathAndQuery.Some?
                  && v.pathAndQuery.value.path ==
                     (if !HasPath(u) then "/" + path
                      else if u.pathAndQuery.value.path[|u.pathAndQuery.value.path| - 1] == '/'
                      then u.pathAndQuery.value.path + path
                      else u.pathAndQuery.value.path + "/" + path))
  {
    hide Print, ParsePathAndQuery, Joined, PathOf;
    PathHasNoMark(g, u);
    JoinedIs(u, path);
    if path != "" {
      if '?' in path {
        MarkedPathCuts(g, u, path);
      } else {
        JoinedHasNoMark(u, path);
        PrintedParses(g, PathAndQuery(Joined(u, path), QueryOf(u)));
      }
    }
  }

  lemma JoinedIs(u: Uri, path: string)
    ensures Joined(u, path) ==
            if !HasPath(u) then "/" + path
            else if u.pathAndQuery.value.path[|u.pathAndQuery.value.path| - 1] == '/'
            then u.pathAndQuery.value.path + path
            else u.pathAndQuery.value.path + "/" + path
  {
  }

  lemma JoinedHasNoMark(u: Uri, path: string)
    requires '?' !in PathOf(u) && '?' !in path
    ensures '?' !in Joined(u, path)
  {
  }

  // URIs as text

  function PrintUri(u: Uri): string {
    (if u.scheme.Some? && u.authority.Some? then u.scheme.value + "://" + u.authority.value else "")
    + if u.pathAndQuery.Some? then Print(u.pathAndQuery.value) else ""
  }

  function WithPath(g: Grammar, scheme: Option<string>, authority: Option<string>, text: string): Option<Uri> {
    match ParsePathAndQuery(g, text)
    case None => None
    case Some(p) => Some(Uri(scheme, authority, Some(p)))
  }

  /** A path alone, or a scheme, an authority and a path. */
  function ParseUri(g: Grammar, s: string): Option<Uri> {
    if s != "" && s[0] == '/' then WithPath(g, None, None, s)
    else
      match SplitOnce(s, ':')
      case None => None
      case Some((scheme, rest)) =>
        if |rest| < 2 || rest[..2] != "//" then None
        else
          match SplitOnce(rest[2..], '/')
          case None => None
          case Some((authority, path)) => WithPath(g, Some(scheme), Some(authority), "/" + path)
  }

  /** What was parsed and has a path prints back to text that parses to the same. */
  lemma PrintedUriParses(g: Grammar, u: Uri)
    requires g.Usual() && SoundUri(g, u) && Located(u)
    requires u.pathAndQuery.Some? && u.pathAndQuery.value.path != ""
    ensures ParseUri(g, PrintUri(u)) == Some(u)
  {
    hide Print, ParsePathAndQuery, SplitOnce;
    var text := Print(u.pathAndQuery.value);
    PrintStartsWithPath(u.pathAndQuery.value);
    PathHasNoMark(g, u);
    PrintedParses(g, u.pathAndQuery.value);
    if u.scheme.Some? {
      var scheme, authority := u.scheme.value, u.authority.value;
      var rest := "//" + authority + text;
      assert PrintUri(u) == scheme + [':'] + rest;
      SplitOnceFinds(scheme, rest, ':');
      assert rest[2..] == authority + ['/'] + text[1..];
      SplitOnceFinds(authority, text[1..], '/');
      assert "/" + text[1..] == text;
    } else {
      assert PrintUri(u) == text;
    }
  }

  lemma PrintStartsWithPath(p: PathAndQuery)
    requires p.path != ""
    ensures Print(p) != "" && Print(p)[0] == p.path[0]
  {
  }
}
