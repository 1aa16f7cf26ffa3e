/**
 * Query strings of REST resources: `path?key=value&key=value`. The resource builders write
 * them; `ParseResource` reads them back the way a server splits them, so that what a builder
 * produces can be checked parameter by parameter.
 */
module Query {
  import opened Wrappers

  type Parameter = (string, string)

  /** The index of the first occurrence of `c` in `s`. */
  function IndexOf(s: string, c: char): (r: Option<nat>)
    ensures r.Some? ==> r.value < |s| && s[r.value] == c && c !in s[..r.value]
    ensures r.None? <==> c !in s
  {
    if s == [] then None
    else if s[0] == c then Some(0)
    else match IndexOf(s[1..], c)
      case None => None
      case Some(i) =>
        assert s[..i + 1] == [s[0]] + s[1..][..i];
        Some(i + 1)
  }

  /** The parts joined with `sep` between consecutive parts. */
  function Join(parts: seq<string>, sep: char): string
  {
    if parts == [] then ""
    else if |parts| == 1 then parts[0]
    else parts[0] + [sep] + Join(parts[1..], sep)
  }

  /** The pieces of `s` between occurrences of `sep`; there is always at least one. */
  function Split(s: string, sep: char): (parts: seq<string>)
    ensures 1 <= |parts|
    decreases |s|
  {
    match IndexOf(s, sep)
    case None => [s]
    case Some(i) => [s[..i]] + Split(s[i + 1..], sep)
  }

  /** The first `c` of `a + [c] + b`, when `a` holds none, is the one after `a`. */
  lemma IndexOfAfter(a: string, c: char, b: string)
    requires c !in a
    ensures IndexOf(a + [c] + b, c) == Some(|a|)
  {
    var s := a + [c] + b;
    assert s[|a|] == c;
  }

  /** Splitting undoes joining when no part contains the separator. */
  lemma {:induction false} SplitJoin(parts: seq<string>, sep: char)
    requires 1 <= |parts|
    requires forall k :: 0 <= k < |parts| ==> sep !in parts[k]
    ensures Split(Join(parts, sep), sep) == parts
  {
    if |parts| == 1 {
      assert IndexOf(parts[0], sep).None?;
    } else {
      var s := Join(parts, sep);
      var rest := Join(parts[1..], sep);
      IndexOfAfter(parts[0], sep, rest);
      assert s[..|parts[0]|] == parts[0] && s[|parts[0]| + 1..] == rest;
      SplitJoin(parts[1..], sep);
    }
  }

  /** `key=value`. */
  function RenderParameter(p: Parameter): string
  {
    p.0 + "=" + p.1
  }

  function RenderAll(ps: seq<Parameter>): (r: seq<string>)
    ensures |r| == |ps|
    ensures forall k :: 0 <= k < |ps| ==> r[k] == RenderParameter(ps[k])
  {
    if ps == [] then [] else [RenderParameter(ps[0])] + RenderAll(ps[1..])
  }

  /** The query string of the parameters, in order, separated by `&`. */
  function RenderQuery(ps: seq<Parameter>): string
  {
    Join(RenderAll(ps), '&')
  }

  /** The query string of a parameter followed by more parameters. */
  lemma RenderQueryCons(p: Parameter, ps: seq<Parameter>)
    requires ps != []
    ensures RenderQuery([p] + ps) == RenderParameter(p) + "&" + RenderQuery(ps)
  {
    var rs := RenderAll([p] + ps);
    assert rs[1..] == RenderAll(ps);
  }

  /** A parameter string split at its first `=`; with no `=` the value is empty. */
  function ParseParameter(s: string): Parameter
  {
    match IndexOf(s, '=')
    case None => (s, "")
    case Some(i) => (s[..i], s[i + 1..])
  }

  function ParseAll(ss: seq<string>): (r: seq<Parameter>)
    ensures |r| == |ss|
    ensures forall k :: 0 <= k < |ss| ==> r[k] == ParseParameter(ss[k])
  {
    if ss == [] then [] else [ParseParameter(ss[0])] + ParseAll(ss[1..])
  }

  /** The parameters of a query string; the empty query has none. */
  function ParseQuery(q: string): seq<Parameter>
  {
    if q == "" then [] else ParseAll(Split(q, '&'))
  }

  /** A resource split at its first `?` into its path and the parameters of its query. */
  function ParseResource(s: string): (string, seq<Parameter>)
  {
    match IndexOf(s, '?')
    case None => (s, [])
    case Some(i) => (s[..i], ParseQuery(s[i + 1..]))
  }

  /**
   * A parameter survives rendering and parsing when its key holds neither `&` nor `=` and its
   * value holds no `&` (a `=` in the value is harmless: only the first one splits).
   */
  predicate Separable(p: Parameter)
  {
    '&' !in p.0 && '=' !in p.0 && '&' !in p.1
  }

  lemma ParseRenderParameter(p: Parameter)
    requires '=' !in p.0
    ensures ParseParameter(RenderParameter(p)) == p
  {
    var s := RenderParameter(p);
    IndexOfAfter(p.0, '=', p.1);
    assert s[..|p.0|] == p.0 && s[|p.0| + 1..] == p.1;
  }

  /** Parsing the query string of separable parameters gives back the parameters, in order. */
  lemma ParseRenderQuery(ps: seq<Parameter>)
    requires forall k :: 0 <= k < |ps| ==> Separable(ps[k])
    ensures ParseQuery(RenderQuery(ps)) == ps
  {
    if ps != [] {
      var rendered := RenderAll(ps);
      forall k | 0 <= k < |rendered|
        ensures '&' !in rendered[k]
      {
        assert rendered[k] == ps[k].0 + "=" + ps[k].1;
      }
      SplitJoin(rendered, '&');
      assert RenderQuery(ps) != "" by {
        assert |rendered| >= 1 && |rendered[0]| >= 1;
        if |rendered| > 1 {
          assert |RenderQuery(ps)| >= |rendered[0]|;
        }
      }
      var parsed := ParseAll(Split(RenderQuery(ps), '&'));
      forall k | 0 <= k < |ps|
        ensures parsed[k] == ps[k]
      {
        ParseRenderParameter(ps[k]);
      }
    }
  }

  /** `path?query`, the shape of every resource string with parameters. */
  function Resource(path: string, ps: seq<Parameter>): string
  {
    path + "?" + RenderQuery(ps)
  }

  /** A resource whose path has no `?` parses back into its path and its parameters. */
  lemma ParseResourceRoundTrip(path: string, ps: seq<Parameter>)
    requires '?' !in path
    requires forall k :: 0 <= k < |ps| ==> Separable(ps[k])
    ensures ParseResource(Resource(path, ps)) == (path, ps)
  {
    var s := Resource(path, ps);
    IndexOfAfter(path, '?', RenderQuery(ps));
    assert s[..|path|] == path && s[|path| + 1..] == RenderQuery(ps);
    ParseRenderQuery(ps);
  }
}
