/**
 * The part of a browser URL the page reads: `location.search` of a URL and
 * `URLSearchParams.get` over it (application/x-www-form-urlencoded parsing:
 * split on '&', skip empty pieces, split each at its first '=', '+' is a space).
 */
module Query {
  import opened Wrappers
  import Text

  datatype Param = Param(name: string, value: string)

  /** Position of the first `c` in `s`, or `|s|` when there is none. */
  function IndexOf(s: string, c: char): (k: nat)
    ensures k <= |s|
    ensures k < |s| ==> s[k] == c
    ensures forall i :: 0 <= i < k ==> s[i] != c
    decreases |s|
  {
    if s == [] then 0
    else if s[0] == c then 0
    else 1 + IndexOf(s[1..], c)
  }

  /** Splitting at the first `c` of `a + [c] + b` stops at the end of `a` when `a` lacks `c`. */
  lemma IndexOfAfter(a: string, b: string, c: char)
    requires Text.Lacks(a, c)
    ensures IndexOf(a + [c] + b, c) == |a|
  {
    var s := a + [c] + b;
    assert s[|a|] == c;
    assert forall i :: 0 <= i < |a| ==> s[i] == a[i];
  }

  lemma IndexOfAbsent(s: string, c: char)
    requires Text.Lacks(s, c)
    ensures IndexOf(s, c) == |s|
  {
  }

  /** `s.split('&')`: the pieces between separators, in order. */
  function Pieces(s: string): (r: seq<string>)
    ensures |r| > 0
    decreases |s|
  {
    var k := IndexOf(s, '&');
    if k == |s| then [s] else [s[..k]] + Pieces(s[k + 1..])
  }

  /** Each '+' read as a space; percent escapes are not decoded here. */
  function PlusToSpace(s: string): (r: string)
    ensures |r| == |s|
  {
    seq(|s|, i requires 0 <= i < |s| => if s[i] == '+' then ' ' else s[i])
  }

  function ParsePair(piece: string): Param {
    var k := IndexOf(piece, '=');
    if k == |piece| then Param(PlusToSpace(piece), "")
    else Param(PlusToSpace(piece[..k]), PlusToSpace(piece[k + 1..]))
  }

  /** The name/value list of a query string, without its leading '?'. */
  function ParseQuery(query: string): seq<Param> {
    ParsePieces(Pieces(query))
  }

  function ParsePieces(pieces: seq<string>): seq<Param> {
    if pieces == [] then []
    else if pieces[0] == "" then ParsePieces(pieces[1..])
    else [ParsePair(pieces[0])] + ParsePieces(pieces[1..])
  }

  /** `new URLSearchParams(search)`: a leading '?' is dropped. */
  function Params(search: string): seq<Param> {
    if search != [] && search[0] == '?' then ParseQuery(search[1..]) else ParseQuery(search)
  }

  lemma ParamsDropsQuestionMark(query: string)
    ensures Params("?" + query) == ParseQuery(query)
  {
    assert ("?" + query)[1..] == query;
  }

  /** `params.get(name)`: the value of the first pair with that name, or null. */
  function Get(params: seq<Param>, name: string): (r: Option<string>)
    ensures r.Some? <==> exists i :: 0 <= i < |params| && params[i].name == name
    ensures r.Some? ==> exists i :: && 0 <= i < |params| && params[i] == Param(name, r.value)
                                    && forall j :: 0 <= j < i ==> params[j].name != name
  {
    if params == [] then None
    else if params[0].name == name then Some(params[0].value)
    else
      var r := Get(params[1..], name);
      assert forall i :: 0 < i < |params| ==> params[i] == params[1..][i - 1];
      assert r.Some? ==> exists i :: && 0 < i < |params| && params[i] == Param(name, r.value)
                                     && forall j :: 0 <= j < i ==> params[j].name != name by {
        if r.Some? {
          var k :| && 0 <= k < |params[1..]| && params[1..][k] == Param(name, r.value)
                   && forall j :: 0 <= j < k ==> params[1..][j].name != name;
          assert forall j :: 0 < j < k + 1 ==> params[j] == params[1..][j - 1];
          assert params[k + 1] == Param(name, r.value);
        }
      }
      r
  }

  /** `location.search`: from the first '?' up to the fragment, empty when there is no query. */
  function SearchOf(url: string): string {
    var q := IndexOf(url, '?');
    if q == |url| then ""
    else
      var rest := url[q..];
      var query := rest[..IndexOf(rest, '#')];
      if query == "?" then "" else query
  }

  /** A value that survives a round trip through a query string unchanged. */
  predicate QuerySafe(s: string) {
    Text.Lacks(s, '&') && Text.Lacks(s, '#') && Text.Lacks(s, '+') && Text.Lacks(s, '%')
  }

  lemma PlusToSpaceKeeps(s: string)
    requires Text.Lacks(s, '+')
    ensures PlusToSpace(s) == s
  {
  }

  /** A query "name=value" with a name free of '=', '&', '+' and a query-safe value reads back as that one pair. */
  lemma SinglePair(name: string, value: string)
    requires name != "" && Text.Lacks(name, '=') && Text.Lacks(name, '&') && Text.Lacks(name, '+')
    requires QuerySafe(value)
    ensures ParseQuery(name + "=" + value) == [Param(name, value)]
  {
    var piece := name + "=" + value;
    assert Text.Lacks(piece, '&') by {
      forall i | 0 <= i < |piece| ensures piece[i] != '&' {
        if i > |name| { assert piece[i] == value[i - |name| - 1]; }
      }
    }
    IndexOfAbsent(piece, '&');
    assert Pieces(piece) == [piece];
    IndexOfAfter(name, value, '=');
    assert piece[..|name|] == name;
    assert piece[|name| + 1..] == value;
    PlusToSpaceKeeps(name);
    PlusToSpaceKeeps(value);
    assert ParsePair(piece) == Param(name, value);
    assert ParsePieces([piece]) == [ParsePair(piece)] + ParsePieces([]);
  }

  /** Two pairs joined by '&' read back as those two pairs, in order. */
  lemma TwoPairs(n1: string, v1: string, n2: string, v2: string)
    requires n1 != "" && Text.Lacks(n1, '=') && Text.Lacks(n1, '&') && Text.Lacks(n1, '+')
    requires n2 != "" && Text.Lacks(n2, '=') && Text.Lacks(n2, '&') && Text.Lacks(n2, '+')
    requires QuerySafe(v1) && QuerySafe(v2)
    ensures ParseQuery(n1 + "=" + v1 + "&" + n2 + "=" + v2) == [Param(n1, v1), Param(n2, v2)]
  {
    var first := n1 + "=" + v1;
    var second := n2 + "=" + v2;
    var s := n1 + "=" + v1 + "&" + n2 + "=" + v2;
    assert s == first + ['&'] + second;
    assert Text.Lacks(first, '&') by {
      forall i | 0 <= i < |first| ensures first[i] != '&' {
        if i > |n1| { assert first[i] == v1[i - |n1| - 1]; }
      }
    }
    assert Text.Lacks(second, '&') by {
      forall i | 0 <= i < |second| ensures second[i] != '&' {
        if i > |n2| { assert second[i] == v2[i - |n2| - 1]; }
      }
    }
    IndexOfAfter(first, second, '&');
    assert s[..|first|] == first;
    assert s[|first| + 1..] == second;
    IndexOfAbsent(second, '&');
    assert Pieces(s) == [first, second];
    SinglePair(n1, v1);
    SinglePair(n2, v2);
    assert Pieces(first) == [first];
    assert Pieces(second) == [second];
  }
}
