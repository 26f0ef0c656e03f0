/** Building the request URL: the typed URL followed by its query string. */
module UrlUtils {
  import opened Strings
  import opened UrlParamsState
  import QueryParams

  /** A parameter reaches the URL only when both its name and value are set. */
  predicate Included(p: Param)
  {
    p.name != [] && p.value != []
  }

  /** `name=value` of one parameter. */
  function PairText(p: Param): seq<char>
  {
    p.name + "=" + p.value
  }

  /** The query string as the loop of `url_with_params` builds it, parameter
      by parameter: each included one adds `?` (the first) or `&` (any
      later one) and its pair. */
  function QueryString(ps: seq<Param>): seq<char>
  {
    if ps == [] then []
    else
      var q, p := QueryString(ps[..|ps| - 1]), ps[|ps| - 1];
      if Included(p) then q + [if q == [] then '?' else '&'] + PairText(p) else q
  }

  /** `url_with_params`: empty for an empty URL; otherwise the URL with the
      query string of the parameters appended. */
  method UrlWithParams(url: seq<char>, params: seq<Param>) returns (newUrl: seq<char>)
    ensures url == [] ==> newUrl == []
    ensures url != [] ==> newUrl == url + QueryString(params)
  {
    if url == [] {
      return [];
    }
    newUrl := url;
    var paramsAppendedToUrl := false;
    for i := 0 to |params|
      invariant paramsAppendedToUrl <==> QueryString(params[..i]) != []
      invariant newUrl == url + QueryString(params[..i])
    {
      var p := params[i];
      assert params[..i + 1][..i] == params[..i];
      if p.name != [] && p.value != [] {
        if paramsAppendedToUrl {
          newUrl := newUrl + ['&'];
        }
        if !paramsAppendedToUrl {
          newUrl := newUrl + ['?'];
          paramsAppendedToUrl := true;
        }
        newUrl := newUrl + p.name + ['='] + p.value;
      }
    }
    assert params[..|params|] == params;
  }

  /** The parameters that reach the URL, in list order. */
  function IncludedParams(ps: seq<Param>): (r: seq<Param>)
    ensures |r| <= |ps|
    ensures forall i :: 0 <= i < |r| ==> Included(r[i])
  {
    if ps == [] then []
    else IncludedParams(ps[..|ps| - 1]) + (if Included(ps[|ps| - 1]) then [ps[|ps| - 1]] else [])
  }

  function Pairs(ps: seq<Param>): (r: seq<seq<char>>)
    ensures |r| == |ps|
    ensures forall i :: 0 <= i < |ps| ==> r[i] == PairText(ps[i])
  {
    if ps == [] then [] else Pairs(ps[..|ps| - 1]) + [PairText(ps[|ps| - 1])]
  }

  /** Reference form of a query string: `?` followed by the pairs joined
      with `&`, or nothing for no pairs. */
  function JoinedQuery(inc: seq<Param>): (r: seq<char>)
    ensures r == [] <==> inc == []
  {
    if inc == [] then [] else "?" + Join(Pairs(inc), '&')
  }

  lemma JoinedQuerySnoc(inc: seq<Param>, p: Param)
    ensures JoinedQuery(inc + [p]) == JoinedQuery(inc) + [if inc == [] then '?' else '&'] + PairText(p)
  {
    assert (inc + [p])[..|inc|] == inc;
    if inc == [] {
      assert inc + [p] == [p];
      assert Pairs([p]) == [PairText(p)];
    } else {
      JoinSnoc(Pairs(inc), PairText(p), '&');
    }
  }

  /** The query string built by the loop is the reference form of the
      included parameters. */
  lemma {:induction false} QueryStringIsJoin(ps: seq<Param>)
    ensures QueryString(ps) == JoinedQuery(IncludedParams(ps))
  {
    if ps != [] {
      var init, p := ps[..|ps| - 1], ps[|ps| - 1];
      QueryStringIsJoin(init);
      var inc := IncludedParams(init);
      if Included(p) {
        assert IncludedParams(ps) == inc + [p];
        JoinedQuerySnoc(inc, p);
        assert QueryString(init) == [] <==> inc == [];
      } else {
        assert IncludedParams(ps) == inc;
      }
    }
  }

  /** The included parameters of a concatenation. */
  lemma {:induction false} IncludedConcat(a: seq<Param>, b: seq<Param>)
    ensures IncludedParams(a + b) == IncludedParams(a) + IncludedParams(b)
  {
    if b == [] {
      assert a + b == a;
    } else {
      var b' := b[..|b| - 1];
      assert (a + b)[..|a + b| - 1] == a + b';
      IncludedConcat(a, b');
    }
  }

  /** A parameter with an empty name or value leaves the URL as it would be
      without it. */
  lemma SkippedParamIgnored(a: seq<Param>, p: Param, b: seq<Param>)
    requires !Included(p)
    ensures QueryString(a + [p] + b) == QueryString(a + b)
  {
    IncludedConcat(a + [p], b);
    IncludedConcat(a, [p]);
    IncludedConcat(a, b);
    assert [p][..0] == [];
    assert IncludedParams(a + [p] + b) == IncludedParams(a + b);
    QueryStringIsJoin(a + [p] + b);
    QueryStringIsJoin(a + b);
  }

  /** The query string is empty exactly when no parameter has both a name
      and a value; otherwise it starts with `?`. */
  lemma QueryStringShape(ps: seq<Param>)
    ensures QueryString(ps) == [] <==> forall i :: 0 <= i < |ps| ==> !Included(ps[i])
    ensures QueryString(ps) != [] ==> QueryString(ps)[0] == '?'
  {
    IncludedEmpty(ps);
    QueryStringIsJoin(ps);
  }

  lemma {:induction false} IncludedEmpty(ps: seq<Param>)
    ensures IncludedParams(ps) == [] <==> forall i :: 0 <= i < |ps| ==> !Included(ps[i])
  {
    if ps != [] {
      var init := ps[..|ps| - 1];
      IncludedEmpty(init);
      assert forall i :: 0 <= i < |init| ==> init[i] == ps[i];
    }
  }

  /** When no name or value holds `&` or `=`, the query string reads back:
      its `&`-separated pieces parse, in order, to the included parameters. */
  lemma QueryStringParses(ps: seq<Param>)
    requires forall i :: 0 <= i < |ps| ==>
      '&' !in ps[i].name && '&' !in ps[i].value && '=' !in ps[i].name && '=' !in ps[i].value
    requires QueryString(ps) != []
    ensures var inc := IncludedParams(ps);
      var pieces := Split(QueryString(ps)[1..], '&');
      |pieces| == |inc| &&
      forall i :: 0 <= i < |inc| ==>
        QueryParams.FromStr(pieces[i]) == QueryParams.QueryParam(inc[i].name, inc[i].value)
  {
    var inc := IncludedParams(ps);
    IncludedFrom(ps);
    QueryStringIsJoin(ps);
    var pairs := Pairs(inc);
    assert QueryString(ps)[1..] == Join(pairs, '&');
    SplitJoin(pairs, '&');
    forall i | 0 <= i < |inc|
      ensures QueryParams.FromStr(pairs[i]) == QueryParams.QueryParam(inc[i].name, inc[i].value)
    {
      QueryParams.FromStrToString(QueryParams.QueryParam(inc[i].name, inc[i].value));
    }
  }

  /** Every included parameter is one of the list's. */
  lemma {:induction false} IncludedFrom(ps: seq<Param>)
    ensures forall i :: 0 <= i < |IncludedParams(ps)| ==> IncludedParams(ps)[i] in ps
  {
    if ps != [] {
      var init := ps[..|ps| - 1];
      IncludedFrom(init);
      assert forall q :: q in init ==> q in ps;
    }
  }
}
