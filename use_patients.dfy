/**
 * The endpoint the patient-list hook fetches: `/patients`, followed by a query string
 * when a search text or a compliance filter is set. Percent-encoding is the abstract
 * `encode`, which never produces a "?".
 */
module UsePatients {

  datatype Param = Param(name: string, value: string)

  /** The parameters `URLSearchParams` receives, in the order they are appended. */
  function Params(searchQuery: string, complianceFilter: string): (ps: seq<Param>)
    ensures |ps| == (if searchQuery != "" then 1 else 0) + (if complianceFilter != "" && complianceFilter != "All" then 1 else 0)
    ensures searchQuery != "" ==> ps[0] == Param("search", searchQuery)
    ensures complianceFilter != "" && complianceFilter != "All" ==> ps[|ps| - 1] == Param("compliance", complianceFilter)
  {
    (if searchQuery != "" then [Param("search", searchQuery)] else [])
      + (if complianceFilter != "" && complianceFilter != "All" then [Param("compliance", complianceFilter)] else [])
  }

  /** `params.toString()`: `name=value` pairs, encoded and joined with "&". */
  function QueryString(ps: seq<Param>, encode: string -> string): (q: string)
    requires forall s :: '?' !in encode(s)
    ensures q == "" <==> ps == []
    ensures '?' !in q
  {
    if ps == [] then ""
    else
      var pair := encode(ps[0].name) + "=" + encode(ps[0].value);
      assert pair[|encode(ps[0].name)|] == '=';
      if |ps| == 1 then pair else pair + "&" + QueryString(ps[1..], encode)
  }

  /** One encoded `name=value` pair of the query string. */
  function Pair(p: Param, encode: string -> string): string {
    encode(p.name) + "=" + encode(p.value)
  }

  /** Appending a parameter adds its pair at the end, after an "&" unless it is the first. */
  lemma {:induction false} QueryAppend(ps: seq<Param>, p: Param, encode: string -> string)
    requires forall s :: '?' !in encode(s)
    ensures QueryString(ps + [p], encode) == QueryString(ps, encode) + (if ps == [] then "" else "&") + Pair(p, encode)
  {
    if |ps| > 1 {
      assert (ps + [p])[1..] == ps[1..] + [p];
      QueryAppend(ps[1..], p, encode);
    } else if |ps| == 1 {
      assert (ps + [p])[1..] == [p];
    }
  }

  /** The query string of the hook's parameters: the search pair, then the compliance pair, joined by "&". */
  lemma QueryContents(searchQuery: string, complianceFilter: string, encode: string -> string)
    requires forall s :: '?' !in encode(s)
    requires searchQuery != "" && complianceFilter != "" && complianceFilter != "All"
    ensures QueryString(Params(searchQuery, complianceFilter), encode)
         == encode("search") + "=" + encode(searchQuery) + "&" + encode("compliance") + "=" + encode(complianceFilter)
    ensures QueryString(Params(searchQuery, ""), encode) == encode("search") + "=" + encode(searchQuery)
    ensures QueryString(Params("", complianceFilter), encode) == encode("compliance") + "=" + encode(complianceFilter)
  {
    QueryAppend([Param("search", searchQuery)], Param("compliance", complianceFilter), encode);
  }

  /** The endpoint is built by successive appends, then the query string is attached. */
  method BuildEndpoint(searchQuery: string, complianceFilter: string, encode: string -> string) returns (endpoint: string)
    requires forall s :: '?' !in encode(s)
    ensures endpoint == "/patients" + (if Params(searchQuery, complianceFilter) == [] then ""
                                        else "?" + QueryString(Params(searchQuery, complianceFilter), encode))
    ensures '?' in endpoint <==> searchQuery != "" || (complianceFilter != "" && complianceFilter != "All")
    ensures searchQuery == "" && complianceFilter == "All" ==> endpoint == "/patients"
  {
    var params: seq<Param> := [];
    if searchQuery != "" {
      params := params + [Param("search", searchQuery)];
    }
    if complianceFilter != "" && complianceFilter != "All" {
      params := params + [Param("compliance", complianceFilter)];
    }
    assert params == Params(searchQuery, complianceFilter);
    var queryString := QueryString(params, encode);
    endpoint := "/patients" + (if queryString != "" then "?" + queryString else "");
    assert '?' !in "/patients";
    if params != [] {
      assert params[0] in params;
    }
  }
}
