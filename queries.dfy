/** The query parameters of the iterations listing: `IterationsQuery` and its `Query()` builder. */
module Queries {
  import opened Decimal

  /** Go's `url.Values`: every key maps to a list of values. */
  type Params = map<string, seq<string>>

  /** The values of `IterationScope` the service recognises; any other string is passed on unchecked. */
  const ScopeDone: string := "done"
  const ScopeCurrent: string := "current"
  const ScopeBacklog: string := "backlog"
  const ScopeCurrentBacklog: string := "current_backlog"
  const ScopeDoneCurrent: string := "done_current"

  /** The filter of an iterations listing; the empty string and zero mean "not given". */
  datatype IterationsQuery = IterationsQuery(scope: string, labelName: string, limit: int, offset: int)
  {
    /** Sets one key per given field, in the order the source does, with `url.Values.Set`. */
    method Query() returns (params: Params)
      ensures params == IterationsParams(this)
    {
      params := map[];
      if scope != "" {
        params := params["scope" := [scope]];
      }
      if labelName != "" {
        params := params["label" := [labelName]];
      }
      if limit != 0 {
        params := params["limit" := [Format(limit)]];
      }
      if offset != 0 {
        params := params["offset" := [Format(offset)]];
      }
    }
  }

  const IterationsKeys: set<string> := {"scope", "label", "limit", "offset"}

  /** True when the field of q that `key` names holds a value other than its zero. */
  predicate IsGiven(q: IterationsQuery, key: string) {
    match key
    case "scope" => q.scope != ""
    case "label" => q.labelName != ""
    case "limit" => q.limit != 0
    case "offset" => q.offset != 0
    case _ => false
  }

  /** The text the field of q that `key` names is sent as. */
  function FieldText(q: IterationsQuery, key: string): string {
    match key
    case "scope" => q.scope
    case "label" => q.labelName
    case "limit" => Format(q.limit)
    case "offset" => Format(q.offset)
    case _ => ""
  }

  /** The parameters of q: one single-valued key per recognised field that is given. */
  function IterationsParams(q: IterationsQuery): Params {
    map key | key in IterationsKeys && IsGiven(q, key) :: [FieldText(q, key)]
  }

  /** `url.Values.Get`: the first value under key, or "" when there is none. */
  function First(params: Params, key: string): string {
    if key in params && |params[key]| > 0 then params[key][0] else ""
  }

  /** The integer under key, or 0 when the key is missing or does not hold one. */
  function Number(params: Params, key: string): int {
    match Parse(First(params, key))
    case Some(n) => n
    case None => 0
  }

  /** Reads a parameter map back into the query it describes. */
  function FromParams(params: Params): IterationsQuery {
    IterationsQuery(First(params, "scope"), First(params, "label"), Number(params, "limit"), Number(params, "offset"))
  }

  /** A key is present exactly when its field is given, and no other key is ever present. */
  lemma IterationsParamsKeys(q: IterationsQuery)
    ensures IterationsParams(q).Keys <= IterationsKeys
    ensures "scope" in IterationsParams(q) <==> q.scope != ""
    ensures "label" in IterationsParams(q) <==> q.labelName != ""
    ensures "limit" in IterationsParams(q) <==> q.limit != 0
    ensures "offset" in IterationsParams(q) <==> q.offset != 0
  {
  }

  /** Each present key holds exactly one value: the string verbatim, the integer in base 10. */
  lemma IterationsParamsValues(q: IterationsQuery)
    ensures forall key :: key in IterationsParams(q) ==> |IterationsParams(q)[key]| == 1
    ensures "scope" in IterationsParams(q) ==> IterationsParams(q)["scope"] == [q.scope]
    ensures "label" in IterationsParams(q) ==> IterationsParams(q)["label"] == [q.labelName]
    ensures "limit" in IterationsParams(q) ==> IterationsParams(q)["limit"] == [Format(q.limit)]
    ensures "offset" in IterationsParams(q) ==> IterationsParams(q)["offset"] == [Format(q.offset)]
  {
  }

  /** The zero query sends no parameters at all. */
  lemma ZeroQueryHasNoParams()
    ensures IterationsParams(IterationsQuery("", "", 0, 0)) == map[]
  {
  }

  /** A query with only a limit of 10 and an offset of 20 sends exactly limit=10 and offset=20. */
  lemma LimitOffsetExample()
    ensures IterationsParams(IterationsQuery("", "", 10, 20)) == map["limit" := ["10"], "offset" := ["20"]]
  {
    var q := IterationsQuery("", "", 10, 20);
    assert Format(10) == "10" by {
      assert Digits(1) == "1";
    }
    assert Format(20) == "20" by {
      assert Digits(2) == "2";
    }
    IterationsParamsKeys(q);
    IterationsParamsValues(q);
  }

  /** Nothing of a query is lost in its parameters: reading them back gives the query. */
  lemma IterationsQueryRoundTrip(q: IterationsQuery)
    ensures FromParams(IterationsParams(q)) == q
  {
    IterationsParamsKeys(q);
    IterationsParamsValues(q);
    FormatRoundTrip(q.limit);
    FormatRoundTrip(q.offset);
  }
}
