/**
 * `URL.parseQueryParameters()`: the query items of a URL folded, in order, into a
 * dictionary from name to value.
 */
module UrlExtensions {
  import opened Wrappers
  import opened Foundation

  /** One step of the loop: `parameters[name] = value`; assigning nil removes the key. */
  function ApplyItem(m: map<string, string>, item: QueryItem): map<string, string> {
    match item.value
    case Some(v) => m[item.name := v]
    case None => m - {item.name}
  }

  /** The dictionary after applying `items` left to right to an empty one. */
  function QueryMap(items: seq<QueryItem>): map<string, string>
    decreases |items|
  {
    if |items| == 0 then map[] else ApplyItem(QueryMap(items[..|items| - 1]), items[|items| - 1])
  }

  /** What `parseQueryParameters` returns: empty when the URL has no query items at all. */
  function QueryParameters(url: Url): map<string, string> {
    match url.queryItems
    case None => map[]
    case Some(items) => QueryMap(items)
  }

  /** The loop itself, proved against `QueryParameters`. */
  method ParseQueryParameters(url: Url) returns (parameters: map<string, string>)
    ensures parameters == QueryParameters(url)
  {
    if url.queryItems.None? {
      return map[];
    }
    var queryItems := url.queryItems.value;
    parameters := map[];
    for i := 0 to |queryItems|
      invariant parameters == QueryMap(queryItems[..i])
    {
      var queryItem := queryItems[i];
      match queryItem.value {
        case Some(v) => parameters := parameters[queryItem.name := v];
        case None => parameters := parameters - {queryItem.name};
      }
      assert queryItems[..i + 1][..i] == queryItems[..i];
    }
    assert queryItems[..|queryItems|] == queryItems;
  }

  /** `i` is the position of the last item named `k`. */
  predicate IsLastNamed(items: seq<QueryItem>, i: int, k: string) {
    0 <= i < |items| && items[i].name == k && forall j :: i < j < |items| ==> items[j].name != k
  }

  /** A URL without query items, or with an empty query, gives an empty dictionary. */
  lemma NoQueryItemsGiveEmpty(url: Url)
    requires url.queryItems.None? || url.queryItems == Some([])
    ensures QueryParameters(url) == map[]
  {
  }

  /** A name no item carries is not a key of the result. */
  lemma {:induction false} AbsentNameNotKey(items: seq<QueryItem>, k: string)
    requires forall i :: 0 <= i < |items| ==> items[i].name != k
    ensures k !in QueryMap(items)
  {
    if |items| > 0 {
      AbsentNameNotKey(items[..|items| - 1], k);
    }
  }

  /**
   * The last item named `k` decides: if it has a value, `k` maps to that value (later
   * items win over earlier ones); if it has none, `k` is absent, whatever came before.
   */
  lemma {:induction false} LastItemWins(items: seq<QueryItem>, k: string, i: int)
    requires IsLastNamed(items, i, k)
    ensures k in QueryMap(items) <==> items[i].value.Some?
    ensures items[i].value.Some? ==> QueryMap(items)[k] == items[i].value.value
  {
    var n := |items| - 1;
    if i < n {
      var prefix := items[..n];
      assert IsLastNamed(prefix, i, k) by {
        forall j | i < j < |prefix| ensures prefix[j].name != k {
          assert prefix[j] == items[j];
        }
      }
      LastItemWins(prefix, k, i);
      assert items[n].name != k;
    }
  }

  /** Every key of the result is the name of some query item. */
  lemma KeysAreItemNames(items: seq<QueryItem>, k: string)
    requires k in QueryMap(items)
    ensures exists i :: 0 <= i < |items| && items[i].name == k
  {
    if forall i :: 0 <= i < |items| ==> items[i].name != k {
      AbsentNameNotKey(items, k);
    }
  }

  /** With pairwise distinct names, every item with a value maps its name to that value. */
  lemma DistinctNamesMapToValues(items: seq<QueryItem>, i: int)
    requires forall p, q :: 0 <= p < q < |items| ==> items[p].name != items[q].name
    requires 0 <= i < |items| && items[i].value.Some?
    ensures items[i].name in QueryMap(items)
    ensures QueryMap(items)[items[i].name] == items[i].value.value
  {
    LastItemWins(items, items[i].name, i);
  }

  /** An item without a value at the end removes its name, whatever came before. */
  lemma ValuelessItemRemoves(items: seq<QueryItem>, k: string)
    ensures k !in QueryMap(items + [QueryItem(k, None)])
  {
    var all := items + [QueryItem(k, None)];
    LastItemWins(all, k, |items|);
  }
}
