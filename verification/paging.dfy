/** The paged document lists of the detail routes: `from`/`size` parameters,
    a `hits` section read from either place in the response, `total`
    normalised, one row per hit, and an empty page when anything fails. */
module Paging {
  import opened Common
  import opened Numbers
  import opened Query

  /** A search hit: its `_id` and its `_source`, which may be missing. */
  datatype Hit<+S> = Hit(id: string, source: Option<S>)

  /** The `hits` section: `total` and the `hits` array. */
  datatype Hits<+S> = Hits(total: HitsTotal, hits: Option<seq<Hit<S>>>)

  /** `{ list, total, from, size }`; `from`/`size` are `None` when `parseInt`
      gave NaN. */
  datatype Page<+R> = Page(list: seq<R>, total: nat, from: Option<int>, size: Option<int>)

  /** `parseInt(searchParams.get('from') || '0')` and the same for `size`
      with its default. */
  function PageBounds(from: Option<string>, size: Option<string>, defaultSize: string): (r: (Option<int>, Option<int>))
    ensures Present(from) ==> r.0 == ParseIntJs(from.value)
    ensures !Present(from) ==> r.0 == Some(0)
    ensures Present(size) ==> r.1 == ParseIntJs(size.value)
    ensures !Present(size) ==> r.1 == ParseIntJs(defaultSize)
  {
    ParseIntOfIntToString(0);
    (IntParam(from, "0"), IntParam(size, defaultSize))
  }

  /** True when every hit carries a `_source`: otherwise the row mapping
      dereferences `undefined` and throws. */
  predicate AllSourced<S>(hits: seq<Hit<S>>) {
    forall i :: 0 <= i < |hits| ==> hits[i].source.Some?
  }

  /** The rows, one per hit in hit order, built by `row` from the `_id` and
      the `_source`. */
  function Rows<S, R>(hits: seq<Hit<S>>, row: (string, S) -> R): (rows: seq<R>)
    requires AllSourced(hits)
    ensures |rows| == |hits|
    ensures forall i :: 0 <= i < |hits| ==> rows[i] == row(hits[i].id, hits[i].source.value)
  {
    seq(|hits|, i requires 0 <= i < |hits| && AllSourced(hits) => row(hits[i].id, hits[i].source.value))
  }

  /** The page a detail route answers with for a store result. A missing
      `hits` section, a missing `hits` array or a hit without `_source`
      throws inside the inner `try`, so it shapes like a failed call. */
  function ShapePage<S, R>(result: Fetch<Envelope<Hits<S>>>, row: (string, S) -> R,
                           from: Option<int>, size: Option<int>): (p: Page<R>)
    ensures p.from == from && p.size == size
    ensures p.list == [] || (result.Fetched? && BodyOrTop(result.value).Some?)
    ensures result.Threw? || BodyOrTop(result.value).None? ==> p == Page([], 0, from, size)
    ensures result.Fetched? && BodyOrTop(result.value).Some? ==>
              var h := BodyOrTop(result.value).value;
              if h.hits.Some? && AllSourced(h.hits.value)
              then p == Page(Rows(h.hits.value, row), NormaliseTotal(h.total), from, size)
              else p == Page([], 0, from, size)
  {
    match result
    case Threw => Page([], 0, from, size)
    case Fetched(e) =>
      match BodyOrTop(e)
      case None => Page([], 0, from, size)
      case Some(h) =>
        if h.hits.Some? && AllSourced(h.hits.value)
        then Page(Rows(h.hits.value, row), NormaliseTotal(h.total), from, size)
        else Page([], 0, from, size)
  }

  /** The rows of a successful page keep the hits' ids in order. */
  lemma PageKeepsHitIds<S, R>(result: Fetch<Envelope<Hits<S>>>, row: (string, S) -> R, id: R -> string,
                              from: Option<int>, size: Option<int>)
    requires forall h: string, s: S :: id(row(h, s)) == h
    requires result.Fetched? && BodyOrTop(result.value).Some?
    requires BodyOrTop(result.value).value.hits.Some?
    requires AllSourced(BodyOrTop(result.value).value.hits.value)
    ensures var hits := BodyOrTop(result.value).value.hits.value;
            var p := ShapePage(result, row, from, size);
            |p.list| == |hits| && forall i :: 0 <= i < |hits| ==> id(p.list[i]) == hits[i].id
  {
  }
}
