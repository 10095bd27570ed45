/**
 * `EKAPClient.search_authorities`: the DevExtreme payload for the authority (DETSIS) search and
 * the formatting of the authorities that come back.
 */
module AuthoritySearch {
  import opened Wrappers
  import opened ClientCommon

  /** One element of `loadResult.data`; a key that is missing is `None`. */
  datatype RawAuthority = RawAuthority(
    id: Option<int>,
    ad: Option<string>,
    parentIdareKimlikKodu: Option<int>,
    seviye: Option<int>,
    hasItems: Option<bool>,
    detsisNo: Option<string>,
    idareId: Option<int>)

  /** The upstream body's `loadResult.data`, read as `[]` when either level is missing. */
  datatype AuthorityBody = AuthorityBody(data: seq<RawAuthority>)

  datatype Authority = Authority(
    id: Option<int>,
    name: Option<string>,
    parentId: Option<int>,
    level: Option<int>,
    hasChildren: bool,
    childCount: int,
    detsisNo: Option<string>,
    idareId: Option<int>)

  datatype AuthorityEcho = AuthorityEcho(searchTerm: string, limit: int)

  datatype AuthorityPage = AuthorityPage(authorities: seq<Authority>, totalFound: int, searchParams: AuthorityEcho)

  /** The filter expression: nothing for an empty term, otherwise one clause on the name field `ad`. */
  function AuthorityFilters(term: string): (f: seq<FilterToken>)
    ensures f == [] <==> term == []
    ensures term != [] ==> f == [Clause("ad", "contains", term)]
  {
    if term == [] then [] else [Clause("ad", "contains", term)]
  }

  /** The dictionary built for one authority; the portal gives no child count, so it is always 0. */
  function FormatAuthority(a: RawAuthority): Authority
  {
    Authority(a.id, a.ad, a.parentIdareKimlikKodu, a.seviye, a.hasItems.GetOr(false), 0, a.detsisNo, a.idareId)
  }

  /**
   * `search_authorities`: the payload carries the name filter and the clamped limit as `take`;
   * a received body gives one authority per upstream record in order, with no truncation here,
   * `child_count` 0 throughout, and `total_found` equal to their number.
   */
  method SearchAuthorities(searchTerm: string, limit: int, response: Upstream<AuthorityBody>)
    returns (payload: LoadOptions, outcome: Outcome<AuthorityPage>)
    ensures payload == LoadOptions(AuthorityFilters(searchTerm), ClampToRange(limit, 1, MaxLoadTake))
    ensures response.Received? <==> outcome.Success?
    ensures response.Received? ==>
      var data := response.body.data;
      var page := outcome.value;
      |page.authorities| == |data| && page.totalFound == |data|
      && (forall i :: 0 <= i < |data| ==> page.authorities[i] == FormatAuthority(data[i]))
      && (forall i :: 0 <= i < |data| ==> page.authorities[i].childCount == 0)
      && page.searchParams == AuthorityEcho(searchTerm, ClampToRange(limit, 1, MaxLoadTake))
    ensures !response.Received? ==> outcome == Failure(FailureRecord(response, "Request failed - authority search"))
  {
    var effective;
    payload, effective := BuildLoadOptions(AuthorityFilters(searchTerm), limit);
    match response {
      case Received(body) =>
        var results := MapSeq(body.data, FormatAuthority);
        outcome := Success(AuthorityPage(results, |results|, AuthorityEcho(searchTerm, effective)));
      case _ =>
        outcome := Failure(FailureRecord(response, "Request failed - authority search"));
    }
  }
}
