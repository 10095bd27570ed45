/**
 * `EKAPClient.search_okas_codes`: the DevExtreme payload for the OKAS classification search, and
 * the formatting, item-type filtering and truncation of the codes that come back. The item type
 * is filtered here rather than upstream, because the portal fails on a `kalemTuru` filter.
 */
module OkasSearch {
  import opened Wrappers
  import opened Decimal
  import opened ClientCommon

  /** One element of `loadResult.data`; a key that is missing is `None`. */
  datatype RawOkas = RawOkas(
    id: Option<int>,
    kod: Option<string>,
    kalemAdi: Option<string>,
    kalemAdiEng: Option<string>,
    kalemTuru: Option<int>,
    kodLevel: Option<int>,
    parentId: Option<int>,
    hasItem: Option<bool>,
    childCount: Option<int>)

  /** The upstream body's `loadResult.data`, read as `[]` when either level is missing. */
  datatype OkasBody = OkasBody(data: seq<RawOkas>)

  datatype ItemType = ItemType(code: Option<int>, description: string)

  datatype OkasCode = OkasCode(
    id: Option<int>,
    code: Option<string>,
    descriptionTr: Option<string>,
    descriptionEn: Option<string>,
    itemType: ItemType,
    codeLevel: Option<int>,
    parentId: Option<int>,
    hasItems: bool,
    childCount: int)

  /** The `search_params` echo: the term, the requested item type and the clamped limit. */
  datatype OkasEcho = OkasEcho(searchTerm: string, kalemTuru: Option<int>, limit: int)

  datatype OkasPage = OkasPage(
    okasCodes: seq<OkasCode>,
    totalFound: int,
    searchParams: OkasEcho,
    itemTypeLegend: map<string, string>)

  /**
   * The filter expression: nothing for an empty term, otherwise the term searched in the Turkish
   * and the English description joined by `"or"`. The item type never appears in it.
   */
  function OkasFilters(term: string): (f: seq<FilterToken>)
    ensures f == [] <==> term == []
    ensures term != [] ==> f == [Clause("kalemAdi", "contains", term), Joiner("or"), Clause("kalemAdiEng", "contains", term)]
    ensures forall i :: 0 <= i < |f| && f[i].Clause? ==> f[i].field != "kalemTuru"
  {
    if term == [] then []
    else [Clause("kalemAdi", "contains", term), Joiner("or"), Clause("kalemAdiEng", "contains", term)]
  }

  /** The label of an item-type code; anything but 1, 2 or 3 (a missing code included) is `"Unknown"`. */
  function ItemTypeLabel(code: Option<int>): string
  {
    if code == Some(1) then "Mal (Goods)"
    else if code == Some(2) then "Hizmet (Service)"
    else if code == Some(3) then "Yapım (Construction)"
    else "Unknown"
  }

  /** The `item_type_legend` sent with every result. */
  const ItemTypeLegend: map<string, string> :=
    map["1" := "Mal (Goods)", "2" := "Hizmet (Service)", "3" := "Yapım (Construction)"]

  /**
   * A code has a known label exactly when it is 1, 2 or 3; the label is then the legend's entry
   * for the code written in decimal, and the three labels are distinct.
   */
  lemma ItemTypeLabelMatchesLegend(code: Option<int>)
    ensures ItemTypeLabel(code) != "Unknown" <==> code.Some? && 1 <= code.value <= 3
    ensures code.Some? && 1 <= code.value <= 3 ==>
      NatToString(code.value) in ItemTypeLegend && ItemTypeLegend[NatToString(code.value)] == ItemTypeLabel(code)
    ensures ItemTypeLegend.Keys == {"1", "2", "3"}
  {
    if code.Some? && 1 <= code.value <= 3 {
      assert NatToString(code.value) == [DigitChar(code.value)];
    }
  }

  lemma ItemTypeLabelsDistinct(a: int, b: int)
    requires 1 <= a <= 3 && 1 <= b <= 3 && a != b
    ensures ItemTypeLabel(Some(a)) != ItemTypeLabel(Some(b))
  {
  }

  /** The dictionary built for one code: missing `hasItem` reads as `False`, missing `childCount` as 0. */
  function FormatOkas(item: RawOkas): OkasCode
  {
    OkasCode(
      item.id, item.kod, item.kalemAdi, item.kalemAdiEng,
      ItemType(item.kalemTuru, ItemTypeLabel(item.kalemTuru)),
      item.kodLevel, item.parentId, item.hasItem.GetOr(false), item.childCount.GetOr(0))
  }

  /** The client-side filter: no item type asked for keeps everything; otherwise only exact matches (a missing type never matches). */
  predicate Keeps(kalemTuru: Option<int>, item: RawOkas)
  {
    kalemTuru.None? || item.kalemTuru == kalemTuru
  }

  /** The formatted codes of the kept items, in upstream order, before truncation. */
  function FilteredCodes(items: seq<RawOkas>, kalemTuru: Option<int>): (r: seq<OkasCode>)
    ensures |r| <= |items|
  {
    if items == [] then []
    else
      var last := items[|items| - 1];
      FilteredCodes(items[..|items| - 1], kalemTuru) + (if Keeps(kalemTuru, last) then [FormatOkas(last)] else [])
  }

  /** Filtering distributes over concatenation, so it keeps the upstream order. */
  lemma {:induction false} FilteredCodesAppend(a: seq<RawOkas>, b: seq<RawOkas>, kalemTuru: Option<int>)
    ensures FilteredCodes(a + b, kalemTuru) == FilteredCodes(a, kalemTuru) + FilteredCodes(b, kalemTuru)
    decreases |b|
  {
    if b == [] {
      assert a + b == a;
    } else {
      var init := b[..|b| - 1];
      assert (a + b)[..|a + b| - 1] == a + init;
      assert (a + b)[|a + b| - 1] == b[|b| - 1];
      FilteredCodesAppend(a, init, kalemTuru);
    }
  }

  /** Every filtered code has the requested item type. */
  lemma {:induction false} FilteredCodesHaveType(items: seq<RawOkas>, kalemTuru: Option<int>)
    requires kalemTuru.Some?
    ensures forall i :: 0 <= i < |FilteredCodes(items, kalemTuru)| ==> FilteredCodes(items, kalemTuru)[i].itemType.code == kalemTuru
    decreases |items|
  {
    if items != [] {
      FilteredCodesHaveType(items[..|items| - 1], kalemTuru);
    }
  }

  /** Without an item type nothing is dropped: one code per item, in order. */
  lemma {:induction false} FilteredCodesWithoutType(items: seq<RawOkas>)
    ensures |FilteredCodes(items, None)| == |items|
    ensures forall i :: 0 <= i < |items| ==> FilteredCodes(items, None)[i] == FormatOkas(items[i])
    decreases |items|
  {
    if items != [] {
      FilteredCodesWithoutType(items[..|items| - 1]);
    }
  }

  /** Every item of the requested type is among the filtered codes. */
  lemma {:induction false} FilteredCodesComplete(items: seq<RawOkas>, kalemTuru: Option<int>, i: nat)
    requires i < |items| && Keeps(kalemTuru, items[i])
    ensures FormatOkas(items[i]) in FilteredCodes(items, kalemTuru)
    decreases |items|
  {
    if i < |items| - 1 {
      FilteredCodesComplete(items[..|items| - 1], kalemTuru, i);
    }
  }

  /**
   * `for item in okas_items: ... if <other type>: continue; results.append(...)` and then
   * `results = results[:limit]`: the first `limit` of the filtered codes.
   */
  method SelectOkasCodes(items: seq<RawOkas>, kalemTuru: Option<int>, limit: int) returns (results: seq<OkasCode>)
    requires limit >= 1
    ensures var filtered := FilteredCodes(items, kalemTuru);
      |results| == (if |filtered| < limit then |filtered| else limit) && results == filtered[..|results|]
  {
    results := [];
    var i := 0;
    while i < |items|
      invariant 0 <= i <= |items|
      invariant results == FilteredCodes(items[..i], kalemTuru)
    {
      assert items[..i + 1][..i] == items[..i];
      var item := items[i];
      if kalemTuru.Some? && item.kalemTuru != kalemTuru {
        i := i + 1;
        continue;
      }
      results := results + [FormatOkas(item)];
      i := i + 1;
    }
    assert items[..i] == items;
    if |results| > limit {
      results := results[..limit];
    }
  }

  /** The type filter is applied before the limit: with limit 1, a matching code behind a non-matching one is still found. */
  lemma FilterBeforeTruncation(a: RawOkas, b: RawOkas)
    requires a.kalemTuru == Some(2) && b.kalemTuru == Some(1)
    ensures FilteredCodes([a, b], Some(1)) == [FormatOkas(b)]
  {
    assert [a, b][..1] == [a];
    assert [a][..0] == [];
  }

  /**
   * `search_okas_codes`: the payload carries the filter expression and the clamped limit as `take`;
   * a received body gives the first `limit` codes of the requested type in upstream order,
   * `total_found` equal to their number, the echo of the arguments with the clamped limit, and the legend.
   */
  method SearchOkasCodes(searchTerm: string, kalemTuru: Option<int>, limit: int, response: Upstream<OkasBody>)
    returns (payload: LoadOptions, outcome: Outcome<OkasPage>)
    ensures payload == LoadOptions(OkasFilters(searchTerm), ClampToRange(limit, 1, MaxLoadTake))
    ensures response.Received? <==> outcome.Success?
    ensures response.Received? ==>
      var page := outcome.value;
      var effective := ClampToRange(limit, 1, MaxLoadTake);
      var filtered := FilteredCodes(response.body.data, kalemTuru);
      |page.okasCodes| == (if |filtered| < effective then |filtered| else effective)
      && page.okasCodes == filtered[..|page.okasCodes|]
      && page.totalFound == |page.okasCodes|
      && page.searchParams == OkasEcho(searchTerm, kalemTuru, effective)
      && page.itemTypeLegend == ItemTypeLegend
    ensures !response.Received? ==> outcome == Failure(FailureRecord(response, "Request failed"))
  {
    var effective;
    payload, effective := BuildLoadOptions(OkasFilters(searchTerm), limit);
    match response {
      case Received(body) =>
        var results := SelectOkasCodes(body.data, kalemTuru, effective);
        outcome := Success(OkasPage(results, |results|, OkasEcho(searchTerm, kalemTuru, effective), ItemTypeLegend));
      case _ =>
        outcome := Failure(FailureRecord(response, "Request failed"));
    }
  }
}
