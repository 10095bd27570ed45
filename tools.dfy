/**
 * The MCP tools of `ihale_mcp.py` that do more than delegate to the client: the argument
 * clamping and date shortcuts of `search_tenders`, the plate-number translation of its
 * province filter and its `search_params` echo; `get_recent_tenders`; and the reshaping of the
 * client's results in `get_tender_announcements` and `get_tender_details`.
 *
 * Every error record the client returns has a non-empty `"error"` text (the `FailureRecord`
 * contract and the "not found" text), so the tools' `if result.get("error")` test is the same
 * as asking whether the client failed.
 */
module Tools {
  import opened Wrappers
  import opened Models
  import opened DateFormat
  import opened ClientCommon
  import opened TenderSearch
  import opened Announcements
  import opened TenderDetails

  /** The bound the tender tools document and `search_tenders` enforces on `limit`. */
  const MaxToolLimit := 100

  /** The bound `get_recent_tenders` enforces on `days`. */
  const MaxDaysBack := 30

  // ---------------------------------------------------------------------------------------------
  // Plate numbers to portal province ids

  /** The portal ids of the plates that have one, in the order the plates were given (duplicates kept). */
  function PlateImage(plates: seq<int>): (ids: seq<int>)
    ensures |ids| <= |plates|
  {
    if plates == [] then []
    else
      var last := plates[|plates| - 1];
      PlateImage(plates[..|plates| - 1]) + (if PlateToApiId(last).Some? then [PlateToApiId(last).value] else [])
  }

  /** The translation distributes over concatenation, so it keeps the order of the plates. */
  lemma {:induction false} PlateImageAppend(a: seq<int>, b: seq<int>)
    ensures PlateImage(a + b) == PlateImage(a) + PlateImage(b)
    decreases |b|
  {
    if b == [] {
      assert a + b == a;
    } else {
      var init := b[..|b| - 1];
      assert (a + b)[..|a + b| - 1] == a + init;
      assert (a + b)[|a + b| - 1] == b[|b| - 1];
      PlateImageAppend(a, init);
    }
  }

  /** An id is in the translation exactly when some given plate maps to it. */
  lemma {:induction false} PlateImageMembers(plates: seq<int>)
    ensures forall id :: id in PlateImage(plates) <==> exists i :: 0 <= i < |plates| && PlateToApiId(plates[i]) == Some(id)
    decreases |plates|
  {
    if plates != [] {
      var init := plates[..|plates| - 1];
      var last := plates[|plates| - 1];
      PlateImageMembers(init);
      forall id
        ensures id in PlateImage(plates) <==> exists i :: 0 <= i < |plates| && PlateToApiId(plates[i]) == Some(id)
      {
        if id in PlateImage(init) {
          var i :| 0 <= i < |init| && PlateToApiId(init[i]) == Some(id);
          assert plates[i] == init[i];
        }
        if exists i :: 0 <= i < |plates| && PlateToApiId(plates[i]) == Some(id) {
          var i :| 0 <= i < |plates| && PlateToApiId(plates[i]) == Some(id);
          if i < |init| {
            assert init[i] == plates[i];
          }
        }
      }
    }
  }

  /** When every plate is valid, each one is translated, position by position. */
  lemma {:induction false} PlateImageOfValid(plates: seq<int>)
    requires forall i :: 0 <= i < |plates| ==> 1 <= plates[i] <= 81
    ensures |PlateImage(plates)| == |plates|
    ensures forall i :: 0 <= i < |plates| ==> Some(PlateImage(plates)[i]) == PlateToApiId(plates[i])
    decreases |plates|
  {
    PlateDomain();
    if plates != [] {
      PlateImageOfValid(plates[..|plates| - 1]);
    }
  }

  /**
   * The translated province filter: `None` when no plates were given or none of them is a plate
   * number (1-81); otherwise the portal ids of the valid plates, never an empty list.
   */
  function TranslatedProvinces(provinces: Option<seq<int>>): (ids: Option<seq<int>>)
    ensures ids.Some? ==> provinces.Some? && ids.value != [] && ids.value == PlateImage(provinces.value)
    ensures ids.None? <==> provinces.None? || forall i :: 0 <= i < |provinces.value| ==> !(1 <= provinces.value[i] <= 81)
  {
    if provinces.None? then None
    else
      PlateImageEmpty(provinces.value);
      if PlateImage(provinces.value) == [] then None else Some(PlateImage(provinces.value))
  }

  /** Nothing is translated exactly when no given number is a plate number. */
  lemma {:induction false} PlateImageEmpty(plates: seq<int>)
    ensures PlateImage(plates) == [] <==> forall i :: 0 <= i < |plates| ==> !(1 <= plates[i] <= 81)
    decreases |plates|
  {
    if plates != [] {
      var init := plates[..|plates| - 1];
      PlateImageEmpty(init);
      PlateDomain();
      assert forall i :: 0 <= i < |init| ==> init[i] == plates[i];
    }
  }

  /** The province list that reaches the payload holds portal province ids only. */
  lemma TranslatedProvincesInRange(provinces: Option<seq<int>>)
    ensures var ids := TranslatedProvinces(provinces).GetOr([]);
      forall i :: 0 <= i < |ids| ==> 245 <= ids[i] <= 325
  {
    var ids := TranslatedProvinces(provinces).GetOr([]);
    if TranslatedProvinces(provinces).Some? {
      TranslatedProvincesAreProvinces(provinces);
      assert forall i :: 0 <= i < |ids| ==> ids[i] in ids;
    }
  }

  /** Every translated id is a portal province id, and it names the province of a plate that was given. */
  lemma TranslatedProvincesAreProvinces(provinces: Option<seq<int>>)
    requires TranslatedProvinces(provinces).Some?
    ensures forall id :: id in TranslatedProvinces(provinces).value ==>
      245 <= id <= 325
      && (exists i :: 0 <= i < |provinces.value| && 1 <= provinces.value[i] <= 81
            && PlateToApiId(provinces.value[i]) == Some(id)
            && Provinces(id) == Some(Province(DocumentedPlateName(provinces.value[i]))))
  {
    PlateImageMembers(provinces.value);
    PlateDomain();
    PlateRange();
    PlateRoundTrip();
  }

  /**
   * The `if provinces:` block: `PLATE_TO_API_ID.get` for each plate, keeping the truthy ids, and
   * `None` in place of an empty result.
   */
  method TranslatePlates(provinces: Option<seq<int>>) returns (ids: Option<seq<int>>)
    ensures ids == TranslatedProvinces(provinces)
  {
    ids := None;
    if provinces.Some? && provinces.value != [] {
      var plates := provinces.value;
      PlateRange();
      var apiIds: seq<int> := [];
      var i := 0;
      while i < |plates|
        invariant 0 <= i <= |plates|
        invariant apiIds == PlateImage(plates[..i])
      {
        assert plates[..i + 1][..i] == plates[..i];
        var apiId := PlateToApiId(plates[i]);
        if apiId.Some? && apiId.value != 0 {
          apiIds := apiIds + [apiId.value];
        }
        i := i + 1;
      }
      assert plates[..i] == plates;
      if apiIds != [] {
        ids := Some(apiIds);
      }
    }
  }

  // ---------------------------------------------------------------------------------------------
  // search_tenders

  /** The `date_range` part of the echo. */
  datatype DateRangeEcho = DateRangeEcho(
    tenderStart: Option<string>,
    tenderEnd: Option<string>,
    announcementStart: Option<string>,
    announcementEnd: Option<string>)

  /** The `search_params` echo the tool adds for logging. */
  datatype SearchEcho = SearchEcho(
    searchText: string,
    iknYear: Option<int>,
    iknNumber: Option<int>,
    tenderTypes: Option<seq<int>>,
    dateRange: DateRangeEcho)

  /** The client's result with the `search_params` key the tool may add to it. */
  datatype SearchToolResult = SearchToolResult(client: Outcome<TenderPage>, searchParams: Option<SearchEcho>)

  /**
   * The argument handling at the top of the `search_tenders` tool. `today` is the clock's date.
   * The query handed to the client differs from the caller's only in the limit, clamped to
   * 1-100, the two date shortcuts and the translated provinces.
   */
  method PrepareSearch(q: TenderQuery, announcementDateFilter: Option<string>, tenderDateFilter: Option<string>, today: Date)
    returns (sent: TenderQuery)
    requires ValidDate(today)
    ensures sent.limit == ClampToRange(q.limit, 1, MaxToolLimit)
    ensures announcementDateFilter == Some("today") ==>
      sent.announcementDateStart == Some(RenderIsoDate(today)) && sent.announcementDateEnd == Some(RenderIsoDate(today))
    ensures announcementDateFilter != Some("today") ==>
      sent.announcementDateStart == q.announcementDateStart && sent.announcementDateEnd == q.announcementDateEnd
    ensures tenderDateFilter == Some("from_today") ==>
      sent.tenderDateStart == Some(RenderIsoDate(today)) && sent.tenderDateEnd.None?
    ensures tenderDateFilter != Some("from_today") ==>
      sent.tenderDateStart == q.tenderDateStart && sent.tenderDateEnd == q.tenderDateEnd
    ensures sent.provinces == TranslatedProvinces(q.provinces)
    ensures sent == q.(limit := sent.limit, provinces := sent.provinces,
                       tenderDateStart := sent.tenderDateStart, tenderDateEnd := sent.tenderDateEnd,
                       announcementDateStart := sent.announcementDateStart, announcementDateEnd := sent.announcementDateEnd)
  {
    var limit := q.limit;
    if limit > MaxToolLimit {
      limit := MaxToolLimit;
    } else if limit < 1 {
      limit := 1;
    }

    var announcementStart, announcementEnd := q.announcementDateStart, q.announcementDateEnd;
    if announcementDateFilter == Some("today") {
      announcementStart := Some(RenderIsoDate(today));
      announcementEnd := Some(RenderIsoDate(today));
    }
    var tenderStart, tenderEnd := q.tenderDateStart, q.tenderDateEnd;
    if tenderDateFilter == Some("from_today") {
      tenderStart := Some(RenderIsoDate(today));
      tenderEnd := None;
    }

    var apiProvinceIds := TranslatePlates(q.provinces);
    sent := q.(limit := limit, provinces := apiProvinceIds,
               tenderDateStart := tenderStart, tenderDateEnd := tenderEnd,
               announcementDateStart := announcementStart, announcementDateEnd := announcementEnd);
  }

  /**
   * `search_tenders` (the tool): the payload is the one for the prepared query, so a shortcut
   * date reaches the portal as today's `DD.MM.YYYY` and the province list holds portal ids only;
   * the client's result comes back with the echo of the search text, IKN, tender types and the
   * dates as finally used, which is always added because no client result carries a
   * `search_params` key of its own.
   */
  method SearchTendersTool(q: TenderQuery, announcementDateFilter: Option<string>, tenderDateFilter: Option<string>,
                           today: Date, response: Upstream<TenderListBody>)
    returns (payload: SearchPayload, answer: SearchToolResult)
    requires ValidDate(today)
    ensures 1 <= payload.paginationTake <= MaxToolLimit && payload.paginationTake == ClampToRange(q.limit, 1, MaxToolLimit)
    ensures announcementDateFilter == Some("today") ==>
      payload.ilanTarihSaatBaslangic == Some(RenderApiDate(today)) && payload.ilanTarihSaatBitis == Some(RenderApiDate(today))
    ensures tenderDateFilter == Some("from_today") ==>
      payload.ihaleTarihSaatBaslangic == Some(RenderApiDate(today)) && payload.ihaleTarihSaatBitis.None?
    ensures payload.ihaleIlIdList == TranslatedProvinces(q.provinces).GetOr([])
    ensures forall i :: 0 <= i < |payload.ihaleIlIdList| ==> 245 <= payload.ihaleIlIdList[i] <= 325
    ensures payload.searchText == q.searchText && payload.flags == q.flags && payload.scope == q.scope
    ensures payload.ihaleTuruIdList == q.tenderTypes.GetOr([]) && payload.okasBransKodList == q.okasCodes.GetOr([])
    ensures payload == BuildSearchPayload(q.(
      limit := ClampToRange(q.limit, 1, MaxToolLimit),
      provinces := TranslatedProvinces(q.provinces),
      tenderDateStart := if tenderDateFilter == Some("from_today") then Some(RenderIsoDate(today)) else q.tenderDateStart,
      tenderDateEnd := if tenderDateFilter == Some("from_today") then None else q.tenderDateEnd,
      announcementDateStart := if announcementDateFilter == Some("today") then Some(RenderIsoDate(today)) else q.announcementDateStart,
      announcementDateEnd := if announcementDateFilter == Some("today") then Some(RenderIsoDate(today)) else q.announcementDateEnd))
    ensures answer.client.Success? <==> response.Received?
    ensures response.Received? ==>
      var list := response.body.list;
      |answer.client.value.tenders| == |list| && answer.client.value.returnedCount == |list|
      && (forall i :: 0 <= i < |list| ==> answer.client.value.tenders[i] == FormatTender(list[i]))
    ensures !response.Received? ==> answer.client == Failure(FailureRecord(response, "Request failed"))
    ensures answer.searchParams.Some?
    ensures var echo := answer.searchParams.value;
      echo.searchText == q.searchText && echo.iknYear == q.iknYear && echo.iknNumber == q.iknNumber
      && echo.tenderTypes == q.tenderTypes
      && echo.dateRange.announcementStart == (if announcementDateFilter == Some("today") then Some(RenderIsoDate(today)) else q.announcementDateStart)
      && echo.dateRange.announcementEnd == (if announcementDateFilter == Some("today") then Some(RenderIsoDate(today)) else q.announcementDateEnd)
      && echo.dateRange.tenderStart == (if tenderDateFilter == Some("from_today") then Some(RenderIsoDate(today)) else q.tenderDateStart)
      && echo.dateRange.tenderEnd == (if tenderDateFilter == Some("from_today") then None else q.tenderDateEnd)
  {
    var sent := PrepareSearch(q, announcementDateFilter, tenderDateFilter, today);
    TranslatedProvincesInRange(q.provinces);
    FormatsValidDate(today);
    var client;
    payload, client := SearchTenders(sent, response);

    answer := SearchToolResult(client, None);
    NoSearchParamsKey(client);
    if "search_params" !in SearchResultKeys(client) {
      answer := answer.(searchParams := Some(SearchEcho(q.searchText, q.iknYear, q.iknNumber, q.tenderTypes,
        DateRangeEcho(sent.tenderDateStart, sent.tenderDateEnd, sent.announcementDateStart, sent.announcementDateEnd))));
    }
  }

  // ---------------------------------------------------------------------------------------------
  // get_recent_tenders

  /**
   * The query `get_recent_tenders` hands to the client as the code is written: the caller's
   * `limit` is passed on unclamped, although the tool documents `limit` as 1-100.
   */
  function RecentQueryAsWritten(tenderTypes: Option<seq<int>>, start: string, end: string, limit: int): (q: TenderQuery)
    ensures q.limit == limit && q.tenderTypes == tenderTypes
    ensures q.announcementDateStart == Some(start) && q.announcementDateEnd == Some(end)
  {
    DefaultTenderQuery.(tenderTypes := tenderTypes, announcementDateStart := Some(start),
                        announcementDateEnd := Some(end), limit := limit)
  }

  /** A limit of 1000 reaches the portal as `paginationTake` 1000, and 0 as 0: outside the documented range. */
  lemma RecentLimitEscapesRange(start: string, end: string)
    ensures BuildSearchPayload(RecentQueryAsWritten(None, start, end, 1000)).paginationTake == 1000
    ensures BuildSearchPayload(RecentQueryAsWritten(None, start, end, 0)).paginationTake == 0
  {
  }

  /** The corrected query: the same as written, with `limit` clamped to 1-100 like `search_tenders` does. */
  function RecentQuery(tenderTypes: Option<seq<int>>, start: string, end: string, limit: int): (q: TenderQuery)
    ensures q == RecentQueryAsWritten(tenderTypes, start, end, ClampToRange(limit, 1, MaxToolLimit))
    ensures 1 <= BuildSearchPayload(q).paginationTake <= MaxToolLimit
    ensures 1 <= limit <= MaxToolLimit ==> q == RecentQueryAsWritten(tenderTypes, start, end, limit)
  {
    RecentQueryAsWritten(tenderTypes, start, end, ClampToRange(limit, 1, MaxToolLimit))
  }

  /** The recent tenders search is an ordinary default search apart from its types, dates and limit. */
  lemma RecentQueryIsDefaultSearch(tenderTypes: Option<seq<int>>, start: string, end: string, limit: int)
    ensures var p := BuildSearchPayload(RecentQuery(tenderTypes, start, end, limit));
      p.searchText == [] && p.orderBy == "ihaleTarihi" && p.siralamaTipi == "desc" && p.paginationSkip == 0
      && p.ihaleTuruIdList == tenderTypes.GetOr([]) && p.ihaleIlIdList == [] && p.okasBransKodList == []
      && p.flags == NoBoolFilters && p.scope == WholeScope
      && p.ilanTarihSaatBaslangic == FormatDateForApi(Some(start)) && p.ilanTarihSaatBitis == FormatDateForApi(Some(end))
      && p.ihaleTarihSaatBaslangic.None? && p.ihaleTarihSaatBitis.None?
  {
  }

  datatype DateRange = DateRange(start: string, end: string, daysBack: int)

  datatype FiltersApplied = FiltersApplied(tenderTypes: Option<seq<int>>, limit: int)

  datatype RecentView = RecentView(
    recentTenders: seq<FormattedTender>,
    totalCount: int,
    dateRange: DateRange,
    filtersApplied: FiltersApplied)

  /**
   * The window of `get_recent_tenders`: `days` clamped to 1-30 and the date that many days
   * before `today`; both ends are dates `_format_date_for_api` accepts.
   */
  method RecentWindow(days: int, today: Date) returns (daysBack: int, start: Date)
    requires ValidDate(today) && today.year > 1
    ensures daysBack == ClampToRange(days, 1, MaxDaysBack)
    ensures ValidDate(start) && start == DaysBefore(today, daysBack)
    ensures Ordinal(today) - Ordinal(start) == daysBack
    ensures FormatDateForApi(Some(RenderIsoDate(start))) == Some(RenderApiDate(start))
    ensures FormatDateForApi(Some(RenderIsoDate(today))) == Some(RenderApiDate(today))
  {
    daysBack := days;
    if daysBack > MaxDaysBack {
      daysBack := MaxDaysBack;
    } else if daysBack < 1 {
      daysBack := 1;
    }
    start := DaysBefore(today, daysBack);
    FormatsValidDate(start);
    FormatsValidDate(today);
  }

  /**
   * `get_recent_tenders` as written. `today` is the clock's date; the window starts `days`
   * (clamped to 1-30) days earlier, and both ends reach the portal as `DD.MM.YYYY`. The caller's
   * `limit` is sent as `paginationTake` and echoed in `filters_applied` unchanged, whatever its
   * value; a client error is passed through unchanged.
   */
  method GetRecentTenders(days: int, tenderTypes: Option<seq<int>>, limit: int, today: Date, response: Upstream<TenderListBody>)
    returns (sent: TenderQuery, payload: SearchPayload, view: Outcome<RecentView>)
    requires ValidDate(today) && today.year > 1
    ensures var daysBack := ClampToRange(days, 1, MaxDaysBack);
      var start := DaysBefore(today, daysBack);
      Ordinal(today) - Ordinal(start) == daysBack
      && sent == RecentQueryAsWritten(tenderTypes, RenderIsoDate(start), RenderIsoDate(today), limit)
      && payload.ilanTarihSaatBaslangic == Some(RenderApiDate(start))
      && payload.ilanTarihSaatBitis == Some(RenderApiDate(today))
      && (response.Received? ==>
            view.Success?
            && view.value.dateRange == DateRange(RenderIsoDate(start), RenderIsoDate(today), daysBack))
    ensures payload == BuildSearchPayload(sent) && payload.paginationTake == limit
    ensures response.Received? ==>
      var list := response.body.list;
      view.Success?
      && |view.value.recentTenders| == |list|
      && (forall i :: 0 <= i < |list| ==> view.value.recentTenders[i] == FormatTender(list[i]))
      && view.value.totalCount == response.body.totalCount.GetOr(0)
      && view.value.filtersApplied == FiltersApplied(tenderTypes, limit)
    ensures !response.Received? ==> view == Failure(FailureRecord(response, "Request failed"))
  {
    var daysBack, startDate := RecentWindow(days, today);
    var startText, endText := RenderIsoDate(startDate), RenderIsoDate(today);

    sent := RecentQueryAsWritten(tenderTypes, startText, endText, limit);
    var client;
    payload, client := SearchTenders(sent, response);
    assert payload.ilanTarihSaatBaslangic == Some(RenderApiDate(startDate));
    assert payload.ilanTarihSaatBitis == Some(RenderApiDate(today));

    if client.Failure? {
      view := Failure(client.err);
      return;
    }
    view := Success(RecentView(client.value.tenders, client.value.totalCount,
                               DateRange(startText, endText, daysBack),
                               FiltersApplied(tenderTypes, limit)));
  }

  /**
   * `get_recent_tenders` with the limit clamped into 1-100 first, as `search_tenders` does:
   * the query is `RecentQuery`, the portal receives a `paginationTake` in 1..100 and
   * `filters_applied` echoes the clamped value.
   */
  method GetRecentTendersCorrected(days: int, tenderTypes: Option<seq<int>>, limit: int, today: Date, response: Upstream<TenderListBody>)
    returns (sent: TenderQuery, payload: SearchPayload, view: Outcome<RecentView>)
    requires ValidDate(today) && today.year > 1
    ensures var start := DaysBefore(today, ClampToRange(days, 1, MaxDaysBack));
      sent == RecentQuery(tenderTypes, RenderIsoDate(start), RenderIsoDate(today), limit)
    ensures payload == BuildSearchPayload(sent) && 1 <= payload.paginationTake <= MaxToolLimit
    ensures 1 <= limit <= MaxToolLimit ==> payload.paginationTake == limit
    ensures var daysBack := ClampToRange(days, 1, MaxDaysBack);
      var start := DaysBefore(today, daysBack);
      Ordinal(today) - Ordinal(start) == daysBack
      && payload.ilanTarihSaatBaslangic == Some(RenderApiDate(start))
      && payload.ilanTarihSaatBitis == Some(RenderApiDate(today))
      && (response.Received? ==>
            view.Success?
            && view.value.dateRange == DateRange(RenderIsoDate(start), RenderIsoDate(today), daysBack))
    ensures response.Received? ==>
      var list := response.body.list;
      view.Success?
      && |view.value.recentTenders| == |list|
      && (forall i :: 0 <= i < |list| ==> view.value.recentTenders[i] == FormatTender(list[i]))
      && view.value.totalCount == response.body.totalCount.GetOr(0)
      && view.value.filtersApplied == FiltersApplied(tenderTypes, ClampToRange(limit, 1, MaxToolLimit))
    ensures !response.Received? ==> view == Failure(FailureRecord(response, "Request failed"))
  {
    sent, payload, view := GetRecentTenders(days, tenderTypes, ClampToRange(limit, 1, MaxToolLimit), today, response);
  }

  // ---------------------------------------------------------------------------------------------
  // get_tender_announcements

  datatype AnnouncementsView = AnnouncementsView(
    announcements: seq<Announcement>,
    totalAnnouncements: int,
    tenderId: int,
    typesFound: set<string>)

  /** `ann.get("type", {}).get("description", "Unknown")`; every formatted announcement has a type. */
  function AnnouncementLabel(a: Announcement): string
  {
    a.announcementType.description
  }

  /**
   * `get_tender_announcements` (the tool): a client error is passed through unchanged; otherwise
   * the announcements and their count as the client gave them, the requested id, and the set of
   * type labels that occur among them.
   */
  function AnnouncementsTool(tenderId: int, client: Outcome<AnnouncementPage>): (r: Outcome<AnnouncementsView>)
    ensures client.Failure? ==> r == Failure(client.err)
    ensures client.Success? ==>
      var anns := client.value.announcements;
      r.Success? && r.value.announcements == anns && r.value.totalAnnouncements == client.value.totalCount
      && r.value.tenderId == tenderId
      && |r.value.typesFound| <= |anns| && (r.value.typesFound == {} <==> anns == [])
      && (forall d :: d in r.value.typesFound <==> exists i :: 0 <= i < |anns| && anns[i].announcementType.description == d)
  {
    match client
    case Failure(err) => Failure(err)
    case Success(page) =>
      DistinctValuesSize(page.announcements, AnnouncementLabel);
      Success(AnnouncementsView(page.announcements, page.totalCount, tenderId,
                                DistinctValues(page.announcements, AnnouncementLabel)))
  }

  // ---------------------------------------------------------------------------------------------
  // get_tender_details

  datatype DetailsSummary = DetailsSummary(
    tenderName: Option<string>,
    ikn: Option<string>,
    status: Option<string>,
    authority: Option<string>,
    location: Option<string>,
    isElectronic: bool,
    characteristicsCount: int,
    okasCodesCount: int,
    announcementsCount: int)

  datatype DetailsView = DetailsView(tenderDetails: TenderDetail, summary: DetailsSummary)

  /**
   * `get_tender_details` (the tool): a client error, "not found" included, is passed through
   * unchanged; otherwise the details themselves and a summary whose entries are read from them
   * and whose counts are the lengths of the lists they count.
   */
  function DetailsTool(client: Outcome<TenderDetail>): (r: Outcome<DetailsView>)
    ensures client.Failure? ==> r == Failure(client.err)
    ensures client.Success? ==>
      var d := client.value;
      r.Success? && r.value.tenderDetails == d
      && var s := r.value.summary;
      s.tenderName == d.name && s.ikn == d.ikn && s.status == d.status.description
      && s.authority == d.authority.name && s.location == d.basicInfo.location
      && s.isElectronic == d.basicInfo.isElectronic
      && s.characteristicsCount == |d.characteristics| && s.okasCodesCount == |d.okasCodes|
      && s.announcementsCount == d.announcementsSummary.totalCount
  {
    match client
    case Failure(err) => Failure(err)
    case Success(d) =>
      Success(DetailsView(d, DetailsSummary(
        d.name, d.ikn, d.status.description, d.authority.name, d.basicInfo.location,
        d.basicInfo.isElectronic, |d.characteristics|, |d.okasCodes|, d.announcementsSummary.totalCount)))
  }

  /**
   * The `get_tender_details` tool over the client call: a missing item gives the not-found
   * record and a failed request its failure record, both passed through; otherwise the summary
   * names the upstream tender and counts its upstream characteristics, OKAS codes and
   * announcements.
   */
  method GetTenderDetailsTool(tenderId: int, response: Upstream<DetailsBody>,
                              convert: string -> Option<string>, title: string -> string)
    returns (view: Outcome<DetailsView>)
    ensures response.Received? && response.body.item.None? ==> view == Failure(DetailsNotFound(tenderId))
    ensures !response.Received? ==> view == Failure(FailureRecord(response, "Request failed - tender details"))
    ensures view.Success? <==> response.Received? && response.body.item.Some?
    ensures view.Success? ==>
      var item := response.body.item.value;
      var s := view.value.summary;
      s.tenderName == item.ihaleAdi && s.ikn == item.ikn
      && s.status == item.ihaleBilgi.ihaleDurumAciklama
      && s.authority == item.idare.adi
      && s.location == item.ihaleBilgi.isinYapilacagiYer
      && s.isElectronic == item.eIhale.GetOr(false)
      && s.characteristicsCount == |item.ihaleOzellikList|
      && s.okasCodesCount == |item.ihtiyacKalemiOkasList|
      && s.announcementsCount == |item.ilanList|
  {
    var payload, client := GetTenderDetails(tenderId, response, convert, title);
    view := DetailsTool(client);
  }
}
