/**
 * `EKAPClient.search_tenders`: the `GetListByParameters` payload built from the caller's
 * arguments, and the formatting of the tender list that comes back.
 */
module TenderSearch {
  import opened Wrappers
  import opened Decimal
  import opened DateFormat
  import opened ClientCommon

  /**
   * The seventeen tri-state filters, named by the payload keys they are sent under
   * (`e_ihale` as `eIhale`, `cerceve_anlasmasi_mi` as `cerceveAnlasmaMi`, and so on).
   * `None` is sent as JSON `null`, meaning "do not filter".
   */
  datatype BoolFilters = BoolFilters(
    eIhale: Option<bool>,
    eEksiltmeYapilacakMi: Option<bool>,
    ortakAlimMi: Option<bool>,
    kismiTeklifMi: Option<bool>,
    fiyatDisiUnsurVarmi: Option<bool>,
    ekonomikVeMaliYeterlilikBelgeleriIsteniyorMu: Option<bool>,
    meslekiTeknikYeterlilikBelgeleriIsteniyorMu: Option<bool>,
    isDeneyimiGosterenBelgelerIsteniyorMu: Option<bool>,
    yerliIstekliyeFiyatAvantajiUgulaniyorMu: Option<bool>,
    yabanciIsteklilereIzinVeriliyorMu: Option<bool>,
    alternatifTeklifVerilebilirMi: Option<bool>,
    konsorsiyumKatilabilirMi: Option<bool>,
    altYukleniciCalistirilabilirMi: Option<bool>,
    fiyatFarkiVerilecekMi: Option<bool>,
    avansVerilecekMi: Option<bool>,
    cerceveAnlasmaMi: Option<bool>,
    personelCalistirilmasinaDayaliMi: Option<bool>)

  /** The eleven `search_in_*` switches, named by their payload keys (`search_in_ikn` as `ikNdeAra`, ...). */
  datatype SearchScope = SearchScope(
    ikNdeAra: bool,
    ihaleAdindaAra: bool,
    ihaleIlanindaAra: bool,
    teknikSartnamedeAra: bool,
    idariSartnamedeAra: bool,
    benzerIsMaddesindeAra: bool,
    isinYapilacagiYerMaddesindeAra: bool,
    nitelikTurMiktarMaddesindeAra: bool,
    ihaleBilgilerindeAra: bool,
    sozlesmeTasarisindaAra: bool,
    teklifCetvelindeAra: bool)

  /** The arguments of `search_tenders`; a list filter left out is `None`. */
  datatype TenderQuery = TenderQuery(
    searchText: string,
    iknYear: Option<int>,
    iknNumber: Option<int>,
    tenderTypes: Option<seq<int>>,
    tenderDateStart: Option<string>,
    tenderDateEnd: Option<string>,
    announcementDateStart: Option<string>,
    announcementDateEnd: Option<string>,
    searchType: string,
    orderBy: string,
    sortOrder: string,
    flags: BoolFilters,
    provinces: Option<seq<int>>,
    tenderStatuses: Option<seq<int>>,
    tenderMethods: Option<seq<int>>,
    tenderSubMethods: Option<seq<int>>,
    okasCodes: Option<seq<string>>,
    authorityIds: Option<seq<int>>,
    proposalTypes: Option<seq<int>>,
    announcementTypes: Option<seq<int>>,
    scope: SearchScope,
    skip: int,
    limit: int)

  const NoBoolFilters := BoolFilters(None, None, None, None, None, None, None, None, None,
                                     None, None, None, None, None, None, None, None)

  const WholeScope := SearchScope(true, true, true, true, true, true, true, true, true, true, true)

  /** The query with every argument at its default. */
  const DefaultTenderQuery := TenderQuery(
    "", None, None, None, None, None, None, None, "GirdigimGibi", "ihaleTarihi", "desc",
    NoBoolFilters, None, None, None, None, None, None, None, None, WholeScope, 0, 10)

  /**
   * The JSON body sent to `GetListByParameters`. Keys that always hold the same constant
   * (`filterType: null` and the empty lists `yasaKapsami4734List`, `asiriDusukTeklifIdList`,
   * `istisnaMaddeIdList`, `okasBransAdiList`, `titubbKodList`, `gmdnKodList`) are not represented.
   */
  datatype SearchPayload = SearchPayload(
    searchText: string,
    scope: SearchScope,
    searchType: string,
    iknYili: Option<int>,
    iknSayi: Option<int>,
    ihaleTarihSaatBaslangic: Option<string>,
    ihaleTarihSaatBitis: Option<string>,
    ilanTarihSaatBaslangic: Option<string>,
    ilanTarihSaatBitis: Option<string>,
    ihaleTuruIdList: seq<int>,
    ihaleUsulIdList: seq<int>,
    ihaleUsulAltIdList: seq<int>,
    ihaleIlIdList: seq<int>,
    ihaleDurumIdList: seq<int>,
    idareIdList: seq<int>,
    ihaleIlanTuruIdList: seq<int>,
    teklifTuruIdList: seq<int>,
    okasBransKodList: seq<string>,
    flags: BoolFilters,
    orderBy: string,
    siralamaTipi: string,
    paginationSkip: int,
    paginationTake: int)

  /**
   * The `api_params` literal: every list filter that is left out is sent as `[]`, the others
   * verbatim; the tri-state filters and the scope switches pass through unchanged, `None`
   * included; the four dates are reformatted to `DD.MM.YYYY`, or sent as `null`.
   */
  function BuildSearchPayload(q: TenderQuery): (p: SearchPayload)
    ensures p.ihaleTuruIdList == q.tenderTypes.GetOr([]) && p.ihaleUsulIdList == q.tenderMethods.GetOr([])
    ensures p.ihaleUsulAltIdList == q.tenderSubMethods.GetOr([]) && p.ihaleIlIdList == q.provinces.GetOr([])
    ensures p.ihaleDurumIdList == q.tenderStatuses.GetOr([]) && p.idareIdList == q.authorityIds.GetOr([])
    ensures p.ihaleIlanTuruIdList == q.announcementTypes.GetOr([]) && p.teklifTuruIdList == q.proposalTypes.GetOr([])
    ensures p.okasBransKodList == q.okasCodes.GetOr([])
    ensures p.flags == q.flags && p.scope == q.scope
    ensures p.ihaleTarihSaatBaslangic == FormatDateForApi(q.tenderDateStart)
    ensures p.ihaleTarihSaatBitis == FormatDateForApi(q.tenderDateEnd)
    ensures p.ilanTarihSaatBaslangic == FormatDateForApi(q.announcementDateStart)
    ensures p.ilanTarihSaatBitis == FormatDateForApi(q.announcementDateEnd)
    ensures p.searchText == q.searchText && p.searchType == q.searchType
    ensures p.iknYili == q.iknYear && p.iknSayi == q.iknNumber
    ensures p.orderBy == q.orderBy && p.siralamaTipi == q.sortOrder
    ensures p.paginationSkip == q.skip && p.paginationTake == q.limit
  {
    SearchPayload(
      q.searchText, q.scope, q.searchType, q.iknYear, q.iknNumber,
      FormatDateForApi(q.tenderDateStart), FormatDateForApi(q.tenderDateEnd),
      FormatDateForApi(q.announcementDateStart), FormatDateForApi(q.announcementDateEnd),
      q.tenderTypes.GetOr([]), q.tenderMethods.GetOr([]), q.tenderSubMethods.GetOr([]),
      q.provinces.GetOr([]), q.tenderStatuses.GetOr([]), q.authorityIds.GetOr([]),
      q.announcementTypes.GetOr([]), q.proposalTypes.GetOr([]), q.okasCodes.GetOr([]),
      q.flags, q.orderBy, q.sortOrder, q.skip, q.limit)
  }

  /** With every argument at its default nothing is filtered: all lists empty, all filters `null`, no dates. */
  lemma DefaultPayloadFiltersNothing()
    ensures var p := BuildSearchPayload(DefaultTenderQuery);
      p.ihaleTuruIdList == [] && p.ihaleIlIdList == [] && p.okasBransKodList == [] && p.idareIdList == []
      && p.flags.eIhale.None? && p.flags.personelCalistirilmasinaDayaliMi.None?
      && p.ihaleTarihSaatBaslangic.None? && p.ilanTarihSaatBitis.None?
      && p.scope.ikNdeAra && p.scope.teklifCetvelindeAra
      && p.paginationSkip == 0 && p.paginationTake == 10 && p.siralamaTipi == "desc"
  {
  }

  /** A date that reaches the payload names the same calendar day the caller gave. */
  lemma PayloadDatesKeepTheDay(q: TenderQuery)
    ensures var p := BuildSearchPayload(q);
      (p.ihaleTarihSaatBaslangic.Some? ==> ParseApiDate(p.ihaleTarihSaatBaslangic.value) == ParseIsoDate(q.tenderDateStart.value))
      && (p.ihaleTarihSaatBitis.Some? ==> ParseApiDate(p.ihaleTarihSaatBitis.value) == ParseIsoDate(q.tenderDateEnd.value))
      && (p.ilanTarihSaatBaslangic.Some? ==> ParseApiDate(p.ilanTarihSaatBaslangic.value) == ParseIsoDate(q.announcementDateStart.value))
      && (p.ilanTarihSaatBitis.Some? ==> ParseApiDate(p.ilanTarihSaatBitis.value) == ParseIsoDate(q.announcementDateEnd.value))
  {
  }

  /** One element of the upstream `list`; a key that is missing is `None`. */
  datatype RawTender = RawTender(
    id: Option<int>,
    ihaleAdi: Option<string>,
    ikn: Option<string>,
    ihaleTip: Option<int>,
    ihaleTipAciklama: Option<string>,
    ihaleUsulAciklama: Option<string>,
    ihaleDurum: Option<int>,
    ihaleDurumAciklama: Option<string>,
    idareAdi: Option<string>,
    ihaleIlAdi: Option<string>,
    ihaleTarihSaat: Option<string>,
    dokumanSayisi: Option<int>,
    ilanVarMi: Option<bool>)

  /** The upstream body: `list` (read as `[]` when missing) and `totalCount`. */
  datatype TenderListBody = TenderListBody(list: seq<RawTender>, totalCount: Option<int>)

  /** A `{"code": ..., "description": ...}` pair. */
  datatype CodeLabel = CodeLabel(code: Option<int>, description: Option<string>)

  datatype FormattedTender = FormattedTender(
    id: Option<int>,
    name: Option<string>,
    ikn: Option<string>,
    tenderType: CodeLabel,
    tenderMethod: Option<string>,
    status: CodeLabel,
    authority: Option<string>,
    province: Option<string>,
    tenderDatetime: Option<string>,
    documentCount: int,
    hasAnnouncement: bool,
    ekapUrl: Option<string>)

  /** `{"tenders": ..., "total_count": ..., "returned_count": ...}`. */
  datatype TenderPage = TenderPage(tenders: seq<FormattedTender>, totalCount: int, returnedCount: int)

  const EkapTenderUrlPrefix := "https://ekapv2.kik.gov.tr/ekap/tender/"

  /** The portal link of a tender: present exactly when its id is truthy (given and not 0). */
  function EkapUrl(id: Option<int>): (u: Option<string>)
    ensures u.None? <==> id.None? || id.value == 0
    ensures u.Some? ==> |u.value| > |EkapTenderUrlPrefix| && u.value[..|EkapTenderUrlPrefix|] == EkapTenderUrlPrefix
  {
    if id.Some? && id.value != 0 then Some(EkapTenderUrlPrefix + IntToString(id.value)) else None
  }

  /** Reads the tender id back out of a portal link. */
  function TenderIdOfUrl(url: string): Option<int>
  {
    if |url| >= |EkapTenderUrlPrefix| && url[..|EkapTenderUrlPrefix|] == EkapTenderUrlPrefix
    then ParseInt(url[|EkapTenderUrlPrefix|..])
    else None
  }

  /** A portal link names the tender it was made for. */
  lemma EkapUrlRoundTrip(id: Option<int>)
    requires EkapUrl(id).Some?
    ensures TenderIdOfUrl(EkapUrl(id).value) == id
  {
    var u := EkapUrl(id).value;
    assert u[|EkapTenderUrlPrefix|..] == IntToString(id.value);
    IntRoundTrip(id.value);
  }

  /** Distinct tenders get distinct links. */
  lemma EkapUrlInjective(a: Option<int>, b: Option<int>)
    requires EkapUrl(a).Some? && EkapUrl(a) == EkapUrl(b)
    ensures a == b
  {
    EkapUrlRoundTrip(a);
    EkapUrlRoundTrip(b);
  }

  /** The dictionary built for one tender: missing counts read as 0, a missing announcement flag as `False`. */
  function FormatTender(t: RawTender): FormattedTender
  {
    FormattedTender(
      t.id, t.ihaleAdi, t.ikn,
      CodeLabel(t.ihaleTip, t.ihaleTipAciklama),
      t.ihaleUsulAciklama,
      CodeLabel(t.ihaleDurum, t.ihaleDurumAciklama),
      t.idareAdi, t.ihaleIlAdi, t.ihaleTarihSaat,
      t.dokumanSayisi.GetOr(0), t.ilanVarMi.GetOr(false),
      EkapUrl(t.id))
  }

  /** The keys of the dictionary `search_tenders` returns. */
  function SearchResultKeys(o: Outcome<TenderPage>): (keys: set<string>)
    ensures o.Success? ==> keys == {"tenders", "total_count", "returned_count"}
    ensures o.Failure? ==> keys == {"error", "message"}
  {
    if o.Success? then {"tenders", "total_count", "returned_count"} else {"error", "message"}
  }

  /** No result of the client search carries a `search_params` key. */
  lemma NoSearchParamsKey(o: Outcome<TenderPage>)
    ensures "search_params" !in SearchResultKeys(o)
  {
  }

  /**
   * `search_tenders`: the payload built from the query; for a received body one formatted tender
   * per listed tender in upstream order, `returned_count` equal to their number and
   * `total_count` defaulting to 0; for a failure the matching error record.
   */
  method SearchTenders(q: TenderQuery, response: Upstream<TenderListBody>)
    returns (payload: SearchPayload, outcome: Outcome<TenderPage>)
    ensures payload == BuildSearchPayload(q)
    ensures response.Received? <==> outcome.Success?
    ensures response.Received? ==>
      var list := response.body.list;
      var page := outcome.value;
      |page.tenders| == |list| && page.returnedCount == |list|
      && page.totalCount == response.body.totalCount.GetOr(0)
      && (forall i :: 0 <= i < |list| ==> page.tenders[i] == FormatTender(list[i]))
      && (forall i :: 0 <= i < |list| ==> (page.tenders[i].ekapUrl.None? <==> list[i].id.None? || list[i].id.value == 0))
    ensures !response.Received? ==> outcome == Failure(FailureRecord(response, "Request failed"))
  {
    payload := BuildSearchPayload(q);
    match response {
      case Received(body) =>
        var formatted := MapSeq(body.list, FormatTender);
        outcome := Success(TenderPage(formatted, body.totalCount.GetOr(0), |formatted|));
      case _ =>
        outcome := Failure(FailureRecord(response, "Request failed"));
    }
  }
}
