/**
 * `EKAPClient.get_tender_details`: the detail record of one tender, reshaped into basic
 * information, cleaned characteristics, OKAS codes, the authority, the process rules, an
 * announcement summary, flags, and cancellation information when the tender was cancelled.
 * MarkItDown and Python's `str.title()` are parameters.
 */
module TenderDetails {
  import opened Wrappers
  import opened Decimal
  import opened Text
  import opened Preview
  import opened ClientCommon
  import opened Announcements

  const DetailMarker := "TENDER_DETAIL."

  /**
   * The characteristic text with every `TENDER_DETAIL.` removed and every `_` turned into a space,
   * before title-casing. No `_` is left, so no marker can be left either, not even one that the
   * first removal brought together. Removing the markers is the only change besides the spacing:
   * `TENDER_DETAIL.` followed by marker-free text `t` gives `t` with its `_`s spaced, and text
   * without a marker only has its `_`s spaced.
   */
  function UnmarkCharacteristic(text: string): (r: string)
    ensures '_' !in r && !Contains(r, DetailMarker)
    ensures StartsWith(text, DetailMarker) && !Contains(text[|DetailMarker|..], DetailMarker) ==>
      var t := text[|DetailMarker|..];
      |r| == |t| && forall i :: 0 <= i < |t| ==> r[i] == SwapChar(t[i], '_', ' ')
    ensures !Contains(text, DetailMarker) ==>
      |r| == |text| && forall i :: 0 <= i < |text| ==> r[i] == SwapChar(text[i], '_', ' ')
  {
    var unmarked := ReplaceAll(text, DetailMarker, "");
    var spaced := ReplaceAll(unmarked, "_", " ");
    ReplaceCharRemoves(unmarked, '_', " ");
    NoCharNoPattern(spaced, DetailMarker, '_');
    ReplaceCharIsMap(unmarked, '_', ' ');
    UnmarkedText(text);
    spaced
  }

  /** What removing the markers leaves of a text with one leading marker or with none. */
  lemma UnmarkedText(text: string)
    ensures StartsWith(text, DetailMarker) && !Contains(text[|DetailMarker|..], DetailMarker) ==>
      ReplaceAll(text, DetailMarker, "") == text[|DetailMarker|..]
    ensures !Contains(text, DetailMarker) ==> ReplaceAll(text, DetailMarker, "") == text
  {
    if !Contains(text, DetailMarker) {
      ReplaceAbsent(text, DetailMarker, "");
    }
    if StartsWith(text, DetailMarker) && !Contains(text[|DetailMarker|..], DetailMarker) {
      var t := text[|DetailMarker|..];
      assert text == DetailMarker + t;
      ReplaceLeadingOnly(t, DetailMarker, "");
    }
  }

  /** The characteristic cleaning: only a text that contains the marker is rewritten and title-cased. */
  function CleanCharacteristic(text: string, title: string -> string): (r: string)
    ensures !Contains(text, DetailMarker) ==> r == text
    ensures Contains(text, DetailMarker) ==> r == title(UnmarkCharacteristic(text))
  {
    if Contains(text, DetailMarker) then title(UnmarkCharacteristic(text)) else text
  }

  /** Cleaning a text that has no marker changes nothing, however it is cleaned again. */
  lemma CleanCharacteristicStable(text: string, title: string -> string)
    requires !Contains(text, DetailMarker)
    ensures CleanCharacteristic(CleanCharacteristic(text, title), title) == text
  {
  }

  lemma UnmarkExampleRemoval()
    ensures ReplaceAll("TENDER_DETAIL.E_IHALE", DetailMarker, "") == "E_IHALE"
  {
    var text := "TENDER_DETAIL.E_IHALE";
    assert StartsWith(text, DetailMarker);
    assert text[|DetailMarker|..] == "E_IHALE";
    NoCharNoPattern("E_IHALE", DetailMarker, '.');
    ReplaceAbsent("E_IHALE", DetailMarker, "");
  }

  lemma UnmarkExampleSpacing()
    ensures ReplaceAll("E_IHALE", "_", " ") == "E IHALE"
  {
    ContainsChar("IHALE", '_');
    ReplaceAbsent("IHALE", "_", " ");
    assert "_IHALE"[1..] == "IHALE";
    assert ReplaceAll("_IHALE", "_", " ") == " IHALE";
    assert "E_IHALE"[1..] == "_IHALE";
  }

  /** `TENDER_DETAIL.E_IHALE` is title-cased from `E IHALE`. */
  lemma UnmarkExample()
    ensures UnmarkCharacteristic("TENDER_DETAIL.E_IHALE") == "E IHALE"
  {
    UnmarkExampleRemoval();
    UnmarkExampleSpacing();
  }

  datatype RawCharacteristic = RawCharacteristic(ihaleOzellik: Option<string>)

  /** `ihaleBilgi`; a missing sub-dictionary reads as one with every key missing. */
  datatype RawBasicInfo = RawBasicInfo(
    ihaleDurumAciklama: Option<string>,
    ihaleUsulAciklama: Option<string>,
    ihaleTipiAciklama: Option<string>,
    ihaleTarihSaat: Option<string>,
    isinYapilacagiYer: Option<string>,
    ihaleYeri: Option<string>,
    itirazenSikayetBasvuruBedeli: Option<string>,
    iptalTarihi: Option<string>,
    iptalNedeni: Option<string>,
    iptalMadde: Option<string>)

  datatype RawDetailOkas = RawDetailOkas(kodu: Option<string>, adi: Option<string>, koduAdi: Option<string>)

  /** `idare`, with `il.adi` and `ilce.ilceAdi` read through their sub-dictionaries. */
  datatype RawIdare = RawIdare(
    id: Option<int>,
    adi: Option<string>,
    kod1: Option<string>,
    kod2: Option<string>,
    telefon: Option<string>,
    fax: Option<string>,
    ustIdare: Option<string>,
    enUstIdareKod: Option<string>,
    enUstIdareAdi: Option<string>,
    ilAdi: Option<string>,
    ilceAdi: Option<string>)

  /** `islemlerKuralSeti`. */
  datatype RawRules = RawRules(
    dokumanIndirmisMi: Option<bool>,
    teklifteBulunmusMu: Option<bool>,
    teklifVerilebilirMi: Option<bool>,
    fiyatDisiUnsurVarMi: Option<bool>,
    sozlesmeImzaliMi: Option<bool>,
    eIhaleMi: Option<bool>,
    idareKendiIhaleMi: Option<bool>,
    eEksiltmeYapilacakMi: Option<bool>)

  datatype RawDetailAnnouncement = RawDetailAnnouncement(
    id: Option<int>,
    ilanTip: Option<string>,
    baslik: Option<string>,
    ilanTarihi: Option<string>,
    status: Option<int>,
    veriHtml: Option<string>)

  /** The upstream `item`; missing lists read as `[]`. */
  datatype DetailItem = DetailItem(
    id: Option<int>,
    ikn: Option<string>,
    ihaleAdi: Option<string>,
    ihaleDurum: Option<int>,
    eIhale: Option<bool>,
    ihaleUsul: Option<int>,
    ihaleKapsamAciklama: Option<string>,
    kismiIhale: Option<bool>,
    ihaleOzellikList: seq<RawCharacteristic>,
    ihaleBilgi: RawBasicInfo,
    ihtiyacKalemiOkasList: seq<RawDetailOkas>,
    idare: RawIdare,
    islemlerKuralSeti: RawRules,
    ilanList: seq<RawDetailAnnouncement>,
    ihaleniIdaresiMi: Option<bool>,
    ihaleIlansizMi: Option<bool>,
    ihaleyeDavetEdilenMi: Option<bool>,
    ihaleDetayDokumaniGorsunMu: Option<bool>,
    dokumanIndirenlerGosterilsinMi: Option<bool>,
    dokumanSayisi: Option<int>)

  /** The upstream body: `item` is `None` when it is missing, `null` or the empty dictionary. */
  datatype DetailsBody = DetailsBody(item: Option<DetailItem>)

  /** The request payload `{"ihaleId": str(tender_id)}`. */
  datatype DetailsRequest = DetailsRequest(ihaleId: string)

  datatype StatusView = StatusView(code: Option<int>, description: Option<string>)

  datatype BasicInfoView = BasicInfoView(
    isElectronic: bool,
    methodCode: Option<int>,
    methodDescription: Option<string>,
    typeDescription: Option<string>,
    scopeDescription: Option<string>,
    tenderDatetime: Option<string>,
    location: Option<string>,
    venue: Option<string>,
    complaintFee: Option<string>,
    isPartial: bool)

  datatype OkasRef = OkasRef(code: Option<string>, name: Option<string>, fullDescription: Option<string>)

  datatype AuthorityView = AuthorityView(
    id: Option<int>,
    name: Option<string>,
    code1: Option<string>,
    code2: Option<string>,
    phone: Option<string>,
    fax: Option<string>,
    parentAuthority: Option<string>,
    topAuthorityCode: Option<string>,
    topAuthorityName: Option<string>,
    province: Option<string>,
    district: Option<string>)

  datatype ProcessRules = ProcessRules(
    canDownloadDocuments: bool,
    hasSubmittedBid: bool,
    canSubmitBid: bool,
    hasNonPriceFactors: bool,
    contractSigned: bool,
    isElectronic: bool,
    isOwnTender: bool,
    electronicAuction: bool)

  datatype DetailAnnouncement = DetailAnnouncement(
    id: Option<int>,
    announcementType: AnnouncementType,
    title: Option<string>,
    date: Option<string>,
    status: Option<int>,
    htmlContent: string,
    markdownContent: Option<string>,
    contentPreview: string)

  datatype AnnouncementsSummary = AnnouncementsSummary(
    totalCount: int,
    announcements: seq<DetailAnnouncement>,
    typesAvailable: set<string>)

  datatype DetailFlags = DetailFlags(
    isAuthorityTender: bool,
    isWithoutAnnouncement: bool,
    isInvitationOnly: bool,
    showDetailDocuments: bool,
    showDocumentDownloaders: bool)

  datatype Cancellation = Cancellation(
    cancelledDate: Option<string>,
    cancellationReason: Option<string>,
    cancellationArticle: Option<string>)

  datatype TenderDetail = TenderDetail(
    tenderId: Option<int>,
    ikn: Option<string>,
    name: Option<string>,
    status: StatusView,
    basicInfo: BasicInfoView,
    characteristics: seq<string>,
    okasCodes: seq<OkasRef>,
    authority: AuthorityView,
    processRules: ProcessRules,
    announcementsSummary: AnnouncementsSummary,
    flags: DetailFlags,
    documentCount: int,
    cancellationInfo: Option<Cancellation>)

  function FormatBasicInfo(item: DetailItem): BasicInfoView
  {
    var b := item.ihaleBilgi;
    BasicInfoView(
      item.eIhale.GetOr(false), item.ihaleUsul, b.ihaleUsulAciklama, b.ihaleTipiAciklama,
      item.ihaleKapsamAciklama, b.ihaleTarihSaat, b.isinYapilacagiYer, b.ihaleYeri,
      b.itirazenSikayetBasvuruBedeli, item.kismiIhale.GetOr(false))
  }

  function FormatOkasRef(o: RawDetailOkas): OkasRef
  {
    OkasRef(o.kodu, o.adi, o.koduAdi)
  }

  function FormatAuthorityInfo(a: RawIdare): AuthorityView
  {
    AuthorityView(a.id, a.adi, a.kod1, a.kod2, a.telefon, a.fax, a.ustIdare, a.enUstIdareKod,
                  a.enUstIdareAdi, a.ilAdi, a.ilceAdi)
  }

  /** Each process rule that is missing reads as `False`. */
  function FormatRules(r: RawRules): ProcessRules
  {
    ProcessRules(
      r.dokumanIndirmisMi.GetOr(false), r.teklifteBulunmusMu.GetOr(false), r.teklifVerilebilirMi.GetOr(false),
      r.fiyatDisiUnsurVarMi.GetOr(false), r.sozlesmeImzaliMi.GetOr(false), r.eIhaleMi.GetOr(false),
      r.idareKendiIhaleMi.GetOr(false), r.eEksiltmeYapilacakMi.GetOr(false))
  }

  function FormatFlags(item: DetailItem): DetailFlags
  {
    DetailFlags(
      item.ihaleniIdaresiMi.GetOr(false), item.ihaleIlansizMi.GetOr(false), item.ihaleyeDavetEdilenMi.GetOr(false),
      item.ihaleDetayDokumaniGorsunMu.GetOr(false), item.dokumanIndirenlerGosterilsinMi.GetOr(false))
  }

  function FormatDetailAnnouncement(a: RawDetailAnnouncement, convert: string -> Option<string>): DetailAnnouncement
  {
    var html := a.veriHtml.GetOr("");
    DetailAnnouncement(a.id, TypeOf(a.ilanTip), a.baslik, a.ilanTarihi, a.status, html,
                       MarkdownOf(html, convert), DefaultPreview(html))
  }

  function CleanRawCharacteristic(c: RawCharacteristic, title: string -> string): string
  {
    CleanCharacteristic(c.ihaleOzellik.GetOr(""), title)
  }

  /** `ann["type"]["description"]`, the label the summary collects. */
  function DetailLabel(a: DetailAnnouncement): string
  {
    a.announcementType.description
  }

  /** Cancellation information is attached exactly when `iptalTarihi` is truthy: given and non-empty. */
  predicate IsCancelled(b: RawBasicInfo)
  {
    b.iptalTarihi.Some? && b.iptalTarihi.value != []
  }

  /**
   * `get_tender_details`: the payload sends the id as a decimal string; a missing or empty `item`
   * gives the "not found" record for the tender; otherwise the characteristics, OKAS codes and
   * announcements are formatted one for one and in order, the summary counts and label set agree
   * with the announcements, and cancellation information is present exactly when `iptalTarihi`
   * is truthy, copying its three fields verbatim.
   */
  method GetTenderDetails(tenderId: int, response: Upstream<DetailsBody>,
                          convert: string -> Option<string>, title: string -> string)
    returns (payload: DetailsRequest, outcome: Outcome<TenderDetail>)
    ensures payload == DetailsRequest(IntToString(tenderId)) && ParseInt(payload.ihaleId) == Some(tenderId)
    ensures response.Received? && response.body.item.None? ==> outcome == Failure(DetailsNotFound(tenderId))
    ensures outcome.Success? <==> response.Received? && response.body.item.Some?
    ensures outcome.Success? ==>
      var item := response.body.item.value;
      var d := outcome.value;
      var b := item.ihaleBilgi;
      d.tenderId == item.id && d.ikn == item.ikn && d.name == item.ihaleAdi
      && d.status == StatusView(item.ihaleDurum, b.ihaleDurumAciklama)
      && d.basicInfo == FormatBasicInfo(item)
      && |d.characteristics| == |item.ihaleOzellikList|
      && (forall i :: 0 <= i < |item.ihaleOzellikList| ==>
            d.characteristics[i] == CleanRawCharacteristic(item.ihaleOzellikList[i], title))
      && |d.okasCodes| == |item.ihtiyacKalemiOkasList|
      && (forall i :: 0 <= i < |item.ihtiyacKalemiOkasList| ==>
            d.okasCodes[i] == FormatOkasRef(item.ihtiyacKalemiOkasList[i]))
      && d.authority == FormatAuthorityInfo(item.idare)
      && d.processRules == FormatRules(item.islemlerKuralSeti)
      && |d.announcementsSummary.announcements| == |item.ilanList|
      && d.announcementsSummary.totalCount == |item.ilanList|
      && (forall i :: 0 <= i < |item.ilanList| ==>
            d.announcementsSummary.announcements[i] == FormatDetailAnnouncement(item.ilanList[i], convert))
      && d.announcementsSummary.typesAvailable == DistinctValues(d.announcementsSummary.announcements, DetailLabel)
      && d.flags == FormatFlags(item)
      && d.documentCount == item.dokumanSayisi.GetOr(0)
      && (d.cancellationInfo.Some? <==> IsCancelled(b))
      && (d.cancellationInfo.Some? ==> d.cancellationInfo.value == Cancellation(b.iptalTarihi, b.iptalNedeni, b.iptalMadde))
    ensures !response.Received? ==> outcome == Failure(FailureRecord(response, "Request failed - tender details"))
  {
    payload := DetailsRequest(IntToString(tenderId));
    IntRoundTrip(tenderId);
    match response {
      case Received(body) =>
        if body.item.None? {
          outcome := Failure(DetailsNotFound(tenderId));
          return;
        }
        var item := body.item.value;
        var characteristics := MapSeq(item.ihaleOzellikList, c => CleanRawCharacteristic(c, title));
        var b := item.ihaleBilgi;
        var okasCodes := MapSeq(item.ihtiyacKalemiOkasList, FormatOkasRef);
        var announcements := MapSeq(item.ilanList, a => FormatDetailAnnouncement(a, convert));
        var detail := TenderDetail(
          item.id, item.ikn, item.ihaleAdi,
          StatusView(item.ihaleDurum, b.ihaleDurumAciklama),
          FormatBasicInfo(item),
          characteristics, okasCodes,
          FormatAuthorityInfo(item.idare),
          FormatRules(item.islemlerKuralSeti),
          AnnouncementsSummary(|announcements|, announcements, DistinctValues(announcements, DetailLabel)),
          FormatFlags(item),
          item.dokumanSayisi.GetOr(0),
          None);
        if IsCancelled(b) {
          detail := detail.(cancellationInfo := Some(Cancellation(b.iptalTarihi, b.iptalNedeni, b.iptalMadde)));
        }
        outcome := Success(detail);
      case _ =>
        outcome := Failure(FailureRecord(response, "Request failed - tender details"));
    }
  }
}
