/**
 * `EKAPClient.get_tender_announcements`: the announcements of one tender, each with its type
 * label, its HTML, a markdown rendering and a plain-text preview. The HTML-to-markdown converter
 * (MarkItDown) is a parameter: some text, or `None` when it fails or gives nothing.
 */
module Announcements {
  import opened Wrappers
  import opened Preview
  import opened ClientCommon

  /** The client's announcement-type labels, keyed by the code as a string. */
  const AnnouncementTypeLabels: map<string, string> := map[
    "1" := "Ön İlan",
    "2" := "İhale İlanı",
    "3" := "İptal İlanı",
    "4" := "Sonuç İlanı",
    "5" := "Ön Yeterlik İlanı",
    "6" := "Düzeltme İlanı"]

  const FallbackPrefix := "Type "

  /** `announcement_type_map.get(code, f"Type {code}")`. */
  function AnnouncementTypeLabel(code: string): (text: string)
    ensures code in AnnouncementTypeLabels ==> text == AnnouncementTypeLabels[code]
    ensures code !in AnnouncementTypeLabels ==> text == FallbackPrefix + code
  {
    if code in AnnouncementTypeLabels then AnnouncementTypeLabels[code] else FallbackPrefix + code
  }

  /** No known label looks like a fallback one. */
  lemma KnownLabelsAreNotFallbacks(code: string)
    requires code in AnnouncementTypeLabels
    ensures |AnnouncementTypeLabel(code)| < |FallbackPrefix| || AnnouncementTypeLabel(code)[..|FallbackPrefix|] != FallbackPrefix
  {
    var text := AnnouncementTypeLabels[code];
    assert text[0] != 'T';
  }

  /** Different codes get different labels, so a label tells which code it came from. */
  lemma AnnouncementTypeLabelInjective(a: string, b: string)
    requires AnnouncementTypeLabel(a) == AnnouncementTypeLabel(b)
    ensures a == b
  {
    var la := AnnouncementTypeLabel(a);
    if a in AnnouncementTypeLabels && b !in AnnouncementTypeLabels {
      KnownLabelsAreNotFallbacks(a);
    } else if a !in AnnouncementTypeLabels && b in AnnouncementTypeLabels {
      KnownLabelsAreNotFallbacks(b);
    } else if a !in AnnouncementTypeLabels {
      assert a == la[|FallbackPrefix|..];
    }
  }

  /** MarkItDown applied to an announcement's HTML: no conversion at all for empty HTML. */
  function MarkdownOf(html: string, convert: string -> Option<string>): (m: Option<string>)
    ensures html == [] ==> m.None?
    ensures html != [] ==> m == convert(html)
  {
    if html == [] then None else convert(html)
  }

  /** One element of the upstream `list`; a key that is missing is `None`. */
  datatype RawAnnouncement = RawAnnouncement(
    id: Option<int>,
    ilanTip: Option<string>,
    baslik: Option<string>,
    ilanTarihi: Option<string>,
    status: Option<int>,
    ihaleId: Option<int>,
    sozlesmeId: Option<int>,
    istekliAdi: Option<string>,
    veriHtml: Option<string>)

  /** The upstream body's `list`, read as `[]` when missing. */
  datatype AnnouncementBody = AnnouncementBody(list: seq<RawAnnouncement>)

  /** The request payload `{"ihaleId": tender_id}`. */
  datatype AnnouncementRequest = AnnouncementRequest(ihaleId: int)

  datatype AnnouncementType = AnnouncementType(code: string, description: string)

  datatype Announcement = Announcement(
    id: Option<int>,
    announcementType: AnnouncementType,
    title: Option<string>,
    date: Option<string>,
    status: Option<int>,
    tenderId: Option<int>,
    contractId: Option<int>,
    bidderName: Option<string>,
    htmlContent: string,
    markdownContent: Option<string>,
    contentPreview: string)

  datatype AnnouncementPage = AnnouncementPage(announcements: seq<Announcement>, totalCount: int, tenderId: int)

  /** The type and HTML of an announcement with their defaults: a missing `ilanTip` or `veriHtml` reads as `""`. */
  function TypeOf(ilanTip: Option<string>): AnnouncementType
  {
    var code := ilanTip.GetOr("");
    AnnouncementType(code, AnnouncementTypeLabel(code))
  }

  /** The dictionary built for one announcement. */
  function FormatAnnouncement(a: RawAnnouncement, convert: string -> Option<string>): Announcement
  {
    var html := a.veriHtml.GetOr("");
    Announcement(
      a.id, TypeOf(a.ilanTip), a.baslik, a.ilanTarihi, a.status, a.ihaleId, a.sozlesmeId, a.istekliAdi,
      html, MarkdownOf(html, convert), DefaultPreview(html))
  }

  /**
   * `get_tender_announcements`: the payload names the tender; a received body gives one formatted
   * announcement per upstream one, in order, `total_count` equal to their number and the requested
   * tender id; every preview is at most 203 characters and every label agrees with its code.
   */
  method GetTenderAnnouncements(tenderId: int, response: Upstream<AnnouncementBody>, convert: string -> Option<string>)
    returns (payload: AnnouncementRequest, outcome: Outcome<AnnouncementPage>)
    ensures payload == AnnouncementRequest(tenderId)
    ensures response.Received? <==> outcome.Success?
    ensures response.Received? ==>
      var list := response.body.list;
      var page := outcome.value;
      |page.announcements| == |list| && page.totalCount == |list| && page.tenderId == tenderId
      && (forall i :: 0 <= i < |list| ==> page.announcements[i] == FormatAnnouncement(list[i], convert))
      && (forall i :: 0 <= i < |list| ==>
            |page.announcements[i].contentPreview| <= 203
            && page.announcements[i].announcementType.description == AnnouncementTypeLabel(page.announcements[i].announcementType.code))
    ensures !response.Received? ==> outcome == Failure(FailureRecord(response, "Request failed - tender announcements"))
  {
    payload := AnnouncementRequest(tenderId);
    match response {
      case Received(body) =>
        var results := MapSeq(body.list, a => FormatAnnouncement(a, convert));
        outcome := Success(AnnouncementPage(results, |results|, tenderId));
      case _ =>
        outcome := Failure(FailureRecord(response, "Request failed - tender announcements"));
    }
  }
}
