/**
 * The static reference tables of the tender portal: tender types, statuses and methods,
 * the 81 provinces keyed by the portal's own ids, the plate-number translation, proposal
 * types and announcement types. The two 81-entry dictionaries are written as lookup
 * functions (one `match` arm per dictionary entry), which is what the code does with them:
 * `.get(key)` answers `None` for a missing key.
 */
module Models {
  import opened Wrappers
  import Decimal

  datatype TenderType = TenderType(id: int, code: string, description: string)
  datatype TenderStatus = TenderStatus(id: int, code: string, description: string)
  datatype TenderMethod = TenderMethod(code: string, description: string)
  datatype Province = Province(name: string)

  const TenderTypes: seq<TenderType> := [
    TenderType(1, "1", "Mal (Goods/Equipment procurement)"),
    TenderType(2, "2", "Yapım (Construction/Infrastructure projects)"),
    TenderType(3, "3", "Hizmet (Services procurement)"),
    TenderType(4, "4", "Danışmanlık (Consultancy services)")
  ]

  const TenderStatuses: seq<TenderStatus> := [
    TenderStatus(1, "1", "İptal Edilmiş (Cancelled)"),
    TenderStatus(2, "2", "Teklifler Değerlendiriliyor (Bids under evaluation)"),
    TenderStatus(3, "3", "Teklif Vermeye Açık (Open for bidding)"),
    TenderStatus(4, "4", "Teklif Değerlendirme Tamamlanmış (Bid evaluation completed)"),
    TenderStatus(5, "5", "Sözleşme İmzalanmış (Contract signed)")
  ]

  const TenderMethods: seq<TenderMethod> := [
    TenderMethod("Açık", "Açık İhale Usulü (Open tender method)"),
    TenderMethod("Belli İstekliler Arasında", "Belli İstekliler Arasında İhale (Restricted tender)"),
    TenderMethod("Pazarlık", "Pazarlık Usulü (Negotiated procedure)"),
    TenderMethod("Tasarım Yarışması", "Tasarım Yarışması (Design competition)")
  ]

  /** `PLATE_TO_API_ID.get(plate)`: the portal's province id for a licence-plate number. */
  function PlateToApiId(plate: int): Option<int>
  {
    match plate
    case 1 => Some(245)
    case 2 => Some(246)
    case 3 => Some(247)
    case 4 => Some(248)
    case 5 => Some(250)
    case 6 => Some(251)
    case 7 => Some(252)
    case 8 => Some(254)
    case 9 => Some(255)
    case 10 => Some(256)
    case 11 => Some(260)
    case 12 => Some(261)
    case 13 => Some(262)
    case 14 => Some(263)
    case 15 => Some(264)
    case 16 => Some(265)
    case 17 => Some(266)
    case 18 => Some(267)
    case 19 => Some(268)
    case 20 => Some(269)
    case 21 => Some(270)
    case 22 => Some(272)
    case 23 => Some(273)
    case 24 => Some(274)
    case 25 => Some(275)
    case 26 => Some(276)
    case 27 => Some(277)
    case 28 => Some(278)
    case 29 => Some(279)
    case 30 => Some(280)
    case 31 => Some(281)
    case 32 => Some(283)
    case 33 => Some(302)
    case 34 => Some(284)
    case 35 => Some(285)
    case 36 => Some(289)
    case 37 => Some(290)
    case 38 => Some(291)
    case 39 => Some(293)
    case 40 => Some(294)
    case 41 => Some(296)
    case 42 => Some(297)
    case 43 => Some(298)
    case 44 => Some(299)
    case 45 => Some(300)
    case 46 => Some(286)
    case 47 => Some(301)
    case 48 => Some(303)
    case 49 => Some(304)
    case 50 => Some(305)
    case 51 => Some(306)
    case 52 => Some(307)
    case 53 => Some(309)
    case 54 => Some(310)
    case 55 => Some(311)
    case 56 => Some(312)
    case 57 => Some(313)
    case 58 => Some(314)
    case 59 => Some(317)
    case 60 => Some(318)
    case 61 => Some(319)
    case 62 => Some(320)
    case 63 => Some(315)
    case 64 => Some(321)
    case 65 => Some(322)
    case 66 => Some(324)
    case 67 => Some(325)
    case 68 => Some(249)
    case 69 => Some(259)
    case 70 => Some(288)
    case 71 => Some(292)
    case 72 => Some(258)
    case 73 => Some(316)
    case 74 => Some(257)
    case 75 => Some(253)
    case 76 => Some(282)
    case 77 => Some(323)
    case 78 => Some(287)
    case 79 => Some(295)
    case 80 => Some(308)
    case 81 => Some(271)
    case _ => None
  }

  /** `PROVINCES.get(id)`: the province the portal knows under `id`. */
  function Provinces(id: int): Option<Province>
  {
    match id
    case 245 => Some(Province("ADANA"))
    case 246 => Some(Province("ADIYAMAN"))
    case 247 => Some(Province("AFYONKARAHİSAR"))
    case 248 => Some(Province("AĞRI"))
    case 249 => Some(Province("AKSARAY"))
    case 250 => Some(Province("AMASYA"))
    case 251 => Some(Province("ANKARA"))
    case 252 => Some(Province("ANTALYA"))
    case 253 => Some(Province("ARDAHAN"))
    case 254 => Some(Province("ARTVİN"))
    case 255 => Some(Province("AYDIN"))
    case 256 => Some(Province("BALIKESİR"))
    case 257 => Some(Province("BARTIN"))
    case 258 => Some(Province("BATMAN"))
    case 259 => Some(Province("BAYBURT"))
    case 260 => Some(Province("BİLECİK"))
    case 261 => Some(Province("BİNGÖL"))
    case 262 => Some(Province("BİTLİS"))
    case 263 => Some(Province("BOLU"))
    case 264 => Some(Province("BURDUR"))
    case 265 => Some(Province("BURSA"))
    case 266 => Some(Province("ÇANAKKALE"))
    case 267 => Some(Province("ÇANKIRI"))
    case 268 => Some(Province("ÇORUM"))
    case 269 => Some(Province("DENİZLİ"))
    case 270 => Some(Province("DİYARBAKIR"))
    case 271 => Some(Province("DÜZCE"))
    case 272 => Some(Province("EDİRNE"))
    case 273 => Some(Province("ELAZIĞ"))
    case 274 => Some(Province("ERZİNCAN"))
    case 275 => Some(Province("ERZURUM"))
    case 276 => Some(Province("ESKİŞEHİR"))
    case 277 => Some(Province("GAZİANTEP"))
    case 278 => Some(Province("GİRESUN"))
    case 279 => Some(Province("GÜMÜŞHANE"))
    case 280 => Some(Province("HAKKARİ"))
    case 281 => Some(Province("HATAY"))
    case 282 => Some(Province("IĞDIR"))
    case 283 => Some(Province("ISPARTA"))
    case 284 => Some(Province("İSTANBUL"))
    case 285 => Some(Province("İZMİR"))
    case 286 => Some(Province("KAHRAMANMARAŞ"))
    case 287 => Some(Province("KARABÜK"))
    case 288 => Some(Province("KARAMAN"))
    case 289 => Some(Province("KARS"))
    case 290 => Some(Province("KASTAMONU"))
    case 291 => Some(Province("KAYSERİ"))
    case 292 => Some(Province("KIRIKKALE"))
    case 293 => Some(Province("KIRKLARELİ"))
    case 294 => Some(Province("KIRŞEHİR"))
    case 295 => Some(Province("KİLİS"))
    case 296 => Some(Province("KOCAELİ"))
    case 297 => Some(Province("KONYA"))
    case 298 => Some(Province("KÜTAHYA"))
    case 299 => Some(Province("MALATYA"))
    case 300 => Some(Province("MANİSA"))
    case 301 => Some(Province("MARDİN"))
    case 302 => Some(Province("MERSİN"))
    case 303 => Some(Province("MUĞLA"))
    case 304 => Some(Province("MUŞ"))
    case 305 => Some(Province("NEVŞEHİR"))
    case 306 => Some(Province("NİĞDE"))
    case 307 => Some(Province("ORDU"))
    case 308 => Some(Province("OSMANİYE"))
    case 309 => Some(Province("RİZE"))
    case 310 => Some(Province("SAKARYA"))
    case 311 => Some(Province("SAMSUN"))
    case 312 => Some(Province("SİİRT"))
    case 313 => Some(Province("SİNOP"))
    case 314 => Some(Province("SİVAS"))
    case 315 => Some(Province("ŞANLIURFA"))
    case 316 => Some(Province("ŞIRNAK"))
    case 317 => Some(Province("TEKİRDAĞ"))
    case 318 => Some(Province("TOKAT"))
    case 319 => Some(Province("TRABZON"))
    case 320 => Some(Province("TUNCELİ"))
    case 321 => Some(Province("UŞAK"))
    case 322 => Some(Province("VAN"))
    case 323 => Some(Province("YALOVA"))
    case 324 => Some(Province("YOZGAT"))
    case 325 => Some(Province("ZONGULDAK"))
    case _ => None
  }

  /** The province name written beside each entry of the plate table. */
  function DocumentedPlateName(plate: int): string
  {
    match plate
    case 1 => "ADANA"
    case 2 => "ADIYAMAN"
    case 3 => "AFYONKARAHİSAR"
    case 4 => "AĞRI"
    case 5 => "AMASYA"
    case 6 => "ANKARA"
    case 7 => "ANTALYA"
    case 8 => "ARTVİN"
    case 9 => "AYDIN"
    case 10 => "BALIKESİR"
    case 11 => "BİLECİK"
    case 12 => "BİNGÖL"
    case 13 => "BİTLİS"
    case 14 => "BOLU"
    case 15 => "BURDUR"
    case 16 => "BURSA"
    case 17 => "ÇANAKKALE"
    case 18 => "ÇANKIRI"
    case 19 => "ÇORUM"
    case 20 => "DENİZLİ"
    case 21 => "DİYARBAKIR"
    case 22 => "EDİRNE"
    case 23 => "ELAZIĞ"
    case 24 => "ERZİNCAN"
    case 25 => "ERZURUM"
    case 26 => "ESKİŞEHİR"
    case 27 => "GAZİANTEP"
    case 28 => "GİRESUN"
    case 29 => "GÜMÜŞHANE"
    case 30 => "HAKKARİ"
    case 31 => "HATAY"
    case 32 => "ISPARTA"
    case 33 => "MERSİN"
    case 34 => "İSTANBUL"
    case 35 => "İZMİR"
    case 36 => "KARS"
    case 37 => "KASTAMONU"
    case 38 => "KAYSERİ"
    case 39 => "KIRKLARELİ"
    case 40 => "KIRŞEHİR"
    case 41 => "KOCAELİ"
    case 42 => "KONYA"
    case 43 => "KÜTAHYA"
    case 44 => "MALATYA"
    case 45 => "MANİSA"
    case 46 => "KAHRAMANMARAŞ"
    case 47 => "MARDİN"
    case 48 => "MUĞLA"
    case 49 => "MUŞ"
    case 50 => "NEVŞEHİR"
    case 51 => "NİĞDE"
    case 52 => "ORDU"
    case 53 => "RİZE"
    case 54 => "SAKARYA"
    case 55 => "SAMSUN"
    case 56 => "SİİRT"
    case 57 => "SİNOP"
    case 58 => "SİVAS"
    case 59 => "TEKİRDAĞ"
    case 60 => "TOKAT"
    case 61 => "TRABZON"
    case 62 => "TUNCELİ"
    case 63 => "ŞANLIURFA"
    case 64 => "UŞAK"
    case 65 => "VAN"
    case 66 => "YOZGAT"
    case 67 => "ZONGULDAK"
    case 68 => "AKSARAY"
    case 69 => "BAYBURT"
    case 70 => "KARAMAN"
    case 71 => "KIRIKKALE"
    case 72 => "BATMAN"
    case 73 => "ŞIRNAK"
    case 74 => "BARTIN"
    case 75 => "ARDAHAN"
    case 76 => "IĞDIR"
    case 77 => "YALOVA"
    case 78 => "KARABÜK"
    case 79 => "KİLİS"
    case 80 => "OSMANİYE"
    case 81 => "DÜZCE"
    case _ => ""
  }

  /** The plate whose entry carries a given portal id (a proof aid: the plate table read backwards). */
  ghost function PlateOfApiId(id: int): int
  {
    match id
    case 245 => 1
    case 246 => 2
    case 247 => 3
    case 248 => 4
    case 249 => 68
    case 250 => 5
    case 251 => 6
    case 252 => 7
    case 253 => 75
    case 254 => 8
    case 255 => 9
    case 256 => 10
    case 257 => 74
    case 258 => 72
    case 259 => 69
    case 260 => 11
    case 261 => 12
    case 262 => 13
    case 263 => 14
    case 264 => 15
    case 265 => 16
    case 266 => 17
    case 267 => 18
    case 268 => 19
    case 269 => 20
    case 270 => 21
    case 271 => 81
    case 272 => 22
    case 273 => 23
    case 274 => 24
    case 275 => 25
    case 276 => 26
    case 277 => 27
    case 278 => 28
    case 279 => 29
    case 280 => 30
    case 281 => 31
    case 282 => 76
    case 283 => 32
    case 284 => 34
    case 285 => 35
    case 286 => 46
    case 287 => 78
    case 288 => 70
    case 289 => 36
    case 290 => 37
    case 291 => 38
    case 292 => 71
    case 293 => 39
    case 294 => 40
    case 295 => 79
    case 296 => 41
    case 297 => 42
    case 298 => 43
    case 299 => 44
    case 300 => 45
    case 301 => 47
    case 302 => 33
    case 303 => 48
    case 304 => 49
    case 305 => 50
    case 306 => 51
    case 307 => 52
    case 308 => 80
    case 309 => 53
    case 310 => 54
    case 311 => 55
    case 312 => 56
    case 313 => 57
    case 314 => 58
    case 315 => 63
    case 316 => 73
    case 317 => 59
    case 318 => 60
    case 319 => 61
    case 320 => 62
    case 321 => 64
    case 322 => 65
    case 323 => 77
    case 324 => 66
    case 325 => 67
    case _ => 0
  }

  const ProposalTypes: map<int, string> := map[
    1 := "Götürü-Anahtar Teslimi Götürü",
    2 := "Birim Fiyat",
    3 := "Karma"
  ]

  const AnnouncementTypes: map<int, string> := map[
    1 := "Ön İlan",
    2 := "İhale İlanı",
    3 := "Sonuç İlanı",
    4 := "İptal İlanı",
    5 := "Ön Yeterlik İlanı",
    6 := "Düzeltme İlanı"
  ]

  /** The plate table is defined for exactly the plates 1..81. */
  lemma PlateDomain()
    ensures forall plate :: PlateToApiId(plate).Some? <==> 1 <= plate <= 81
  {
  }

  /** The province table has exactly the keys 245..325. */
  lemma ProvinceDomain()
    ensures forall id :: Provinces(id).Some? <==> 245 <= id <= 325
  {
  }

  /** Every translated id lies in 245..325 and names a province. */
  lemma PlateRange()
    ensures forall plate :: PlateToApiId(plate).Some? ==>
      245 <= PlateToApiId(plate).value <= 325 && Provinces(PlateToApiId(plate).value).Some?
  {
  }

  lemma PlateOfApiIdLeftInverse1To20()
    ensures forall plate :: 1 <= plate <= 20 ==> PlateToApiId(plate).Some? && PlateOfApiId(PlateToApiId(plate).value) == plate
  {
  }

  lemma PlateOfApiIdLeftInverse21To40()
    ensures forall plate :: 21 <= plate <= 40 ==> PlateToApiId(plate).Some? && PlateOfApiId(PlateToApiId(plate).value) == plate
  {
  }

  lemma PlateOfApiIdLeftInverse41To60()
    ensures forall plate :: 41 <= plate <= 60 ==> PlateToApiId(plate).Some? && PlateOfApiId(PlateToApiId(plate).value) == plate
  {
  }

  lemma PlateOfApiIdLeftInverse61To81()
    ensures forall plate :: 61 <= plate <= 81 ==> PlateToApiId(plate).Some? && PlateOfApiId(PlateToApiId(plate).value) == plate
  {
  }

  /** No two plates share a portal id. */
  lemma PlateInjective()
    ensures forall p, q :: PlateToApiId(p).Some? && PlateToApiId(p) == PlateToApiId(q) ==> p == q
  {
    PlateDomain();
    PlateOfApiIdLeftInverse1To20();
    PlateOfApiIdLeftInverse21To40();
    PlateOfApiIdLeftInverse41To60();
    PlateOfApiIdLeftInverse61To81();
    forall p, q | PlateToApiId(p).Some? && PlateToApiId(p) == PlateToApiId(q)
      ensures p == q
    {
      assert PlateOfApiId(PlateToApiId(p).value) == p;
      assert PlateOfApiId(PlateToApiId(q).value) == q;
    }
  }

  lemma PlateOfApiIdInverts245To256()
    ensures forall id :: 245 <= id <= 256 ==> 1 <= PlateOfApiId(id) <= 81 && PlateToApiId(PlateOfApiId(id)) == Some(id)
  {
  }

  lemma PlateOfApiIdInverts257To268()
    ensures forall id :: 257 <= id <= 268 ==> 1 <= PlateOfApiId(id) <= 81 && PlateToApiId(PlateOfApiId(id)) == Some(id)
  {
  }

  lemma PlateOfApiIdInverts269To280()
    ensures forall id :: 269 <= id <= 280 ==> 1 <= PlateOfApiId(id) <= 81 && PlateToApiId(PlateOfApiId(id)) == Some(id)
  {
  }

  lemma PlateOfApiIdInverts281To292()
    ensures forall id :: 281 <= id <= 292 ==> 1 <= PlateOfApiId(id) <= 81 && PlateToApiId(PlateOfApiId(id)) == Some(id)
  {
  }

  lemma PlateOfApiIdInverts293To302()
    ensures forall id :: 293 <= id <= 302 ==> 1 <= PlateOfApiId(id) <= 81 && PlateToApiId(PlateOfApiId(id)) == Some(id)
  {
  }

  lemma PlateOfApiIdInverts303To311()
    ensures forall id :: 303 <= id <= 311 ==> 1 <= PlateOfApiId(id) <= 81 && PlateToApiId(PlateOfApiId(id)) == Some(id)
  {
  }

  lemma PlateOfApiIdInverts312To318()
    ensures forall id :: 312 <= id <= 318 ==> 1 <= PlateOfApiId(id) <= 81 && PlateToApiId(PlateOfApiId(id)) == Some(id)
  {
  }

  lemma PlateOfApiIdInverts319To325()
    ensures forall id :: 319 <= id <= 325 ==> 1 <= PlateOfApiId(id) <= 81 && PlateToApiId(PlateOfApiId(id)) == Some(id)
  {
  }

  /** Every portal id in 245..325 is the translation of the plate `PlateOfApiId` gives it. */
  lemma PlateOfApiIdInverts()
    ensures forall id :: 245 <= id <= 325 ==> 1 <= PlateOfApiId(id) <= 81 && PlateToApiId(PlateOfApiId(id)) == Some(id)
  {
    PlateOfApiIdInverts245To256();
    PlateOfApiIdInverts257To268();
    PlateOfApiIdInverts269To280();
    PlateOfApiIdInverts281To292();
    PlateOfApiIdInverts293To302();
    PlateOfApiIdInverts303To311();
    PlateOfApiIdInverts312To318();
    PlateOfApiIdInverts319To325();
  }

  /** Every province key is the translation of some plate. */
  lemma PlateSurjective()
    ensures forall id :: Provinces(id).Some? ==> exists plate :: 1 <= plate <= 81 && PlateToApiId(plate) == Some(id)
  {
    ProvinceDomain();
    PlateOfApiIdInverts();
    forall id | Provinces(id).Some?
      ensures exists plate :: 1 <= plate <= 81 && PlateToApiId(plate) == Some(id)
    {
      var plate := PlateOfApiId(id);
      assert 1 <= plate <= 81 && PlateToApiId(plate) == Some(id);
    }
  }

  /** The plate table is a bijection from 1..81 onto the keys of the province table. */
  lemma PlateBijection()
    ensures (set plate | 1 <= plate <= 81 && PlateToApiId(plate).Some? :: PlateToApiId(plate).value)
         == (set id | 245 <= id <= 325 && Provinces(id).Some?)
    ensures forall p, q :: PlateToApiId(p).Some? && PlateToApiId(p) == PlateToApiId(q) ==> p == q
  {
    PlateRange();
    PlateSurjective();
    PlateInjective();
  }

  lemma RoundTrip1To10()
    ensures forall plate :: 1 <= plate <= 10 ==>
      PlateToApiId(plate).Some? && Provinces(PlateToApiId(plate).value) == Some(Province(DocumentedPlateName(plate)))
  {
  }

  lemma RoundTrip11To20()
    ensures forall plate :: 11 <= plate <= 20 ==>
      PlateToApiId(plate).Some? && Provinces(PlateToApiId(plate).value) == Some(Province(DocumentedPlateName(plate)))
  {
  }

  lemma RoundTrip21To30()
    ensures forall plate :: 21 <= plate <= 30 ==>
      PlateToApiId(plate).Some? && Provinces(PlateToApiId(plate).value) == Some(Province(DocumentedPlateName(plate)))
  {
  }

  lemma RoundTrip31To40()
    ensures forall plate :: 31 <= plate <= 40 ==>
      PlateToApiId(plate).Some? && Provinces(PlateToApiId(plate).value) == Some(Province(DocumentedPlateName(plate)))
  {
  }

  lemma RoundTrip41To50()
    ensures forall plate :: 41 <= plate <= 50 ==>
      PlateToApiId(plate).Some? && Provinces(PlateToApiId(plate).value) == Some(Province(DocumentedPlateName(plate)))
  {
  }

  lemma RoundTrip51To58()
    ensures forall plate :: 51 <= plate <= 58 ==>
      PlateToApiId(plate).Some? && Provinces(PlateToApiId(plate).value) == Some(Province(DocumentedPlateName(plate)))
  {
  }

  lemma RoundTrip59To65()
    ensures forall plate :: 59 <= plate <= 65 ==>
      PlateToApiId(plate).Some? && Provinces(PlateToApiId(plate).value) == Some(Province(DocumentedPlateName(plate)))
  {
  }

  lemma RoundTrip66To71()
    ensures forall plate :: 66 <= plate <= 71 ==>
      PlateToApiId(plate).Some? && Provinces(PlateToApiId(plate).value) == Some(Province(DocumentedPlateName(plate)))
  {
  }

  lemma RoundTrip72To76()
    ensures forall plate :: 72 <= plate <= 76 ==>
      PlateToApiId(plate).Some? && Provinces(PlateToApiId(plate).value) == Some(Province(DocumentedPlateName(plate)))
  {
  }

  lemma RoundTrip77To81()
    ensures forall plate :: 77 <= plate <= 81 ==>
      PlateToApiId(plate).Some? && Provinces(PlateToApiId(plate).value) == Some(Province(DocumentedPlateName(plate)))
  {
  }

  /** Following a plate through both tables gives the province named beside it in the plate table. */
  lemma PlateRoundTrip()
    ensures forall plate :: 1 <= plate <= 81 ==>
      PlateToApiId(plate).Some? && Provinces(PlateToApiId(plate).value) == Some(Province(DocumentedPlateName(plate)))
    ensures Provinces(PlateToApiId(6).value) == Some(Province("ANKARA"))
    ensures Provinces(PlateToApiId(34).value) == Some(Province("İSTANBUL"))
    ensures Provinces(PlateToApiId(35).value) == Some(Province("İZMİR"))
  {
    RoundTrip1To10();
    RoundTrip11To20();
    RoundTrip21To30();
    RoundTrip31To40();
    RoundTrip41To50();
    RoundTrip51To58();
    RoundTrip59To65();
    RoundTrip66To71();
    RoundTrip72To76();
    RoundTrip77To81();
  }

  /** Tender types have ids 1..4 and statuses ids 1..5, each coded by the decimal string of its id. */
  lemma TableCodes()
    ensures |TenderTypes| == 4 && forall i :: 0 <= i < 4 ==> TenderTypes[i].id == i + 1 && TenderTypes[i].code == Decimal.NatToString(i + 1)
    ensures |TenderStatuses| == 5 && forall i :: 0 <= i < 5 ==> TenderStatuses[i].id == i + 1 && TenderStatuses[i].code == Decimal.NatToString(i + 1)
    ensures ProposalTypes.Keys == {1, 2, 3} && AnnouncementTypes.Keys == {1, 2, 3, 4, 5, 6}
  {
  }
}
