/** The appointment checker (`src/SchengenChecker.ts`): option defaults,
    the keyword classification of a visa centre's page, the shape of a
    check's result for each kind of HTTP outcome, the batch loop, and the
    summary of what the reference tables know about a country.

    The HTTP request itself is not modelled: its outcome is an input
    (`HttpOutcome`). The country list `SCHENGEN_ULKELERI`, the centre table
    `VIZE_MERKEZLERI` and `getCountryConfig` belong to a constants module that
    is not part of this model; they are the parameters `reg` and `configOf`. */
module Checker {
  import opened Wrappers
  import opened Text
  import opened Types
  import ContactLookup
  import RequirementLookup
  import ChecklistLookup

  const DefaultSehir: string := "ankara"
  const DefaultRateLimit: int := 2000
  const DefaultVizeTipi: string := "turist"

  /** Page texts that mean there is no free appointment; they take precedence. */
  const FullKeywords: seq<string> := ["no appointment", "randevu yok", "dolu", "full"]
  /** Page texts that suggest the booking system is open. */
  const AvailableKeywords: seq<string> := ["available", "müsait", "musait", "appointment"]

  const FullMessage: string := "Şu an müsait randevu bulunmuyor"
  const AvailableMessage: string := "Randevu sistemi aktif - Detaylı kontrol için siteyi ziyaret edin"
  const UndeterminedMessage: string := "Site erişilebilir ancak randevu durumu belirlenemedi"
  const CheckNote: string := "Kesin bilgi için resmi siteyi kontrol edin"
  const TimeoutMessage: string := "Site yanıt vermiyor (timeout)"
  const UnsupportedMessage: string := "Bu ülke için otomatik kontrol henüz desteklenmiyor"
  const CheckErrorPrefix: string := "Kontrol sırasında hata: "
  const NotSchengenSuffix: string := " Schengen ülkesi değil!"

  /** The constructor's options that the checker uses. */
  datatype CheckerOptions = CheckerOptions(sehir: Option<string>, rateLimit: Option<int>)

  /** What the request to a centre's site produced: a response the status
      filter accepted or rejected, an `ECONNABORTED` timeout, or any other
      error with its message. */
  datatype HttpOutcome = Response(status: int, body: string) | Aborted | Failed(message: string)

  /** The constants the checker consults: the Schengen country ids and the visa centre per country id. */
  datatype Registry = Registry(schengen: seq<string>, merkezler: map<string, VizeMerkezi>)

  /** The three reference tables. */
  datatype ReferenceTables = ReferenceTables(
    contacts: seq<ContactInfo>,
    requirements: seq<VisaRequirements>,
    checklists: seq<DocumentChecklist>)

  /** What `getCountryFullInfo` returns. */
  datatype FullInfo = FullInfo(
    config: Option<CountryConfig>,
    contacts: seq<ContactInfo>,
    requirements: Option<VisaRequirements>,
    checklist: Option<DocumentChecklist>,
    hasFullInfo: bool)

  /** `keys.some(k => html.includes(k))` */
  predicate ContainsAny(html: string, keys: seq<string>) {
    exists i | 0 <= i < |keys| :: Contains(html, keys[i])
  }

  /** The status a page body shows, with its message: full when a "full"
      keyword occurs in the lower-cased body, otherwise available when an
      "available" keyword occurs, otherwise undetermined. */
  function ClassifyPage(body: string): (r: (Durum, string))
    ensures r.0 == Dolu || r.0 == Musait || r.0 == Bilinmiyor
    ensures r.0 == Dolu <==> ContainsAny(ToLower(body), FullKeywords)
    ensures r.0 == Musait <==> !ContainsAny(ToLower(body), FullKeywords) && ContainsAny(ToLower(body), AvailableKeywords)
    ensures r.1 == match r.0 case Dolu => FullMessage case Musait => AvailableMessage case _ => UndeterminedMessage
  {
    var html := ToLower(body);
    if ContainsAny(html, FullKeywords) then (Dolu, FullMessage)
    else if ContainsAny(html, AvailableKeywords) then (Musait, AvailableMessage)
    else (Bilinmiyor, UndeterminedMessage)
  }

  /** A page saying "no appointment" is full, although it also contains the
      available keyword "appointment". */
  lemma NoAppointmentIsFull(body: string)
    requires Contains(ToLower(body), "no appointment")
    ensures ContainsAny(ToLower(body), AvailableKeywords)
    ensures ClassifyPage(body).0 == Dolu
  {
    assert Contains(ToLower(body), FullKeywords[0]);
    assert OccursAt("no appointment", "appointment", 3);
    ContainsTransitive(ToLower(body), "no appointment", "appointment");
    assert Contains(ToLower(body), AvailableKeywords[3]);
  }

  /** `gercekRandevuKontrol`: the result for one request outcome. A response
      with status 500 or more is rejected by the status filter and surfaces
      as the HTTP client's error, as does any failure other than a timeout. */
  function GercekRandevuKontrol(ulke: string, sehir: string, vizeTipi: string, merkez: VizeMerkezi, outcome: HttpOutcome, now: int): (r: Result<RandevuKontrolSonuc, string>)
    ensures r.Failure? <==> outcome.Failed? || (outcome.Response? && outcome.status >= 500)
    ensures outcome.Failed? ==> r == Failure(outcome.message)
    ensures r.Success? ==> r.value.ulke == ulke && r.value.sehir == Some(sehir) && r.value.url == merkez.url && r.value.kontrolTarihi == now
    ensures r.Success? ==> (r.value.siteErisilebilir == Some(true) <==> outcome.Response? && outcome.status == 200)
    ensures outcome.Response? && outcome.status == 200 ==>
      && r.value.durum == ClassifyPage(outcome.body).0 && r.value.mesaj == ClassifyPage(outcome.body).1
      && r.value.httpDurum == Some(200) && r.value.vizeTipi == Some(vizeTipi) && r.value.not == Some(CheckNote)
    ensures outcome.Response? && outcome.status != 200 && outcome.status < 500 ==>
      && r.value.durum == Hata && r.value.siteErisilebilir == Some(false) && r.value.httpDurum == Some(outcome.status)
      && r.value.mesaj == "Site erişim sorunu (HTTP " + IntToString(outcome.status) + ")"
    ensures outcome.Aborted? ==>
      && r.value.durum == Timeout && r.value.mesaj == TimeoutMessage
      && r.value.siteErisilebilir == Some(false) && r.value.httpDurum == None
  {
    match outcome
    case Response(status, body) =>
      if status >= 500 then Failure("Request failed with status code " + IntToString(status))
      else if status == 200 then
        var (durum, mesaj) := ClassifyPage(body);
        Success(RandevuKontrolSonuc(ulke, Some(sehir), Some(vizeTipi), durum, mesaj, merkez.url, Some(true), Some(status), now, Some(CheckNote)))
      else
        Success(RandevuKontrolSonuc(ulke, Some(sehir), None, Hata, "Site erişim sorunu (HTTP " + IntToString(status) + ")",
                                    merkez.url, Some(false), Some(status), now, None))
    case Aborted =>
      Success(RandevuKontrolSonuc(ulke, Some(sehir), None, Timeout, TimeoutMessage, merkez.url, Some(false), None, now, None))
    case Failed(message) => Failure(message)
  }

  /** The result of one country in a batch: the check's result, or for a
      thrown error an error entry with the error's message and no URL. */
  function BatchEntry(ulke: string, r: Result<RandevuKontrolSonuc, string>, now: int): (e: RandevuKontrolSonuc)
    ensures r.Success? ==> e == r.value
    ensures r.Failure? ==> e.ulke == ulke && e.durum == Hata && e.mesaj == r.error && e.url == "" && e.kontrolTarihi == now
  {
    match r
    case Success(sonuc) => sonuc
    case Failure(message) => RandevuKontrolSonuc(ulke, None, None, Hata, message, "", None, None, now, None)
  }

  class SchengenChecker {
    const sehir: string
    const rateLimit: int

    /** `options.sehir || 'ankara'` and `options.rateLimit || 2000`: an absent,
        empty or zero option takes the default, so neither field is falsy. */
    constructor (options: CheckerOptions)
      ensures sehir == if options.sehir.Some? && options.sehir.value != "" then options.sehir.value else DefaultSehir
      ensures rateLimit == if options.rateLimit.Some? && options.rateLimit.value != 0 then options.rateLimit.value else DefaultRateLimit
      ensures sehir != "" && rateLimit != 0
    {
      sehir := if options.sehir.Some? && options.sehir.value != "" then options.sehir.value else DefaultSehir;
      rateLimit := if options.rateLimit.Some? && options.rateLimit.value != 0 then options.rateLimit.value else DefaultRateLimit;
    }

    /** `schengenMi(ulke)`: the lower-cased id is a Schengen country. */
    predicate SchengenMi(reg: Registry, ulke: string) {
      ToLower(ulke) in reg.schengen
    }

    /** Country ids that differ only in letter case are equally Schengen or not. */
    lemma SchengenCaseInsensitive(reg: Registry, ulke: string)
      ensures SchengenMi(reg, ToLower(ulke)) == SchengenMi(reg, ulke)
    {
      ToLowerIdempotent(ulke);
    }

    /** The city of a check: the option when given and non-empty, else the instance's city. */
    function ChosenSehir(options: KontrolOptions): (r: string)
      ensures r == sehir || options.sehir == Some(r)
      ensures options.sehir.Some? && options.sehir.value != "" ==> r == options.sehir.value
      ensures sehir != "" ==> r != ""
    {
      if options.sehir.Some? && options.sehir.value != "" then options.sehir.value else sehir
    }

    /** The visa type of a check: the option when given and non-empty, else `'turist'`. */
    function ChosenVizeTipi(options: KontrolOptions): (r: string)
      ensures r != ""
      ensures options.vizeTipi.Some? && options.vizeTipi.value != "" ==> r == options.vizeTipi.value
      ensures !(options.vizeTipi.Some? && options.vizeTipi.value != "") ==> r == DefaultVizeTipi
    {
      if options.vizeTipi.Some? && options.vizeTipi.value != "" then options.vizeTipi.value else DefaultVizeTipi
    }

    /** `musaitRandevuKontrol(ulke, options)` with `outcome` the outcome of its
        request: a non-Schengen country is an error (`Failure`), thrown before
        any lookup; a country without a visa centre is undetermined with no
        URL; an error of the request becomes an error entry with the centre's URL. */
    function MusaitRandevuKontrol(reg: Registry, ulke: string, options: KontrolOptions, outcome: HttpOutcome, now: int): (r: Result<RandevuKontrolSonuc, string>)
      ensures r.Failure? <==> !SchengenMi(reg, ulke)
      ensures r.Failure? ==> r.error == ulke + NotSchengenSuffix
      ensures r.Success? ==> r.value.ulke == ulke && r.value.kontrolTarihi == now
      ensures SchengenMi(reg, ulke) && ToLower(ulke) !in reg.merkezler ==>
        r.value.durum == Bilinmiyor && r.value.url == "" && r.value.mesaj == UnsupportedMessage
      ensures SchengenMi(reg, ulke) && ToLower(ulke) in reg.merkezler ==>
        r.value.url == reg.merkezler[ToLower(ulke)].url
      ensures SchengenMi(reg, ulke) && ToLower(ulke) in reg.merkezler && outcome.Response? && outcome.status == 200 ==>
        r.value.durum == ClassifyPage(outcome.body).0 && r.value.sehir == Some(ChosenSehir(options)) && r.value.vizeTipi == Some(ChosenVizeTipi(options))
      ensures SchengenMi(reg, ulke) && ToLower(ulke) in reg.merkezler ==>
        var g := GercekRandevuKontrol(ulke, ChosenSehir(options), ChosenVizeTipi(options), reg.merkezler[ToLower(ulke)], outcome, now);
        && (g.Success? ==> r == g)
        && (g.Failure? ==> r.value.durum == Hata && r.value.mesaj == CheckErrorPrefix + g.error && r.value.kontrolTarihi == now)
      ensures SchengenMi(reg, ulke) && ToLower(ulke) in reg.merkezler && outcome.Failed? ==>
        r.value.durum == Hata && r.value.mesaj == CheckErrorPrefix + outcome.message
      ensures SchengenMi(reg, ulke) && ToLower(ulke) in reg.merkezler && outcome.Response? && outcome.status >= 500 ==>
        r.value.durum == Hata && r.value.mesaj == CheckErrorPrefix + "Request failed with status code " + IntToString(outcome.status)
    {
      if !SchengenMi(reg, ulke) then Failure(ulke + NotSchengenSuffix)
      else if ToLower(ulke) !in reg.merkezler then
        Success(RandevuKontrolSonuc(ulke, None, None, Bilinmiyor, UnsupportedMessage, "", None, None, now, None))
      else
        var merkez := reg.merkezler[ToLower(ulke)];
        match GercekRandevuKontrol(ulke, ChosenSehir(options), ChosenVizeTipi(options), merkez, outcome, now)
        case Success(sonuc) => Success(sonuc)
        case Failure(message) =>
          Success(RandevuKontrolSonuc(ulke, None, None, Hata, CheckErrorPrefix + message, merkez.url, None, None, now, None))
    }

    /** `topluRandevuKontrol(ulkeler, options)`, where `replyAt(i)` is the
        outcome of the request made for the `i`-th country: one result per
        country, in input order. */
    method TopluRandevuKontrol(reg: Registry, ulkeler: seq<string>, options: KontrolOptions, replyAt: int -> HttpOutcome, now: int)
      returns (sonuclar: seq<RandevuKontrolSonuc>)
      ensures |sonuclar| == |ulkeler|
      ensures forall i :: 0 <= i < |ulkeler| ==>
        sonuclar[i] == BatchEntry(ulkeler[i], MusaitRandevuKontrol(reg, ulkeler[i], options, replyAt(i), now), now)
      ensures forall i :: 0 <= i < |ulkeler| ==> sonuclar[i].ulke == ulkeler[i]
      ensures forall i :: 0 <= i < |ulkeler| && !SchengenMi(reg, ulkeler[i]) ==>
        sonuclar[i].durum == Hata && sonuclar[i].url == "" && sonuclar[i].mesaj == ulkeler[i] + NotSchengenSuffix
    {
      sonuclar := [];
      var i := 0;
      while i < |ulkeler|
        invariant 0 <= i <= |ulkeler| && |sonuclar| == i
        invariant forall j :: 0 <= j < i ==>
          sonuclar[j] == BatchEntry(ulkeler[j], MusaitRandevuKontrol(reg, ulkeler[j], options, replyAt(j), now), now)
      {
        var ulke := ulkeler[i];
        var sonuc := MusaitRandevuKontrol(reg, ulke, options, replyAt(i), now);
        match sonuc {
          case Success(s) =>
            sonuclar := sonuclar + [s];
          case Failure(message) =>
            sonuclar := sonuclar + [RandevuKontrolSonuc(ulke, None, None, Hata, message, "", None, None, now, None)];
        }
        i := i + 1;
      }
    }

    /** `tumUlkelerKontrol(options)`: the batch over every country that has a
        visa centre, `keys` being the centre table's keys in their own order.
        A lower-case key that is a Schengen country is checked against its
        own centre, whose URL its result carries. */
    method TumUlkelerKontrol(reg: Registry, keys: seq<string>, options: KontrolOptions, replyAt: int -> HttpOutcome, now: int)
      returns (sonuclar: seq<RandevuKontrolSonuc>)
      requires forall k :: k in keys <==> k in reg.merkezler
      ensures |sonuclar| == |keys|
      ensures forall i :: 0 <= i < |keys| ==> sonuclar[i].ulke == keys[i]
      ensures forall i :: 0 <= i < |keys| ==>
        sonuclar[i] == BatchEntry(keys[i], MusaitRandevuKontrol(reg, keys[i], options, replyAt(i), now), now)
      ensures forall i :: 0 <= i < |keys| && ToLower(keys[i]) == keys[i] && SchengenMi(reg, keys[i]) ==>
        sonuclar[i].url == reg.merkezler[keys[i]].url
    {
      sonuclar := TopluRandevuKontrol(reg, keys, options, replyAt, now);
      forall i | 0 <= i < |keys| && ToLower(keys[i]) == keys[i] && SchengenMi(reg, keys[i])
        ensures sonuclar[i].url == reg.merkezler[keys[i]].url
      {
        assert keys[i] in reg.merkezler;
      }
    }

    /** `getCountryFullInfo(countryId)`: the configuration, the contacts, the
        tourist-visa requirements and checklist, and whether all four are present. */
    function GetCountryFullInfo(tables: ReferenceTables, configOf: string -> Option<CountryConfig>, countryId: string): (r: FullInfo)
      ensures r.config == configOf(countryId)
      ensures r.contacts == ContactLookup.GetContactInfo(tables.contacts, countryId, None)
      ensures r.requirements == RequirementLookup.GetVisaRequirements(tables.requirements, countryId, None)
      ensures r.checklist == ChecklistLookup.GetDocumentChecklist(tables.checklists, countryId, None)
    {
      var config := configOf(countryId);
      var contacts := ContactLookup.GetContactInfo(tables.contacts, countryId, None);
      var requirements := RequirementLookup.GetVisaRequirements(tables.requirements, countryId, None);
      var checklist := ChecklistLookup.GetDocumentChecklist(tables.checklists, countryId, None);
      FullInfo(config, contacts, requirements, checklist,
               config.Some? && |contacts| > 0 && requirements.Some? && checklist.Some?)
    }

    /** `hasFullInfo` holds exactly when the country has a configuration, a
        contact, and a tourist-visa requirement record and checklist in the tables. */
    lemma HasFullInfoIff(tables: ReferenceTables, configOf: string -> Option<CountryConfig>, countryId: string)
      ensures var id := ToLower(countryId);
        GetCountryFullInfo(tables, configOf, countryId).hasFullInfo <==>
          && configOf(countryId).Some?
          && (exists c :: c in tables.contacts && c.country == id)
          && (exists v :: v in tables.requirements && v.country == id && v.visaType == "tourist")
          && (exists d :: d in tables.checklists && d.country == id && d.visaType == "tourist")
    {
      var id := ToLower(countryId);
      var contacts := ContactLookup.GetContactInfo(tables.contacts, countryId, None);
      if c :| c in tables.contacts && c.country == id {
        ContactLookup.GetContactInfoComplete(tables.contacts, countryId, None, c);
        assert c in multiset(contacts);
      }
    }
  }
}
