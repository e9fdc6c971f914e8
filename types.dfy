/** The record shapes the checker, the cache and the statistics tracker
    exchange. Dates are integer timestamps (milliseconds). */
module Types {
  import opened Wrappers

  /** The outcome of one appointment check: available, full, unknown, error, timeout. */
  datatype Durum = Musait | Dolu | Bilinmiyor | Hata | Timeout

  /** Kind of visa centre. */
  datatype MerkezTipi = VfsGlobal | BlsInternational | Konsolosluk

  /** A visa application centre of one country. */
  datatype VizeMerkezi = VizeMerkezi(url: string, tip: MerkezTipi, sehirler: seq<string>, telefonlar: map<string, string>)

  datatype CountryConfig = CountryConfig(id: string, name: string, flag: string, provider: string, bookingBaseUrl: string, notes: Option<string>)

  /** The result record of one appointment check. */
  datatype RandevuKontrolSonuc = RandevuKontrolSonuc(
    ulke: string,
    sehir: Option<string>,
    vizeTipi: Option<string>,
    durum: Durum,
    mesaj: string,
    url: string,
    siteErisilebilir: Option<bool>,
    httpDurum: Option<int>,
    kontrolTarihi: int,
    not: Option<string>)

  /** Options a single check accepts. */
  datatype KontrolOptions = KontrolOptions(sehir: Option<string>, vizeTipi: Option<string>)

  datatype ContactInfo = ContactInfo(
    country: string,
    city: string,
    address: string,
    phone: string,
    email: Option<string>,
    website: string,
    workingHours: string,
    emergencyContact: Option<string>)

  datatype VisaRequirements = VisaRequirements(
    country: string,
    visaType: string,
    requiredDocuments: seq<string>,
    processingTime: string,
    visaFee: string,
    validityPeriod: string,
    stayDuration: string,
    additionalInfo: Option<seq<string>>)

  datatype DocumentItem = DocumentItem(name: string, description: string, format: Option<string>, quantity: Option<int>)

  datatype DocumentChecklist = DocumentChecklist(
    country: string,
    visaType: string,
    mandatory: seq<DocumentItem>,
    optional: seq<DocumentItem>,
    tips: seq<string>)

  datatype CacheOptions = CacheOptions(enabled: bool, ttl: int, maxSize: int)

  datatype CacheEntry<T> = CacheEntry(data: T, timestamp: int, expiresAt: int)

  /** Rates are percentages in [0, 100]. */
  datatype CountryStat = CountryStat(
    country: string,
    countryName: string,
    flag: string,
    checkCount: nat,
    successRate: real,
    averageResponseTime: int)

  datatype Statistics = Statistics(
    totalChecks: nat,
    successfulChecks: nat,
    failedChecks: nat,
    cacheHits: nat,
    cacheMisses: nat,
    averageResponseTime: int,
    mostCheckedCountries: seq<CountryStat>,
    lastUpdated: int)
}
