/** Visa requirements per country and visa type (`src/data/visa-requirements.ts`):
    `getVisaRequirements` finds the first record of a country and visa type,
    `getAllVisaTypes` lists the records of a country. The table's literal
    contents are the parameter `table`. */
module RequirementLookup {
  import opened Wrappers
  import opened Seqs
  import opened Text
  import opened Types

  /** The default of the `visaType` parameter. */
  const DefaultVisaType: string := "tourist"

  function ForCountry(countryId: string): VisaRequirements -> bool {
    (v: VisaRequirements) => v.country == ToLower(countryId)
  }

  function OfType(visaType: string): VisaRequirements -> bool {
    (v: VisaRequirements) => v.visaType == visaType
  }

  /** The test of `getVisaRequirements`: the country is compared lower-cased, the visa type exactly. */
  function ForCountryAndType(countryId: string, visaType: string): VisaRequirements -> bool {
    (v: VisaRequirements) => v.country == ToLower(countryId) && v.visaType == visaType
  }

  /** `getVisaRequirements(countryId, visaType = 'tourist')` */
  function GetVisaRequirements(table: seq<VisaRequirements>, countryId: string, visaType: Option<string>): (r: Option<VisaRequirements>)
    ensures r.Some? ==> r.value in table && r.value.country == ToLower(countryId) && r.value.visaType == visaType.GetOr(DefaultVisaType)
    ensures r.None? <==> forall v :: v in table ==> !(v.country == ToLower(countryId) && v.visaType == visaType.GetOr(DefaultVisaType))
  {
    Find(table, ForCountryAndType(countryId, visaType.GetOr(DefaultVisaType)))
  }

  /** `getAllVisaTypes(countryId)`: the country's records in table order. */
  function GetAllVisaTypes(table: seq<VisaRequirements>, countryId: string): (r: seq<VisaRequirements>)
    ensures forall v :: v in r ==> v in table && v.country == ToLower(countryId)
    ensures IsSubsequence(r, table)
  {
    FilterIsSubsequence(table, ForCountry(countryId));
    Filter(table, ForCountry(countryId))
  }

  /** `getAllVisaTypes` returns every record of the country, as often as the table holds it. */
  lemma AllVisaTypesComplete(table: seq<VisaRequirements>, countryId: string, v: VisaRequirements)
    ensures multiset(GetAllVisaTypes(table, countryId))[v] == if v.country == ToLower(countryId) then multiset(table)[v] else 0
  {
    FilterCount(table, ForCountry(countryId), v);
  }

  /** The record returned is the first match in table order. */
  lemma VisaRequirementsFirstMatch(table: seq<VisaRequirements>, countryId: string, visaType: Option<string>)
    requires GetVisaRequirements(table, countryId, visaType).Some?
    ensures var t := visaType.GetOr(DefaultVisaType);
      exists i :: 0 <= i < |table| && table[i] == GetVisaRequirements(table, countryId, visaType).value
        && forall j :: 0 <= j < i ==> !(table[j].country == ToLower(countryId) && table[j].visaType == t)
  {
    FindFirst(table, ForCountryAndType(countryId, visaType.GetOr(DefaultVisaType)));
  }

  /** `getVisaRequirements(c, t)` is the first record of type `t` among `getAllVisaTypes(c)`;
      in particular it is defined exactly when that list holds a record of type `t`. */
  lemma RequirementsAmongAllTypes(table: seq<VisaRequirements>, countryId: string, visaType: string)
    ensures GetVisaRequirements(table, countryId, Some(visaType)) == Find(GetAllVisaTypes(table, countryId), OfType(visaType))
    ensures GetVisaRequirements(table, countryId, Some(visaType)).Some?
        <==> exists v :: v in GetAllVisaTypes(table, countryId) && v.visaType == visaType
  {
    FindAfterFilter(table, ForCountry(countryId), OfType(visaType), ForCountryAndType(countryId, visaType));
  }

  /** Country ids that differ only in letter case give the same answers. */
  lemma RequirementsCaseInsensitive(table: seq<VisaRequirements>, countryId: string, visaType: Option<string>)
    ensures GetVisaRequirements(table, ToLower(countryId), visaType) == GetVisaRequirements(table, countryId, visaType)
    ensures GetAllVisaTypes(table, ToLower(countryId)) == GetAllVisaTypes(table, countryId)
  {
    ToLowerIdempotent(countryId);
    var t := visaType.GetOr(DefaultVisaType);
    FindSameTest(table, ForCountryAndType(ToLower(countryId), t), ForCountryAndType(countryId, t));
    FilterSameTest(table, ForCountry(ToLower(countryId)), ForCountry(countryId));
  }
}
