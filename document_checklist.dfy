/** Document checklists per country and visa type (`src/data/document-checklist.ts`):
    `getDocumentChecklist` finds the first checklist of a country and visa
    type. The table's literal contents are the parameter `table`. */
module ChecklistLookup {
  import opened Wrappers
  import opened Seqs
  import opened Text
  import opened Types

  /** The default of the `visaType` parameter. */
  const DefaultVisaType: string := "tourist"

  /** The country is compared lower-cased, the visa type exactly. */
  function ForCountryAndType(countryId: string, visaType: string): DocumentChecklist -> bool {
    (d: DocumentChecklist) => d.country == ToLower(countryId) && d.visaType == visaType
  }

  /** `getDocumentChecklist(countryId, visaType = 'tourist')` */
  function GetDocumentChecklist(table: seq<DocumentChecklist>, countryId: string, visaType: Option<string>): (r: Option<DocumentChecklist>)
    ensures r.Some? ==> r.value in table && r.value.country == ToLower(countryId) && r.value.visaType == visaType.GetOr(DefaultVisaType)
    ensures r.None? <==> forall d :: d in table ==> !(d.country == ToLower(countryId) && d.visaType == visaType.GetOr(DefaultVisaType))
  {
    Find(table, ForCountryAndType(countryId, visaType.GetOr(DefaultVisaType)))
  }

  /** The checklist returned is the first match in table order. */
  lemma ChecklistFirstMatch(table: seq<DocumentChecklist>, countryId: string, visaType: Option<string>)
    requires GetDocumentChecklist(table, countryId, visaType).Some?
    ensures var t := visaType.GetOr(DefaultVisaType);
      exists i :: 0 <= i < |table| && table[i] == GetDocumentChecklist(table, countryId, visaType).value
        && forall j :: 0 <= j < i ==> !(table[j].country == ToLower(countryId) && table[j].visaType == t)
  {
    FindFirst(table, ForCountryAndType(countryId, visaType.GetOr(DefaultVisaType)));
  }

  /** Country ids that differ only in letter case give the same checklist. */
  lemma ChecklistCaseInsensitive(table: seq<DocumentChecklist>, countryId: string, visaType: Option<string>)
    ensures GetDocumentChecklist(table, ToLower(countryId), visaType) == GetDocumentChecklist(table, countryId, visaType)
  {
    ToLowerIdempotent(countryId);
    var t := visaType.GetOr(DefaultVisaType);
    FindSameTest(table, ForCountryAndType(ToLower(countryId), t), ForCountryAndType(countryId, t));
  }
}
