/** Consulate and visa-centre contacts (`src/data/contact-info.ts`): a table
    of `ContactInfo` records and `getContactInfo`, which keeps the records
    of one country and, when a city is given, of that city. The table's
    literal contents are the parameter `table`. */
module ContactLookup {
  import opened Wrappers
  import opened Seqs
  import opened Text
  import opened Types

  function InCountry(countryId: string): ContactInfo -> bool {
    (c: ContactInfo) => c.country == ToLower(countryId)
  }

  function InCity(city: string): ContactInfo -> bool {
    (c: ContactInfo) => c.city == ToLower(city)
  }

  /** `if (city)`: a city is used when it is given and not the empty string. */
  predicate CityGiven(city: Option<string>) {
    city.Some? && city.value != ""
  }

  /** `getContactInfo(countryId, city?)`: the records of the country, in table
      order, narrowed to the city when one is given. */
  function GetContactInfo(table: seq<ContactInfo>, countryId: string, city: Option<string>): (r: seq<ContactInfo>)
    ensures forall c :: c in r ==> c in table && c.country == ToLower(countryId)
    ensures CityGiven(city) ==> forall c :: c in r ==> c.city == ToLower(city.value)
    ensures IsSubsequence(r, table)
  {
    var contacts := Filter(table, InCountry(countryId));
    FilterIsSubsequence(table, InCountry(countryId));
    if CityGiven(city) then
      FilterIsSubsequence(contacts, InCity(city.value));
      SubsequenceTransitive(Filter(contacts, InCity(city.value)), contacts, table);
      Filter(contacts, InCity(city.value))
    else contacts
  }

  /** Every matching record is returned, as often as the table holds it, and nothing else. */
  lemma GetContactInfoComplete(table: seq<ContactInfo>, countryId: string, city: Option<string>, c: ContactInfo)
    ensures var matches := c.country == ToLower(countryId) && (CityGiven(city) ==> c.city == ToLower(city.value));
      multiset(GetContactInfo(table, countryId, city))[c] == if matches then multiset(table)[c] else 0
  {
    FilterCount(table, InCountry(countryId), c);
    if CityGiven(city) {
      FilterCount(Filter(table, InCountry(countryId)), InCity(city.value), c);
    }
  }

  /** Without a city (absent or `''`) the result is every record of the country. */
  lemma NoCityMeansWholeCountry(table: seq<ContactInfo>, countryId: string)
    ensures GetContactInfo(table, countryId, None) == Filter(table, InCountry(countryId))
    ensures GetContactInfo(table, countryId, Some("")) == GetContactInfo(table, countryId, None)
  {
  }

  /** Naming a city only removes records from the country's list. */
  lemma CityNarrowsCountry(table: seq<ContactInfo>, countryId: string, city: Option<string>)
    ensures IsSubsequence(GetContactInfo(table, countryId, city), GetContactInfo(table, countryId, None))
  {
    var contacts := Filter(table, InCountry(countryId));
    if CityGiven(city) {
      FilterIsSubsequence(contacts, InCity(city.value));
    } else {
      SubsequenceReflexive(contacts);
    }
  }

  /** Country ids that differ only in letter case give the same records. */
  lemma ContactCaseInsensitive(table: seq<ContactInfo>, countryId: string, city: Option<string>)
    ensures GetContactInfo(table, ToLower(countryId), city) == GetContactInfo(table, countryId, city)
  {
    ToLowerIdempotent(countryId);
    FilterSameTest(table, InCountry(ToLower(countryId)), InCountry(countryId));
  }
}
