/**
 * The proxy catalogue: regions, each with a display name and a map of
 * countries, each with a display name and a unit price in roubles.
 * The catalogue is immutable configuration; every operation receives it.
 */
module Catalog {

  /** One purchasable country. (The catalogue's `color` field is presentation only.) */
  datatype Country = Country(name: string, price: int)

  datatype Region = Region(name: string, countries: map<string, Country>)

  type Catalog = map<string, Region>

  /** The name shown for a selection that is not in the catalogue. */
  const UnknownCountry: string := "Неизвестная страна"

  /** Every unit price is a positive integer. */
  predicate WellPriced(cat: Catalog) {
    forall r :: r in cat ==> forall c :: c in cat[r].countries ==> cat[r].countries[c].price > 0
  }

  /** No country carries the fallback name, so the fallback is recognisable. */
  predicate NamesKnown(cat: Catalog) {
    forall r :: r in cat ==> forall c :: c in cat[r].countries ==> cat[r].countries[c].name != UnknownCountry
  }

  /** Every (region, country) pair the catalogue offers. */
  function Selections(cat: Catalog): set<(string, string)> {
    set r, c | r in cat && c in cat[r].countries :: (r, c)
  }

  /**
   * `_validate_region_country`: the region is a catalogue key and the
   * country a key of that region, that is, the pair is one the catalogue
   * offers.
   */
  predicate ValidSelection(cat: Catalog, regionId: string, countryId: string): (ok: bool)
    ensures ok <==> (regionId, countryId) in Selections(cat)
  {
    regionId in cat && countryId in cat[regionId].countries
  }

  /** The unit price of a valid selection. */
  function Price(cat: Catalog, regionId: string, countryId: string): (p: int)
    requires ValidSelection(cat, regionId, countryId)
    ensures WellPriced(cat) ==> p > 0
  {
    cat[regionId].countries[countryId].price
  }

  /**
   * `_get_country_name`: the catalogue name of a valid selection, the
   * fallback name otherwise. In a catalogue whose names avoid the fallback,
   * the fallback is shown exactly when the selection is invalid.
   */
  function CountryName(cat: Catalog, regionId: string, countryId: string): (name: string)
    ensures ValidSelection(cat, regionId, countryId) ==> name == cat[regionId].countries[countryId].name
    ensures !ValidSelection(cat, regionId, countryId) ==> name == UnknownCountry
    ensures NamesKnown(cat) ==> (name == UnknownCountry <==> !ValidSelection(cat, regionId, countryId))
  {
    if ValidSelection(cat, regionId, countryId) then cat[regionId].countries[countryId].name
    else UnknownCountry
  }

  const EuropeCountries: map<string, Country> := map[
      "austria" := Country("Австрия", 249),
      "bosnia" := Country("Босния и Герцеговина", 249),
      "uk" := Country("Великобритания", 299),
      "hungary" := Country("Венгрия", 249),
      "germany" := Country("Германия", 299),
      "greece" := Country("Греция", 199),
      "denmark" := Country("Дания", 249),
      "ireland" := Country("Ирландия", 299),
      "iceland" := Country("Исландия", 249),
      "spain" := Country("Испания", 299),
      "italy" := Country("Италия", 299),
      "latvia" := Country("Латвия", 299),
      "netherlands" := Country("Нидерланды", 149),
      "norway" := Country("Норвегия", 249),
      "poland" := Country("Польша", 149),
      "portugal" := Country("Португалия", 299),
      "russia" := Country("Россия", 99),
      "serbia" := Country("Сербия", 199),
      "slovakia" := Country("Словакия", 199),
      "slovenia" := Country("Словения", 199),
      "finland" := Country("Финляндия", 199),
      "france" := Country("Франция", 299),
      "croatia" := Country("Хорватия", 249),
      "czech" := Country("Чехия", 249),
      "switzerland" := Country("Швейцария", 249),
      "sweden" := Country("Швеция", 249),
      "estonia" := Country("Эстония", 199)
    ]

  const AsiaCountries: map<string, Country> := map[
      "azerbaijan" := Country("Азербайджан", 149),
      "vietnam" := Country("Вьетнам", 149),
      "hongkong" := Country("Гонконг", 199),
      "georgia" := Country("Грузия", 199),
      "israel" := Country("Израиль", 249),
      "india" := Country("Индия", 249),
      "indonesia" := Country("Индонезия", 199),
      "kazakhstan" := Country("Казахстан", 149),
      "qatar" := Country("Катар", 199),
      "china" := Country("Китай", 149),
      "kuwait" := Country("Кувейт", 299),
      "malaysia" := Country("Малайзия", 249),
      "uae" := Country("ОАЭ", 249),
      "korea" := Country("Республика Корея", 299),
      "thailand" := Country("Таиланд", 299),
      "turkey" := Country("Турция", 149),
      "philippines" := Country("Филиппины", 299),
      "japan" := Country("Япония", 299)
    ]

  const AmericaCountries: map<string, Country> := map[
      "argentina" := Country("Аргентина", 299),
      "brazil" := Country("Бразилия", 199),
      "canada" := Country("Канада", 149),
      "cuba" := Country("Куба", 249),
      "mexico" := Country("Мексика", 199),
      "usa" := Country("США", 149)
    ]

  const AfricaCountries: map<string, Country> := map[
      "egypt" := Country("Египет", 149),
      "morocco" := Country("Марокко", 199),
      "southafrica" := Country("ЮАР", 249)
    ]

  const OceaniaCountries: map<string, Country> := map[
      "australia" := Country("Австралия", 249),
      "newzealand" := Country("Новая Зеландия", 199),
      "samoa" := Country("Самоа", 199)
    ]

  /** The catalogue the shop is configured with. */
  const Proxies: Catalog := map[
    "europe" := Region("Европа", EuropeCountries),
    "asia" := Region("Азия", AsiaCountries),
    "america" := Region("Америка", AmericaCountries),
    "africa" := Region("Африка", AfricaCountries),
    "oceania" := Region("Океания", OceaniaCountries)
  ]

  predicate CountriesWellFormed(countries: map<string, Country>) {
    forall c :: c in countries ==> countries[c].price > 0 && countries[c].name != UnknownCountry
  }

  lemma EuropeCountriesWellFormed()
    ensures CountriesWellFormed(EuropeCountries)
  {
  }

  lemma AsiaCountriesWellFormed()
    ensures CountriesWellFormed(AsiaCountries)
  {
  }

  lemma AmericaCountriesWellFormed()
    ensures CountriesWellFormed(AmericaCountries)
  {
  }

  lemma AfricaCountriesWellFormed()
    ensures CountriesWellFormed(AfricaCountries)
  {
  }

  lemma OceaniaCountriesWellFormed()
    ensures CountriesWellFormed(OceaniaCountries)
  {
  }

  lemma ProxiesWellFormed()
    ensures WellPriced(Proxies) && NamesKnown(Proxies)
  {
    EuropeCountriesWellFormed();
    AsiaCountriesWellFormed();
    AmericaCountriesWellFormed();
    AfricaCountriesWellFormed();
    OceaniaCountriesWellFormed();
    forall r | r in Proxies
      ensures CountriesWellFormed(Proxies[r].countries)
    {
      assert r == "europe" || r == "asia" || r == "america" || r == "africa" || r == "oceania";
    }
  }

  /** The entry the purchase scenario uses: Greece, in Europe, at 199. */
  lemma GreeceListed()
    ensures ValidSelection(Proxies, "europe", "greece")
    ensures Price(Proxies, "europe", "greece") == 199
    ensures CountryName(Proxies, "europe", "greece") == "Греция"
  {
  }
}
