/** The country picker: the countries in display order (Vietnam, then
    Thailand, then by the shown property) and the entry for the selected
    code. The country dataset is a parameter. */
module CountrySelector {
  import opened Wrappers
  import opened Strings
  import opened Lists
  import opened Sorting

  datatype Country = Country(code: string, name: string, nationality: string, phoneCode: string)

  datatype DisplayProperty = Name | Nationality | PhoneCode

  const VIETNAM: string := "VN"
  const THAILAND: string := "TH"

  function Shown(c: Country, prop: DisplayProperty): string {
    match prop
    case Name => c.name
    case Nationality => c.nationality
    case PhoneCode => c.phoneCode
  }

  /** The comparator read as "`a` may come before `b`": a Vietnam entry
      first, then a Thailand entry, then the shown property in
      lexicographic order. */
  predicate ComesBefore(a: Country, b: Country, prop: DisplayProperty) {
    if a.code == VIETNAM then true
    else if b.code == VIETNAM then false
    else if a.code == THAILAND then true
    else if b.code == THAILAND then false
    else LexLe(Shown(a, prop), Shown(b, prop))
  }

  function Order(prop: DisplayProperty): (Country, Country) -> bool {
    (a: Country, b: Country) => ComesBefore(a, b, prop)
  }

  lemma OrderIsTotalPreorder(cs: seq<Country>, prop: DisplayProperty)
    ensures TotalPreorderOn(cs, Order(prop))
  {
    forall a, b | a in cs && b in cs ensures Order(prop)(a, b) || Order(prop)(b, a) {
      LexLeTotal(Shown(a, prop), Shown(b, prop));
    }
    forall a, b, c | a in cs && b in cs && c in cs && Order(prop)(a, b) && Order(prop)(b, c)
      ensures Order(prop)(a, c)
    {
      if a.code != VIETNAM && a.code != THAILAND {
        LexLeTransitive(Shown(a, prop), Shown(b, prop), Shown(c, prop));
      }
    }
  }

  /** `sortedCountries`: a sorted copy of the dataset, which stays as it
      was. */
  function SortedCountries(countries: seq<Country>, prop: DisplayProperty): (r: seq<Country>)
    ensures multiset(r) == multiset(countries)
    ensures forall i, j :: 0 <= i < j < |r| ==> ComesBefore(r[i], r[j], prop)
  {
    OrderIsTotalPreorder(countries, prop);
    Sort(countries, Order(prop))
  }

  /** Nothing but a Vietnam entry precedes a Vietnam entry. */
  lemma VietnamFirst(countries: seq<Country>, prop: DisplayProperty, i: int, j: int)
    requires var r := SortedCountries(countries, prop); 0 <= i < j < |r| && r[j].code == VIETNAM
    ensures SortedCountries(countries, prop)[i].code == VIETNAM
  {
  }

  /** A Vietnam entry, when there is one, heads the list. */
  lemma VietnamHeadsList(countries: seq<Country>, prop: DisplayProperty)
    requires exists c :: c in countries && c.code == VIETNAM
    ensures var r := SortedCountries(countries, prop); r != [] && r[0].code == VIETNAM
  {
    var r := SortedCountries(countries, prop);
    var c :| c in countries && c.code == VIETNAM;
    assert c in multiset(r);
    var j :| 0 <= j < |r| && r[j] == c;
    if j > 0 {
      VietnamFirst(countries, prop, 0, j);
    }
  }

  /** Only Vietnam or Thailand entries precede a Thailand entry. */
  lemma ThailandSecond(countries: seq<Country>, prop: DisplayProperty, i: int, j: int)
    requires var r := SortedCountries(countries, prop); 0 <= i < j < |r| && r[j].code == THAILAND
    ensures SortedCountries(countries, prop)[i].code in {VIETNAM, THAILAND}
  {
  }

  /** Two other countries come in the order of their shown property. */
  lemma OthersByProperty(countries: seq<Country>, prop: DisplayProperty, i: int, j: int)
    requires 0 <= i < j < |SortedCountries(countries, prop)|
    requires SortedCountries(countries, prop)[i].code !in {VIETNAM, THAILAND}
    requires SortedCountries(countries, prop)[j].code !in {VIETNAM, THAILAND}
    ensures var r := SortedCountries(countries, prop); LexLe(Shown(r[i], prop), Shown(r[j], prop))
  {
  }

  function CodeIs(value: string): Country -> bool {
    (c: Country) => c.code == value
  }

  /** `selectedCountry`: the first entry with the given code, if any. */
  function SelectedCountry(countries: seq<Country>, value: string): (r: Option<Country>)
    ensures r.Some? ==> r.value in countries && r.value.code == value
    ensures r.None? <==> forall c :: c in countries ==> c.code != value
    ensures r.Some? ==> exists i :: (0 <= i < |countries| && countries[i] == r.value
      && forall j :: 0 <= j < i ==> countries[j].code != value)
  {
    var i := FindIndex(countries, CodeIs(value));
    if i < 0 then
      assert forall c :: c in countries ==> c.code != value by {
        forall c | c in countries ensures c.code != value {
          var k :| 0 <= k < |countries| && countries[k] == c;
          assert !CodeIs(value)(countries[k]);
        }
      }
      None
    else Some(countries[i])
  }
}
