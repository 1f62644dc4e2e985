/** Address completion before geocoding (App.tsx:98-99): an address that does not
    already name the city, in any letter case, gets ", Tandil" appended. */
module Address {
  import opened Text

  const CityKey: string := "tandil"
  const CitySuffix: string := ", Tandil"

  /** The lower-cased address contains "tandil". */
  predicate MentionsCity(addr: string) {
    Includes(Lower(addr), CityKey)
  }

  lemma SuffixMentionsCity(addr: string)
    ensures MentionsCity(addr + CitySuffix)
  {
    LowerAppend(addr, CitySuffix);
    var l := Lower(addr + CitySuffix);
    assert Lower(CitySuffix) == ", tandil";
    assert l[|addr| + 2..|addr| + 2 + |CityKey|] == CityKey;
    assert OccursAt(l, CityKey, |addr| + 2);
  }

  /** `finalOriginAddr` / `finalDestAddr`. */
  function Normalize(addr: string): (r: string)
    ensures MentionsCity(r)
    ensures addr <= r
    ensures r == addr <==> MentionsCity(addr)
    ensures r != addr ==> r[|addr|..] == CitySuffix
  {
    if MentionsCity(addr) then addr
    else
      SuffixMentionsCity(addr);
      addr + CitySuffix
  }

  lemma NormalizeIdempotent(addr: string)
    ensures Normalize(Normalize(addr)) == Normalize(addr)
  {
  }

  /** The completed address is never empty, so it always passes the emptiness guard. */
  lemma NormalizeNonEmpty(addr: string)
    ensures Normalize(addr) != ""
  {
  }
}
