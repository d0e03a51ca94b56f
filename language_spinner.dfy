/** The language chooser: finds the first language of its list with a given
    abbreviation. */
module LanguageSpinner {
  import opened Wrappers
  import opened Domain

  /** Every language the search reads before reaching a match has an
      abbreviation; a missing one would stop the search with a null
      dereference. */
  predicate Searchable(data: seq<Language>, abbreviation: string) {
    forall i :: 0 <= i < |data| && data[i].abbreviation.None? ==>
      exists j :: 0 <= j < i && data[j].abbreviation == Some(abbreviation)
  }

  /** getLanguageByAbreviation: the first language whose abbreviation equals
      the argument, or None. */
  method GetLanguageByAbbreviation(data: seq<Language>, abbreviation: string) returns (r: Option<Language>)
    requires Searchable(data, abbreviation)
    ensures r.None? <==> forall i :: 0 <= i < |data| ==> data[i].abbreviation != Some(abbreviation)
    ensures r.Some? ==> r.value.abbreviation == Some(abbreviation)
    ensures r.Some? ==> exists i :: 0 <= i < |data| && data[i] == r.value
                          && forall j :: 0 <= j < i ==> data[j].abbreviation != Some(abbreviation)
  {
    var k := 0;
    var current: Option<Language> := None;
    var found := false;
    while k < |data| && !found
      invariant 0 <= k <= |data|
      invariant found ==> k > 0 && current == Some(data[k - 1]) && data[k - 1].abbreviation == Some(abbreviation)
      invariant forall j :: 0 <= j < k && (!found || j < k - 1) ==> data[j].abbreviation != Some(abbreviation)
    {
      current := Some(data[k]);
      if data[k].abbreviation.None? {
        assert false;
      }
      if data[k].abbreviation.value == abbreviation {
        found := true;
      }
      k := k + 1;
    }
    if found {
      return current;
    } else {
      return None;
    }
  }
}
