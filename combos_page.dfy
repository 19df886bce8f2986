/** The outfit-combo page (Combos.tsx): the search box and the category
    buttons over the combo list. */
module CombosPage {
  import Text
  import Seqs

  /** The fields of a combo the filter reads; prices, images and the
      items of a combo are display data. */
  datatype Combo = Combo(id: string, name: string, description: string)

  /** The category buttons; only "All" is special. */
  const Categories: seq<string> := ["All", "Casual", "Formal", "Beach", "Office", "Evening"]

  predicate MatchesSearch(c: Combo, query: string)
  {
    Text.Includes(Text.Lower(c.name), Text.Lower(query))
  }

  /** There is no category field: a category other than "All" is looked
      for in the combo's name. */
  predicate MatchesCategory(c: Combo, category: string)
  {
    category == "All" || Text.Includes(Text.Lower(c.name), Text.Lower(category))
  }

  predicate Keep(c: Combo, query: string, category: string)
  {
    MatchesSearch(c, query) && MatchesCategory(c, category)
  }

  /** `filteredCombos`: exactly the combos passing both tests. */
  function FilteredCombos(combos: seq<Combo>, query: string, category: string): (r: seq<Combo>)
    ensures forall i :: 0 <= i < |r| ==> r[i] in combos && Keep(r[i], query, category)
    ensures forall i :: 0 <= i < |combos| && Keep(combos[i], query, category) ==> combos[i] in r
    ensures forall c :: multiset(r)[c] == if Keep(c, query, category) then multiset(combos)[c] else 0
  {
    Seqs.FilterCounts(combos, c => Keep(c, query, category));
    Seqs.Filter(combos, c => Keep(c, query, category))
  }

  lemma FilteredCombosInOrder(combos: seq<Combo>, query: string, category: string)
    ensures Seqs.SubsequenceOf(FilteredCombos(combos, query, category), combos)
  {
    Seqs.FilterIsSubsequence(combos, c => Keep(c, query, category));
  }

  /** A kept combo's lowercased name holds the lowercased query and, for a
      category other than "All", the lowercased category, as a contiguous piece. */
  lemma KeptNameHoldsBoth(c: Combo, query: string, category: string)
    requires Keep(c, query, category)
    ensures exists i :: Text.OccursAt(Text.Lower(c.name), Text.Lower(query), i)
    ensures category != "All" ==> exists i :: Text.OccursAt(Text.Lower(c.name), Text.Lower(category), i)
  {
    Text.IncludesIffOccurs(Text.Lower(c.name), Text.Lower(query));
    if category != "All" {
      Text.IncludesIffOccurs(Text.Lower(c.name), Text.Lower(category));
    }
  }

  /** With "All" selected only the search applies, and an empty search
      with "All" keeps every combo. */
  lemma AllDisablesCategory(combos: seq<Combo>, query: string)
    ensures forall c :: Keep(c, query, "All") <==> MatchesSearch(c, query)
    ensures FilteredCombos(combos, "", "All") == combos
  {
    forall i | 0 <= i < |combos| ensures Keep(combos[i], "", "All") {
      Text.EmptyIsIncluded(Text.Lower(combos[i].name));
    }
    Seqs.FilterAllKept(combos, c => Keep(c, "", "All"));
  }

  /** The search ignores letter case: the query and its lowercase keep the
      same combos. */
  lemma SearchIgnoresCase(c: Combo, query: string, category: string)
    ensures Keep(c, query, category) <==> Keep(c, Text.Lower(query), category)
  {
    Text.LowerIdempotent(query);
  }
}
