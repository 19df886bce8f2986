/** The FAQ page (FAQ.tsx): the category filter over the questions and
    the list of expanded question indices. */
module FaqPage {
  import Seqs

  datatype FaqItem = FaqItem(question: string, answer: string, category: string)

  /** `filteredFAQs`: every item for "all", otherwise exactly the items of
      that category, in their original order. */
  function FilteredFaqs(items: seq<FaqItem>, category: string): (r: seq<FaqItem>)
    ensures category == "all" ==> r == items
    ensures category != "all" ==>
              && (forall i :: 0 <= i < |r| ==> r[i] in items && r[i].category == category)
              && (forall i :: 0 <= i < |items| && items[i].category == category ==> items[i] in r)
              && (forall x :: multiset(r)[x] == if x.category == category then multiset(items)[x] else 0)
  {
    if category == "all" then items
    else
      Seqs.FilterCounts(items, (item: FaqItem) => item.category == category);
      Seqs.Filter(items, (item: FaqItem) => item.category == category)
  }

  lemma FilteredFaqsInOrder(items: seq<FaqItem>, category: string)
    ensures Seqs.SubsequenceOf(FilteredFaqs(items, category), items)
  {
    if category == "all" {
      Seqs.FilterAllKept(items, (item: FaqItem) => true);
      Seqs.FilterIsSubsequence(items, (item: FaqItem) => true);
    } else {
      Seqs.FilterIsSubsequence(items, (item: FaqItem) => item.category == category);
    }
  }

  /** `toggleItem(index)`: an expanded index is collapsed (every copy is
      filtered out), a collapsed one is appended. */
  function Toggle(expanded: seq<int>, index: int): (r: seq<int>)
    ensures index in expanded ==> index !in r && forall j :: j in r ==> j in expanded
    ensures index !in expanded ==> r == expanded + [index]
  {
    if index in expanded then Seqs.RemoveAll(expanded, index) else expanded + [index]
  }

  /** Toggling flips the membership of the index and of no other. */
  lemma ToggleFlipsOnlyIndex(expanded: seq<int>, index: int)
    ensures index in Toggle(expanded, index) <==> index !in expanded
    ensures forall j :: j != index ==> (j in Toggle(expanded, index) <==> j in expanded)
  {
    var r := Toggle(expanded, index);
    forall j | j != index ensures j in r <==> j in expanded {
      if index in expanded {
        if j in r {
          var k :| 0 <= k < |r| && r[k] == j;
        }
        if j in expanded {
          var k :| 0 <= k < |expanded| && expanded[k] == j;
        }
      }
    }
  }

  /** Toggling twice restores the expanded set; when the index was
      collapsed it restores the very list. */
  lemma ToggleTwice(expanded: seq<int>, index: int)
    ensures forall j :: j in Toggle(Toggle(expanded, index), index) <==> j in expanded
    ensures index !in expanded ==> Toggle(Toggle(expanded, index), index) == expanded
  {
    var once := Toggle(expanded, index);
    ToggleFlipsOnlyIndex(expanded, index);
    ToggleFlipsOnlyIndex(once, index);
    if index !in expanded {
      Seqs.RemoveAllUndoesAppend(expanded, index);
    }
  }

  /** A list without repeats stays without repeats. */
  lemma ToggleKeepsNoDuplicates(expanded: seq<int>, index: int)
    requires Seqs.NoDuplicates(expanded)
    ensures Seqs.NoDuplicates(Toggle(expanded, index))
  {
    if index in expanded {
      Seqs.RemoveAllKeepsNoDuplicates(expanded, index);
    } else {
      var r := expanded + [index];
      forall i, j | 0 <= i < j < |r| ensures r[i] != r[j] {
        if j == |expanded| {
          assert r[i] == expanded[i];
        } else {
          assert r[i] == expanded[i] && r[j] == expanded[j];
        }
      }
    }
  }
}
