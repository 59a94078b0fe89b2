/**
 * frontend/src/components/CurrencyConverter/CurrencySelector.tsx: the
 * search filter over the currency dictionary's entries (in the order
 * `Object.entries` lists them) and the dropdown's `isOpen` and `searchTerm`
 * state. Whether a mouse press lands inside the dropdown is a parameter.
 */
module CurrencySelector {
  import opened Text
  import opened Types

  /** The filter's test: the code or the name contains the term, all three lower-cased. */
  predicate Matches(entry: (string, Currency), term: string) {
    Contains(ToLower(entry.0), ToLower(term)) || Contains(ToLower(entry.1.name), ToLower(term))
  }

  /**
   * filteredCurrencies: the entries that match, in their original order; an
   * entry is listed exactly when it is one of the entries and matches, and
   * the list never grows.
   */
  function FilterCurrencies(entries: seq<(string, Currency)>, term: string): (r: seq<(string, Currency)>)
    ensures |r| <= |entries|
    ensures forall e :: e in r <==> e in entries && Matches(e, term)
  {
    if entries == [] then []
    else
      var rest := FilterCurrencies(entries[1..], term);
      assert forall e :: e in entries <==> e == entries[0] || e in entries[1..];
      if Matches(entries[0], term) then [entries[0]] + rest else rest
  }

  /** Filtering a concatenation filters each part and keeps them in order: the catalogue's order survives. */
  lemma {:induction false} FilterKeepsOrder(a: seq<(string, Currency)>, b: seq<(string, Currency)>, term: string)
    ensures FilterCurrencies(a + b, term) == FilterCurrencies(a, term) + FilterCurrencies(b, term)
  {
    if a != [] {
      assert (a + b)[0] == a[0] && (a + b)[1..] == a[1..] + b;
      FilterKeepsOrder(a[1..], b, term);
    } else {
      assert a + b == b;
    }
  }

  /** Filtering the listed entries again with the same term changes nothing. */
  lemma {:induction false} FilterIdempotent(entries: seq<(string, Currency)>, term: string)
    ensures FilterCurrencies(FilterCurrencies(entries, term), term) == FilterCurrencies(entries, term)
  {
    if entries != [] {
      FilterIdempotent(entries[1..], term);
    }
  }

  /** Every text contains itself. */
  lemma ContainsSelf(s: string)
    ensures Contains(s, s)
  {
    assert OccursAt(s, s, 0);
  }

  /** The empty search term lists every entry, in order. */
  lemma {:induction false} EmptyTermListsAll(entries: seq<(string, Currency)>)
    ensures FilterCurrencies(entries, "") == entries
  {
    if entries != [] {
      ContainsEmpty(ToLower(entries[0].0));
      EmptyTermListsAll(entries[1..]);
    }
  }

  /** Typing an entry's own code, in any case, lists that entry. */
  lemma OwnCodeListed(entries: seq<(string, Currency)>, i: int)
    requires 0 <= i < |entries|
    ensures entries[i] in FilterCurrencies(entries, entries[i].0)
    ensures entries[i] in FilterCurrencies(entries, ToUpper(entries[i].0))
  {
    ContainsSelf(ToLower(entries[i].0));
    LowerOfUpper(entries[i].0);
  }

  /** Lower-casing forgets what upper-casing did. */
  lemma LowerOfUpper(s: string)
    ensures ToLower(ToUpper(s)) == ToLower(s)
  {
    assert forall i :: 0 <= i < |s| ==> ToLower(ToUpper(s))[i] == ToLower(s)[i];
  }

  /** The comparison ignores case: an upper-cased or lower-cased term lists the same entries. */
  lemma SearchIgnoresCase(entries: seq<(string, Currency)>, term: string)
    ensures FilterCurrencies(entries, ToUpper(term)) == FilterCurrencies(entries, term)
    ensures FilterCurrencies(entries, ToLower(term)) == FilterCurrencies(entries, term)
  {
    LowerOfUpper(term);
    ToLowerIdempotent(term);
    SameLoweredTermSameList(entries, ToUpper(term), term);
    SameLoweredTermSameList(entries, ToLower(term), term);
  }

  /** The filter sees the term only through its lower-cased form. */
  lemma {:induction false} SameLoweredTermSameList(entries: seq<(string, Currency)>, t1: string, t2: string)
    requires ToLower(t1) == ToLower(t2)
    ensures FilterCurrencies(entries, t1) == FilterCurrencies(entries, t2)
  {
    if entries != [] {
      SameLoweredTermSameList(entries[1..], t1, t2);
    }
  }

  class Selector {
    var isOpen: bool
    var searchTerm: string

    /** Closed, with an empty search. */
    constructor ()
      ensures !isOpen && searchTerm == ""
    {
      isOpen := false;
      searchTerm := "";
    }

    /** What the open dropdown lists for the given entries. */
    function Listed(entries: seq<(string, Currency)>): (r: seq<(string, Currency)>)
      reads this
      ensures searchTerm == "" ==> r == entries
    {
      EmptyTermListsAll(entries);
      FilterCurrencies(entries, searchTerm)
    }

    /** The button's click: the dropdown opens or closes, unless the selector is disabled. */
    method Toggle(disabled: bool)
      modifies this
      ensures isOpen == if disabled then old(isOpen) else !old(isOpen)
      ensures searchTerm == old(searchTerm)
    {
      if !disabled {
        isOpen := !isOpen;
      }
    }

    /** The document's mousedown: a press outside closes the dropdown and clears the search; one inside changes nothing. */
    method MouseDown(inside: bool)
      modifies this
      ensures inside ==> isOpen == old(isOpen) && searchTerm == old(searchTerm)
      ensures !inside ==> !isOpen && searchTerm == ""
    {
      if !inside {
        isOpen := false;
        searchTerm := "";
      }
    }

    /** The search input's change: the typed text becomes the term. */
    method Search(term: string)
      modifies this
      ensures searchTerm == term && isOpen == old(isOpen)
    {
      searchTerm := term;
    }

    /**
     * handleCurrencySelect: the chosen code is handed to `onCurrencyChange`
     * unchanged, the dropdown closes and the search is cleared, so the next
     * opening lists everything.
     */
    method Select(code: string) returns (chosen: string)
      modifies this
      ensures chosen == code
      ensures !isOpen && searchTerm == ""
    {
      chosen := code;
      isOpen := false;
      searchTerm := "";
    }
  }
}
