/**
 * The search page's client-side filter over the codes it fetched, and the
 * result-count label shown above the results.
 *
 * Unlike the server's search, a blank term shows nothing, the term is matched
 * with whatever spaces surround it, and LIKE wildcards play no part.
 */
module Home {
  import opened Text
  import opened Seqs
  import opened Schema

  /** The per-item test, given the already lower-cased term: its description, code
      or machine, lower-cased, includes the term. */
  predicate ItemMatches(item: DowntimeCode, term: string)
  {
    || Contains(Lower(item.description), term)
    || Contains(Lower(item.code), term)
    || Contains(Lower(item.machine), term)
  }

  function MatchesTerm(term: string): (test: DowntimeCode -> bool)
  {
    item => ItemMatches(item, term)
  }

  /** `filteredResults`: nothing for a term that trims to nothing; otherwise the
      items, in order, that match the lower-cased term as typed, spaces included. */
  function FilteredResults(allCodes: seq<DowntimeCode>, searchTerm: string): (r: seq<DowntimeCode>)
    ensures IsBlank(searchTerm) ==> r == []
    ensures IsSubsequence(r, allCodes) && |r| <= |allCodes|
    ensures forall x :: x in r ==> x in allCodes && ItemMatches(x, Lower(searchTerm))
    ensures !IsBlank(searchTerm) ==> forall x :: x in allCodes && ItemMatches(x, Lower(searchTerm)) ==> x in r
    ensures !IsBlank(searchTerm) ==>
      forall x :: multiset(r)[x] == if ItemMatches(x, Lower(searchTerm)) then multiset(allCodes)[x] else 0
  {
    TrimEmptyIffBlank(searchTerm);
    if Trim(searchTerm) == "" then []
    else Filter(allCodes, MatchesTerm(Lower(searchTerm)))
  }

  /** The text of the result count: the number of results, then "match" for
      exactly one result and "matches" for any other number. */
  function ResultCountText(results: seq<DowntimeCode>): (r: string)
    ensures r == "1 match" <==> |results| == 1
    ensures |results| != 1 ==> r == NatToDecimal(|results|) + " matches"
  {
    var noun := if |results| == 1 then "match" else "matches";
    NatToDecimal(|results|) + " " + noun
  }

  /** A term typed with a leading space is matched with that space: an item is
      kept only where a field has a space right before the word. */
  lemma LeadingSpaceIsMatched(allCodes: seq<DowntimeCode>, word: string, x: DowntimeCode)
    ensures x in FilteredResults(allCodes, " " + word) ==>
      || Contains(Lower(x.description), " " + Lower(word))
      || Contains(Lower(x.code), " " + Lower(word))
      || Contains(Lower(x.machine), " " + Lower(word))
  {
    LowerAppend(" ", word);
    assert Lower(" ") == " ";
  }

  /** So an item whose code, description and machine hold no space is never kept
      for a term with a leading space, even where the word itself occurs. */
  lemma NoSpaceItemMissesLeadingSpaceTerm(allCodes: seq<DowntimeCode>, word: string, x: DowntimeCode)
    requires ' ' !in x.code && ' ' !in x.description && ' ' !in x.machine
    ensures x !in FilteredResults(allCodes, " " + word)
  {
    LeadingSpaceIsMatched(allCodes, word, x);
    NoSpaceNoSpacedWord(x.description, word);
    NoSpaceNoSpacedWord(x.code, word);
    NoSpaceNoSpacedWord(x.machine, word);
  }

  lemma NoSpaceNoSpacedWord(field: string, word: string)
    requires ' ' !in field
    ensures !Contains(Lower(field), " " + Lower(word))
  {
    var l := Lower(field);
    LowerKeepsNonLetter(field, ' ');
    forall i | 0 <= i <= |l|
      ensures !OccursAt(l, " " + Lower(word), i)
    {
      if i < |l| {
        assert l[i] != ' ';
      }
    }
  }

  /** The items with their type blanked out: what remains for the filter to see. */
  function WithoutType(items: seq<DowntimeCode>): (r: seq<DowntimeCode>)
    ensures |r| == |items|
    ensures forall k :: 0 <= k < |items| ==> r[k] == items[k].(faultType := "")
  {
    seq(|items|, k requires 0 <= k < |items| => items[k].(faultType := ""))
  }

  /** The type of an item never decides whether it is kept: lists that differ only
      in their types give results that differ only in their types. */
  lemma TypeNeverDecides(a: seq<DowntimeCode>, b: seq<DowntimeCode>, searchTerm: string)
    requires WithoutType(a) == WithoutType(b)
    ensures WithoutType(FilteredResults(a, searchTerm)) == WithoutType(FilteredResults(b, searchTerm))
  {
    TrimEmptyIffBlank(searchTerm);
    FilterIgnoresType(a, b, Lower(searchTerm));
  }

  lemma {:induction false} FilterIgnoresType(a: seq<DowntimeCode>, b: seq<DowntimeCode>, term: string)
    requires WithoutType(a) == WithoutType(b)
    ensures WithoutType(Filter(a, MatchesTerm(term))) == WithoutType(Filter(b, MatchesTerm(term)))
    decreases |a|
  {
    if a != [] {
      var x, y := a[0], b[0];
      assert x.(faultType := "") == y.(faultType := "");
      assert x.code == y.code && x.description == y.description && x.machine == y.machine;
      WithoutTypeTail(a);
      WithoutTypeTail(b);
      FilterIgnoresType(a[1..], b[1..], term);
      var ra := Filter(a[1..], MatchesTerm(term));
      var rb := Filter(b[1..], MatchesTerm(term));
      if ItemMatches(x, term) {
        WithoutTypeCons(x, ra);
        WithoutTypeCons(y, rb);
      }
    }
  }

  lemma WithoutTypeTail(a: seq<DowntimeCode>)
    requires a != []
    ensures WithoutType(a[1..]) == WithoutType(a)[1..]
  {
  }

  lemma WithoutTypeCons(x: DowntimeCode, rest: seq<DowntimeCode>)
    ensures WithoutType([x] + rest) == [x.(faultType := "")] + WithoutType(rest)
  {
  }
}
