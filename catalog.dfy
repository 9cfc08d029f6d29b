/** The catalog search box: a product is listed when its name or its part number contains
    the search term, ignoring case. Case folding is that of ASCII letters only. */
module Catalog {
  import opened Domain
  import opened Seqs

  predicate IsUpper(c: char) {
    'A' <= c <= 'Z'
  }

  /** `toLowerCase` on one character. */
  function LowerChar(c: char): (r: char)
    ensures !IsUpper(r)
    ensures !IsUpper(c) ==> r == c
    ensures IsUpper(c) ==> r as int == c as int + ('a' as int - 'A' as int)
  {
    if IsUpper(c) then (c as int + ('a' as int - 'A' as int)) as char else c
  }

  /** `toLowerCase` on a string: every character folded, nothing moved. */
  function Lower(s: string): (r: string)
    ensures |r| == |s|
    ensures forall i :: 0 <= i < |s| ==> r[i] == LowerChar(s[i])
  {
    if s == [] then [] else [LowerChar(s[0])] + Lower(s[1..])
  }

  lemma LowerIdempotent(s: string)
    ensures Lower(Lower(s)) == Lower(s)
  {
    assert forall i :: 0 <= i < |s| ==> Lower(Lower(s))[i] == Lower(s)[i];
  }

  /** `needle` occurs in `hay` starting at position `i`. */
  predicate OccursAt(hay: string, needle: string, i: int) {
    0 <= i && i + |needle| <= |hay| && hay[i..i + |needle|] == needle
  }

  /** `hay.includes(needle)`, scanning start positions from the left. */
  predicate Contains(hay: string, needle: string): (b: bool)
    decreases |hay|
    ensures needle == [] ==> b
    ensures |hay| < |needle| ==> !b
  {
    OccursAt(hay, needle, 0) || (|hay| > 0 && Contains(hay[1..], needle))
  }

  /** The scan finds the needle exactly when it occurs somewhere. */
  lemma {:induction false} ContainsIff(hay: string, needle: string)
    ensures Contains(hay, needle) <==> exists i :: OccursAt(hay, needle, i)
  {
    if |hay| > 0 {
      ContainsIff(hay[1..], needle);
      if exists i :: OccursAt(hay, needle, i) {
        var i :| OccursAt(hay, needle, i);
        if i > 0 {
          assert hay[1..][i - 1..i - 1 + |needle|] == hay[i..i + |needle|];
          assert OccursAt(hay[1..], needle, i - 1);
        }
      }
      if exists i :: OccursAt(hay[1..], needle, i) {
        var i :| OccursAt(hay[1..], needle, i);
        assert hay[1..][i..i + |needle|] == hay[i + 1..i + 1 + |needle|];
        assert OccursAt(hay, needle, i + 1);
      }
    } else {
      if exists i :: OccursAt(hay, needle, i) {
        var i :| OccursAt(hay, needle, i);
        assert i == 0;
      }
    }
  }

  /** Folding both sides keeps every occurrence. */
  lemma LowerKeepsOccurrence(hay: string, needle: string, i: int)
    requires OccursAt(hay, needle, i)
    ensures OccursAt(Lower(hay), Lower(needle), i)
  {
    var n := |needle|;
    var window := Lower(hay)[i..i + n];
    forall k | 0 <= k < n ensures window[k] == Lower(needle)[k] {
      assert hay[i..i + n][k] == hay[i + k];
    }
    assert window == Lower(needle);
  }

  /** The filter predicate of the catalog: the lower-cased name or the lower-cased part
      number includes the lower-cased term. An empty term matches every product. */
  predicate MatchesTerm(p: Product, term: string): (b: bool)
    ensures term == [] ==> b
  {
    Contains(Lower(p.name), Lower(term)) || Contains(Lower(p.partNumber), Lower(term))
  }

  /** `products.filter(...)` with the search term: exactly the matching products, kept in
      catalog order. */
  function Search(products: seq<Product>, term: string): (r: seq<Product>)
    ensures forall i :: 0 <= i < |r| ==> r[i] in products && MatchesTerm(r[i], term)
    ensures forall i :: 0 <= i < |products| && MatchesTerm(products[i], term) ==> products[i] in r
    ensures IsSubsequence(r, products)
  {
    var m := (p: Product) => MatchesTerm(p, term);
    FilterIsSubsequence(products, m);
    Filter(products, m)
  }

  /** The search works product by product: searching two lists put together is searching
      each. With the contract of Search this fixes the result exactly, duplicates included. */
  lemma SearchAppend(a: seq<Product>, b: seq<Product>, term: string)
    ensures Search(a + b, term) == Search(a, term) + Search(b, term)
  {
    FilterAppend(a, b, (p: Product) => MatchesTerm(p, term));
  }

  /** A term written exactly as it appears in the name or the part number always finds
      the product. */
  lemma ExactTextIsFound(p: Product, term: string)
    requires Contains(p.name, term) || Contains(p.partNumber, term)
    ensures MatchesTerm(p, term)
  {
    ContainsIff(p.name, term);
    ContainsIff(p.partNumber, term);
    if Contains(p.name, term) {
      var i :| OccursAt(p.name, term, i);
      LowerKeepsOccurrence(p.name, term, i);
      ContainsIff(Lower(p.name), Lower(term));
    } else {
      var i :| OccursAt(p.partNumber, term, i);
      LowerKeepsOccurrence(p.partNumber, term, i);
      ContainsIff(Lower(p.partNumber), Lower(term));
    }
  }

  /** Typing the term in any case gives the same list as typing it in lower case. */
  lemma SearchIgnoresTermCase(products: seq<Product>, term: string)
    ensures Search(products, Lower(term)) == Search(products, term)
  {
    LowerIdempotent(term);
    FilterSamePredicate(products, (p: Product) => MatchesTerm(p, Lower(term)),
                        (p: Product) => MatchesTerm(p, term));
  }

  /** An empty search box lists the whole catalog. */
  lemma EmptyTermListsAll(products: seq<Product>)
    ensures Search(products, "") == products
  {
    FilterAllPass(products, (p: Product) => MatchesTerm(p, ""));
  }
}
