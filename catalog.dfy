/**
 * The public catalog's search: a listing is shown when its model contains the search
 * term without regard to case, and its category is the chosen one or "all" is chosen.
 */
module Catalog {
  import opened Seqs
  import opened Listing

  /** `toLowerCase` on one character, restricted to the ASCII letters. */
  function LowerChar(c: char): char
  {
    if 'A' <= c <= 'Z' then (c as int + 32) as char else c
  }

  /** `toLowerCase`: the same length, and no upper-case ASCII letter is left. */
  function Lower(s: string): (r: string)
    ensures |r| == |s|
    ensures forall i :: 0 <= i < |s| ==> r[i] == LowerChar(s[i])
    ensures forall i :: 0 <= i < |r| ==> !('A' <= r[i] <= 'Z')
  {
    seq(|s|, i requires 0 <= i < |s| => LowerChar(s[i]))
  }

  /** Lowering a lowered string changes nothing. */
  lemma LowerIdempotent(s: string)
    ensures Lower(Lower(s)) == Lower(s)
  {
    assert forall i :: 0 <= i < |s| ==> LowerChar(LowerChar(s[i])) == LowerChar(s[i]);
  }

  predicate IsPrefix(p: string, s: string)
  {
    |p| <= |s| && s[..|p|] == p
  }

  /** `hay.includes(needle)`: the empty needle is in every string, and no needle is longer than its haystack. */
  predicate Contains(hay: string, needle: string): (b: bool)
    ensures needle == [] ==> b
    ensures b ==> |needle| <= |hay|
    decreases |hay|
  {
    IsPrefix(needle, hay) || (hay != [] && Contains(hay[1..], needle))
  }

  /** `Contains` holds exactly when the needle occurs at some position of the haystack. */
  lemma {:induction false} ContainsAt(hay: string, needle: string)
    ensures Contains(hay, needle) <==> exists i :: 0 <= i <= |hay| - |needle| && hay[i..][..|needle|] == needle
  {
    if IsPrefix(needle, hay) {
      assert hay[0..][..|needle|] == needle;
    } else if hay != [] {
      ContainsAt(hay[1..], needle);
      if Contains(hay[1..], needle) {
        var i :| 0 <= i <= |hay| - 1 - |needle| && hay[1..][i..][..|needle|] == needle;
        assert hay[i + 1..] == hay[1..][i..];
      }
      if exists i :: 0 <= i <= |hay| - |needle| && hay[i..][..|needle|] == needle {
        var i :| 0 <= i <= |hay| - |needle| && hay[i..][..|needle|] == needle;
        assert i != 0;
        assert hay[1..][i - 1..] == hay[i..];
      }
    }
  }

  /** `matchesSearch`: the lowered search term occurs at some position of the lowered model. */
  predicate MatchesSearch(p: Product, searchTerm: string): (m: bool)
    ensures m <==> exists i :: 0 <= i <= |Lower(p.model)| - |Lower(searchTerm)|
                              && Lower(p.model)[i..][..|Lower(searchTerm)|] == Lower(searchTerm)
    ensures searchTerm == "" ==> m
  {
    ContainsAt(Lower(p.model), Lower(searchTerm));
    Contains(Lower(p.model), Lower(searchTerm))
  }

  /** `matchesCategory`: "all" admits every listing, any other choice only its own category. */
  predicate MatchesCategory(p: Product, category: string): (m: bool)
    ensures category == "all" ==> m
    ensures category != "all" ==> (m <==> p.category == category)
  {
    category == "all" || p.category == category
  }

  /** `filteredProducts`. */
  function FilteredProducts(products: seq<Product>, searchTerm: string, category: string): (r: seq<Product>)
    ensures IsSubsequence(r, products)
    ensures forall p :: p in r ==> p in products && MatchesSearch(p, searchTerm)
    ensures category != "all" ==> forall p :: p in r ==> p.category == category
    ensures forall p :: p in products && MatchesSearch(p, searchTerm) && MatchesCategory(p, category) ==> p in r
    ensures category == "all" ==> forall p :: p in products ==> (p in r <==> MatchesSearch(p, searchTerm))
  {
    var keep := (p: Product) => MatchesSearch(p, searchTerm) && MatchesCategory(p, category);
    FilterIsSubsequence(products, keep);
    Filter(products, keep)
  }

  /** An empty search in all categories shows every listing. */
  lemma EmptySearchShowsAll(products: seq<Product>)
    ensures FilteredProducts(products, "", "all") == products
  {
    FilterKeepsAll(products, (p: Product) => MatchesSearch(p, "") && MatchesCategory(p, "all"));
  }

  /** Filtering the filtered list again with the same term and category changes nothing. */
  lemma FilterTwice(products: seq<Product>, searchTerm: string, category: string)
    ensures var once := FilteredProducts(products, searchTerm, category);
      FilteredProducts(once, searchTerm, category) == once
  {
    FilterIdempotent(products, (p: Product) => MatchesSearch(p, searchTerm) && MatchesCategory(p, category));
  }

  /** The search ignores case: searching for a term or for its lower-case form shows the same listings. */
  lemma SearchIgnoresCase(products: seq<Product>, searchTerm: string, category: string)
    ensures FilteredProducts(products, Lower(searchTerm), category) == FilteredProducts(products, searchTerm, category)
  {
    LowerIdempotent(searchTerm);
    FilterSameTest(products,
      (p: Product) => MatchesSearch(p, Lower(searchTerm)) && MatchesCategory(p, category),
      (p: Product) => MatchesSearch(p, searchTerm) && MatchesCategory(p, category));
  }
}
