/**
 * The admin panel's listing store: the list of listings shown in the product table
 * and the listing selected for editing in the product form. Each handler replaces
 * the list by a new one computed with `filter`, `map` or a spread.
 */
module AdminPanel {
  import opened Wrappers
  import opened JsNumber
  import opened Seqs
  import opened Listing

  /** The number `Math.max` reads from a listing's id. */
  function IdNum(p: Product): Num
  {
    IdNumber(p.id)
  }

  /**
   * The id a new listing receives: `Math.max(...list.map((p) => p.id)) + 1`. It is an
   * integer exactly when some listing has an id other than `-Infinity`, and it is then
   * strictly above, and different from, every id in the list.
   */
  function NextId(list: seq<Product>): (id: ProductId)
    ensures id.NumId?
    ensures id.num.Int? <==> exists p :: p in list && p.id != NumId(NegInfinity)
    ensures id.num.Int? ==> forall p :: p in list ==> Less(IdNumber(p.id), id.num) && p.id != id
  {
    MapHas(list, IdNum);
    SuccMaxIsFresh(Map(list, IdNum));
    NumId(Succ(MaxOf(Map(list, IdNum))))
  }

  /** With no listings left, `Math.max()` is `-Infinity` and so is the new id. */
  lemma NextIdOfEmptyList()
    ensures NextId([]) == NumId(NegInfinity)
  {
  }

  /** `handleDeleteProduct`: `list.filter((product) => product.id !== id)`. */
  function Deleted(list: seq<Product>, id: ProductId): (r: seq<Product>)
    ensures forall p :: p in r ==> p in list && p.id != id
    ensures forall p :: p in list && p.id != id ==> p in r
    ensures IsSubsequence(r, list)
  {
    var keep := (p: Product) => p.id != id;
    FilterIsSubsequence(list, keep);
    Filter(list, keep)
  }

  /** Deleting keeps every occurrence of every other listing and none with the id. */
  lemma DeletedMultiplicity(list: seq<Product>, id: ProductId, p: Product)
    ensures multiset(Deleted(list, id))[p] == if p.id == id then 0 else multiset(list)[p]
  {
    FilterMultiplicity(list, (q: Product) => q.id != id, p);
  }

  /** `handleToggleSold`: flip `sold` on the listings with the id. */
  function ToggledSold(list: seq<Product>, id: ProductId): (r: seq<Product>)
    ensures |r| == |list|
    ensures forall i :: 0 <= i < |list| ==> SameExcept(r[i], list[i], SoldField)
    ensures forall i :: 0 <= i < |list| ==> (r[i].sold <==> (list[i].sold != (list[i].id == id)))
  {
    seq(|list|, i requires 0 <= i < |list| => if list[i].id == id then WithSold(list[i], !list[i].sold) else list[i])
  }

  /** Toggling the same id twice gives back the original list. */
  lemma {:induction false} ToggledSoldTwice(list: seq<Product>, id: ProductId)
    ensures ToggledSold(ToggledSold(list, id), id) == list
  {
    var once := ToggledSold(list, id);
    var twice := ToggledSold(once, id);
    forall i | 0 <= i < |list|
      ensures twice[i] == list[i]
    {
      assert Get(once[i], IdField) == Get(list[i], IdField);
      forall g: Field
        ensures Get(twice[i], g) == Get(list[i], g)
      {
        if g != SoldField {
          assert Get(twice[i], g) == Get(once[i], g);
        }
      }
      FieldsDetermineProduct(twice[i], list[i]);
    }
  }

  /**
   * `handleSaveProduct`'s new list: a truthy id replaces every listing with that id and
   * keeps every position's id; `null` or 0 appends the listing under the id `NextId(list)`.
   */
  function Saved(list: seq<Product>, product: Product): (r: seq<Product>)
    ensures Truthy(product.id) ==> && |r| == |list|
                                   && (forall i :: 0 <= i < |list| ==> r[i].id == list[i].id)
                                   && (forall i :: 0 <= i < |list| ==> r[i] == if list[i].id == product.id then product else list[i])
    ensures !Truthy(product.id) ==> && |r| == |list| + 1 && r[..|list|] == list
                                    && r[|list|].id == NextId(list) && SameExcept(r[|list|], product, IdField)
  {
    if Truthy(product.id) then ReplacedBy(list, IdOf, product) else list + [product.(id := NextId(list))]
  }

  /** A save under a truthy id puts the listing in the list exactly when its id was there, and adds nothing else. */
  lemma SavedExisting(list: seq<Product>, product: Product)
    requires Truthy(product.id)
    ensures product in Saved(list, product) <==> exists p :: p in list && p.id == product.id
    ensures forall q :: q in Saved(list, product) ==> q == product || q in list
  {
    ReplacedByHas(list, IdOf, product);
  }

  /**
   * Saving a listing with a falsy id (`null` or 0) appends exactly one listing, with a
   * fresh id above every existing one, provided some listing has an id other than `-Infinity`.
   */
  lemma SavedNew(list: seq<Product>, product: Product)
    requires !Truthy(product.id)
    requires exists p :: p in list && p.id != NumId(NegInfinity)
    ensures |Saved(list, product)| == |list| + 1
    ensures Saved(list, product)[..|list|] == list
    ensures var added := Saved(list, product)[|list|];
      && SameExcept(added, product, IdField)
      && added.id.NumId? && added.id.num.Int?
      && forall p :: p in list ==> Less(IdNumber(p.id), added.id.num) && p.id != added.id
  {
  }

  /**
   * The form is not reset after an insert (its `product` prop stays `null`), so saving the
   * same draft again appends a second copy of it under another id.
   */
  lemma SavedDraftTwice(list: seq<Product>, draft: Product)
    requires !Truthy(draft.id)
    requires exists p :: p in list && p.id != NumId(NegInfinity)
    ensures var twice := Saved(Saved(list, draft), draft);
      && |twice| == |list| + 2 && twice[..|list|] == list
      && SameExcept(twice[|list|], draft, IdField) && SameExcept(twice[|list| + 1], draft, IdField)
      && twice[|list|].id != twice[|list| + 1].id
  {
    var once := Saved(list, draft);
    var p :| p in list && p.id != NumId(NegInfinity);
    var i :| 0 <= i < |list| && list[i] == p;
    assert once[i] == p;
    assert once[|list|] in once;
    var twice := Saved(once, draft);
    assert twice[..|list|] == once[..|list|];
  }

  /** Two listings added after the list was emptied both get the id `-Infinity`. */
  lemma InsertsAfterEmptyingCollide(a: Product, b: Product)
    requires !Truthy(a.id) && !Truthy(b.id)
    ensures var list := Saved(Saved([], a), b);
      |list| == 2 && list[0].id == list[1].id == NumId(NegInfinity) && !UniqueBy(list, IdOf)
  {
    var one := Saved([], a);
    assert one[0].id == NumId(NegInfinity);
    assert forall p :: p in one ==> p.id == NumId(NegInfinity);
  }

  /** Deleting never makes two listings share an id. */
  lemma DeletedKeepsUniqueIds(list: seq<Product>, id: ProductId)
    requires UniqueBy(list, IdOf)
    ensures UniqueBy(Deleted(list, id), IdOf)
  {
    FilterKeepsUniqueBy(list, (p: Product) => p.id != id, IdOf);
  }

  /** Toggling `sold` leaves every id where it was. */
  lemma ToggledSoldKeepsIds(list: seq<Product>, id: ProductId)
    ensures forall i :: 0 <= i < |list| ==> ToggledSold(list, id)[i].id == list[i].id
    ensures UniqueBy(list, IdOf) ==> UniqueBy(ToggledSold(list, id), IdOf)
  {
    var r := ToggledSold(list, id);
    forall i | 0 <= i < |list| ensures r[i].id == list[i].id {
      assert Get(r[i], IdField) == Get(list[i], IdField);
    }
  }

  /**
   * Saving keeps the ids unique, except for an insert when no listing with an id other
   * than `-Infinity` is left (see InsertsAfterEmptyingCollide).
   */
  lemma SavedKeepsUniqueIds(list: seq<Product>, product: Product)
    requires UniqueBy(list, IdOf)
    requires Truthy(product.id) || exists p :: p in list && p.id != NumId(NegInfinity)
    ensures UniqueBy(Saved(list, product), IdOf)
  {
    if Truthy(product.id) {
      ReplacedByKeepsUniqueBy(list, IdOf, product);
    } else {
      var r := Saved(list, product);
      forall i, j | 0 <= i < j < |r| ensures r[i].id != r[j].id {
        assert r[i] == list[i] && r[i] in list;
      }
    }
  }

  /** The state of the admin page: `productList` and `selectedProduct`. */
  class Admin {
    var productList: seq<Product>
    var selectedProduct: Option<Product>

    /** `useState(products)` and `useState(null)`. */
    constructor ()
      ensures productList == SeedProducts && selectedProduct == None
    {
      productList := SeedProducts;
      selectedProduct := None;
    }

    /** `handleEditProduct`: hand the listing to the product form. */
    method EditProduct(product: Product)
      modifies this
      ensures selectedProduct == Some(product)
      ensures productList == old(productList)
    {
      selectedProduct := Some(product);
    }

    /** The form's cancel button: `setSelectedProduct(null)`. */
    method CancelEdit()
      modifies this
      ensures selectedProduct == None
      ensures productList == old(productList)
    {
      selectedProduct := None;
    }

    method DeleteProduct(id: ProductId)
      modifies this
      ensures productList == Deleted(old(productList), id)
      ensures selectedProduct == old(selectedProduct)
    {
      productList := Deleted(productList, id);
    }

    method ToggleSold(id: ProductId)
      modifies this
      ensures productList == ToggledSold(old(productList), id)
      ensures selectedProduct == old(selectedProduct)
    {
      productList := ToggledSold(productList, id);
    }

    /** `handleSaveProduct`: store the listing, then clear the selection. */
    method SaveProduct(product: Product)
      modifies this
      ensures productList == Saved(old(productList), product)
      ensures selectedProduct == None
    {
      productList := Saved(productList, product);
      selectedProduct := None;
    }
  }
}
