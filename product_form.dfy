/**
 * The product form: a draft listing edited field by field, an image list capped at
 * five entries (new files only add placeholder URLs), and the drag-highlight flag.
 */
module ProductFormEditor {
  import opened Wrappers
  import opened Listing

  const MaxImages := 5

  /** What a dropped or picked file is turned into. */
  const Placeholder := "/placeholder.svg?height=300&width=500"

  function Min(a: int, b: int): int
  {
    if a <= b then a else b
  }

  /**
   * The empty draft of a new listing; `currentYear` is `new Date().getFullYear()`. Its id
   * is `null`, which is falsy, so saving the draft inserts it.
   */
  function DefaultDraft(currentYear: int): (d: Product)
    ensures !Truthy(d.id)
    ensures d.year == currentYear && d.images == [] && !d.sold
  {
    Product(NullId, "", currentYear, 0, "automotor", [], "", false)
  }

  /**
   * `after` is `before` followed by one placeholder per selected file, as far as the
   * cap of five allows; a list already holding five or more images stays as it is.
   */
  predicate IsCappedAppend(before: seq<string>, after: seq<string>, fileCount: nat)
  {
    && |before| <= |after|
    && after[..|before|] == before
    && (forall k :: |before| <= k < |after| ==> after[k] == Placeholder)
    && (|before| >= MaxImages ==> after == before)
    && (|before| < MaxImages ==> |after| == Min(MaxImages, |before| + fileCount))
  }

  /**
   * The loop of `handleDrop` and `handleFileInput`: copy the images, then push a
   * placeholder for each file while fewer than five are held.
   */
  method AppendPlaceholders(images: seq<string>, fileCount: nat) returns (newImages: seq<string>)
    ensures IsCappedAppend(images, newImages, fileCount)
  {
    newImages := images;
    for i := 0 to fileCount
      invariant |images| <= |newImages|
      invariant newImages[..|images|] == images
      invariant forall k :: |images| <= k < |newImages| ==> newImages[k] == Placeholder
      invariant |images| >= MaxImages ==> newImages == images
      invariant |images| < MaxImages ==> |newImages| == Min(MaxImages, |images| + i)
    {
      if |newImages| < MaxImages {
        newImages := newImages + [Placeholder];
      }
    }
  }

  /** The cap holds after adding: a list of at most five images never grows past five. */
  lemma CappedAppendBound(before: seq<string>, after: seq<string>, fileCount: nat)
    requires IsCappedAppend(before, after, fileCount)
    ensures |before| <= MaxImages ==> |after| <= MaxImages
    ensures fileCount == 0 ==> after == before
    ensures |after| - |before| <= fileCount
  {
    if fileCount == 0 && |before| < MaxImages {
      assert after == after[..|before|];
    }
  }

  /** The capped append is a function of the old list and the number of files. */
  lemma CappedAppendUnique(before: seq<string>, a: seq<string>, b: seq<string>, fileCount: nat)
    requires IsCappedAppend(before, a, fileCount) && IsCappedAppend(before, b, fileCount)
    ensures a == b
  {
    assert |a| == |b|;
    forall k | 0 <= k < |a| ensures a[k] == b[k] {
      if k < |before| {
        assert a[k] == a[..|before|][k] && b[k] == b[..|before|][k];
      }
    }
  }

  /** `r` is `s` with the element at position `k` taken out. */
  predicate RemovedAt(s: seq<string>, r: seq<string>, k: int)
  {
    0 <= k < |s| && |r| == |s| - 1 && forall j :: 0 <= j < |r| ==> r[j] == if j < k then s[j] else s[j + 1]
  }

  /**
   * `removeImage`: a copy of the images on which `splice(index, 1)` ran. A negative
   * index counts from the end, an index at or past the end removes nothing.
   */
  function Splice(s: seq<string>, index: int): (r: seq<string>)
    ensures 0 <= index < |s| ==> RemovedAt(s, r, index)
    ensures index >= |s| ==> r == s
    ensures -|s| <= index < 0 ==> RemovedAt(s, r, |s| + index)
    ensures index < -|s| && s != [] ==> RemovedAt(s, r, 0)
    ensures s == [] ==> r == []
  {
    var start := if index < 0 then (if |s| + index < 0 then 0 else |s| + index) else index;
    if start < |s| then s[..start] + s[start + 1..] else s
  }

  /** Removing a position takes out exactly that one image. */
  lemma SpliceMultiset(s: seq<string>, index: int)
    requires 0 <= index < |s|
    ensures multiset(Splice(s, index)) + multiset{s[index]} == multiset(s)
  {
    assert s == s[..index] + [s[index]] + s[index + 1..];
    assert Splice(s, index) == s[..index] + s[index + 1..];
  }

  /** Removing the last image twice: the second removal finds the position past the end. */
  lemma SpliceLastTwice(s: seq<string>)
    requires s != []
    ensures Splice(Splice(s, |s| - 1), |s| - 1) == Splice(s, |s| - 1) == s[..|s| - 1]
  {
  }

  /** The drag events the drop zone listens to with `handleDrag`. */
  datatype DragEvent = DragEnter | DragOver | DragLeave

  /** The state of the product form: `formData`, `dragActive`, and the `product` prop last rendered with. */
  class ProductForm {
    var formData: Product
    var dragActive: bool
    /** What the effect on `[product]` compares the next prop with. */
    var lastProduct: Option<Product>

    /** The form as mounted: the default draft, replaced at once by the effect on `product`. */
    constructor (product: Option<Product>, currentYear: int)
      ensures formData == if product.Some? then product.value else DefaultDraft(currentYear)
      ensures !dragActive && lastProduct == product
    {
      formData := if product.Some? then product.value else DefaultDraft(currentYear);
      dragActive := false;
      lastProduct := product;
    }

    /**
     * A render with the `product` prop: the effect runs only when the prop differs from
     * the one of the previous render; otherwise the draft stays as it is.
     */
    method Render(product: Option<Product>, currentYear: int)
      modifies this
      ensures product != old(lastProduct) ==> formData == if product.Some? then product.value else DefaultDraft(currentYear)
      ensures product == old(lastProduct) ==> formData == old(formData)
      ensures lastProduct == product && dragActive == old(dragActive)
    {
      if product != lastProduct {
        Reset(product, currentYear);
      }
      lastProduct := product;
    }

    /** The effect on `product`: load the given listing, or reset to the empty draft. */
    method Reset(product: Option<Product>, currentYear: int)
      modifies this
      ensures product.Some? ==> formData == product.value
      ensures product.None? ==> && formData.id == NullId && formData.model == "" && formData.year == currentYear
                                && formData.price == 0 && formData.category == "automotor" && formData.images == []
                                && formData.description == "" && !formData.sold
      ensures formData == if product.Some? then product.value else DefaultDraft(currentYear)
      ensures dragActive == old(dragActive) && lastProduct == old(lastProduct)
    {
      formData := if product.Some? then product.value else DefaultDraft(currentYear);
    }

    /** `handleChange` on the model or description input. */
    method ChangeText(f: TextField, value: string)
      modifies this
      ensures lastProduct == old(lastProduct)
      ensures Get(formData, TextFieldName(f)) == Text(value)
      ensures SameExcept(formData, old(formData), TextFieldName(f))
      ensures dragActive == old(dragActive)
    {
      formData := WithText(formData, f, value);
    }

    /** `handleNumberChange` on the year or price input, given `Number(value)`. */
    method ChangeNumber(f: NumberField, value: int)
      modifies this
      ensures lastProduct == old(lastProduct)
      ensures Get(formData, NumberFieldName(f)) == Number(value)
      ensures SameExcept(formData, old(formData), NumberFieldName(f))
      ensures dragActive == old(dragActive)
    {
      formData := WithNumber(formData, f, value);
    }

    /** `handleSelectChange("category", value)`. */
    method ChangeCategory(value: string)
      modifies this
      ensures lastProduct == old(lastProduct)
      ensures formData.category == value
      ensures SameExcept(formData, old(formData), CategoryField)
      ensures dragActive == old(dragActive)
    {
      formData := WithCategory(formData, value);
    }

    /** `handleSwitchChange("sold", checked)`. */
    method ChangeSold(checked: bool)
      modifies this
      ensures lastProduct == old(lastProduct)
      ensures formData.sold == checked
      ensures SameExcept(formData, old(formData), SoldField)
      ensures dragActive == old(dragActive)
    {
      formData := WithSold(formData, checked);
    }

    /** `handleDrag`: entering or moving over the zone highlights it, leaving clears it. */
    method HandleDrag(event: DragEvent)
      modifies this
      ensures lastProduct == old(lastProduct)
      ensures dragActive <==> event == DragEnter || event == DragOver
      ensures formData == old(formData)
    {
      if event == DragEnter || event == DragOver {
        dragActive := true;
      } else if event == DragLeave {
        dragActive := false;
      }
    }

    /** `handleDrop` with `fileCount` dropped files (0 when there are none). */
    method HandleDrop(fileCount: nat)
      modifies this
      ensures lastProduct == old(lastProduct)
      ensures !dragActive
      ensures IsCappedAppend(old(formData.images), formData.images, fileCount)
      ensures SameExcept(formData, old(formData), ImagesField)
    {
      dragActive := false;
      if fileCount > 0 {
        var newImages := AppendPlaceholders(formData.images, fileCount);
        formData := WithImages(formData, newImages);
      }
    }

    /** `handleFileInput` with `fileCount` picked files (0 when there are none). */
    method HandleFileInput(fileCount: nat)
      modifies this
      ensures lastProduct == old(lastProduct)
      ensures IsCappedAppend(old(formData.images), formData.images, fileCount)
      ensures SameExcept(formData, old(formData), ImagesField)
      ensures dragActive == old(dragActive)
    {
      if fileCount > 0 {
        var newImages := AppendPlaceholders(formData.images, fileCount);
        formData := WithImages(formData, newImages);
      }
    }

    /** `removeImage(index)`. */
    method RemoveImage(index: int)
      modifies this
      ensures lastProduct == old(lastProduct)
      ensures formData.images == Splice(old(formData.images), index)
      ensures SameExcept(formData, old(formData), ImagesField)
      ensures dragActive == old(dragActive)
    {
      formData := WithImages(formData, Splice(formData.images, index));
    }

    /** `handleSubmit`: the draft handed to `onSave`, exactly as it stands. */
    method Submit() returns (saved: Product)
      ensures saved == formData
    {
      saved := formData;
    }
  }
}
