/**
 * The catalog grid: each card and the details dialog step through a listing's images,
 * and the grid remembers which listing's details dialog is open.
 */
module ProductGrid {
  import opened Wrappers
  import opened Listing
  import WrapIndex

  /** `currentImage` of a `ProductCard` or a `ProductDetailsModal`, over the listing's images. */
  class ImageViewer {
    const imageCount: int
    var currentImage: int

    /** Mounting a card or the dialog starts at the first image. */
    constructor (images: seq<string>)
      ensures imageCount == |images| && currentImage == 0
    {
      imageCount := |images|;
      currentImage := 0;
    }

    /** The shown position is one of the images. */
    predicate InRange()
      reads this
    {
      0 <= currentImage < imageCount
    }

    /** `nextImage`. */
    method NextImage()
      modifies this
      ensures currentImage == WrapIndex.Next(old(currentImage), imageCount)
      ensures old(InRange()) ==> InRange()
      ensures old(currentImage) == imageCount - 1 ==> currentImage == 0
    {
      currentImage := WrapIndex.Next(currentImage, imageCount);
    }

    /** `prevImage`. */
    method PrevImage()
      modifies this
      ensures currentImage == WrapIndex.Prev(old(currentImage), imageCount)
      ensures old(InRange()) ==> InRange()
      ensures old(currentImage) == 0 ==> currentImage == imageCount - 1
    {
      currentImage := WrapIndex.Prev(currentImage, imageCount);
    }

    /** A dot of the details dialog: `setCurrentImage(index)`; there is one dot per image. */
    method SelectImage(index: int)
      requires 0 <= index < imageCount
      modifies this
      ensures currentImage == index && InRange()
    {
      currentImage := index;
    }
  }

  /** `selectedProduct` of `ProductGrid`: the listing whose details dialog is open. */
  class Grid {
    var selectedProduct: Option<Product>

    constructor ()
      ensures selectedProduct == None && !DetailsOpen()
    {
      selectedProduct := None;
    }

    /** The dialog is rendered exactly when a listing is selected. */
    predicate DetailsOpen()
      reads this
    {
      selectedProduct.Some?
    }

    /** A card's "Ver detalles" button. */
    method ViewDetails(product: Product)
      modifies this
      ensures selectedProduct == Some(product) && DetailsOpen()
    {
      selectedProduct := Some(product);
    }

    /** The dialog's `onClose`. */
    method CloseDetails()
      modifies this
      ensures selectedProduct == None && !DetailsOpen()
    {
      selectedProduct := None;
    }
  }
}
