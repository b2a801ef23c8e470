# Storefront state machines, modelled in Dafny

This project models the in-memory logic of a small dealership storefront, a React/Next.js site that sells vehicles and boats. The model covers:

- the admin panel's listing store (delete, toggle sold, save-or-insert with `Math.max(...ids) + 1`);
- the product form's draft (per-field setters, an image list capped at five, removal by `splice`, the drag highlight, submit);
- the admin carousel editor (slides plus an optional editing buffer);
- the catalog's search filter (case-insensitive substring on the model, plus a category or "all");
- the wrap-around image and slide indices of the product grid and the hero carousel;
- the login dialog's mode, loading and error protocol around an abstract sign-in outcome.

Each component's state is a Dafny `class`, and its handlers are methods. Each method's postcondition ties the new state to a pure function of the old state. The list transformations (`filter`, `map`, spread) are functions, and their properties are proved as lemmas.

Files, one module each:

- `wrappers.dfy`: the `Option` type for nullable state.
- `js_number.dfy`: integer ids together with `-Infinity`, `Math.max` over a list, and `+ 1`.
- `seqs.dfy`: `filter`, `map`, replacing by key, subsequences, and unique keys.
- `listing.dfy`: the listing record, its field view, the field setters, and the sample listings.
- `admin.dfy`: `app/admin/page.tsx`.
- `product_form.dfy`: `components/product-form.tsx`.
- `carousel_manager.dfy`: `components/carousel-manager.tsx`.
- `catalog.dfy`: `app/catalogo/page.tsx`.
- `wrap_index.dfy`: the next/prev step shared by `components/product-grid.tsx` and `components/hero-carousel.tsx`.
- `product_grid.dfy`, `hero_carousel.dfy`, `login_modal.dfy`: the components of the same names.

JavaScript details that the model makes explicit:

- An id is `null` or a number.
- `Math.max()` of no ids is `-Infinity`, and `-Infinity + 1` is `-Infinity`.
- `Math.max` reads `null` as 0.
- `if (product.id)` treats `null` and `0` as "new" and treats `-Infinity` as an existing id.
- The product form's effect depends on `[product]`. After an insert the admin page sets the selection from `null` to `null`, so the effect does not run. The form therefore keeps the saved draft, and saving it again adds a second copy (`AdminPanel.SavedDraftTwice`).
- So, once the admin list is empty, every listing added gets the id `-Infinity`. Two such listings share an id (`AdminPanel.InsertsAfterEmptyingCollide`); the model keeps this behaviour as written. The carousel editor behaves the same way when its slide list is empty.

Where the design description and the code differ, the model follows the code:

- No image resizing, encoding, size limit or per-file error exists in these files. A dropped or picked file only appends a placeholder URL; the model counts files.
- Submitting the product form performs no validation. It hands the draft to `onSave` unchanged.
- There is no explicit Submitting state.
- The admin and catalog pages work on the in-file sample data, not on a document store.

## Model

| member | source | states |
|---|---|---|
| JsNumber.MaxOf | app/admin/page.tsx:101 | `Math.max(...ids)`: `-Infinity` for no ids; otherwise one of the ids, and no id is greater |
| JsNumber.SuccMaxIsFresh | app/admin/page.tsx:101 | `Math.max(...ids) + 1` is an integer exactly when some id is an integer; it is then strictly above, and different from, every id |
| JsNumber.Succ | app/admin/page.tsx:101 | `x + 1`: the result is an integer exactly when `x` is, and it is then strictly greater; `-Infinity + 1` stays `-Infinity` |
| JsNumber.Max | app/admin/page.tsx:101 | `Math.max(x, y)` is one of its arguments, neither argument exceeds it, and whatever exceeds it exceeds both |
| Listing.FieldsDetermineProduct | components/product-form.tsx:13-22 | two listings that agree on all eight fields of the record are equal |
| Listing.Truthy | app/admin/page.tsx:94 | `if (product.id)`: the falsy ids are exactly `null` and 0; `-Infinity` is truthy |
| Listing.IdNumber | app/admin/page.tsx:101 | the number `Math.max` reads from an id: `null` reads as 0, a number as itself; it is an integer unless the id is `-Infinity` |
| Listing.WithText | components/product-form.tsx:43-46 | the text setter sets the named field (model or description) to the value, and every other field keeps its value |
| Listing.WithNumber | components/product-form.tsx:48-51 | the number setter sets the named field (year or price), and every other field keeps its value |
| Listing.WithCategory | components/product-form.tsx:53-55 | the select setter sets the category, and every other field keeps its value |
| Listing.WithSold | components/product-form.tsx:57-59 | the switch setter sets `sold`, and every other field keeps its value |
| Listing.WithImages | components/product-form.tsx:86 | replacing the image list changes no other field |
| Listing.SeedIds | app/admin/page.tsx:12-69 | the four sample listings have the ids 1, 2, 3, 4 in order, so no two share an id |
| Seqs.Filter | app/admin/page.tsx:86 | `filter` keeps only input elements that pass the test, and every input element that passes the test is kept |
| Seqs.FilterIsSubsequence | app/catalogo/page.tsx:73 | the kept elements keep their relative order (they form a subsequence) |
| Seqs.FilterMultiplicity | app/admin/page.tsx:86 | each passing value keeps its number of occurrences; each failing value has none |
| Seqs.FilterKeepsAll | app/catalogo/page.tsx:73-77 | when every element passes, `filter` returns the input |
| Seqs.FilterIdempotent | app/catalogo/page.tsx:73-77 | filtering twice with the same test equals filtering once |
| Seqs.FilterKeepsUniqueBy | components/carousel-manager.tsx:55 | filtering a list with unique keys leaves the keys unique |
| Seqs.FilterSameTest | app/catalogo/page.tsx:74 | two tests that agree on every element give the same filtered list |
| Seqs.Map | app/admin/page.tsx:101 | `map` keeps the length and applies the function at every position |
| Seqs.MapHas | app/admin/page.tsx:101 | the values of `s.map(f)` are exactly the images of the elements of `s` |
| Seqs.ReplacedBy | app/admin/page.tsx:96 | `map` that replaces by key: the length and each position's key are kept; exactly the positions whose key is the new element's key hold it |
| Seqs.ReplacedByHas | components/carousel-manager.tsx:63 | the new element is in the result exactly when its key was present, and every other element of the result was already there |
| Seqs.ReplacedByKeepsUniqueBy | components/carousel-manager.tsx:63 | replacing by key keeps unique keys unique |
| Seqs.ReplacedBySelf | components/carousel-manager.tsx:61-66 | with unique keys, replacing an element by itself leaves the sequence as it was |
| AdminPanel.NextId | app/admin/page.tsx:99-102 | the new id is an integer exactly when some listing's id is not `-Infinity` (`null` counts as 0); it is then strictly above, and different from, every existing id |
| AdminPanel.NextIdOfEmptyList | app/admin/page.tsx:101 | with no listings, the new id is `-Infinity` |
| AdminPanel.Deleted | app/admin/page.tsx:85-87 | after delete(id), no listing has that id; every other listing remains; the result is a subsequence of the input |
| AdminPanel.DeletedMultiplicity | app/admin/page.tsx:86 | delete keeps every occurrence of each listing without the id and removes every listing with it |
| AdminPanel.DeletedKeepsUniqueIds | app/admin/page.tsx:86 | delete keeps ids unique |
| AdminPanel.ToggledSold | app/admin/page.tsx:89-91 | toggle keeps the length; each position changes at most `sold`; `sold` flips exactly where the id matches |
| AdminPanel.ToggledSoldTwice | app/admin/page.tsx:90 | toggling the same id twice restores the list |
| AdminPanel.ToggledSoldKeepsIds | app/admin/page.tsx:90 | toggle leaves each position's id unchanged, so unique ids stay unique |
| AdminPanel.Saved | app/admin/page.tsx:93-104 | with a truthy id: same length, same id at every position, and exactly the listings with the saved id become the saved listing; with `null` or 0: the old list followed by one listing, the saved one under the id `NextId(list)` |
| AdminPanel.SavedExisting | app/admin/page.tsx:94-96 | a save with a truthy id puts the listing in the list exactly when a listing with its id was there, and adds no other listing |
| AdminPanel.SavedNew | app/admin/page.tsx:98-103 | a save with a falsy id, on a list with an id other than `-Infinity`, appends one listing with a fresh integer id above all others |
| AdminPanel.SavedDraftTwice | app/admin/page.tsx:93-105 | saving the same draft with a falsy id twice (the form is not reset after an insert) appends two copies of it under two different ids |
| AdminPanel.InsertsAfterEmptyingCollide | app/admin/page.tsx:99-103 | two listings added to an emptied list both get the id `-Infinity`, so the ids are no longer unique |
| AdminPanel.SavedKeepsUniqueIds | app/admin/page.tsx:93-104 | save keeps ids unique when the id is truthy, or when some existing id is not `-Infinity` |
| AdminPanel.Admin.constructor | app/admin/page.tsx:73-74 | the list starts as the sample listings, with no selection |
| AdminPanel.Admin.EditProduct | app/admin/page.tsx:81-83 | edit selects the listing and leaves the list unchanged |
| AdminPanel.Admin.CancelEdit | app/admin/page.tsx:153 | cancel clears the selection and leaves the list unchanged |
| AdminPanel.Admin.DeleteProduct | app/admin/page.tsx:85-87 | the list becomes `Deleted(old list, id)`; the selection is unchanged |
| AdminPanel.Admin.ToggleSold | app/admin/page.tsx:89-91 | the list becomes `ToggledSold(old list, id)`; the selection is unchanged |
| AdminPanel.Admin.SaveProduct | app/admin/page.tsx:93-106 | the list becomes `Saved(old list, listing)`, and the selection is always cleared to `null` |
| ProductFormEditor.DefaultDraft | components/product-form.tsx:13-22 | the empty draft has a falsy (`null`) id, so saving it inserts; it has the current year, no images, and is not sold |
| ProductFormEditor.AppendPlaceholders | components/product-form.tsx:79-85 | the old images are a prefix of the result; every added entry is the placeholder; below five images the length becomes `min(5, k + n)`; at five or more, nothing changes |
| ProductFormEditor.CappedAppendBound | components/product-form.tsx:78-86 | adding never takes a list of at most five images past five; zero files change nothing; at most one image is added per file |
| ProductFormEditor.CappedAppendUnique | components/product-form.tsx:79-85 | the capped append determines the new list from the old list and the file count |
| ProductFormEditor.Splice | components/product-form.tsx:105-108 | `splice(index, 1)` removes exactly position `index` when `0 <= index < length`; it counts a negative index from the end and clamps it at 0; it changes nothing at or past the end |
| ProductFormEditor.SpliceMultiset | components/product-form.tsx:107 | removal takes out exactly one image, the one at the position |
| ProductFormEditor.SpliceLastTwice | components/product-form.tsx:107 | removing the last position twice: the second removal is a no-op |
| ProductFormEditor.ProductForm.constructor | components/product-form.tsx:13-41 | the mounted form holds the incoming listing or the default draft and remembers that prop; the drag highlight is off |
| ProductFormEditor.ProductForm.Render | components/product-form.tsx:26-41 | a render runs the effect only when the `product` prop differs from the previous one; otherwise the draft is kept as it is; the prop is remembered |
| ProductFormEditor.ProductForm.Reset | components/product-form.tsx:27-40 | the effect body loads the incoming listing; with none, the draft is id `null`, empty model and description, the current year, price 0, `automotor`, no images, not sold |
| ProductFormEditor.ProductForm.ChangeText | components/product-form.tsx:43-46 | the named text field takes the value; every other draft field, and the drag flag, are unchanged |
| ProductFormEditor.ProductForm.ChangeNumber | components/product-form.tsx:48-51 | the named number field takes the value; every other draft field is unchanged |
| ProductFormEditor.ProductForm.ChangeCategory | components/product-form.tsx:53-55 | the category takes the value; every other draft field is unchanged |
| ProductFormEditor.ProductForm.ChangeSold | components/product-form.tsx:57-59 | `sold` takes the switch value; every other draft field is unchanged |
| ProductFormEditor.ProductForm.HandleDrag | components/product-form.tsx:61-69 | `dragenter` and `dragover` turn the highlight on; `dragleave` turns it off; the draft is unchanged |
| ProductFormEditor.ProductForm.HandleDrop | components/product-form.tsx:71-88 | a drop turns the highlight off and applies the capped placeholder append to the images; no other field changes |
| ProductFormEditor.ProductForm.HandleFileInput | components/product-form.tsx:90-103 | picking files applies the capped append to the images; no other field and not the highlight change |
| ProductFormEditor.ProductForm.RemoveImage | components/product-form.tsx:105-109 | the images become `Splice(old images, index)`; no other field changes |
| ProductFormEditor.ProductForm.Submit | components/product-form.tsx:111-114 | the listing handed to `onSave` is the current draft, unchanged |
| CarouselManager.InitialSlidesUnique | components/carousel-manager.tsx:14-33 | the initial slides have the ids 1, 2, 3, so no two share an id |
| CarouselManager.NewSlide | components/carousel-manager.tsx:40-45 | the added slide has the placeholder image and the default texts; its id is an integer exactly when some slide's id is, and it is then above, and different from, every slide id |
| CarouselManager.NewSlideOfNoSlides | components/carousel-manager.tsx:41 | with no slides, the added slide's id is `-Infinity` |
| CarouselManager.WithoutSlide | components/carousel-manager.tsx:55 | delete removes every slide with the id and keeps every other slide, in order |
| CarouselManager.WithoutSlideKeeps | components/carousel-manager.tsx:55 | delete keeps each other slide's number of occurrences and keeps ids unique |
| CarouselManager.SaveUnchangedCopy | components/carousel-manager.tsx:61-66 | writing back an unedited copy of a slide (ids unique) leaves the list as it was |
| CarouselManager.SavedSlidesKeepUnique | components/carousel-manager.tsx:63 | writing the buffer back by id keeps slide ids unique |
| CarouselManager.AddKeepsUnique | components/carousel-manager.tsx:39-47 | add keeps slide ids unique when some id is an integer |
| CarouselManager.WithSlideField | components/carousel-manager.tsx:68-71 | a field change sets the title or the subtitle and leaves the other fields unchanged |
| CarouselManager.SlideEditor.constructor | components/carousel-manager.tsx:36-37 | the editor starts with the initial slides and no buffer |
| CarouselManager.SlideEditor.AddSlide | components/carousel-manager.tsx:39-48 | add appends the new slide, which also becomes the buffer |
| CarouselManager.SlideEditor.EditSlide | components/carousel-manager.tsx:50-52 | edit copies the slide into the buffer; the slides are unchanged |
| CarouselManager.SlideEditor.DeleteSlide | components/carousel-manager.tsx:54-59 | delete removes the id from the slides; it clears the buffer exactly when the buffer holds that id, and otherwise keeps it |
| CarouselManager.SlideEditor.SaveSlide | components/carousel-manager.tsx:61-66 | save replaces the slides with the buffer's id by the buffer (`ReplacedBy`) and clears the buffer; with no buffer it does nothing |
| CarouselManager.SlideEditor.ChangeField | components/carousel-manager.tsx:68-71 | a field change updates only that field of the buffer; the slides are untouched |
| CarouselManager.SlideEditor.ChangeImage | components/carousel-manager.tsx:73-79 | the buffer's image becomes the placeholder exactly when at least one file was chosen |
| CarouselManager.SlideEditor.Cancel | components/carousel-manager.tsx:163 | cancel clears the buffer; the slides are unchanged |
| Catalog.Lower | app/catalogo/page.tsx:74 | `toLowerCase` keeps the length, lowers each character, and leaves no upper-case ASCII letter |
| Catalog.LowerIdempotent | app/catalogo/page.tsx:74 | lower-casing twice equals lower-casing once |
| Catalog.ContainsAt | app/catalogo/page.tsx:74 | `includes` holds exactly when the term occurs at some position of the model |
| Catalog.Contains | app/catalogo/page.tsx:74 | `includes`: every string includes the empty term, and a term longer than the string is never included |
| Catalog.MatchesSearch | app/catalogo/page.tsx:74 | a listing matches exactly when the lowered term occurs at some position of the lowered model; the empty term matches every listing |
| Catalog.MatchesCategory | app/catalogo/page.tsx:75 | "all" admits every listing; any other choice admits exactly the listings of that category |
| Catalog.FilteredProducts | app/catalogo/page.tsx:73-77 | the result is an ordered subsequence, and each result's lowered model contains the lowered term; with a category other than "all", results have that category; the result is complete; with "all", only the search decides |
| Catalog.EmptySearchShowsAll | app/catalogo/page.tsx:70-77 | an empty term with "all" shows every listing |
| Catalog.FilterTwice | app/catalogo/page.tsx:73-77 | filtering the filtered list again changes nothing |
| Catalog.SearchIgnoresCase | app/catalogo/page.tsx:74 | searching for a term or for its lower-case form gives the same listings |
| WrapIndex.Next | components/product-grid.tsx:30 | from a valid index, next stays in `[0, len)` and equals `(i + 1) mod len`; the last index wraps to 0 |
| WrapIndex.Prev | components/product-grid.tsx:35 | from a valid index, prev stays in `[0, len)` and equals `(i - 1) mod len`; 0 wraps to `len - 1` |
| WrapIndex.PrevUndoesNext | components/product-grid.tsx:28-36 | prev after next, and next after prev, return the original index |
| WrapIndex.NextTimesShifts | components/hero-carousel.tsx:34-36 | up to one full round, k nexts from i give `i + k`, wrapped once past the end |
| WrapIndex.FullCycle | components/hero-carousel.tsx:34-36 | `len` nexts return to the starting index |
| WrapIndex.EmptyListEscapes | components/product-grid.tsx:28-36 | with no images, next from 0 gives 1 and prev gives -1 (out of range) |
| ProductGrid.ImageViewer.constructor | components/product-grid.tsx:26 | a card or details dialog starts at image 0 |
| ProductGrid.ImageViewer.NextImage | components/product-grid.tsx:28-31 | next image (card, and the dialog at lines 98-100) is the wrap-around step; it keeps the index in range; the last image wraps to 0 |
| ProductGrid.ImageViewer.PrevImage | components/product-grid.tsx:33-36 | previous image (card, and the dialog at lines 102-104) is the wrap-around step; 0 wraps to the last image |
| ProductGrid.ImageViewer.SelectImage | components/product-grid.tsx:141-148 | clicking dot i sets the index to exactly i |
| ProductGrid.Grid.constructor | components/product-grid.tsx:10 | no listing selected; the details dialog is closed |
| ProductGrid.Grid.ViewDetails | components/product-grid.tsx:16 | viewing details selects the listing, and the dialog is shown |
| ProductGrid.Grid.CloseDetails | components/product-grid.tsx:20 | closing resets the selection to `null`, and the dialog is not shown |
| HeroCarousel.Step | components/hero-carousel.tsx:34-40 | one control: a dot shows its own slide, and from a valid slide no control leaves the three slides |
| HeroCarousel.Run | components/hero-carousel.tsx:34-40 | a sequence of controls: none leaves the slide as it is; when the last control is a dot, that dot's slide is shown |
| HeroCarousel.RunStaysInRange | components/hero-carousel.tsx:34-40 | under any sequence of next, prev and dot clicks, the slide index stays in `[0, 3)` |
| HeroCarousel.StepsWrap | components/hero-carousel.tsx:35-39 | next wraps from 2 to 0, and prev wraps from 0 to 2 |
| HeroCarousel.ThreeNextsReturn | components/hero-carousel.tsx:34-36 | three nexts return to the starting slide |
| HeroCarousel.PrevNextCancel | components/hero-carousel.tsx:34-40 | prev then next, and next then prev, are the identity |
| HeroCarousel.Carousel.constructor | components/hero-carousel.tsx:32 | the carousel starts at slide 0 |
| HeroCarousel.Carousel.Next | components/hero-carousel.tsx:34-36 | next slide is the wrap-around step; the invariant holds |
| HeroCarousel.Carousel.Prev | components/hero-carousel.tsx:38-40 | previous slide is the wrap-around step; the invariant holds |
| HeroCarousel.Carousel.GoTo | components/hero-carousel.tsx:103-110 | indicator i shows slide i |
| LoginModal.FirebaseError | components/LoginModal.tsx:65-84 | every code maps to a non-empty message |
| LoginModal.FirebaseErrorTable | components/LoginModal.tsx:66-83 | each of the seven codes maps to its own message; every other code maps to the default message |
| LoginModal.FirebaseErrorDistinguishes | components/LoginModal.tsx:66-83 | a known code never gets the default message, and no two codes share a message |
| LoginModal.ToggleAuthMode | components/LoginModal.tsx:60-63 | toggle flips `isLogin`, sets `error` to empty, and leaves `loading` unchanged |
| LoginModal.ToggleTwice | components/LoginModal.tsx:61 | toggling twice restores the mode |
| LoginModal.BeginSubmit | components/LoginModal.tsx:26-39 | before the call, `loading` is true and the error is empty; login mode calls sign-in and register mode calls create-account |
| LoginModal.BeginGoogleSignIn | components/LoginModal.tsx:48-51 | the Google flow turns loading on, keeps the mode and the earlier error, and calls the popup sign-in |
| LoginModal.Settle | components/LoginModal.tsx:40-45 | after the call, `loading` is false; on failure the error is the code's message; on success the error is unchanged and the dialog asks to close |
| LoginModal.SubmitProtocol | components/LoginModal.tsx:26-46 | a whole submit: loading with no error during the call; afterwards not loading, with an empty error and a close on success, or the code's message on failure |
| LoginModal.Dialog.constructor | components/LoginModal.tsx:22-24 | the dialog starts with `isLogin` true, `loading` false, and an empty error |
| LoginModal.Dialog.ToggleMode | components/LoginModal.tsx:60-63 | the fields change as `ToggleAuthMode` says |
| LoginModal.Dialog.StartSubmit | components/LoginModal.tsx:26-39 | the fields and the call made are as `BeginSubmit` says |
| LoginModal.Dialog.StartGoogleSignIn | components/LoginModal.tsx:48-51 | the fields and the call made are as `BeginGoogleSignIn` says |
| LoginModal.Dialog.Finish | components/LoginModal.tsx:40-45 | the fields and the close request are as `Settle` says (the Google handler's lines 52-57 are the same) |

## Left out

- Authentication and storage: the Firebase setup, the auth hook, the login page and the admin layout. A sign-in call is an abstract outcome, success or an error code.
- The e-mail, password and name inputs of the login dialog. They only feed the sign-in call.
- The admin page's `isLoggedIn` flag and `handleLogin`. The login gate that would read them is commented out.
- The hero carousel's `setInterval` auto-advance and other timers and observers. These are asynchronous UI effects; a timer tick does the same as `Next`.
- Rendering: markup, CSS, `next/image`, and `toLocaleString` price formatting. The imported slide photos appear as their asset paths.
- Catalog.LowerChar: lower-cases ASCII letters only, because `toLowerCase` follows Unicode case mapping, which is not modelled.
- ProductFormEditor.ProductForm.ChangeNumber: receives the number that `Number(value)` produced. NaN and fractional values are not modelled, because the text-to-number conversion is floating point.
- JsNumber.Num: covers integers and `-Infinity` only. NaN and fractional ids never arise from the handlers.
- File contents: a drop or a pick is the number of files. These handlers read nothing else.
- Browser checks on the inputs (`min`, `max`, `required`). The handlers do not check them.
- ProductGrid.ImageViewer: fixes the image count when the viewer is created, while the source reads `product.images.length` again on each click. A listing's images do not change while its card or dialog is shown.
- CarouselManager.SlideEditor.ChangeField and ChangeImage: require a buffer. Their inputs are rendered only while a slide is being edited.
- ProductFormEditor.ProductForm.Render: compares the previous and the new prop by value, where React compares them by reference (`Object.is`). The two differ only for distinct listing objects with equal contents.
- ProductGrid.ImageViewer.SelectImage and HeroCarousel.Carousel.GoTo: require an index in range. One dot is rendered per image or slide.
