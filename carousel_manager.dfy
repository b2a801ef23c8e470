/**
 * The admin carousel editor: the list of homepage slides and an optional copy of
 * one slide being edited. Slides live only in memory; nothing here is stored.
 */
module CarouselManager {
  import opened Wrappers
  import opened JsNumber
  import opened Seqs

  /** A slide; `image` is an asset path or a placeholder URL. */
  datatype Slide = Slide(id: Num, image: string, title: string, subtitle: string)

  const NewSlideImage := "/placeholder.svg?height=600&width=1600"

  /** `initialSlides`; the two imported boat photos stand as their asset paths. */
  const InitialSlides: seq<Slide> := [
    Slide(Int(1), "styles/lancha1.jpg", "Vende o compra tu próximo vehículo", "La mejor selección de autos y embarcaciones"),
    Slide(Int(2), "styles/lancha2.jpg", "Embarcaciones de lujo", "Descubre nuestra colección exclusiva"),
    Slide(Int(3), "styles/lancha1.jpg", "Vehículos premium", "Calidad y confort garantizados")
  ]

  /** The key the editor compares slides by. */
  function SlideId(s: Slide): Num
  {
    s.id
  }

  lemma InitialSlidesUnique()
    ensures UniqueBy(InitialSlides, SlideId)
    ensures forall i :: 0 <= i < |InitialSlides| ==> InitialSlides[i].id == Int(i + 1)
  {
  }

  /**
   * The slide `handleAddSlide` creates, with id `Math.max(...slides.map((s) => s.id)) + 1`.
   * The id is an integer exactly when some slide's id is, and it is then above, and
   * different from, every slide id.
   */
  function NewSlide(slides: seq<Slide>): (s: Slide)
    ensures s.id.Int? <==> exists t :: t in slides && t.id.Int?
    ensures s.id.Int? ==> forall t :: t in slides ==> Less(t.id, s.id) && t.id != s.id
    ensures s.image == NewSlideImage && s.title == "Nuevo slide" && s.subtitle == "Descripción del nuevo slide"
  {
    MapHas(slides, SlideId);
    SuccMaxIsFresh(Map(slides, SlideId));
    Slide(Succ(MaxOf(Map(slides, SlideId))), NewSlideImage, "Nuevo slide", "Descripción del nuevo slide")
  }

  /** With no slides, the added slide gets the id `-Infinity`. */
  lemma NewSlideOfNoSlides()
    ensures NewSlide([]).id == NegInfinity
  {
  }

  /** `slides.filter((slide) => slide.id !== id)`. */
  function WithoutSlide(slides: seq<Slide>, id: Num): (r: seq<Slide>)
    ensures forall s :: s in r ==> s in slides && s.id != id
    ensures forall s :: s in slides && s.id != id ==> s in r
    ensures IsSubsequence(r, slides)
  {
    var keep := (s: Slide) => s.id != id;
    FilterIsSubsequence(slides, keep);
    Filter(slides, keep)
  }

  /** Deleting keeps every occurrence of the other slides, and the ids unique. */
  lemma WithoutSlideKeeps(slides: seq<Slide>, id: Num, s: Slide)
    ensures multiset(WithoutSlide(slides, id))[s] == if s.id == id then 0 else multiset(slides)[s]
    ensures UniqueBy(slides, SlideId) ==> UniqueBy(WithoutSlide(slides, id), SlideId)
  {
    var keep := (t: Slide) => t.id != id;
    FilterMultiplicity(slides, keep, s);
    if UniqueBy(slides, SlideId) {
      FilterKeepsUniqueBy(slides, keep, SlideId);
    }
  }

  /** Saving an unchanged copy of a slide of a uniquely keyed list changes nothing. */
  lemma SaveUnchangedCopy(slides: seq<Slide>, s: Slide)
    requires UniqueBy(slides, SlideId) && s in slides
    ensures ReplacedBy(slides, SlideId, s) == slides
  {
    ReplacedBySelf(slides, SlideId, s);
  }

  /** Saving keeps the ids where they were, so it keeps them unique. */
  lemma SavedSlidesKeepUnique(slides: seq<Slide>, edited: Slide)
    requires UniqueBy(slides, SlideId)
    ensures UniqueBy(ReplacedBy(slides, SlideId, edited), SlideId)
  {
    ReplacedByKeepsUniqueBy(slides, SlideId, edited);
  }

  /** Adding to a list with an integer id keeps the ids unique. */
  lemma AddKeepsUnique(slides: seq<Slide>)
    requires UniqueBy(slides, SlideId)
    requires exists s :: s in slides && s.id.Int?
    ensures UniqueBy(slides + [NewSlide(slides)], SlideId)
  {
    var r := slides + [NewSlide(slides)];
    forall i, j | 0 <= i < j < |r| ensures r[i].id != r[j].id {
      if j == |slides| {
        assert r[i] in slides;
      }
    }
  }

  /** The two text inputs of the slide editor. */
  datatype SlideField = Title | Subtitle

  /** `{ ...prev, [name]: value }` for the title or subtitle. */
  function WithSlideField(s: Slide, f: SlideField, value: string): (r: Slide)
    ensures f == Title ==> r.title == value && r.subtitle == s.subtitle
    ensures f == Subtitle ==> r.subtitle == value && r.title == s.title
    ensures r.id == s.id && r.image == s.image
  {
    match f
    case Title => s.(title := value)
    case Subtitle => s.(subtitle := value)
  }

  /** The state of the carousel editor: `slides` and `editingSlide`. */
  class SlideEditor {
    var slides: seq<Slide>
    var editingSlide: Option<Slide>

    constructor ()
      ensures slides == InitialSlides && editingSlide == None
    {
      slides := InitialSlides;
      editingSlide := None;
    }

    /** `handleAddSlide`: append a fresh slide and start editing it. */
    method AddSlide()
      modifies this
      ensures slides == old(slides) + [NewSlide(old(slides))]
      ensures editingSlide == Some(NewSlide(old(slides)))
    {
      var s := NewSlide(slides);
      slides := slides + [s];
      editingSlide := Some(s);
    }

    /** `handleEditSlide`: copy the slide into the buffer. */
    method EditSlide(slide: Slide)
      modifies this
      ensures editingSlide == Some(slide)
      ensures slides == old(slides)
    {
      editingSlide := Some(slide);
    }

    /** `handleDeleteSlide`: drop the slides with the id, and the buffer if it holds that id. */
    method DeleteSlide(id: Num)
      modifies this
      ensures slides == WithoutSlide(old(slides), id)
      ensures editingSlide == if old(editingSlide).Some? && old(editingSlide).value.id == id then None else old(editingSlide)
    {
      slides := WithoutSlide(slides, id);
      if editingSlide.Some? && editingSlide.value.id == id {
        editingSlide := None;
      }
    }

    /** `handleSaveSlide`: write the buffer back by id and close it; without a buffer nothing happens. */
    method SaveSlide()
      modifies this
      ensures old(editingSlide).None? ==> slides == old(slides)
      ensures old(editingSlide).Some? ==> slides == ReplacedBy(old(slides), SlideId, old(editingSlide).value)
      ensures editingSlide == None
    {
      if editingSlide.Some? {
        slides := ReplacedBy(slides, SlideId, editingSlide.value);
        editingSlide := None;
      }
    }

    /** `handleChange` on the title or subtitle input, shown only while a slide is edited. */
    method ChangeField(f: SlideField, value: string)
      requires editingSlide.Some?
      modifies this
      ensures editingSlide == Some(WithSlideField(old(editingSlide).value, f, value))
      ensures slides == old(slides)
    {
      editingSlide := Some(WithSlideField(editingSlide.value, f, value));
    }

    /** `handleFileChange` with `fileCount` chosen files: any file swaps in the placeholder image. */
    method ChangeImage(fileCount: nat)
      requires editingSlide.Some?
      modifies this
      ensures editingSlide == if fileCount > 0 then Some(old(editingSlide).value.(image := NewSlideImage)) else old(editingSlide)
      ensures slides == old(slides)
    {
      if fileCount > 0 {
        editingSlide := Some(editingSlide.value.(image := NewSlideImage));
      }
    }

    /** The cancel button: `setEditingSlide(null)`. */
    method Cancel()
      modifies this
      ensures editingSlide == None
      ensures slides == old(slides)
    {
      editingSlide := None;
    }
  }
}
