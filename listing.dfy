/**
 * A product listing (a vehicle or a boat) as the admin panel, the product form and
 * the catalog share it: one record type, the same field names, the same sample data.
 */
module Listing {
  import opened JsNumber
  import opened Seqs

  /** A listing's `id`: `null` for a draft that was never saved, otherwise a number. */
  datatype ProductId = NullId | NumId(num: Num)

  datatype Product = Product(
    id: ProductId,
    model: string,
    year: int,
    price: int,
    category: string,
    images: seq<string>,
    description: string,
    sold: bool)

  /** JavaScript truthiness of an id, as `if (product.id)` reads it: `null` and `0` are false. */
  predicate Truthy(id: ProductId): (t: bool)
    ensures !t <==> id == NullId || id == NumId(Int(0))
    ensures id == NumId(NegInfinity) ==> t
  {
    id.NumId? && id.num != Int(0)
  }

  /** The number `Math.max` sees for an id: `null` converts to 0. */
  function IdNumber(id: ProductId): (n: Num)
    ensures id == NullId ==> n == Int(0)
    ensures id.NumId? ==> n == id.num
    ensures n.Int? <==> id != NumId(NegInfinity)
  {
    match id
    case NullId => Int(0)
    case NumId(x) => x
  }

  /** The field names of a listing, and a uniform view of the field values. */
  datatype Field = IdField | ModelField | YearField | PriceField | CategoryField | ImagesField | DescriptionField | SoldField

  datatype Value = IdValue(id: ProductId) | Text(text: string) | Number(number: int) | Strings(strings: seq<string>) | Flag(flag: bool)

  function Get(p: Product, f: Field): Value
  {
    match f
    case IdField => IdValue(p.id)
    case ModelField => Text(p.model)
    case YearField => Number(p.year)
    case PriceField => Number(p.price)
    case CategoryField => Text(p.category)
    case ImagesField => Strings(p.images)
    case DescriptionField => Text(p.description)
    case SoldField => Flag(p.sold)
  }

  /** `p` and `q` agree on every field except possibly `f`. */
  predicate SameExcept(p: Product, q: Product, f: Field)
  {
    forall g: Field :: g != f ==> Get(p, g) == Get(q, g)
  }

  /** Two listings that agree on every field are the same listing. */
  lemma {:induction false} FieldsDetermineProduct(p: Product, q: Product)
    requires forall g: Field :: Get(p, g) == Get(q, g)
    ensures p == q
  {
    assert Get(p, IdField) == Get(q, IdField);
    assert Get(p, ModelField) == Get(q, ModelField);
    assert Get(p, YearField) == Get(q, YearField);
    assert Get(p, PriceField) == Get(q, PriceField);
    assert Get(p, CategoryField) == Get(q, CategoryField);
    assert Get(p, ImagesField) == Get(q, ImagesField);
    assert Get(p, DescriptionField) == Get(q, DescriptionField);
    assert Get(p, SoldField) == Get(q, SoldField);
  }

  /** The fields that text inputs edit, the fields that number inputs edit. */
  datatype TextField = Model | Description
  datatype NumberField = Year | Price

  function TextFieldName(f: TextField): Field
  {
    match f
    case Model => ModelField
    case Description => DescriptionField
  }

  function NumberFieldName(f: NumberField): Field
  {
    match f
    case Year => YearField
    case Price => PriceField
  }

  /** `{ ...p, [name]: value }` for a text field. */
  function WithText(p: Product, f: TextField, value: string): (r: Product)
    ensures Get(r, TextFieldName(f)) == Text(value)
    ensures SameExcept(r, p, TextFieldName(f))
  {
    match f
    case Model => p.(model := value)
    case Description => p.(description := value)
  }

  /** `{ ...p, [name]: Number(value) }` for a number field, given the converted number. */
  function WithNumber(p: Product, f: NumberField, value: int): (r: Product)
    ensures Get(r, NumberFieldName(f)) == Number(value)
    ensures SameExcept(r, p, NumberFieldName(f))
  {
    match f
    case Year => p.(year := value)
    case Price => p.(price := value)
  }

  /** `{ ...p, category: value }`. */
  function WithCategory(p: Product, value: string): (r: Product)
    ensures Get(r, CategoryField) == Text(value)
    ensures SameExcept(r, p, CategoryField)
  {
    p.(category := value)
  }

  /** `{ ...p, sold: value }`. */
  function WithSold(p: Product, value: bool): (r: Product)
    ensures Get(r, SoldField) == Flag(value)
    ensures SameExcept(r, p, SoldField)
  {
    p.(sold := value)
  }

  /** `{ ...p, images: value }`. */
  function WithImages(p: Product, value: seq<string>): (r: Product)
    ensures Get(r, ImagesField) == Strings(value)
    ensures SameExcept(r, p, ImagesField)
  {
    p.(images := value)
  }

  const SampleImage := "/placeholder.svg?height=300&width=500"

  /** The four sample listings that the admin panel and the catalog start from. */
  const SeedProducts: seq<Product> := [
    Product(NumId(Int(1)), "Yacht 320", 2022, 320000, "nautica",
            [SampleImage, SampleImage, SampleImage],
            "Lujoso yate con 3 camarotes, cocina completa y sala de estar.", false),
    Product(NumId(Int(2)), "SUV Premium", 2023, 45000, "automotor",
            [SampleImage, SampleImage, SampleImage],
            "SUV de lujo con interior en cuero, techo panorámico y sistema de navegación avanzado.", true),
    Product(NumId(Int(3)), "Lancha Deportiva", 2021, 85000, "nautica",
            [SampleImage, SampleImage, SampleImage],
            "Lancha deportiva con motor de alta potencia, ideal para deportes acuáticos.", false),
    Product(NumId(Int(4)), "Sedan Ejecutivo", 2022, 38000, "automotor",
            [SampleImage, SampleImage, SampleImage],
            "Sedan ejecutivo con acabados de lujo y tecnología de punta.", false)
  ]

  /** The key the stores compare listings by. */
  function IdOf(p: Product): ProductId
  {
    p.id
  }

  /** The sample listings have the ids 1, 2, 3 and 4, in that order. */
  lemma SeedIds()
    ensures |SeedProducts| == 4
    ensures forall i :: 0 <= i < 4 ==> SeedProducts[i].id == NumId(Int(i + 1))
    ensures UniqueBy(SeedProducts, IdOf)
  {
  }
}
