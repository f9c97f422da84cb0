/** The scraped book record (`BookItem`) and the values its fields can hold. */
module Items {
  import opened Text

  /** What a field of an item holds: nothing (`None`, or never assigned, which
      `ItemAdapter.get` reports as `None`), text from an XPath selector, or a number a
      pipeline stored. */
  datatype FieldValue = Absent | Str(s: string) | Float(f: FloatValue) | Int(n: int)

  /** The ten declared fields of a book, in declaration order. */
  datatype Column =
    | Title | Image | Description | Upc | ProductType
    | Price | PriceTax | Tax | Availability | NumberOfReviews

  /** A snapshot of every field of a `BookItem`. */
  datatype Book = Book(
    title: FieldValue, image: FieldValue, description: FieldValue, upc: FieldValue,
    productType: FieldValue, price: FieldValue, priceTax: FieldValue, tax: FieldValue,
    availability: FieldValue, numberOfReviews: FieldValue)

  /** A freshly constructed item: no field assigned yet. */
  const EmptyBook := Book(Absent, Absent, Absent, Absent, Absent, Absent, Absent, Absent, Absent, Absent)

  /** `adapter.get(col)`. */
  function Get(b: Book, col: Column): FieldValue {
    match col
    case Title => b.title
    case Image => b.image
    case Description => b.description
    case Upc => b.upc
    case ProductType => b.productType
    case Price => b.price
    case PriceTax => b.priceTax
    case Tax => b.tax
    case Availability => b.availability
    case NumberOfReviews => b.numberOfReviews
  }

  /** `adapter[col] = v`: that field becomes `v`, every other field is kept. */
  function Set(b: Book, col: Column, v: FieldValue): (r: Book)
    ensures Get(r, col) == v
    ensures forall other :: other != col ==> Get(r, other) == Get(b, other)
  {
    match col
    case Title => b.(title := v)
    case Image => b.(image := v)
    case Description => b.(description := v)
    case Upc => b.(upc := v)
    case ProductType => b.(productType := v)
    case Price => b.(price := v)
    case PriceTax => b.(priceTax := v)
    case Tax => b.(tax := v)
    case Availability => b.(availability := v)
    case NumberOfReviews => b.(numberOfReviews := v)
  }

  /** Two books with equal fields are equal. */
  lemma BookByFields(a: Book, b: Book)
    requires forall col :: Get(a, col) == Get(b, col)
    ensures a == b
  {
    assert Get(a, Title) == Get(b, Title) && Get(a, Image) == Get(b, Image);
    assert Get(a, Description) == Get(b, Description) && Get(a, Upc) == Get(b, Upc);
    assert Get(a, ProductType) == Get(b, ProductType) && Get(a, Price) == Get(b, Price);
    assert Get(a, PriceTax) == Get(b, PriceTax) && Get(a, Tax) == Get(b, Tax);
    assert Get(a, Availability) == Get(b, Availability);
    assert Get(a, NumberOfReviews) == Get(b, NumberOfReviews);
  }

  /** The mutable item a spider fills in and the pipelines rewrite in place. */
  class BookItem {
    var title: FieldValue
    var image: FieldValue
    var description: FieldValue
    var upc: FieldValue
    var productType: FieldValue
    var price: FieldValue
    var priceTax: FieldValue
    var tax: FieldValue
    var availability: FieldValue
    var numberOfReviews: FieldValue

    /** `BookItem()`: every field unassigned. */
    constructor()
      ensures Value() == EmptyBook
    {
      title, image, description, upc, productType := Absent, Absent, Absent, Absent, Absent;
      price, priceTax, tax, availability, numberOfReviews := Absent, Absent, Absent, Absent, Absent;
    }

    /** The current contents of every field. */
    function Value(): Book
      reads this
    {
      Book(title, image, description, upc, productType, price, priceTax, tax, availability, numberOfReviews)
    }

    /** `adapter.get(col)` on this item. */
    method GetField(col: Column) returns (v: FieldValue)
      ensures v == Get(Value(), col)
    {
      match col
      case Title => v := title;
      case Image => v := image;
      case Description => v := description;
      case Upc => v := upc;
      case ProductType => v := productType;
      case Price => v := price;
      case PriceTax => v := priceTax;
      case Tax => v := tax;
      case Availability => v := availability;
      case NumberOfReviews => v := numberOfReviews;
    }

    /** `adapter[col] = v` on this item. */
    method SetField(col: Column, v: FieldValue)
      modifies this
      ensures Value() == Set(old(Value()), col, v)
    {
      match col
      case Title => title := v;
      case Image => image := v;
      case Description => description := v;
      case Upc => upc := v;
      case ProductType => productType := v;
      case Price => price := v;
      case PriceTax => priceTax := v;
      case Tax => tax := v;
      case Availability => availability := v;
      case NumberOfReviews => numberOfReviews := v;
    }
  }
}
