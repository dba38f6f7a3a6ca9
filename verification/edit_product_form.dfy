/** The product edit form (`EditProductForm`): seven fields copied from the product being
    edited, changed by the inputs, and merged back over the product on submit. */
module EditProductForm {
  import opened Common
  import opened Domain

  const SuppliersPath := "/api/suppliers"

  /** The seven edited fields. `supplier` is `product.supplier?._id`: a bare id string
      or a missing supplier has no `_id`, which leaves it `undefined` (`None`). */
  datatype Fields = Fields(
    name: string, description: string, image: string, price: real,
    quantity: int, category: Ref, supplier: Option<string>)

  /** The states before any product is loaded: `''` everywhere (numbers as zero). */
  const BlankFields := Fields("", "", "", 0.0, 0, Id(""), Some(""))

  /** `{...null}`: a record with none of the product's own fields. */
  const BlankProduct := Product("", "", "", "", 0.0, 0, Missing, Missing, "")

  /** The effect on `product`: each field copied (`image || ''` is the image itself,
      since an image is always a string here). */
  function FromProduct(p: Product): (r: Fields)
    ensures r.name == p.name && r.description == p.description && r.image == p.image
    ensures r.price == p.price && r.quantity == p.quantity && r.category == p.category
    ensures r.supplier == DocId(p.supplier)
  {
    Fields(p.name, p.description, p.image, p.price, p.quantity, p.category, DocId(p.supplier))
  }

  /** What one input's `onChange` sets. The category input is free text, so a typed
      category is a bare id; the supplier select offers ids. */
  datatype Change = NameChange(name: string) | DescriptionChange(description: string)
    | ImageChange(image: string) | PriceChange(price: real) | QuantityChange(quantity: int)
    | CategoryChange(categoryId: string) | SupplierChange(supplierId: string)

  function Applied(f: Fields, c: Change): Fields {
    match c
    case NameChange(v) => f.(name := v)
    case DescriptionChange(v) => f.(description := v)
    case ImageChange(v) => f.(image := v)
    case PriceChange(v) => f.(price := v)
    case QuantityChange(v) => f.(quantity := v)
    case CategoryChange(v) => f.(category := Id(v))
    case SupplierChange(v) => f.(supplier := Some(v))
  }

  /** Which field a change targets. */
  function Target(c: Change): nat {
    match c
    case NameChange(_) => 0
    case DescriptionChange(_) => 1
    case ImageChange(_) => 2
    case PriceChange(_) => 3
    case QuantityChange(_) => 4
    case CategoryChange(_) => 5
    case SupplierChange(_) => 6
  }

  /** Changes to different fields may happen in either order; of two changes to the
      same field only the later one is seen. */
  lemma ChangesCommute(f: Fields, a: Change, b: Change)
    ensures Target(a) != Target(b) ==> Applied(Applied(f, a), b) == Applied(Applied(f, b), a)
    ensures Target(a) == Target(b) ==> Applied(Applied(f, a), b) == Applied(f, b)
  {
  }

  /** `{ ...product, name, description, image, price, quantity, category, supplier }`:
      the product's own id and type survive, the seven fields are the form's, and the
      supplier goes back as a bare id (or missing when it was `undefined`). */
  function Merged(product: Option<Product>, f: Fields): (r: Product)
    ensures r.id == product.GetOr(BlankProduct).id
    ensures r.productType == product.GetOr(BlankProduct).productType
    ensures r.name == f.name && r.description == f.description && r.image == f.image
    ensures r.price == f.price && r.quantity == f.quantity && r.category == f.category
    ensures f.supplier.Some? ==> r.supplier == Id(f.supplier.value)
    ensures f.supplier.None? ==> r.supplier == Missing
  {
    var base := product.GetOr(BlankProduct);
    base.(name := f.name, description := f.description, image := f.image, price := f.price,
      quantity := f.quantity, category := f.category,
      supplier := if f.supplier.Some? then Id(f.supplier.value) else Missing)
  }

  /** Submitting without touching anything gives the product back, except its supplier:
      a populated supplier comes back as its bare id, and a supplier that was only a bare
      id (or missing) comes back missing. */
  lemma UntouchedSubmit(p: Product)
    ensures Merged(Some(p), FromProduct(p)) ==
      p.(supplier := if p.supplier.Doc? then Id(p.supplier.docId) else Missing)
    ensures forall k :: Names(Merged(Some(p), FromProduct(p)).supplier, k) <==> DocId(p.supplier) == Some(k)
  {
  }

  /** A supplier picked in the select is the one the update names. */
  lemma PickedSupplierIsSent(p: Option<Product>, f: Fields, id: string)
    ensures Merged(p, Applied(f, SupplierChange(id))).supplier == Id(id)
    ensures Names(Merged(p, Applied(f, SupplierChange(id))).supplier, id)
  {
  }

  class EditProductFormView {
    const product: Option<Product>
    var name: string
    var description: string
    var image: string
    var price: real
    var quantity: int
    var category: Ref
    var supplier: Option<string>
    var suppliers: seq<Supplier>

    function State(): Fields
      reads this
    {
      Fields(name, description, image, price, quantity, category, supplier)
    }

    constructor (product: Option<Product>)
      ensures this.product == product
      ensures State() == BlankFields && suppliers == []
    {
      this.product := product;
      name, description, image, price := "", "", "", 0.0;
      quantity, category, supplier := 0, Id(""), Some("");
      suppliers := [];
    }

    /** The effect on `[]`: the supplier list for the select. */
    method FetchSuppliers(result: Settled<seq<Supplier>>)
      modifies this
      ensures suppliers == (if result.Resolved? then result.data else old(suppliers))
      ensures State() == old(State())
    {
      if result.Resolved? {
        suppliers := result.data;
      }
    }

    /** The effect on `[product]`: copy the product in, or leave the fields alone. */
    method LoadProduct()
      modifies this
      ensures State() == (if product.Some? then FromProduct(product.value) else old(State()))
      ensures suppliers == old(suppliers)
    {
      if product.Some? {
        var p := product.value;
        name := p.name;
        description := p.description;
        image := p.image;
        price := p.price;
        quantity := p.quantity;
        category := p.category;
        supplier := DocId(p.supplier);
      }
    }

    method Edit(c: Change)
      modifies this
      ensures State() == Applied(old(State()), c)
      ensures suppliers == old(suppliers)
    {
      match c
      case NameChange(v) => name := v;
      case DescriptionChange(v) => description := v;
      case ImageChange(v) => image := v;
      case PriceChange(v) => price := v;
      case QuantityChange(v) => quantity := v;
      case CategoryChange(v) => category := Id(v);
      case SupplierChange(v) => supplier := Some(v);
    }

    /** `handleSubmit`: `onUpdate` is called once, with the merged record, which is
        returned here; the form keeps its state. */
    method HandleSubmit() returns (updated: Product)
      ensures updated == Merged(product, State())
    {
      updated := Merged(product, State());
    }
  }
}
