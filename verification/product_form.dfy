/** The add-product form (`ProductForm`): eight text fields set from inputs, a supplier
    that depends on the signed-in user's role, the POST payload, and the reset after a
    response. */
module ProductForm {
  import opened Common
  import opened Domain

  const ProductsPath := "/api/products"
  const CategoriesPath := "/api/categories"
  const SuppliersPath := "/api/suppliers"

  /** The form's field states, as the inputs hold them (numbers too are input text). */
  datatype Fields = Fields(
    name: string, description: string, image: string, price: string,
    quantity: string, category: string, productType: string, supplier: string)

  const EmptyFields := Fields("", "", "", "", "", "", "", "")

  /** The body of the POST: exactly the eight fields, `type` included. */
  datatype Payload = Payload(
    name: string, description: string, image: string, price: string,
    quantity: string, category: string, supplier: string, productType: string)

  /** `{ name, description, image, price, quantity, category, supplier, type }` */
  function PayloadOf(f: Fields): (r: Payload)
    ensures r.name == f.name && r.description == f.description && r.image == f.image
    ensures r.price == f.price && r.quantity == f.quantity && r.category == f.category
    ensures r.supplier == f.supplier && r.productType == f.productType
  {
    Payload(f.name, f.description, f.image, f.price, f.quantity, f.category, f.supplier, f.productType)
  }

  /** The inputs of the form. */
  datatype Input = NameInput | DescriptionInput | ImageInput | PriceInput
    | QuantityInput | CategoryInput | TypeInput | SupplierInput

  /** The text an input shows. */
  function Get(f: Fields, input: Input): string {
    match input
    case NameInput => f.name
    case DescriptionInput => f.description
    case ImageInput => f.image
    case PriceInput => f.price
    case QuantityInput => f.quantity
    case CategoryInput => f.category
    case TypeInput => f.productType
    case SupplierInput => f.supplier
  }

  /** A supplier can be picked only through the select, which only 'admin' gets; the
      other roles have a read-only hidden input. */
  predicate SupplierSelectShown(user: Identity) {
    HasRole(user, AdminRole)
  }

  /** The fields after the user types `value` into `input`. */
  function Edited(f: Fields, user: Identity, input: Input, value: string): (r: Fields)
    ensures input == SupplierInput && !SupplierSelectShown(user) ==> r == f
    ensures input != SupplierInput || SupplierSelectShown(user) ==> Get(r, input) == value
    ensures forall other :: other != input ==> Get(r, other) == Get(f, other)
  {
    match input
    case NameInput => f.(name := value)
    case DescriptionInput => f.(description := value)
    case ImageInput => f.(image := value)
    case PriceInput => f.(price := value)
    case QuantityInput => f.(quantity := value)
    case CategoryInput => f.(category := value)
    case TypeInput => f.(productType := value)
    case SupplierInput => if SupplierSelectShown(user) then f.(supplier := value) else f
  }

  /** The fields after the submit's response: all cleared, except that the supplier is
      cleared only for 'admin'. */
  function Reset(f: Fields, user: Identity): (r: Fields)
    ensures r.(supplier := "") == EmptyFields
    ensures HasRole(user, AdminRole) ==> r == EmptyFields
    ensures !HasRole(user, AdminRole) ==> r.supplier == f.supplier
  {
    EmptyFields.(supplier := if HasRole(user, AdminRole) then "" else f.supplier)
  }

  /** The mount effects: categories always, suppliers only for 'admin', and the
      supplier preset to the user's own id for 'fournisseur'. */
  function MountRequests(user: Identity): (r: seq<string>)
    ensures r != [] && r[0] == CategoriesPath
    ensures SuppliersPath in r <==> HasRole(user, AdminRole)
  {
    [CategoriesPath] + if HasRole(user, AdminRole) then [SuppliersPath] else []
  }

  /** For a supplier ('fournisseur') whose form holds their own id, no edit and no
      reset changes the supplier: every product they add names them. */
  lemma OwnSupplierInvariant(f: Fields, user: Identity, input: Input, value: string)
    requires HasRole(user, SupplierRole) && f.supplier == user.id
    ensures Edited(f, user, input, value).supplier == user.id
    ensures Reset(f, user).supplier == user.id
    ensures PayloadOf(Reset(f, user)).supplier == user.id
  {
  }

  /** The administrator spelled 'Admin', who gets this form from the product list, has
      neither a supplier select nor a preset: the supplier sent is always empty. */
  lemma CapitalisedAdminSendsNoSupplier(f: Fields, user: Identity, input: Input, value: string)
    requires HasRole(user, CapitalisedAdminRole) && f.supplier == ""
    ensures Edited(f, user, input, value).supplier == ""
    ensures Reset(f, user).supplier == ""
    ensures SuppliersPath !in MountRequests(user)
  {
  }

  class ProductFormView {
    const user: Identity
    var name: string
    var description: string
    var image: string
    var price: string
    var quantity: string
    var category: string
    var productType: string
    var supplier: string
    var categories: seq<Category>
    var suppliers: seq<Supplier>

    function State(): Fields
      reads this
    {
      Fields(name, description, image, price, quantity, category, productType, supplier)
    }

    constructor (user: Identity)
      ensures this.user == user
      ensures State() == EmptyFields && categories == [] && suppliers == []
    {
      this.user := user;
      name, description, image, price := "", "", "", "";
      quantity, category, productType, supplier := "", "", "", "";
      categories, suppliers := [], [];
    }

    /** The two effects. Returns the paths fetched. */
    method Mount(categoryResult: Settled<seq<Category>>, supplierResult: Settled<seq<Supplier>>)
      returns (requested: seq<string>)
      modifies this
      ensures requested == MountRequests(user)
      ensures categories == (if categoryResult.Resolved? then categoryResult.data else old(categories))
      ensures suppliers ==
        (if HasRole(user, AdminRole) && supplierResult.Resolved? then supplierResult.data else old(suppliers))
      ensures State() == old(State()).(supplier := if HasRole(user, SupplierRole) then user.id else old(supplier))
    {
      requested := [CategoriesPath];
      if categoryResult.Resolved? {
        categories := categoryResult.data;
      }
      if user.role == Some(AdminRole) {
        requested := requested + [SuppliersPath];
        if supplierResult.Resolved? {
          suppliers := supplierResult.data;
        }
      }
      if user.role == Some(SupplierRole) {
        supplier := user.id;
      }
    }

    /** An input's `onChange`. */
    method Edit(input: Input, value: string)
      modifies this
      ensures State() == Edited(old(State()), user, input, value)
      ensures categories == old(categories) && suppliers == old(suppliers)
    {
      match input
      case NameInput => name := value;
      case DescriptionInput => description := value;
      case ImageInput => image := value;
      case PriceInput => price := value;
      case QuantityInput => quantity := value;
      case CategoryInput => category := value;
      case TypeInput => productType := value;
      case SupplierInput =>
        if user.role == Some(AdminRole) {
          supplier := value;
        }
    }

    /** `handleSubmit`: the payload is POSTed; once the response body arrives it goes to
        `onProductAdded` when there is one, and the fields are reset. A failed request
        changes nothing. Returns the body sent and the product handed to the callback. */
    method HandleSubmit(result: Settled<Product>, hasCallback: bool) returns (sent: Payload, added: Option<Product>)
      modifies this
      ensures sent == PayloadOf(old(State()))
      ensures added == (if result.Resolved? && hasCallback then Some(result.data) else None)
      ensures State() == (if result.Resolved? then Reset(old(State()), user) else old(State()))
      ensures categories == old(categories) && suppliers == old(suppliers)
    {
      sent := PayloadOf(State());
      added := None;
      if result.Resolved? {
        if hasCallback {
          added := Some(result.data);
        }
        name, description, image, price := "", "", "", "";
        quantity, category, productType := "", "", "";
        if user.role == Some(AdminRole) {
          supplier := "";
        }
      }
    }
  }
}
