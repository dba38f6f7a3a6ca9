/** The documents the storefront reads from its HTTP API, as the views use them.
    Roles stay raw strings: the views compare them against differently spelled
    literals ('admin', 'Admin', 'fournisseur', 'client'), and the model keeps that. */
module Domain {
  import opened Common

  const AdminRole := "admin"
  const CapitalisedAdminRole := "Admin"
  const SupplierRole := "fournisseur"
  const ClientRole := "client"

  /** A reference field of a document, which the API returns either populated or not:
      absent (`null`/`undefined`), a bare id string, or a populated document with `_id`. */
  datatype Ref = Missing | Id(value: string) | Doc(docId: string)

  /** `ref?._id`: only a populated document has one. */
  function DocId(r: Ref): Option<string> {
    if r.Doc? then Some(r.docId) else None
  }

  /** `ref === key || ref?._id === key`: the reference names `key`, populated or not. */
  predicate Names(r: Ref, key: string) {
    r == Id(key) || DocId(r) == Some(key)
  }

  datatype Product = Product(
    id: string,             // `_id`
    name: string,
    description: string,
    image: string,
    price: real,
    quantity: int,          // units in stock
    category: Ref,
    supplier: Ref,
    productType: string)    // `type`

  datatype AddressInfo = AddressInfo(
    street: Option<string>, city: Option<string>,
    postalCode: Option<string>, country: Option<string>)

  /** The `user` claim of a session token: who is signed in. Every field but `id` may be
      missing from the claim. */
  datatype Identity = Identity(
    id: string,
    role: Option<string>,
    firstName: Option<string>,
    lastName: Option<string>,
    email: Option<string>,
    phone: Option<string>,
    address: Option<AddressInfo>)

  /** `user.role === r`: a missing role equals no string. */
  predicate HasRole(user: Identity, r: string) {
    user.role == Some(r)
  }

  datatype Supplier = Supplier(
    id: string, name: string, contactPerson: string,
    email: string, phone: string, address: string)

  datatype UserRecord = UserRecord(id: string, email: string, role: string, status: string)

  /** A delivery as the list view receives it: `delivererId` is populated, so its `_id`
      is always there (the view reads the deliverer's names unconditionally). */
  datatype Delivery = Delivery(id: string, trackingNumber: string, delivererId: string, status: string)

  datatype Category = Category(id: string, name: string, categoryType: string, description: string, image: string)

  /** Ids of a list of documents are pairwise different. */
  ghost predicate DistinctSupplierIds(s: seq<Supplier>) {
    forall i, j :: 0 <= i < j < |s| ==> s[i].id != s[j].id
  }
}
