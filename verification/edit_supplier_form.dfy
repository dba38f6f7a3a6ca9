/** The supplier edit form (`EditSupplierForm`): five fields copied from the supplier
    being edited, changed by the inputs, and merged back over it on submit. */
module EditSupplierForm {
  import opened Common
  import opened Domain
  import opened SupplierList

  datatype Fields = Fields(name: string, contactPerson: string, email: string, phone: string, address: string)

  const BlankFields := Fields("", "", "", "", "")

  /** The effect on `supplier`: the five fields copied. */
  function FromSupplier(s: Supplier): (r: Fields)
    ensures r.name == s.name && r.contactPerson == s.contactPerson && r.email == s.email
    ensures r.phone == s.phone && r.address == s.address
  {
    Fields(s.name, s.contactPerson, s.email, s.phone, s.address)
  }

  /** `{ ...supplier, name, contactPerson, email, phone, address }`: the supplier's id
      survives (none without a supplier), the five fields are the form's. */
  function Merged(supplier: Option<Supplier>, f: Fields): (r: Supplier)
    ensures supplier.Some? ==> r.id == supplier.value.id
    ensures supplier.None? ==> r.id == ""
    ensures FromSupplier(r) == f
  {
    Supplier(if supplier.Some? then supplier.value.id else "", f.name, f.contactPerson, f.email, f.phone, f.address)
  }

  /** Submitting without touching anything gives the supplier back unchanged. */
  lemma UntouchedSubmit(s: Supplier)
    ensures Merged(Some(s), FromSupplier(s)) == s
  {
  }

  /** When the server answers the update with the record it was sent, the supplier
      list replaces the edited entry and no other (ids being distinct); an untouched form
      leaves the list as it was. */
  lemma UpdateReplacesEditedEntry(suppliers: seq<Supplier>, i: int, f: Fields)
    requires DistinctSupplierIds(suppliers) && 0 <= i < |suppliers|
    ensures var r := ReplaceById(suppliers, Merged(Some(suppliers[i]), f));
      |r| == |suppliers| && r[i] == Merged(Some(suppliers[i]), f) &&
      forall j :: 0 <= j < |suppliers| && j != i ==> r[j] == suppliers[j]
    ensures ReplaceById(suppliers, Merged(Some(suppliers[i]), FromSupplier(suppliers[i]))) == suppliers
  {
    UntouchedSubmit(suppliers[i]);
  }

  datatype Change = NameChange(name: string) | ContactChange(contactPerson: string)
    | EmailChange(email: string) | PhoneChange(phone: string) | AddressChange(address: string)

  function Applied(f: Fields, c: Change): Fields {
    match c
    case NameChange(v) => f.(name := v)
    case ContactChange(v) => f.(contactPerson := v)
    case EmailChange(v) => f.(email := v)
    case PhoneChange(v) => f.(phone := v)
    case AddressChange(v) => f.(address := v)
  }

  /** A typed change is what the update carries. */
  lemma ChangeIsSent(s: Option<Supplier>, f: Fields, v: string)
    ensures Merged(s, Applied(f, EmailChange(v))).email == v
    ensures Merged(s, Applied(f, EmailChange(v))).name == f.name
  {
  }

  class EditSupplierFormView {
    const supplier: Option<Supplier>
    var name: string
    var contactPerson: string
    var email: string
    var phone: string
    var address: string

    function State(): Fields
      reads this
    {
      Fields(name, contactPerson, email, phone, address)
    }

    constructor (supplier: Option<Supplier>)
      ensures this.supplier == supplier && State() == BlankFields
    {
      this.supplier := supplier;
      name, contactPerson, email, phone, address := "", "", "", "", "";
    }

    /** The effect on `[supplier]`: copy the supplier in, or leave the fields alone. */
    method LoadSupplier()
      modifies this
      ensures State() == (if supplier.Some? then FromSupplier(supplier.value) else old(State()))
    {
      if supplier.Some? {
        var s := supplier.value;
        name := s.name;
        contactPerson := s.contactPerson;
        email := s.email;
        phone := s.phone;
        address := s.address;
      }
    }

    method Edit(c: Change)
      modifies this
      ensures State() == Applied(old(State()), c)
    {
      match c
      case NameChange(v) => name := v;
      case ContactChange(v) => contactPerson := v;
      case EmailChange(v) => email := v;
      case PhoneChange(v) => phone := v;
      case AddressChange(v) => address := v;
    }

    /** `handleSubmit`: `onUpdate` is called once, with the merged record, returned here. */
    method HandleSubmit() returns (updated: Supplier)
      ensures updated == Merged(supplier, State())
    {
      updated := Merged(supplier, State());
    }
  }
}
