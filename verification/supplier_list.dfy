/** The supplier administration list (`SupplierList`): local append, delete and
    replace-by-id on the `suppliers` list, the edit toggle, and the gating of its controls. */
module SupplierList {
  import opened Common
  import opened Domain
  import opened Navbar

  /** `suppliers.map(s => s._id === data._id ? data : s)` */
  function ReplaceById(suppliers: seq<Supplier>, data: Supplier): (r: seq<Supplier>)
    ensures |r| == |suppliers|
    ensures forall i :: 0 <= i < |suppliers| ==> r[i] == if suppliers[i].id == data.id then data else suppliers[i]
    ensures DistinctSupplierIds(suppliers) ==> DistinctSupplierIds(r)
    ensures (forall i :: 0 <= i < |suppliers| ==> suppliers[i].id != data.id) ==> r == suppliers
  {
    seq(|suppliers|, i requires 0 <= i < |suppliers| => if suppliers[i].id == data.id then data else suppliers[i])
  }

  /** Replacing twice with the same returned document is replacing once. */
  lemma ReplaceIdempotent(suppliers: seq<Supplier>, data: Supplier)
    ensures ReplaceById(ReplaceById(suppliers, data), data) == ReplaceById(suppliers, data)
  {
  }

  predicate OtherSupplier(id: string, s: Supplier) {
    s.id != id
  }

  function OtherSupplierTest(id: string): Supplier -> bool {
    (s: Supplier) => OtherSupplier(id, s)
  }

  /** `suppliers.filter(s => s._id !== id)` */
  function WithoutSupplier(suppliers: seq<Supplier>, id: string): (r: seq<Supplier>)
    ensures forall i :: 0 <= i < |r| ==> r[i].id != id
    ensures forall i :: 0 <= i < |suppliers| && suppliers[i].id != id ==> suppliers[i] in r
    ensures SubsequenceOf(r, suppliers)
    ensures (forall i :: 0 <= i < |suppliers| ==> suppliers[i].id != id) ==> r == suppliers
    ensures forall i :: 0 <= i < |suppliers| ==>
      multiset(r)[suppliers[i]] == if suppliers[i].id != id then multiset(suppliers)[suppliers[i]] else 0
  {
    FilterIsSubsequence(suppliers, OtherSupplierTest(id));
    FilterCounts(suppliers, OtherSupplierTest(id));
    Filter(suppliers, OtherSupplierTest(id))
  }

  /** Deleting a supplier that was just appended undoes the append, and removes any
      earlier entry with the same id as well. */
  lemma AddThenDelete(suppliers: seq<Supplier>, newSupplier: Supplier)
    ensures WithoutSupplier(suppliers + [newSupplier], newSupplier.id) == WithoutSupplier(suppliers, newSupplier.id)
  {
    FilterAppend(suppliers, [newSupplier], OtherSupplierTest(newSupplier.id));
    assert Filter([newSupplier], OtherSupplierTest(newSupplier.id)) == [];
  }

  /** An appended supplier keeps ids distinct only when its id is new: the append itself
      does not check. */
  lemma AppendKeepsDistinct(suppliers: seq<Supplier>, newSupplier: Supplier)
    requires DistinctSupplierIds(suppliers)
    requires forall i :: 0 <= i < |suppliers| ==> suppliers[i].id != newSupplier.id
    ensures DistinctSupplierIds(suppliers + [newSupplier])
  {
  }

  /** The add form, the actions column and the row buttons, as written: only for the role
      spelled exactly 'Admin'. */
  predicate ManageControlsShownAsWritten(user: Option<Identity>) {
    user.Some? && HasRole(user.value, CapitalisedAdminRole)
  }

  /** The same gate as the navigation bar draws it: the role, lowercased, is 'admin'. */
  predicate ManageControlsShown(user: Option<Identity>) {
    RoleKey(user) == Some(AdminRole)
  }

  /** A user whose role is the lowercase 'admin' (the spelling the navigation bar, the
      product form and the delivery list recognise) reaches this page through the
      "Gérer Fournisseurs" link, yet the page shows them no controls. */
  lemma LowercaseAdminLocksOut(user: Identity)
    requires user.role == Some(AdminRole)
    ensures Link("/suppliers", "Gérer Fournisseurs") in NavItems(true, Some(user))
    ensures !ManageControlsShownAsWritten(Some(user))
    ensures ManageControlsShown(Some(user))
  {
    assert ToLower(AdminRole) == AdminRole;
    assert AdminLinks[2] == Link("/suppliers", "Gérer Fournisseurs");
  }

  /** The corrected gate shows the controls exactly to the users the navigation bar
      sends here as administrators, 'Admin' included. */
  lemma ControlsMatchNavbar(user: Option<Identity>)
    ensures ManageControlsShown(user) <==> (NavItems(true, user) == AdminLinks + [LogoutButton])
    ensures ManageControlsShownAsWritten(user) ==> ManageControlsShown(user)
  {
    if ManageControlsShownAsWritten(user) {
      assert ToLower(CapitalisedAdminRole) == AdminRole;
    }
    if NavItems(true, user) == AdminLinks + [LogoutButton] {
      var r := RoleKey(user);
      assert |AdminLinks + [LogoutButton]| == 9;
      assert r != Some("fournisseur") && r != Some("client");
    }
  }

  /** The view's `suppliers`, `isEditing` and `currentSupplier` state. */
  class SupplierListView {
    var suppliers: seq<Supplier>
    var isEditing: bool
    var currentSupplier: Option<Supplier>

    constructor ()
      ensures suppliers == [] && !isEditing && currentSupplier.None?
    {
      suppliers, isEditing, currentSupplier := [], false, None;
    }

    /** `fetchSuppliers`: any parsed body becomes the list. */
    method FetchSuppliers(result: Settled<seq<Supplier>>)
      modifies this
      ensures suppliers == (if result.Resolved? then result.data else old(suppliers))
      ensures isEditing == old(isEditing) && currentSupplier == old(currentSupplier)
    {
      if result.Resolved? {
        suppliers := result.data;
      }
    }

    /** `handleSupplierAdded(newSupplier)`: appended at the end, nothing else moves. */
    method HandleSupplierAdded(newSupplier: Supplier)
      modifies this
      ensures suppliers == old(suppliers) + [newSupplier]
      ensures isEditing == old(isEditing) && currentSupplier == old(currentSupplier)
    {
      suppliers := suppliers + [newSupplier];
    }

    /** `handleDelete(id)`: any settled response, whatever its status, drops the entries
        with that id; a failed request leaves the list. */
    method HandleDelete(id: string, result: Settled<()>)
      modifies this
      ensures suppliers == (if result.Resolved? then WithoutSupplier(old(suppliers), id) else old(suppliers))
      ensures isEditing == old(isEditing) && currentSupplier == old(currentSupplier)
    {
      if result.Resolved? {
        suppliers := WithoutSupplier(suppliers, id);
      }
    }

    method HandleEdit(supplier: Supplier)
      modifies this
      ensures currentSupplier == Some(supplier) && isEditing && suppliers == old(suppliers)
    {
      currentSupplier := Some(supplier);
      isEditing := true;
    }

    /** `handleUpdate(updatedSupplier)`: the document the server returns replaces the
        entries with its id, and editing ends; on failure nothing changes. */
    method HandleUpdate(updated: Supplier, result: Settled<Supplier>)
      modifies this
      ensures result.Resolved? ==>
        suppliers == ReplaceById(old(suppliers), result.data) && !isEditing && currentSupplier.None?
      ensures result.Rejected? ==>
        suppliers == old(suppliers) && isEditing == old(isEditing) && currentSupplier == old(currentSupplier)
    {
      if result.Resolved? {
        suppliers := ReplaceById(suppliers, result.data);
        isEditing := false;
        currentSupplier := None;
      }
    }

    /** The edit form's cancel button. */
    method Cancel()
      modifies this
      ensures !isEditing && currentSupplier.None? && suppliers == old(suppliers)
    {
      isEditing := false;
      currentSupplier := None;
    }
  }
}
