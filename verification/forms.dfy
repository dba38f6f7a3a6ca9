/** The nested form record shared by the profile and the registration pages: top-level
    text fields plus an `address` object, and the change handler both pages use, which
    routes an input named `address.X` into the `address` object and any other name to
    the top level. */
module Forms {
  import opened Common

  const AddressKey := "address"
  const AddressPrefix := "address."

  /** A value in `formData`: a text field, or the nested `address` object. */
  datatype Field = Text(text: string) | Group(fields: map<string, string>)

  type Form = map<string, Field>

  /** `s.split('.')[0]`: everything before the first dot. */
  function UpToDot(s: string): (r: string)
    ensures |r| <= |s| && r == s[..|r|]
    ensures '.' !in r
    ensures |r| < |s| ==> s[|r|] == '.'
  {
    if s == [] || s[0] == '.' then [] else [s[0]] + UpToDot(s[1..])
  }

  /** Where an input's `name` writes: a top-level key, or a key of `address`. */
  datatype Path = Top(key: string) | Nested(key: string)

  /** `name.startsWith('address.') ? address[name.split('.')[1]] : formData[name]` */
  function PathOf(name: string): (r: Path)
    ensures StartsWith(name, AddressPrefix) <==> r.Nested?
    ensures r.Top? ==> r.key == name
    ensures r.Nested? ==> r.key == UpToDot(name[|AddressPrefix|..])
  {
    if StartsWith(name, AddressPrefix) then Nested(UpToDot(name[|AddressPrefix|..])) else Top(name)
  }

  /** The text an input bound to `path` shows; absent when there is none. */
  function Lookup(form: Form, path: Path): Option<string> {
    match path
    case Top(k) => if k in form && form[k].Text? then Some(form[k].text) else None
    case Nested(k) =>
      if AddressKey in form && form[AddressKey].Group? && k in form[AddressKey].fields
      then Some(form[AddressKey].fields[k]) else None
  }

  /** `{ ...formData.address }`: the address object, or nothing to copy. */
  function AddressOf(form: Form): map<string, string> {
    if AddressKey in form && form[AddressKey].Group? then form[AddressKey].fields else map[]
  }

  /** The form after `handleChange`/`onChange` with input `name` set to `value`. */
  function Changed(form: Form, name: string, value: string): (r: Form)
    ensures Lookup(r, PathOf(name)) == Some(value)
    ensures PathOf(name).Nested? ==>
      AddressKey in r && r[AddressKey].Group? &&
      (forall k :: k != PathOf(name).key && k in AddressOf(form) ==>
        k in r[AddressKey].fields && r[AddressKey].fields[k] == AddressOf(form)[k]) &&
      r[AddressKey].fields.Keys == AddressOf(form).Keys + {PathOf(name).key}
    ensures PathOf(name).Nested? ==>
      r.Keys == form.Keys + {AddressKey} && forall k :: k in form && k != AddressKey ==> r[k] == form[k]
    ensures PathOf(name).Top? ==>
      r.Keys == form.Keys + {name} && forall k :: k in form && k != name ==> r[k] == form[k]
  {
    match PathOf(name)
    case Nested(k) => form[AddressKey := Group(AddressOf(form)[k := value])]
    case Top(_) => form[name := Text(value)]
  }

  /** A change leaves every other input's text as it was. The input literally named
      `address` is excluded: it overwrites the whole `address` object. */
  lemma ChangeLeavesOthers(form: Form, name: string, value: string, other: string)
    requires PathOf(name) != PathOf(other)
    requires name != AddressKey && other != AddressKey
    ensures Lookup(Changed(form, name, value), PathOf(other)) == Lookup(form, PathOf(other))
  {
  }

  /** Typing twice into one input keeps only the second value. */
  lemma LastChangeWins(form: Form, name: string, first: string, second: string)
    ensures Changed(Changed(form, name, first), name, second) == Changed(form, name, second)
  {
    match PathOf(name)
    case Nested(k) =>
      var once := Changed(form, name, first);
      assert AddressOf(once)[k := second] == AddressOf(form)[k := second];
    case Top(_) =>
  }

  /** Changes to two different inputs may happen in either order. */
  lemma ChangesCommute(form: Form, a: string, x: string, b: string, y: string)
    requires PathOf(a) != PathOf(b)
    requires a != AddressKey && b != AddressKey
    ensures Changed(Changed(form, a, x), b, y) == Changed(Changed(form, b, y), a, x)
  {
    match (PathOf(a), PathOf(b))
    case (Nested(ka), Nested(kb)) =>
      assert AddressOf(form)[ka := x][kb := y] == AddressOf(form)[kb := y][ka := x];
    case (Nested(_), Top(_)) =>
    case (Top(_), Nested(_)) =>
    case (Top(_), Top(_)) =>
  }
}
