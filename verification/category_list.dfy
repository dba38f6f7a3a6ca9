/** The category administration page (`CategoryList`): a small state machine over
    `showForm`, `editingCategory` and `formData`, and the create-or-update request the
    form submits. */
module CategoryList {
  import opened Common
  import opened Domain

  const CategoriesPath := "/api/categories"

  /** `formData`: `{ name, type, description, image }`. */
  datatype CategoryForm = CategoryForm(name: string, categoryType: string, description: string, image: string)

  const EmptyForm := CategoryForm("", "", "", "")

  datatype Request = Request(verb: string, url: string, body: CategoryForm)

  /** The form copied from a category, field for field. */
  function FormOf(c: Category): (r: CategoryForm)
    ensures r.name == c.name && r.categoryType == c.categoryType
    ensures r.description == c.description && r.image == c.image
  {
    CategoryForm(c.name, c.categoryType, c.description, c.image)
  }

  /** The request `handleSubmit` sends: PUT to the category's own path while editing,
      POST to the collection otherwise; the body is the form either way. */
  function SubmitRequest(editing: Option<Category>, form: CategoryForm): (r: Request)
    ensures r.body == form
    ensures editing.Some? <==> r.verb == "PUT"
    ensures editing.None? <==> r.verb == "POST"
    ensures editing.Some? ==> r.url == CategoriesPath + "/" + editing.value.id
    ensures editing.None? ==> r.url == CategoriesPath
  {
    if editing.Some? then Request("PUT", CategoriesPath + "/" + editing.value.id, form)
    else Request("POST", CategoriesPath, form)
  }

  /** Every request this page sends goes under the categories path. */
  lemma RequestsStayUnderCategories(editing: Option<Category>, form: CategoryForm)
    ensures StartsWith(SubmitRequest(editing, form).url, CategoriesPath)
  {
    var url := SubmitRequest(editing, form).url;
    assert url[..|CategoriesPath|] == CategoriesPath;
  }

  /** The page's state. */
  class CategoryListView {
    var categories: seq<Category>
    var loading: bool
    var showForm: bool
    var editingCategory: Option<Category>
    var formData: CategoryForm

    /** Form closed, nothing being edited, all four fields empty. */
    predicate IsReset()
      reads this
    {
      !showForm && editingCategory.None? && formData == EmptyForm
    }

    constructor ()
      ensures categories == [] && loading && IsReset()
    {
      categories, loading := [], true;
      showForm, editingCategory, formData := false, None, EmptyForm;
    }

    /** `fetchCategories`: an OK response replaces the list; `loading` ends on every path. */
    method FetchCategories(response: Response<seq<Category>>)
      modifies this
      ensures !loading
      ensures categories == (if response.Ok? then response.body else old(categories))
      ensures showForm == old(showForm) && editingCategory == old(editingCategory) && formData == old(formData)
    {
      if response.Ok? {
        categories := response.body;
      }
      loading := false;
    }

    /** `handleSubmit`: on OK the form is reset and the list refetched (its outcome is
        `refetch`); a rejected or failed request leaves the form as it was. */
    method HandleSubmit(response: Response<()>, refetch: Response<seq<Category>>) returns (sent: Request)
      modifies this
      ensures sent == SubmitRequest(old(editingCategory), old(formData))
      ensures response.Ok? ==>
        IsReset() && !loading && categories == (if refetch.Ok? then refetch.body else old(categories))
      ensures !response.Ok? ==>
        showForm == old(showForm) && editingCategory == old(editingCategory) && formData == old(formData) &&
        categories == old(categories) && loading == old(loading)
    {
      sent := SubmitRequest(editingCategory, formData);
      if response.Ok? {
        showForm := false;
        editingCategory := None;
        formData := EmptyForm;
        FetchCategories(refetch);
      }
    }

    /** `handleEdit(category)`: edit that category, with its four fields in the form. */
    method HandleEdit(category: Category)
      modifies this
      ensures editingCategory == Some(category) && formData == FormOf(category) && showForm
      ensures categories == old(categories) && loading == old(loading)
    {
      editingCategory := Some(category);
      formData := FormOf(category);
      showForm := true;
    }

    /** `handleCancel`: the same reset as a successful submit, without a refetch. */
    method HandleCancel()
      modifies this
      ensures IsReset()
      ensures categories == old(categories) && loading == old(loading)
    {
      showForm := false;
      editingCategory := None;
      formData := EmptyForm;
    }

    /** The "Ajouter une Catégorie" button: it opens the form and nothing else, so a
        category still being edited stays the target of the next submit. */
    method OpenForm()
      modifies this
      ensures showForm
      ensures editingCategory == old(editingCategory) && formData == old(formData)
      ensures categories == old(categories) && loading == old(loading)
    {
      showForm := true;
    }

    /** `handleDelete(id)`: a request goes out only after confirmation, and only an OK
        response refetches; the form state is never touched. Returns the path deleted. */
    method HandleDelete(id: string, confirmed: bool, response: Response<()>, refetch: Response<seq<Category>>)
      returns (deleted: Option<string>)
      modifies this
      ensures deleted == (if confirmed then Some(CategoriesPath + "/" + id) else None)
      ensures confirmed && response.Ok? ==>
        !loading && categories == (if refetch.Ok? then refetch.body else old(categories))
      ensures !(confirmed && response.Ok?) ==> categories == old(categories) && loading == old(loading)
      ensures showForm == old(showForm) && editingCategory == old(editingCategory) && formData == old(formData)
    {
      deleted := None;
      if confirmed {
        deleted := Some(CategoriesPath + "/" + id);
        if response.Ok? {
          FetchCategories(refetch);
        }
      }
    }
  }
}
