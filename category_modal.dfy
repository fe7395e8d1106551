/**
 * The category dialog: the form schema (name 1..100 characters, description optional, null or
 * at most 500 characters) and the submit step, which refuses a name another category already
 * has and otherwise hands the parent a category record.
 */
module CategoryModal {
  import opened Wrappers
  import opened Types

  /** The form values: the description may be left out or be null, both modelled as None. */
  datatype CategoryForm = CategoryForm(name: string, description: Option<string>)

  /** The form schema. */
  predicate ValidCategoryForm(v: CategoryForm) {
    1 <= |v.name| <= 100 && (v.description.None? || |v.description.value| <= 500)
  }

  /**
   * `categories.some(cat => cat.name === name && cat.id !== category?.id)`: another category has
   * exactly this name. Without a category under edit the id test always passes.
   */
  predicate NameTaken(categories: seq<AssetCategory>, name: string, editing: Option<AssetCategory>) {
    exists i :: 0 <= i < |categories| && categories[i].name == name && (editing.None? || categories[i].id != editing.value.id)
  }

  /** `category?.id || "0"`: the id of the category under edit, or the placeholder "0". */
  function SubmittedId(editing: Option<AssetCategory>): (r: string)
    ensures r != ""
    ensures editing.Some? && editing.value.id != "" ==> r == editing.value.id
  {
    if editing.Some? && editing.value.id != "" then editing.value.id else "0"
  }

  /** What pressing save does: nothing when the schema fails, an error on the name, or a call to onSave. */
  datatype SubmitResult = SchemaRejected | NameExists | Saved(category: AssetCategory)

  /** `form.handleSubmit(onSubmit)`. */
  function Submit(v: CategoryForm, categories: seq<AssetCategory>, editing: Option<AssetCategory>): (r: SubmitResult)
    ensures r.SchemaRejected? <==> !ValidCategoryForm(v)
    ensures r.NameExists? <==> ValidCategoryForm(v) && NameTaken(categories, v.name, editing)
    ensures r.Saved? ==> r.category == AssetCategory(SubmittedId(editing), v.name, v.description)
  {
    if !ValidCategoryForm(v) then SchemaRejected
    else if NameTaken(categories, v.name, editing) then NameExists
    else Saved(AssetCategory(SubmittedId(editing), v.name, v.description))
  }

  /**
   * A category under edit may keep its name: if every category carrying the name is the one being
   * edited (same id), a valid form is saved.
   */
  lemma KeepOwnName(v: CategoryForm, categories: seq<AssetCategory>, c: AssetCategory)
    requires ValidCategoryForm(v)
    requires forall i :: 0 <= i < |categories| && categories[i].name == v.name ==> categories[i].id == c.id
    ensures Submit(v, categories, Some(c)).Saved?
  {
  }

  /** A saved category never shares its name with a category of another id. */
  lemma SavedNameIsFree(v: CategoryForm, categories: seq<AssetCategory>, editing: Option<AssetCategory>)
    requires Submit(v, categories, editing).Saved?
    ensures forall i :: 0 <= i < |categories| && categories[i].name == v.name ==> editing.Some? && categories[i].id == editing.value.id
  {
  }
}
