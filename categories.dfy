/**
  The category record: the category-name validator and the declared bound
  and default.
 */
module Categories {
  import opened Outcomes
  import opened PyText

  const CategoryNameMessage: string := "Category name cannot be empty or contain only whitespace."

  /** The declared `max_length` of `category_name`. */
  const CategoryNameMaxLength: nat := 100

  /** The fields of `Category` with a declared bound or default; ids and audit timestamps are left out. */
  datatype Category = Category(categoryName: string, parentCategoryId: Option<Uuid>, notes: Option<string>)

  /** The declared bound of `Category`: a category name of at most 100 characters. */
  predicate CategoryDeclaredBounds(c: Category)
  {
    |c.categoryName| <= CategoryNameMaxLength
  }

  /** A category from its fields; the optional ones default to none. */
  function NewCategory(categoryName: string, parentCategoryId: Option<Uuid> := None, notes: Option<string> := None)
    : (c: Category)
    ensures c.categoryName == categoryName && c.parentCategoryId == parentCategoryId && c.notes == notes
  {
    Category(categoryName, parentCategoryId, notes)
  }

  /** Given only its name, a category has no parent and no notes. */
  lemma CategoryDefaults(categoryName: string)
    ensures NewCategory(categoryName).parentCategoryId == None && NewCategory(categoryName).notes == None
  {
  }

  /**
    `category_name_not_empty`: an empty or whitespace-only name is rejected;
    otherwise the name comes back stripped, non-empty, with no whitespace at
    either end.
   */
  function CategoryNameNotEmpty(value: string): (r: Result<string>)
    ensures r.Err? <==> IsBlank(value)
    ensures r.Err? ==> r.error == CategoryNameMessage
    ensures r.Ok? ==> r.value == Strip(value) && r.value != [] && NoSurroundingSpace(r.value)
  {
    if Strip(value) == [] then Err(CategoryNameMessage) else Ok(Strip(value))
  }

  /** The validator is idempotent: an accepted name is accepted again, unchanged. */
  lemma CategoryNameIdempotent(value: string)
    requires CategoryNameNotEmpty(value).Ok?
    ensures CategoryNameNotEmpty(CategoryNameNotEmpty(value).value) == CategoryNameNotEmpty(value)
  {
    StripIdempotent(value);
  }

  /** A name within the declared bound stays within it once stripped. */
  lemma CategoryNameStaysWithinBound(value: string)
    requires |value| <= CategoryNameMaxLength
    ensures CategoryNameNotEmpty(value).Ok? ==> |CategoryNameNotEmpty(value).value| <= CategoryNameMaxLength
  {
  }
}
