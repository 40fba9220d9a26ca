/**
 * The category admin page, `frontend/src/pages/admin/ManageCategories.jsx`:
 * the parent list, the sorted table, and the local list edits after a create,
 * an edit or a delete.
 */
module ManageCategoriesPage {

  import opened Wrappers
  import opened Text
  import opened Seqs
  import opened Sorting
  import opened JsNumbers

  type CategoryId = string

  /**
   * A category as fetched. `parentId == None` is SQL `null`; `showInNav` and
   * `sortOrder` may be `null` too.
   */
  datatype Category = Category(
    id: CategoryId, name: string, parentId: Option<CategoryId>, showInNav: Option<bool>, sortOrder: Option<int>)

  /** `!c.parent_id`: no parent, or an empty one. */
  predicate IsTopLevel(c: Category) {
    c.parentId.None? || c.parentId.value == ""
  }

  /** `categories.filter(c => !c.parent_id)`. */
  function ParentCategories(cs: seq<Category>): (r: seq<Category>)
    ensures forall c :: c in r <==> c in cs && IsTopLevel(c)
  {
    Filter(cs, IsTopLevel)
  }

  /** `parentCategories` keeps the categories' order: it distributes over concatenation. */
  lemma ParentCategoriesKeepOrder(a: seq<Category>, b: seq<Category>)
    ensures ParentCategories(a + b) == ParentCategories(a) + ParentCategories(b)
  {
    FilterAppend(a, b, IsTopLevel);
  }

  /** `categoriesById`: each id maps to the last category with that id. */
  function ById(cs: seq<Category>): (m: map<CategoryId, Category>)
    ensures forall k :: k in m <==> exists i :: 0 <= i < |cs| && cs[i].id == k
    ensures forall k :: k in m ==> m[k] in cs && m[k].id == k
    decreases |cs|
  {
    if cs == [] then map[]
    else
      var init := cs[..|cs| - 1];
      var m := ById(init);
      assert forall i :: 0 <= i < |init| ==> init[i] == cs[i];
      m[cs[|cs| - 1].id := cs[|cs| - 1]]
  }

  /** `a.parent_id ? (categoriesById.get(a.parent_id)?.name || '') : ''`. */
  function ParentName(byId: map<CategoryId, Category>, c: Category): (r: string)
    ensures IsTopLevel(c) ==> r == ""
    ensures !IsTopLevel(c) && c.parentId.value !in byId ==> r == ""
    ensures !IsTopLevel(c) && c.parentId.value in byId ==> r == byId[c.parentId.value].name
  {
    if IsTopLevel(c) then ""
    else if c.parentId.value in byId then byId[c.parentId.value].name
    else ""
  }

  // ---------------------------------------------------------------------------
  // Sorting

  /** The comparator of `sortedCategories` as written: its sign is the answer. */
  function WrittenCompare(byId: map<CategoryId, Category>, a: Category, b: Category): int {
    var pa := ParentName(byId, a);
    var pb := ParentName(byId, b);
    if pa != pb then StrCompare(pa, pb)
    else if a.sortOrder != b.sortOrder then a.sortOrder.GetOr(0) - b.sortOrder.GetOr(0)
    else StrCompare(a.name, b.name)
  }

  /** What the table is meant to be sorted by: parent name, then sort order (missing as 0), then name. */
  datatype SortKey = SortKey(parentName: string, order: int, name: string)

  function KeyOf(byId: map<CategoryId, Category>, c: Category): SortKey {
    SortKey(ParentName(byId, c), c.sortOrder.GetOr(0), c.name)
  }

  /** The comparator with `sort_order` compared after the `?? 0` default. */
  function KeyCompare(x: SortKey, y: SortKey): (r: int)
    ensures r == 0 <==> x == y
  {
    if x.parentName != y.parentName then StrCompare(x.parentName, y.parentName)
    else if x.order != y.order then x.order - y.order
    else StrCompare(x.name, y.name)
  }

  /** Lexicographic order on the sort keys. */
  predicate KeyLe(x: SortKey, y: SortKey) {
    KeyCompare(x, y) <= 0
  }

  lemma KeyLeTotal(x: SortKey, y: SortKey)
    ensures KeyLe(x, y) || KeyLe(y, x)
  {
    StrLeTotal(x.parentName, y.parentName);
    StrLeTotal(x.name, y.name);
  }

  lemma KeyLeTransitive(x: SortKey, y: SortKey, z: SortKey)
    requires KeyLe(x, y) && KeyLe(y, z)
    ensures KeyLe(x, z)
  {
    var px, py, pz := x.parentName, y.parentName, z.parentName;
    if px != py && py != pz {
      StrLeTransitive(px, py, pz);
      if px == pz {
        StrLeAntisymmetric(px, py);
        assert false;
      }
    } else if px == py && py == pz && x.order == y.order && y.order == z.order {
      StrLeTotal(x.name, x.name);
      StrLeTotal(y.name, y.name);
      StrLeTransitive(x.name, y.name, z.name);
    }
  }

  lemma KeyLeAntisymmetric(x: SortKey, y: SortKey)
    requires KeyLe(x, y) && KeyLe(y, x)
    ensures x == y
  {
    if x.parentName != y.parentName {
      StrLeAntisymmetric(x.parentName, y.parentName);
    } else if x.order == y.order && x.name != y.name {
      StrLeAntisymmetric(x.name, y.name);
    }
  }

  function CategoryLe(byId: map<CategoryId, Category>): (Category, Category) -> bool {
    (a: Category, b: Category) => KeyLe(KeyOf(byId, a), KeyOf(byId, b))
  }

  lemma CategoryLeIsOrder(byId: map<CategoryId, Category>)
    ensures Total(CategoryLe(byId)) && Transitive(CategoryLe(byId))
  {
    var le := CategoryLe(byId);
    forall a: Category, b: Category ensures le(a, b) || le(b, a) {
      KeyLeTotal(KeyOf(byId, a), KeyOf(byId, b));
    }
    forall a: Category, b: Category, c: Category | le(a, b) && le(b, c) ensures le(a, c) {
      KeyLeTransitive(KeyOf(byId, a), KeyOf(byId, b), KeyOf(byId, c));
    }
  }

  /** `sortedCategories`: the categories reordered by parent name, sort order and name. */
  function SortedCategories(cs: seq<Category>): (r: seq<Category>)
    ensures multiset(r) == multiset(cs)
    ensures forall i, j :: 0 <= i < j < |r| ==> KeyLe(KeyOf(ById(cs), r[i]), KeyOf(ById(cs), r[j]))
  {
    CategoryLeIsOrder(ById(cs));
    SortBy(cs, CategoryLe(ById(cs)))
  }

  /** The categories whose sort key is that of `e`. */
  function SameKey(byId: map<CategoryId, Category>, e: Category): Category -> bool {
    (c: Category) => KeyOf(byId, c) == KeyOf(byId, e)
  }

  /**
   * `Array.prototype.sort` is stable: categories with the same sort key keep
   * the order in which the server listed them.
   */
  lemma SortedCategoriesStable(cs: seq<Category>, e: Category)
    ensures Filter(SortedCategories(cs), SameKey(ById(cs), e)) == Filter(cs, SameKey(ById(cs), e))
  {
    var byId := ById(cs);
    var le, same := CategoryLe(byId), SameKey(byId, e);
    CategoryLeIsOrder(byId);
    forall y: Category ensures same(y) <==> le(y, e) && le(e, y) {
      if le(y, e) && le(e, y) {
        KeyLeAntisymmetric(KeyOf(byId, y), KeyOf(byId, e));
      }
    }
    SortByStable(cs, le, e, same);
  }

  /** Where both sort orders are set, the written comparator is the intended one. */
  lemma WrittenCompareWhenOrdersSet(byId: map<CategoryId, Category>, a: Category, b: Category)
    requires a.sortOrder.Some? && b.sortOrder.Some?
    ensures WrittenCompare(byId, a, b) == KeyCompare(KeyOf(byId, a), KeyOf(byId, b))
  {
  }

  /**
   * The written comparator is not consistent: a category without a sort order
   * compares equal to two categories with sort order 0 whose names differ, so
   * "equal" is not transitive and the resulting order is left to the engine.
   */
  lemma WrittenCompareInconsistent()
    ensures var a := Category("1", "m", None, None, None);
            var b := Category("2", "z", None, None, Some(0));
            var c := Category("3", "a", None, None, Some(0));
      && WrittenCompare(map[], a, b) == 0
      && WrittenCompare(map[], a, c) == 0
      && WrittenCompare(map[], c, b) < 0
  {
    assert StrLe("a", "z");
  }

  // ---------------------------------------------------------------------------
  // Create, edit and delete

  /** The body of the create and update requests. */
  datatype CategoryPayload = CategoryPayload(
    name: string, parentId: Option<CategoryId>, showInNav: bool, sortOrder: int)

  /** `Number.isNaN(parseInt(v)) ? 0 : parseInt(v)` on the numeric form state. */
  function NormalizedSortOrder(v: int): int {
    match ParseInt(IntToString(v))
    case None => 0
    case Some(n) => n
  }

  /** The form state is always an integer, so normalisation keeps it. */
  lemma NormalizedSortOrderKeeps(v: int)
    ensures NormalizedSortOrder(v) == v
  {
    ParseIntOfIntToString(v);
  }

  /** `parseInt(e.target.value) || 0`: the value the number inputs store. */
  function SortOrderInput(input: string): int {
    ParseInt(input).GetOr(0)
  }

  /** The request body: trimmed name, `''` parent as `null`, normalised sort order. */
  function Payload(name: string, parentId: CategoryId, showInNav: bool, sortOrder: int): (p: CategoryPayload)
    ensures p.name == Trim(name)
    ensures p.parentId.None? <==> parentId == ""
    ensures p.parentId.Some? ==> p.parentId.value == parentId
    ensures p.showInNav == showInNav && p.sortOrder == sortOrder
  {
    NormalizedSortOrderKeeps(sortOrder);
    CategoryPayload(Trim(name), if parentId == "" then None else Some(parentId), showInNav,
                    NormalizedSortOrder(sortOrder))
  }

  /** `created ? [created, ...prev] : prev`. */
  function WithCreated(cs: seq<Category>, created: Option<Category>): (r: seq<Category>)
    ensures created.None? ==> r == cs
    ensures created.Some? ==> |r| == |cs| + 1 && r[0] == created.value && r[1..] == cs
  {
    if created.Some? then [created.value] + cs else cs
  }

  /** The local copy of an edit: four fields of the matching category change. */
  function WithEdit(cs: seq<Category>, id: CategoryId, p: CategoryPayload): (r: seq<Category>)
    ensures |r| == |cs|
    ensures forall k :: 0 <= k < |cs| && cs[k].id != id ==> r[k] == cs[k]
    ensures forall k :: 0 <= k < |cs| && cs[k].id == id ==>
      r[k] == Category(cs[k].id, p.name, p.parentId, Some(p.showInNav), Some(p.sortOrder))
  {
    seq(|cs|, k requires 0 <= k < |cs| =>
      if cs[k].id == id then cs[k].(name := p.name, parentId := p.parentId, showInNav := Some(p.showInNav),
                                    sortOrder := Some(p.sortOrder))
      else cs[k])
  }

  /** `prev.filter((c) => c.id !== id)`. */
  function WithoutCategory(cs: seq<Category>, id: CategoryId): (r: seq<Category>)
    ensures forall c :: c in r <==> c in cs && c.id != id
  {
    Filter(cs, (c: Category) => c.id != id)
  }

  /** A delete keeps the remaining categories in their order. */
  lemma WithoutCategoryKeepsOrder(a: seq<Category>, b: seq<Category>, id: CategoryId)
    ensures WithoutCategory(a + b, id) == WithoutCategory(a, id) + WithoutCategory(b, id)
  {
    FilterAppend(a, b, (c: Category) => c.id != id);
  }

  /** The parents offered in the edit dialog: never the category being edited. */
  function EditParentOptions(cs: seq<Category>, editing: Category): (r: seq<Category>)
    ensures forall c :: c in r <==> c in cs && IsTopLevel(c) && c.id != editing.id
  {
    Filter(ParentCategories(cs), (p: Category) => p.id != editing.id)
  }

  /** The page's state. */
  class ManageCategories {
    var categories: seq<Category>
    var newCategoryName: string
    var newParentId: CategoryId
    var newShowInNav: bool
    var newSortOrder: int
    var editModalOpen: bool
    var categoryBeingEdited: Option<Category>
    var editParentId: CategoryId
    var editShowInNav: bool
    var editSortOrder: int
    var deleteModalOpen: bool
    var categoryBeingDeleted: Option<Category>

    constructor (categories: seq<Category>)
      ensures this.categories == categories
      ensures newCategoryName == "" && newParentId == "" && newShowInNav && newSortOrder == 0
      ensures !editModalOpen && categoryBeingEdited.None? && !deleteModalOpen && categoryBeingDeleted.None?
    {
      this.categories := categories;
      newCategoryName, newParentId, newShowInNav, newSortOrder := "", "", true, 0;
      editModalOpen, categoryBeingEdited, editParentId, editShowInNav, editSortOrder := false, None, "", true, 0;
      deleteModalOpen, categoryBeingDeleted := false, None;
    }

    /** The name input of the create form. */
    method SetNewCategoryName(input: string)
      modifies this`newCategoryName
      ensures newCategoryName == input
    {
      newCategoryName := input;
    }

    /** The parent select of the create form; `""` is "None (Parent)". */
    method SetNewParentId(value: CategoryId)
      modifies this`newParentId
      ensures newParentId == value
    {
      newParentId := value;
    }

    /** The navigation checkbox of the create form. */
    method SetNewShowInNav(checked: bool)
      modifies this`newShowInNav
      ensures newShowInNav == checked
    {
      newShowInNav := checked;
    }

    /** The sort-order input of the create form. */
    method SetNewSortOrder(input: string)
      modifies this`newSortOrder
      ensures newSortOrder == SortOrderInput(input)
    {
      newSortOrder := SortOrderInput(input);
    }

    /**
     * The name input of the edit dialog, which is shown only while a category
     * is being edited: the edited copy takes the new name, keeping its id.
     */
    method SetEditName(input: string)
      requires editModalOpen && categoryBeingEdited.Some?
      modifies this`categoryBeingEdited
      ensures categoryBeingEdited == Some(old(categoryBeingEdited).value.(name := input))
      ensures categoryBeingEdited.value.id == old(categoryBeingEdited).value.id
    {
      categoryBeingEdited := Some(categoryBeingEdited.value.(name := input));
    }

    /** The parent select of the edit dialog. */
    method SetEditParentId(value: CategoryId)
      modifies this`editParentId
      ensures editParentId == value
    {
      editParentId := value;
    }

    /** The navigation checkbox of the edit dialog. */
    method SetEditShowInNav(checked: bool)
      modifies this`editShowInNav
      ensures editShowInNav == checked
    {
      editShowInNav := checked;
    }

    /** The sort-order input of the edit dialog: `parseInt(value) || 0`. */
    method SetEditSortOrder(input: string)
      modifies this`editSortOrder
      ensures editSortOrder == SortOrderInput(input)
    {
      editSortOrder := SortOrderInput(input);
    }

    /**
     * `handleCreateCategory`: nothing is sent for a blank name; after a
     * successful request the returned category is prepended and the form reset;
     * after a failed one nothing changes.
     */
    method CreateCategory(created: Option<Category>, requestFails: bool) returns (sent: Option<CategoryPayload>)
      modifies this`categories, this`newCategoryName, this`newParentId, this`newShowInNav, this`newSortOrder
      ensures Trim(old(newCategoryName)) == "" ==> sent.None?
      ensures Trim(old(newCategoryName)) != "" ==>
        sent == Some(Payload(old(newCategoryName), old(newParentId), old(newShowInNav), old(newSortOrder)))
      ensures sent.Some? && !requestFails ==>
        && categories == WithCreated(old(categories), created)
        && newCategoryName == "" && newParentId == "" && newShowInNav && newSortOrder == 0
      ensures sent.None? || requestFails ==>
        && categories == old(categories)
        && newCategoryName == old(newCategoryName) && newParentId == old(newParentId)
        && newShowInNav == old(newShowInNav) && newSortOrder == old(newSortOrder)
    {
      if Trim(newCategoryName) == "" {
        sent := None;
      } else {
        sent := Some(Payload(newCategoryName, newParentId, newShowInNav, newSortOrder));
        if !requestFails {
          categories := WithCreated(categories, created);
          ResetCreateForm();
        }
      }
    }

    /** The create form's initial values. */
    method ResetCreateForm()
      modifies this`newCategoryName, this`newParentId, this`newShowInNav, this`newSortOrder
      ensures newCategoryName == "" && newParentId == "" && newShowInNav && newSortOrder == 0
    {
      newCategoryName, newParentId, newShowInNav, newSortOrder := "", "", true, 0;
    }

    /** `openEditModal`: the dialog starts from the category's own values. */
    method OpenEditModal(c: Category)
      modifies this`categoryBeingEdited, this`editParentId, this`editShowInNav, this`editSortOrder,
               this`editModalOpen
      ensures categoryBeingEdited == Some(c) && editModalOpen
      ensures editParentId == (if IsTopLevel(c) then "" else c.parentId.value)
      ensures editShowInNav == c.showInNav.GetOr(true) && editSortOrder == c.sortOrder.GetOr(0)
    {
      categoryBeingEdited := Some(c);
      editParentId := if IsTopLevel(c) then "" else c.parentId.value;
      editShowInNav := c.showInNav.GetOr(true);
      editSortOrder := c.sortOrder.GetOr(0);
      editModalOpen := true;
    }

    /**
     * `saveEditedCategory`: nothing is sent without a category or with a blank
     * name; after a successful request only the edited category changes and
     * the dialog closes.
     */
    method SaveEditedCategory(updatedName: string, requestFails: bool) returns (sent: Option<CategoryPayload>)
      modifies this`categories, this`editModalOpen, this`categoryBeingEdited
      ensures old(categoryBeingEdited).None? || Trim(updatedName) == "" ==> sent.None?
      ensures old(categoryBeingEdited).Some? && Trim(updatedName) != "" ==>
        sent == Some(Payload(updatedName, old(editParentId), old(editShowInNav), old(editSortOrder)))
      ensures sent.Some? && !requestFails ==>
        && categories == WithEdit(old(categories), old(categoryBeingEdited).value.id, sent.value)
        && !editModalOpen && categoryBeingEdited.None?
      ensures sent.None? || requestFails ==>
        categories == old(categories) && editModalOpen == old(editModalOpen) &&
        categoryBeingEdited == old(categoryBeingEdited)
    {
      if categoryBeingEdited.None? {
        return None;
      }
      if Trim(updatedName) == "" {
        return None;
      }
      var p := Payload(updatedName, editParentId, editShowInNav, editSortOrder);
      sent := Some(p);
      if requestFails {
        return;
      }
      categories := WithEdit(categories, categoryBeingEdited.value.id, p);
      editModalOpen := false;
      categoryBeingEdited := None;
    }

    /** `openDeleteModal`. */
    method OpenDeleteModal(c: Category)
      modifies this`categoryBeingDeleted, this`deleteModalOpen
      ensures categoryBeingDeleted == Some(c) && deleteModalOpen
    {
      categoryBeingDeleted := Some(c);
      deleteModalOpen := true;
    }

    /** `confirmDeleteCategory`: after a successful request the entries with that id are gone. */
    method ConfirmDeleteCategory(requestFails: bool) returns (sent: Option<CategoryId>)
      modifies this`categories, this`deleteModalOpen, this`categoryBeingDeleted
      ensures sent == (if old(categoryBeingDeleted).Some? then Some(old(categoryBeingDeleted).value.id) else None)
      ensures sent.Some? && !requestFails ==>
        categories == WithoutCategory(old(categories), sent.value) && !deleteModalOpen && categoryBeingDeleted.None?
      ensures sent.None? || requestFails ==>
        categories == old(categories) && deleteModalOpen == old(deleteModalOpen) &&
        categoryBeingDeleted == old(categoryBeingDeleted)
    {
      if categoryBeingDeleted.None? {
        return None;
      }
      var id := categoryBeingDeleted.value.id;
      sent := Some(id);
      if requestFails {
        return;
      }
      categories := WithoutCategory(categories, id);
      deleteModalOpen := false;
      categoryBeingDeleted := None;
    }
  }
}
