/**
 * The admin product form, `frontend/src/pages/admin/AdminProductForm.js`: the
 * form state and its error map, the category split when a product is loaded
 * and its resolution when the form is submitted, the image size guard and
 * the product data sent.
 */
module AdminProductFormPage {

  import opened Wrappers
  import opened Text
  import opened Seqs
  import opened JsNumbers
  import MC = ManageCategoriesPage

  /** The named inputs of the form. */
  datatype FormField = Name | Description | Price | Stock | ParentCategoryId | CategoryId

  /** Every input has a value. */
  predicate HasFields(form: map<FormField, string>) {
    Name in form && Description in form && Price in form && Stock in form &&
    ParentCategoryId in form && CategoryId in form
  }

  const EmptyForm: map<FormField, string> :=
    map[Name := "", Description := "", Price := "", Stock := "", ParentCategoryId := "", CategoryId := ""]

  /** The upload limit: 5 MB. */
  const MaxImageBytes: nat := 5 * 1024 * 1024

  /** A chosen file: its size and the data URL the preview shows. */
  datatype ImageFile = ImageFile(size: nat, dataUrl: string)

  // ---------------------------------------------------------------------------
  // Validation rules

  /** `!formData.name.trim()`. */
  predicate NameRejected(s: string) {
    Trim(s) == ""
  }

  /** `!price || isNaN(price) || parseFloat(price) <= 0`; `NaN <= 0` is false. */
  predicate PriceRejected(s: string) {
    s == "" || IsNaN(s) || (ParseFloat(s).Some? && ParseFloat(s).value <= 0.0)
  }

  /** `!stock || isNaN(stock) || parseInt(stock) < 0`; `NaN < 0` is false. */
  predicate StockRejected(s: string) {
    s == "" || IsNaN(s) || (ParseInt(s).Some? && ParseInt(s).value < 0)
  }

  /** `!formData.parent_category_id`. */
  predicate ParentRejected(s: string) {
    s == ""
  }

  /** A decimal integer is accepted as a price exactly when it is positive. */
  lemma PriceRuleOnIntegers(n: int)
    ensures PriceRejected(IntToString(n)) <==> n <= 0
  {
    ParseFloatOfIntToString(n);
  }

  /** A decimal integer is accepted as a stock exactly when it is not negative. */
  lemma StockRuleOnIntegers(n: int)
    ensures StockRejected(IntToString(n)) <==> n < 0
  {
    ParseFloatOfIntToString(n);
    ParseIntOfIntToString(n);
  }

  lemma BlankTrimStart(s: string)
    requires IsBlank(s)
    ensures TrimStart(s) == []
  {
    BlankIffTrimmedEmpty(s);
    var t := TrimStart(s);
    assert TrimEnd(t) == [];
  }

  /**
   * A value of white space only passes both number rules, although it parses to
   * `NaN`; the number inputs the page renders never hold such a value.
   */
  lemma BlankPassesNumberRules(s: string)
    requires s != "" && IsBlank(s)
    ensures !PriceRejected(s) && !StockRejected(s)
    ensures ParseFloat(s).None? && ParseInt(s).None?
  {
    BlankTrimStart(s);
  }

  // ---------------------------------------------------------------------------
  // Categories

  /** `allCategories.find(cat => cat.id === id)`: the first category with that id. */
  function FindCategory(cs: seq<MC.Category>, id: MC.CategoryId): (r: Option<MC.Category>)
    ensures r.Some? ==> r.value in cs && r.value.id == id
    ensures r.None? ==> forall i :: 0 <= i < |cs| ==> cs[i].id != id
  {
    FindBy(cs, (c: MC.Category) => c.id, id)
  }

  /** `productCategory?.parent_id` is truthy. */
  predicate IsChild(cs: seq<MC.Category>, id: MC.CategoryId) {
    FindCategory(cs, id).Some? && !MC.IsTopLevel(FindCategory(cs, id).value)
  }

  /** The (parent, child) pair the form is loaded with for a product in category `id`. */
  function SplitCategory(cs: seq<MC.Category>, id: MC.CategoryId): (r: (MC.CategoryId, MC.CategoryId))
    ensures IsChild(cs, id) ==> r == (FindCategory(cs, id).value.parentId.value, id)
    ensures !IsChild(cs, id) ==> r == (id, "")
  {
    if IsChild(cs, id) then (FindCategory(cs, id).value.parentId.value, id) else (id, "")
  }

  /** `formData.category_id || formData.parent_category_id`. */
  function ResolveCategory(parent: MC.CategoryId, child: MC.CategoryId): (r: MC.CategoryId)
    ensures child != "" ==> r == child
    ensures child == "" ==> r == parent
  {
    if child != "" then child else parent
  }

  /** Loading a product and submitting it again keeps its category. */
  lemma SplitThenResolve(cs: seq<MC.Category>, id: MC.CategoryId)
    requires id != "" || !IsChild(cs, id)
    ensures ResolveCategory(SplitCategory(cs, id).0, SplitCategory(cs, id).1) == id
  {
  }

  /** A chosen parent is never resolved away: the submitted category is never empty. */
  lemma ResolvedCategoryPresent(parent: MC.CategoryId, child: MC.CategoryId)
    requires !ParentRejected(parent)
    ensures ResolveCategory(parent, child) != ""
  {
  }

  // ---------------------------------------------------------------------------
  // Loading and submitting

  /** The fields of a fetched product the form uses; `priceText` is `price.toString()`. */
  datatype LoadedProduct = LoadedProduct(
    name: string, description: Option<string>, priceText: string, stock: int,
    categoryId: MC.CategoryId, imageUrl: string)

  /** The form `fetchProduct` fills in. */
  function LoadedForm(p: LoadedProduct, cs: seq<MC.Category>): (form: map<FormField, string>)
    ensures HasFields(form)
    ensures form[Name] == p.name && form[Description] == p.description.GetOr("")
    ensures form[Price] == p.priceText && form[Stock] == IntToString(p.stock)
    ensures (form[ParentCategoryId], form[CategoryId]) == SplitCategory(cs, p.categoryId)
  {
    var (parent, child) := SplitCategory(cs, p.categoryId);
    map[Name := p.name, Description := p.description.GetOr(""), Price := p.priceText,
        Stock := IntToString(p.stock), ParentCategoryId := parent, CategoryId := child]
  }

  /** The `productData` sent; `None` is the `NaN` a failed parse gives. */
  datatype ProductData = ProductData(
    name: string, description: string, price: Option<real>, stock: Option<int>,
    categoryId: MC.CategoryId, imageUrl: string)

  function DataOf(form: map<FormField, string>, imageUrl: string): (d: ProductData)
    requires HasFields(form)
    ensures d.name == form[Name] && d.description == form[Description]
    ensures d.price == ParseFloat(form[Price]) && d.stock == ParseInt(form[Stock])
    ensures d.categoryId == ResolveCategory(form[ParentCategoryId], form[CategoryId])
    ensures d.imageUrl == imageUrl
  {
    ProductData(form[Name], form[Description], ParseFloat(form[Price]), ParseInt(form[Stock]),
                ResolveCategory(form[ParentCategoryId], form[CategoryId]), imageUrl)
  }

  /** A product loaded for editing passes the stock rule exactly when its stock is not negative. */
  lemma LoadedStockAccepted(p: LoadedProduct, cs: seq<MC.Category>)
    ensures StockRejected(LoadedForm(p, cs)[Stock]) <==> p.stock < 0
  {
    StockRuleOnIntegers(p.stock);
  }

  /** The page's state. */
  class AdminProductForm {
    var formData: map<FormField, string>
    var errors: map<FormField, string>
    var childCategories: seq<MC.Category>
    var image: Option<ImageFile>
    var imagePreview: string

    ghost predicate Valid()
      reads this
    {
      HasFields(formData)
    }

    constructor ()
      ensures Valid() && formData == EmptyForm && errors == map[]
      ensures childCategories == [] && image.None? && imagePreview == ""
    {
      formData := EmptyForm;
      errors := map[];
      childCategories := [];
      image := None;
      imagePreview := "";
    }

    /**
     * `fetchProduct` after both requests: the form shows the product, its
     * category split into parent and child; the children of that parent are
     * listed when the category is a child (`None` is a failed request).
     */
    method LoadProduct(p: LoadedProduct, all: seq<MC.Category>, children: Option<seq<MC.Category>>)
      modifies this`formData, this`childCategories, this`imagePreview
      ensures Valid()
      ensures formData == LoadedForm(p, all) && imagePreview == p.imageUrl
      ensures IsChild(all, p.categoryId) ==> childCategories == children.GetOr([])
      ensures !IsChild(all, p.categoryId) ==> childCategories == old(childCategories)
    {
      formData := LoadedForm(p, all);
      if IsChild(all, p.categoryId) {
        childCategories := children.GetOr([]);
      }
      imagePreview := p.imageUrl;
    }

    /**
     * `handleChange`: set the field; a new parent also clears the child and
     * replaces the child list (`None` is a failed request); the field's own
     * error, if set, becomes `''` and the other errors stay.
     */
    method HandleChange(name: FormField, value: string, children: Option<seq<MC.Category>>)
      requires Valid()
      modifies this`formData, this`errors, this`childCategories
      ensures Valid()
      ensures name == ParentCategoryId ==> formData == old(formData)[ParentCategoryId := value][CategoryId := ""]
      ensures name != ParentCategoryId ==> formData == old(formData)[name := value]
      ensures name == ParentCategoryId && value != "" ==> childCategories == children.GetOr([])
      ensures name == ParentCategoryId && value == "" ==> childCategories == []
      ensures name != ParentCategoryId ==> childCategories == old(childCategories)
      ensures name in old(errors) && old(errors)[name] != "" ==> errors == old(errors)[name := ""]
      ensures !(name in old(errors) && old(errors)[name] != "") ==> errors == old(errors)
    {
      if name == ParentCategoryId {
        formData := formData[ParentCategoryId := value][CategoryId := ""];
        childCategories := if value != "" then children.GetOr([]) else [];
      } else {
        formData := formData[name := value];
      }
      if name in errors && errors[name] != "" {
        errors := errors[name := ""];
      }
    }

    /** `handleImageChange`: a file over the limit is refused and nothing changes. */
    method HandleImageChange(file: Option<ImageFile>)
      modifies this`image, this`imagePreview
      ensures file.None? || file.value.size > MaxImageBytes ==>
        image == old(image) && imagePreview == old(imagePreview)
      ensures file.Some? && file.value.size <= MaxImageBytes ==>
        image == file && imagePreview == file.value.dataUrl
    {
      if file.Some? && file.value.size <= MaxImageBytes {
        image := file;
        imagePreview := file.value.dataUrl;
      }
    }

    /** `removeImage`. */
    method RemoveImage()
      modifies this`image, this`imagePreview
      ensures image.None? && imagePreview == ""
    {
      image := None;
      imagePreview := "";
    }

    /**
     * `validateForm`: one message per failed rule, the map replaces the old
     * errors, and the form is valid exactly when the map is empty.
     */
    method ValidateForm() returns (ok: bool)
      requires Valid()
      modifies this`errors
      ensures Valid()
      ensures Name in errors <==> NameRejected(formData[Name])
      ensures Price in errors <==> PriceRejected(formData[Price])
      ensures Stock in errors <==> StockRejected(formData[Stock])
      ensures ParentCategoryId in errors <==> ParentRejected(formData[ParentCategoryId])
      ensures Description !in errors && CategoryId !in errors
      ensures Name in errors ==> errors[Name] == "Product name is required"
      ensures Price in errors ==> errors[Price] == "Valid price is required"
      ensures Stock in errors ==> errors[Stock] == "Valid stock quantity is required"
      ensures ParentCategoryId in errors ==> errors[ParentCategoryId] == "Parent category is required"
      ensures ok <==> errors == map[]
    {
      var found: map<FormField, string> := map[];
      if NameRejected(formData[Name]) {
        found := found[Name := "Product name is required"];
      }
      if PriceRejected(formData[Price]) {
        found := found[Price := "Valid price is required"];
      }
      if StockRejected(formData[Stock]) {
        found := found[Stock := "Valid stock quantity is required"];
      }
      if ParentRejected(formData[ParentCategoryId]) {
        found := found[ParentCategoryId := "Parent category is required"];
      }
      errors := found;
      ok := found == map[];
    }

    /**
     * `handleSubmit` up to the save request: nothing is sent unless the form
     * is valid, or when the upload of a newly chosen image fails; the image URL
     * is the uploaded one for a new image and the current preview otherwise.
     */
    method HandleSubmit(uploadedUrl: Option<string>) returns (sent: Option<ProductData>)
      requires Valid()
      modifies this`errors
      ensures Valid()
      ensures sent.Some? ==> errors == map[]
      ensures sent.Some? && image.None? ==> sent.value == DataOf(formData, imagePreview)
      ensures sent.Some? && image.Some? ==> uploadedUrl.Some? && sent.value == DataOf(formData, uploadedUrl.value)
      ensures sent.Some? ==> sent.value.categoryId != "" && !PriceRejected(formData[Price]) &&
                             !StockRejected(formData[Stock]) && Trim(sent.value.name) != ""
      ensures errors == map[] && (image.None? || uploadedUrl.Some?) ==> sent.Some?
      ensures Name in errors <==> NameRejected(formData[Name])
      ensures Price in errors <==> PriceRejected(formData[Price])
      ensures Stock in errors <==> StockRejected(formData[Stock])
      ensures ParentCategoryId in errors <==> ParentRejected(formData[ParentCategoryId])
      ensures Description !in errors && CategoryId !in errors
      ensures Name in errors ==> errors[Name] == "Product name is required"
      ensures Price in errors ==> errors[Price] == "Valid price is required"
      ensures Stock in errors ==> errors[Stock] == "Valid stock quantity is required"
      ensures ParentCategoryId in errors ==> errors[ParentCategoryId] == "Parent category is required"
    {
      var ok := ValidateForm();
      if !ok {
        return None;
      }
      var url := imagePreview;
      if image.Some? {
        if uploadedUrl.None? {
          return None;
        }
        url := uploadedUrl.value;
      }
      ResolvedCategoryPresent(formData[ParentCategoryId], formData[CategoryId]);
      sent := Some(DataOf(formData, url));
    }
  }
}
