/**
 * The checkout page, `frontend/src/pages/Checkout.jsx`: the shipping form, its
 * validation, the order request it sends and the totals it shows.
 */
module CheckoutPage {

  import opened Wrappers
  import opened Text
  import opened RecordStore
  import opened OrderController

  /** One `cart_items` entry with the price of its joined product. */
  datatype CartItem = CartItem(productId: Id, quantity: int, price: int)

  /** The named inputs of the shipping form. */
  datatype Field = Address | City | State | ZipCode | Country | Phone

  /** The input's `name` attribute: `shipping_address`, `shipping_city`, and so on. */
  function Name(f: Field): string {
    "shipping_" + match f
      case Address => "address"
      case City => "city"
      case State => "state"
      case ZipCode => "zip_code"
      case Country => "country"
      case Phone => "phone"
  }

  /** The fields `validateForm` checks, in the order it checks them. */
  const Required: seq<Field> := [Address, City, State, ZipCode, Phone]

  /** The values of the country `<select>`. */
  const CountryOptions: seq<string> := ["United States", "Canada", "United Kingdom", "Australia"]

  const InitialForm: map<Field, string> :=
    map[Address := "", City := "", State := "", ZipCode := "", Country := "United States", Phone := ""]

  /** Every shipping field has a value. */
  predicate HasFields(form: map<Field, string>) {
    Address in form && City in form && State in form && ZipCode in form && Country in form && Phone in form
  }

  /** Every required field is non-blank after trimming. */
  predicate FormComplete(form: map<Field, string>)
    requires HasFields(form)
  {
    forall i :: 0 <= i < |Required| ==> !IsBlank(form[Required[i]])
  }

  /** `field.replace('shipping_', '').replace('_', ' ')`. */
  function Label(field: string): string {
    ReplaceFirst(ReplaceFirst(field, "shipping_", ""), "_", " ")
  }

  function Prompt(f: Field): string {
    "Please fill in your " + Label(Name(f))
  }

  lemma StripPrefix(rest: string)
    ensures ReplaceFirst("shipping_" + rest, "shipping_", "") == rest
  {
    var s := "shipping_" + rest;
    assert OccursAt(s, "shipping_", 0) by { assert s[..9] == "shipping_"; }
    IndexOfIs(s, "shipping_", 0);
  }

  /** Only the first underscore after the prefix becomes a space. */
  lemma LabelOfTwoWords(a: string, b: string)
    requires forall i :: 0 <= i < |a| ==> a[i] != '_'
    ensures Label("shipping_" + (a + "_" + b)) == a + " " + b
  {
    StripPrefix(a + "_" + b);
    var s := a + "_" + b;
    assert OccursAt(s, "_", |a|) by { assert s[|a|..|a| + 1] == "_"; }
    forall j | 0 <= j < |a| ensures !OccursAt(s, "_", j) {
      assert s[j..j + 1] == [a[j]];
    }
    IndexOfIs(s, "_", |a|);
    var r := ReplaceFirst(s, "_", " ");
    assert r == r[..|a|] + r[|a|..|a| + 1] + r[|a| + 1..];
    assert s[..|a|] == a && s[|a| + 1..] == b;
  }

  /** A field name with no further underscore keeps its name past the prefix. */
  lemma LabelOfOneWord(a: string)
    requires forall i :: 0 <= i < |a| ==> a[i] != '_'
    ensures Label("shipping_" + a) == a
  {
    StripPrefix(a);
  }

  /** `cart.cart_items.map(...)`: product and quantity copied, the price taken from the product. */
  function PayloadItems(cart: seq<CartItem>): (items: seq<ItemInput>)
    ensures |items| == |cart|
    ensures forall k :: 0 <= k < |cart| ==>
      items[k] == ItemInput(cart[k].productId, cart[k].quantity, cart[k].price)
  {
    seq(|cart|, k requires 0 <= k < |cart| => ItemInput(cart[k].productId, cart[k].quantity, cart[k].price))
  }

  /** `orderData`: the items and the six shipping fields as typed, untrimmed; no tax or total. */
  function Payload(cart: seq<CartItem>, form: map<Field, string>): (req: OrderRequest)
    requires HasFields(form)
    ensures req.items == Some(PayloadItems(cart))
    ensures req.address == form[Address] && req.city == form[City] && req.state == form[State]
    ensures req.zipCode == form[ZipCode] && req.country == form[Country] && req.phone == form[Phone]
  {
    OrderRequest(Some(PayloadItems(cart)),
                 form[Address], form[City], form[State], form[ZipCode], form[Country], form[Phone])
  }

  /** A form that passes validation, sent with a non-empty cart, passes the server's checks. */
  lemma CompleteFormPassesServerChecks(cart: seq<CartItem>, form: map<Field, string>)
    requires HasFields(form) && FormComplete(form) && cart != []
    ensures RequestError(Payload(cart, form)).None?
  {
    assert !IsBlank(form[Required[0]]) && !IsBlank(form[Required[1]]) && !IsBlank(form[Required[2]]);
    assert !IsBlank(form[Required[3]]) && !IsBlank(form[Required[4]]);
  }

  /** A country picked from the options is sent as is, so the server's 'India' default never applies. */
  lemma ChosenCountryIsKept(cart: seq<CartItem>, form: map<Field, string>)
    requires HasFields(form) && form[Country] in CountryOptions
    ensures ShippingOf(Payload(cart, form)).country == form[Country]
    ensures ShippingOf(Payload(cart, form)).country != "India"
  {
  }

  /** `cartItems.reduce((total, item) => total + item.products.price * item.quantity, 0)`. */
  function Subtotal(cart: seq<CartItem>): int {
    if cart == [] then 0
    else Subtotal(cart[..|cart| - 1]) + cart[|cart| - 1].price * cart[|cart| - 1].quantity
  }

  /** The page's subtotal is the total the server will store for the order it sends. */
  lemma {:induction false} SubtotalIsServerTotal(cart: seq<CartItem>)
    ensures Subtotal(cart) == Total(PayloadItems(cart))
    decreases |cart|
  {
    if cart != [] {
      var init := cart[..|cart| - 1];
      assert PayloadItems(cart)[..|cart| - 1] == PayloadItems(init);
      SubtotalIsServerTotal(init);
    }
  }

  /** Free shipping plus 8% tax on the subtotal. */
  function GrandTotal(subtotal: int): (t: real)
    ensures t == (subtotal as real) * 1.08
  {
    var shipping := 0.0;
    var tax := (subtotal as real) * 0.08;
    subtotal as real + shipping + tax
  }

  /** The component's form state. */
  class Checkout {
    var formData: map<Field, string>
    var loading: bool

    /**
     * Every shipping field has a value, the country is one of the menu's, and
     * no request is in flight between events.
     */
    ghost predicate Valid()
      reads this
    {
      HasFields(formData) && formData[Country] in CountryOptions && !loading
    }

    constructor ()
      ensures Valid() && formData == InitialForm && !loading
    {
      formData := InitialForm;
      loading := false;
    }

    /**
     * `handleInputChange`: set one field, keep the others. The country comes
     * from the `<select>`, so its value is one of the options.
     */
    method HandleInputChange(name: Field, value: string)
      requires Valid()
      requires name == Country ==> value in CountryOptions
      modifies this`formData
      ensures Valid()
      ensures formData == old(formData)[name := value]
    {
      formData := formData[name := value];
    }

    /**
     * `validateForm`: the required fields in order; the first blank one is
     * reported and ends the check.
     */
    method ValidateForm() returns (ok: bool, message: Option<string>)
      requires Valid()
      ensures ok <==> FormComplete(formData)
      ensures ok ==> message.None?
      ensures !ok ==> exists k ::
        && 0 <= k < |Required|
        && IsBlank(formData[Required[k]])
        && (forall i :: 0 <= i < k ==> !IsBlank(formData[Required[i]]))
        && message == Some(Prompt(Required[k]))
    {
      for k := 0 to |Required|
        invariant forall i :: 0 <= i < k ==> !IsBlank(formData[Required[i]])
      {
        if IsBlank(formData[Required[k]]) {
          return false, Some(Prompt(Required[k]));
        }
      }
      return true, None;
    }

    /**
     * `handleProceedToPayment` up to the request: nothing is sent unless the
     * form is complete; the loading flag is clear again afterwards.
     */
    method ProceedToPayment(cart: seq<CartItem>) returns (sent: Option<OrderRequest>)
      requires Valid()
      modifies this`loading
      ensures sent.Some? <==> FormComplete(formData)
      ensures sent.Some? ==> sent.value == Payload(cart, formData)
      ensures sent.Some? ==> ShippingOf(sent.value).country == formData[Country] != "India"
      ensures Valid()
    {
      var ok, _ := ValidateForm();
      if !ok {
        return None;
      }
      ChosenCountryIsKept(cart, formData);
      loading := true;
      sent := Some(Payload(cart, formData));
      loading := false;
    }
  }
}
