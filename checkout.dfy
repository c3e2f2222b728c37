/** The checkout page: the presence-only form check, the order number, the
    charge request built from the cart, and the payment handler that calls the
    create-charge route, stores the pending order and redirects. */
module Checkout {
  import opened Common
  import opened Cart
  import opened Browser
  import opened JsonValue
  import CreateChargeRoute

  // ---------------------------------------------------------------------------
  // The form check

  /** The characters `String.prototype.trim` strips: white space and line terminators. */
  predicate IsSpace(c: char) {
    c in {'\U{0009}', '\U{000B}', '\U{000C}', '\U{0020}', '\U{00A0}', '\U{FEFF}', '\U{000A}',
          '\U{000D}', '\U{2028}', '\U{2029}', '\U{1680}', '\U{2000}', '\U{2001}', '\U{2002}',
          '\U{2003}', '\U{2004}', '\U{2005}', '\U{2006}', '\U{2007}', '\U{2008}', '\U{2009}',
          '\U{200A}', '\U{202F}', '\U{205F}', '\U{3000}'}
  }

  function TrimStart(s: string): string {
    if s != [] && IsSpace(s[0]) then TrimStart(s[1..]) else s
  }

  function TrimEnd(s: string): string {
    if s != [] && IsSpace(s[|s| - 1]) then TrimEnd(s[..|s| - 1]) else s
  }

  function Trim(s: string): string {
    TrimEnd(TrimStart(s))
  }

  /** The field holds something besides white space. */
  predicate HasVisible(s: string) {
    exists i :: 0 <= i < |s| && !IsSpace(s[i])
  }

  lemma {:induction false} TrimStartBlank(s: string)
    ensures TrimStart(s) == [] <==> !HasVisible(s)
    ensures TrimStart(s) != [] ==> !IsSpace(TrimStart(s)[0])
  {
    if s != [] && IsSpace(s[0]) {
      TrimStartBlank(s[1..]);
      assert HasVisible(s) <==> HasVisible(s[1..]) by {
        if HasVisible(s) {
          var i :| 0 <= i < |s| && !IsSpace(s[i]);
          assert s[1..][i - 1] == s[i];
        }
        if HasVisible(s[1..]) {
          var i :| 0 <= i < |s[1..]| && !IsSpace(s[1..][i]);
          assert s[i + 1] == s[1..][i];
        }
      }
    } else if s != [] {
      assert !IsSpace(s[0]);
    }
  }

  lemma {:induction false} TrimEndKeepsFirst(s: string)
    requires s != [] && !IsSpace(s[0])
    ensures TrimEnd(s) != []
  {
    if IsSpace(s[|s| - 1]) {
      TrimEndKeepsFirst(s[..|s| - 1]);
    }
  }

  /** `s.trim() !== ""` exactly when the string has a non-space character. */
  lemma TrimmedNonEmpty(s: string)
    ensures Trim(s) != "" <==> HasVisible(s)
  {
    TrimStartBlank(s);
    if TrimStart(s) != [] {
      TrimEndKeepsFirst(TrimStart(s));
    }
  }

  /** `validateForm`. */
  predicate ValidateForm(c: CustomerInfo) {
    && Trim(c.firstName) != "" && Trim(c.lastName) != "" && Trim(c.email) != ""
    && Trim(c.address) != "" && Trim(c.city) != "" && Trim(c.state) != ""
    && Trim(c.zip) != ""
  }

  /** The form is accepted exactly when each of the seven fields has a
      character other than white space; nothing about its format is checked. */
  lemma ValidateFormIff(c: CustomerInfo)
    ensures ValidateForm(c) <==>
      && HasVisible(c.firstName) && HasVisible(c.lastName) && HasVisible(c.email)
      && HasVisible(c.address) && HasVisible(c.city) && HasVisible(c.state)
      && HasVisible(c.zip)
  {
    TrimmedNonEmpty(c.firstName);
    TrimmedNonEmpty(c.lastName);
    TrimmedNonEmpty(c.email);
    TrimmedNonEmpty(c.address);
    TrimmedNonEmpty(c.city);
    TrimmedNonEmpty(c.state);
    TrimmedNonEmpty(c.zip);
  }

  // ---------------------------------------------------------------------------
  // Decimal strings (`Number.prototype.toString` on whole numbers)

  predicate IsDigit(c: char) { '0' <= c <= '9' }

  predicate AllDigits(s: string) { forall i :: 0 <= i < |s| ==> IsDigit(s[i]) }

  function DigitChar(d: nat): (c: char)
    requires d < 10
    ensures IsDigit(c) && c as int - '0' as int == d
  {
    ('0' as int + d) as char
  }

  function Digits(n: nat): string
    decreases n
  {
    if n < 10 then [DigitChar(n)] else Digits(n / 10) + [DigitChar(n % 10)]
  }

  function IntToString(i: int): string {
    if i < 0 then "-" + Digits(-i) else Digits(i)
  }

  /** The number a string of decimal digits denotes. */
  function Value(s: string): nat
    requires AllDigits(s)
  {
    if s == [] then 0 else Value(s[..|s| - 1]) * 10 + (s[|s| - 1] as int - '0' as int)
  }

  function Pow10(k: nat): (p: nat)
    ensures p >= 1
  {
    if k == 0 then 1 else 10 * Pow10(k - 1)
  }

  /** `toString` of a whole number reads back as that number. */
  lemma {:induction false} DigitsValue(n: nat)
    ensures AllDigits(Digits(n)) && Value(Digits(n)) == n
  {
    if n >= 10 {
      DigitsValue(n / 10);
      var s := Digits(n);
      assert s[..|s| - 1] == Digits(n / 10);
    }
  }

  lemma ModSplit(n: nat, p: nat)
    requires p >= 1
    ensures n % (10 * p) == ((n / 10) % p) * 10 + n % 10
  {
    var q, r := n / 10, n % 10;
    var a, b := q / p, q % p;
    assert q == p * a + b;
    assert n == (10 * p) * a + (10 * b + r);
    ModUnique(n, 10 * p, a, 10 * b + r);
  }

  lemma LastSnoc(s: string, c: char, k: nat)
    requires k >= 1
    ensures Last(s + [c], k) == Last(s, k - 1) + [c]
  {
  }

  lemma ValueSnoc(u: string, c: char)
    requires AllDigits(u) && IsDigit(c)
    ensures AllDigits(u + [c]) && Value(u + [c]) == Value(u) * 10 + (c as int - '0' as int)
  {
    assert (u + [c])[..|u|] == u;
  }

  /** The number the last k decimal digits of n denote, digit by digit. */
  function LowDigits(n: nat, k: nat): nat
    decreases k
  {
    if k == 0 then 0 else if n < 10 then n else LowDigits(n / 10, k - 1) * 10 + n % 10
  }

  /** The last k digits of a number are the number modulo 10^k. */
  lemma {:induction false} LowDigitsIsMod(n: nat, k: nat)
    ensures LowDigits(n, k) == n % Pow10(k)
    decreases k
  {
    if k > 0 {
      var p := Pow10(k - 1);
      assert Pow10(k) == 10 * p;
      if n < 10 {
        MulAtLeast(10, p);
        ModUnique(n, 10 * p, 0, n);
      } else {
        LowDigitsIsMod(n / 10, k - 1);
        ModSplit(n, p);
      }
    }
  }

  lemma LastDigitsOne(n: nat, k: nat)
    requires n < 10 && k >= 1
    ensures AllDigits(Last(Digits(n), k)) && Value(Last(Digits(n), k)) == LowDigits(n, k)
  {
    assert Last(Digits(n), k) == [DigitChar(n)];
  }

  lemma LastDigitsStep(n: nat, k: nat)
    requires n >= 10 && k >= 1
    requires AllDigits(Last(Digits(n / 10), k - 1))
    requires Value(Last(Digits(n / 10), k - 1)) == LowDigits(n / 10, k - 1)
    ensures AllDigits(Last(Digits(n), k)) && Value(Last(Digits(n), k)) == LowDigits(n, k)
  {
    var c := DigitChar(n % 10);
    var init := Digits(n / 10);
    assert Digits(n) == init + [c];
    LastSnoc(init, c, k);
    ValueSnoc(Last(init, k - 1), c);
  }

  /** The last k characters of a number's decimal string are digits, and
      they read back as its last k digits. */
  lemma {:induction false} LastDigitsValue(n: nat, k: nat)
    ensures AllDigits(Last(Digits(n), k))
    ensures Value(Last(Digits(n), k)) == LowDigits(n, k)
    decreases k
  {
    if k == 0 {
      assert Last(Digits(n), k) == [];
    } else if n < 10 {
      LastDigitsOne(n, k);
    } else {
      LastDigitsValue(n / 10, k - 1);
      LastDigitsStep(n, k);
    }
  }

  // ---------------------------------------------------------------------------
  // The order number

  /** `"TK" + Date.now().toString().slice(-6)`. */
  function OrderNumber(now: nat): string {
    "TK" + Last(Digits(now), 6)
  }

  /** A number of at least 10^k has more than k decimal digits. */
  lemma {:induction false} DigitsLength(n: nat, k: nat)
    requires n >= Pow10(k)
    ensures |Digits(n)| > k
    decreases k
  {
    if k > 0 {
      assert n >= 10 * Pow10(k - 1);
      DigitsLength(n / 10, k - 1);
    }
  }

  /** The order number is "TK" and at most six digits, which read back as the
      timestamp modulo one million; a timestamp of six digits or more gives
      exactly six, leading zeros included. An order number has no `&`, `#`
      or `=`. */
  lemma OrderNumberFormat(now: nat)
    ensures var r := OrderNumber(now);
      && 2 < |r| <= 8 && r[..2] == "TK"
      && AllDigits(r[2..]) && Value(r[2..]) == now % 1000000
      && (now >= 100000 ==> |r| == 8)
      && '&' !in r && '#' !in r && '=' !in r
  {
    if now >= 100000 {
      assert Pow10(5) == 100000;
      DigitsLength(now, 5);
    }
    LastDigitsValue(now, 6);
    LowDigitsIsMod(now, 6);
    var r := OrderNumber(now);
    assert r[2..] == Last(Digits(now), 6);
    assert Pow10(6) == 1000000;
  }

  // ---------------------------------------------------------------------------
  // The charge request

  datatype Money = Money(amount: string, currency: string)

  datatype ChargeLine = ChargeLine(
    name: string, quantity: int, price: int, color: string, tires: string, addOns: seq<AddOn>)

  datatype Metadata = Metadata(
    orderId: string, customerEmail: string, customerName: string, items: seq<ChargeLine>)

  datatype ChargeRequest = ChargeRequest(
    name: string, description: string, pricingType: string, localPrice: Money,
    metadata: Metadata, redirectUrl: string, cancelUrl: string)

  function ChargeLineOf(item: CartItem): ChargeLine {
    ChargeLine(item.name, item.quantity, item.price, item.color, item.tires, item.addOns)
  }

  /** `state.items.map(...)` into the metadata entries. */
  function ChargeLines(items: seq<CartItem>): (r: seq<ChargeLine>)
    ensures |r| == |items|
    ensures forall i :: 0 <= i < |items| ==> r[i] == ChargeLineOf(items[i])
  {
    if items == [] then [] else [ChargeLineOf(items[0])] + ChargeLines(items[1..])
  }

  const SuccessPath := "/checkout/success?order="
  const CheckoutPath := "/checkout"

  /** The `chargeData` literal. */
  function BuildCharge(cart: CartState, c: CustomerInfo, orderNum: string, origin: string): (r: ChargeRequest)
    ensures r.pricingType == "fixed_price" && r.localPrice.currency == "USD"
    ensures r.metadata.orderId == orderNum
    ensures |r.metadata.items| == |cart.items|
    ensures forall i :: 0 <= i < |cart.items| ==>
      var e := r.metadata.items[i]; var item := cart.items[i];
      e.name == item.name && e.quantity == item.quantity && e.price == item.price
      && e.color == item.color && e.tires == item.tires && e.addOns == item.addOns
  {
    ChargeRequest(
      "TurboKart Order #" + orderNum,
      "Premium Go-Kart Purchase - " + Digits(|cart.items|) + " item(s)",
      "fixed_price",
      Money(IntToString(cart.total), "USD"),
      Metadata(orderNum, c.email, c.firstName + " " + c.lastName, ChargeLines(cart.items)),
      origin + SuccessPath + orderNum,
      origin + CheckoutPath)
  }

  /** The amount sent is the cart total written in decimal, and reads back as it. */
  lemma AmountIsTotal(cart: CartState, c: CustomerInfo, orderNum: string, origin: string)
    requires cart.total >= 0
    ensures var amount := BuildCharge(cart, c, orderNum, origin).localPrice.amount;
      AllDigits(amount) && Value(amount) == cart.total
  {
    DigitsValue(cart.total);
  }

  function AddOnJson(a: AddOn): Json {
    JObj(map["name" := JStr(a.name), "price" := JNum(a.price)])
  }

  function AddOnsJson(addOns: seq<AddOn>): seq<Json> {
    if addOns == [] then [] else [AddOnJson(addOns[0])] + AddOnsJson(addOns[1..])
  }

  function LineJson(e: ChargeLine): Json {
    JObj(map["name" := JStr(e.name), "quantity" := JNum(e.quantity), "price" := JNum(e.price),
             "color" := JStr(e.color), "tires" := JStr(e.tires), "addOns" := JArr(AddOnsJson(e.addOns))])
  }

  function LinesJson(lines: seq<ChargeLine>): seq<Json> {
    if lines == [] then [] else [LineJson(lines[0])] + LinesJson(lines[1..])
  }

  /** The request as the route receives it after `JSON.stringify` and `request.json()`. */
  function ToJson(r: ChargeRequest): Json {
    JObj(map[
      "name" := JStr(r.name),
      "description" := JStr(r.description),
      "pricing_type" := JStr(r.pricingType),
      "local_price" := JObj(map["amount" := JStr(r.localPrice.amount), "currency" := JStr(r.localPrice.currency)]),
      "metadata" := JObj(map[
        "order_id" := JStr(r.metadata.orderId),
        "customer_email" := JStr(r.metadata.customerEmail),
        "customer_name" := JStr(r.metadata.customerName),
        "items" := JArr(LinesJson(r.metadata.items))]),
      "redirect_url" := JStr(r.redirectUrl),
      "cancel_url" := JStr(r.cancelUrl)])
  }

  /** Whatever the form and the cart hold, the request the page builds passes
      the route's required-field guard and is forwarded to the charge service. */
  lemma BuiltChargeIsAccepted(cart: CartState, c: CustomerInfo, orderNum: string, origin: string,
                              service: Json -> CreateChargeRoute.ServiceOutcome)
    ensures var body := ToJson(BuildCharge(cart, c, orderNum, origin));
      && CreateChargeRoute.Post(CreateChargeRoute.Body(body), service).reply.status != 400
      && CreateChargeRoute.Post(CreateChargeRoute.Body(body), service).forwarded == Some(body)
  {
    var body := ToJson(BuildCharge(cart, c, orderNum, origin));
    assert Get(body, "name").value == JStr("TurboKart Order #" + orderNum);
    assert ("TurboKart Order #" + orderNum)[0] == 'T';
  }

  // ---------------------------------------------------------------------------
  // The order summary

  /** `item.addOns.reduce((sum, a) => sum + a.price, 0)`, folded from the left. */
  function AddOnSum(addOns: seq<AddOn>): int {
    if addOns == [] then 0 else AddOnSum(addOns[..|addOns| - 1]) + addOns[|addOns| - 1].price
  }

  /** The line total shown next to each item. */
  function ItemTotal(item: CartItem): int {
    (item.price + AddOnSum(item.addOns)) * item.quantity
  }

  lemma {:induction false} AddOnSumIsTotal(addOns: seq<AddOn>)
    ensures AddOnSum(addOns) == AddOnTotal(addOns)
  {
    if addOns != [] {
      var n := |addOns| - 1;
      AddOnSumIsTotal(addOns[..n]);
      AddOnTotalSnoc(addOns[..n], addOns[n]);
      assert addOns[..n] + [addOns[n]] == addOns;
    }
  }

  lemma {:induction false} AddOnTotalSnoc(s: seq<AddOn>, a: AddOn)
    ensures AddOnTotal(s + [a]) == AddOnTotal(s) + a.price
  {
    if s == [] {
      assert [a][1..] == [];
    } else {
      assert (s + [a])[1..] == s[1..] + [a];
      AddOnTotalSnoc(s[1..], a);
    }
  }

  /** The summary uses the cart's own formula: each displayed line total is the
      line's unit price times its quantity. */
  lemma ItemTotalIsLineTotal(item: CartItem)
    ensures ItemTotal(item) == LineTotal(item)
  {
    AddOnSumIsTotal(item.addOns);
  }

  function SumItemTotals(items: seq<CartItem>): int {
    if items == [] then 0 else ItemTotal(items[0]) + SumItemTotals(items[1..])
  }

  /** On a consistent cart the displayed line totals add up to the displayed subtotal. */
  lemma {:induction false} SubtotalMatchesLines(items: seq<CartItem>)
    ensures SumItemTotals(items) == Total(items)
  {
    if items != [] {
      ItemTotalIsLineTotal(items[0]);
      SubtotalMatchesLines(items[1..]);
    }
  }

  datatype View = OrderPlacedView | EmptyCartView | FormView

  /** Which of the page's three renderings is shown. */
  function PageView(orderPlaced: bool, cart: CartState): (v: View)
    ensures !orderPlaced ==> (v == EmptyCartView <==> cart.items == [])
    ensures !orderPlaced ==> (v == FormView <==> cart.items != [])
  {
    if orderPlaced then OrderPlacedView
    else if |cart.items| == 0 then EmptyCartView
    else FormView
  }

  // ---------------------------------------------------------------------------
  // The payment handler

  const FillFieldsMessage := "Please fill in all required fields"
  const PaymentFailedMessage := "Failed to initialize payment. Please try again."

  /** The `charge` object the route returns. Either property may be absent,
      and reading an absent one gives `undefined` without throwing. */
  datatype ChargeRef = ChargeRef(id: Option<string>, hostedUrl: Option<string>)

  /** The outcome of the `fetch` to the create-charge route. `charge` is None
      when the JSON has no `charge` (or a null one), so that reading
      `charge.id` throws. */
  datatype FetchReply = NetworkError | Responded(status: int, charge: Option<ChargeRef>)

  /** The reply passes `response.ok` and holds a `charge` object. */
  predicate Succeeded(reply: FetchReply) {
    reply.Responded? && 200 <= reply.status < 300 && reply.charge.Some?
  }

  /** The stored `chargeId`: `JSON.stringify` drops an undefined one, which
      the snapshot records as missing (empty). */
  function StoredChargeId(charge: ChargeRef): (id: string)
    ensures charge.id.Some? ==> id == charge.id.value
    ensures charge.id.None? ==> id == ""
  {
    match charge.id
    case Some(v) => v
    case None => ""
  }

  /** Where `window.location.href = charge.hosted_url` sends the browser:
      assigning `undefined` navigates to the relative URL "undefined". */
  function Destination(charge: ChargeRef): (url: string)
    ensures charge.hostedUrl.Some? ==> url == charge.hostedUrl.value
    ensures charge.hostedUrl.None? ==> url == "undefined"
  {
    match charge.hostedUrl
    case Some(v) => v
    case None => "undefined"
  }

  datatype Field = FirstName | LastName | Email | Address | City | State | Zip

  function SetField(c: CustomerInfo, f: Field, value: string): CustomerInfo {
    match f
    case FirstName => c.(firstName := value)
    case LastName => c.(lastName := value)
    case Email => c.(email := value)
    case Address => c.(address := value)
    case City => c.(city := value)
    case State => c.(state := value)
    case Zip => c.(zip := value)
  }

  class CheckoutPage {
    var customerInfo: CustomerInfo
    var isProcessingPayment: bool
    var paymentError: Option<string>
    var orderPlaced: bool
    /** Every charge request sent to the create-charge route, in order. */
    var sentRequests: seq<ChargeRequest>
    /** Where `window.location.href` was sent, if anywhere. */
    var redirectedTo: Option<string>
    const storage: LocalStorage

    constructor (storage: LocalStorage)
      ensures customerInfo == CustomerInfo("", "", "", "", "", "", "")
      ensures !isProcessingPayment && paymentError == None && !orderPlaced
      ensures sentRequests == [] && redirectedTo == None && this.storage == storage
    {
      customerInfo := CustomerInfo("", "", "", "", "", "", "");
      isProcessingPayment := false;
      paymentError := None;
      orderPlaced := false;
      sentRequests := [];
      redirectedTo := None;
      this.storage := storage;
    }

    /** `handleInputChange`. */
    method HandleInputChange(f: Field, value: string)
      modifies this`customerInfo
      ensures customerInfo == SetField(old(customerInfo), f, value)
    {
      customerInfo := SetField(customerInfo, f, value);
    }

    /** `handleCoinbasePayment`, with the clock, the page origin and the
        route's reply as inputs. The cart is only read. */
    method HandleCoinbasePayment(cart: CartState, now: nat, origin: string, reply: FetchReply)
      modifies this`isProcessingPayment, this`paymentError, this`sentRequests, this`redirectedTo, storage
      ensures storage.cart == old(storage.cart)
      ensures !ValidateForm(customerInfo) ==>
        && paymentError == Some(FillFieldsMessage)
        && isProcessingPayment == old(isProcessingPayment)
        && sentRequests == old(sentRequests)
        && redirectedTo == old(redirectedTo)
        && storage.pendingOrder == old(storage.pendingOrder)
      ensures ValidateForm(customerInfo) ==>
        sentRequests == old(sentRequests) + [BuildCharge(cart, customerInfo, OrderNumber(now), origin)]
      ensures ValidateForm(customerInfo) && Succeeded(reply) ==>
        && storage.pendingOrder == SavedPending(PendingOrder(
             OrderNumber(now), StoredChargeId(reply.charge.value), customerInfo, cart.items, cart.total))
        && redirectedTo == Some(Destination(reply.charge.value))
        && isProcessingPayment && paymentError == None
      ensures ValidateForm(customerInfo) && Succeeded(reply) && reply.charge.value.hostedUrl.None? ==>
        redirectedTo == Some("undefined") && paymentError == None
      ensures ValidateForm(customerInfo) && !Succeeded(reply) ==>
        && paymentError == Some(PaymentFailedMessage)
        && !isProcessingPayment
        && redirectedTo == old(redirectedTo)
        && storage.pendingOrder == old(storage.pendingOrder)
    {
      if !ValidateForm(customerInfo) {
        paymentError := Some(FillFieldsMessage);
        return;
      }
      isProcessingPayment := true;
      paymentError := None;
      var orderNum := OrderNumber(now);
      var chargeData := BuildCharge(cart, customerInfo, orderNum, origin);
      sentRequests := sentRequests + [chargeData];
      if Succeeded(reply) {
        var charge := reply.charge.value;
        storage.pendingOrder := SavedPending(PendingOrder(orderNum, StoredChargeId(charge), customerInfo, cart.items, cart.total));
        redirectedTo := Some(Destination(charge));
      } else {
        paymentError := Some(PaymentFailedMessage);
        isProcessingPayment := false;
      }
    }
  }
}
