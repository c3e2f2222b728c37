/** `src/app/checkout/success/page.tsx`: reads the pending-order snapshot,
    looks the charge up, turns it into a three-valued payment status, removes
    the snapshot once the payment is confirmed, and chooses between the
    loading, "Order Not Found" and order views. */
module Confirmation {
  import opened Common
  import opened JsonValue
  import opened Browser
  import Checkout
  import CoinbaseCommerce

  type Lookup = CoinbaseCommerce.Lookup

  datatype Status = Pending | Confirmed | Failed

  // ---------------------------------------------------------------------------
  // The status rule

  /** The result of a `some` call that may throw. */
  datatype Scan = Threw | Answered(found: bool)

  /** The element has `status === want`. */
  predicate HasStatus(e: Json, want: string) {
    !e.JNull? && Get(e, "status") == Some(JStr(want))
  }

  /** `elems.some(e => e.status === want)`: left to right, stopping at the
      first match; reading `status` of a `null` element throws. */
  function SomeStatus(elems: seq<Json>, want: string): Scan {
    if elems == [] then Answered(false)
    else if elems[0].JNull? then Threw
    else if HasStatus(elems[0], want) then Answered(true)
    else SomeStatus(elems[1..], want)
  }

  /** On a list without `null` entries the scan answers whether some entry
      carries the wanted status. */
  lemma {:induction false} SomeStatusMeaning(elems: seq<Json>, want: string)
    requires forall i :: 0 <= i < |elems| ==> !elems[i].JNull?
    ensures SomeStatus(elems, want) == Answered(exists i :: 0 <= i < |elems| && HasStatus(elems[i], want))
  {
    if elems != [] {
      SomeStatusMeaning(elems[1..], want);
      if !HasStatus(elems[0], want) {
        assert (exists i :: 0 <= i < |elems| && HasStatus(elems[i], want))
          == (exists i :: 0 <= i < |elems[1..]| && HasStatus(elems[1..][i], want)) by {
          forall i | 0 <= i < |elems| && HasStatus(elems[i], want)
            ensures 0 <= i - 1 < |elems[1..]| && HasStatus(elems[1..][i - 1], want)
          {
          }
        }
      }
    }
  }

  /** `charge.field && charge.field.some(...)`: a missing or falsy field
      answers false, a truthy field that is not an array has no `some` and
      throws, and so does reading a field of a `null` charge. */
  function AnyWithStatus(charge: Json, field: string, want: string): Scan {
    if charge.JNull? then Threw
    else
      match Get(charge, field)
      case None => Answered(false)
      case Some(v) =>
        if !Truthy(v) then Answered(false)
        else if v.JArr? then SomeStatus(v.elems, want)
        else Threw
  }

  /** `checkPaymentStatus` once `getCharge` has settled: confirmed on a
      CONFIRMED payment, else on a COMPLETED timeline event, else pending;
      failed when anything throws. */
  function StatusOf(lookup: Lookup): Status {
    match lookup
    case LookupFailed => Failed
    case Fetched(charge) =>
      var payments := AnyWithStatus(charge, "payments", "CONFIRMED");
      if payments.Threw? then Failed
      else if payments.found then Confirmed
      else
        var timeline := AnyWithStatus(charge, "timeline", "COMPLETED");
        if timeline.Threw? then Failed
        else if timeline.found then Confirmed
        else Pending
  }

  /** The field is absent, falsy, or an array without `null` entries. */
  predicate ListLike(charge: Json, field: string)
    requires !charge.JNull?
  {
    match Get(charge, field)
    case None => true
    case Some(v) =>
      !Truthy(v) || (v.JArr? && forall i :: 0 <= i < |v.elems| ==> !v.elems[i].JNull?)
  }

  /** The field is an array with an entry carrying the wanted status. */
  predicate Mentions(charge: Json, field: string, want: string)
    requires !charge.JNull?
  {
    Get(charge, field).Some? && Get(charge, field).value.JArr?
    && exists i :: 0 <= i < |Get(charge, field).value.elems| && HasStatus(Get(charge, field).value.elems[i], want)
  }

  lemma AnyWithStatusMeaning(charge: Json, field: string, want: string)
    requires !charge.JNull? && ListLike(charge, field)
    ensures AnyWithStatus(charge, field, want) == Answered(Mentions(charge, field, want))
  {
    var f := Get(charge, field);
    if f.Some? && f.value.JArr? {
      SomeStatusMeaning(f.value.elems, want);
    }
  }

  /** For a charge whose `payments` and `timeline` are lists (or missing):
      confirmed exactly when some payment is CONFIRMED or some timeline event
      is COMPLETED, pending otherwise, never failed. */
  lemma StatusRule(charge: Json)
    requires !charge.JNull? && ListLike(charge, "payments") && ListLike(charge, "timeline")
    ensures StatusOf(CoinbaseCommerce.Fetched(charge)) == Confirmed <==>
      Mentions(charge, "payments", "CONFIRMED") || Mentions(charge, "timeline", "COMPLETED")
    ensures StatusOf(CoinbaseCommerce.Fetched(charge)) == Pending <==>
      !Mentions(charge, "payments", "CONFIRMED") && !Mentions(charge, "timeline", "COMPLETED")
  {
    AnyWithStatusMeaning(charge, "payments", "CONFIRMED");
    AnyWithStatusMeaning(charge, "timeline", "COMPLETED");
  }

  /** A CONFIRMED payment decides on its own: the timeline is not looked at,
      even when reading it would throw. */
  lemma ConfirmedPaymentDecides(charge: Json)
    requires !charge.JNull? && ListLike(charge, "payments") && Mentions(charge, "payments", "CONFIRMED")
    ensures StatusOf(CoinbaseCommerce.Fetched(charge)) == Confirmed
  {
    AnyWithStatusMeaning(charge, "payments", "CONFIRMED");
  }

  /** A failed lookup, and only a failed lookup or a charge the rule cannot
      read, gives failed. */
  lemma FailedOnlyOnErrors(lookup: Lookup)
    ensures lookup.LookupFailed? ==> StatusOf(lookup) == Failed
    ensures StatusOf(lookup) == Failed ==>
      lookup.LookupFailed? || lookup.charge.JNull?
      || !ListLike(lookup.charge, "payments") || !ListLike(lookup.charge, "timeline")
  {
    if lookup.Fetched? && !lookup.charge.JNull?
       && ListLike(lookup.charge, "payments") && ListLike(lookup.charge, "timeline") {
      StatusRule(lookup.charge);
    }
  }

  // ---------------------------------------------------------------------------
  // The `order` query parameter

  /** Position of the first `c` in `s`, or `|s|` when there is none. */
  function IndexOf(s: string, c: char): (k: nat)
    ensures k <= |s|
    ensures k < |s| ==> s[k] == c
    ensures forall i :: 0 <= i < k ==> s[i] != c
  {
    if s == [] then 0
    else if s[0] == c then 0
    else 1 + IndexOf(s[1..], c)
  }

  /** Everything before the first `c`. */
  function Before(s: string, c: char): string {
    s[..IndexOf(s, c)]
  }

  /** Everything after the first `c`, empty when there is none. */
  function After(s: string, c: char): (r: string)
    ensures |r| < |s| || r == []
  {
    if IndexOf(s, c) < |s| then s[IndexOf(s, c) + 1..] else ""
  }

  /** The query string: after the first `?`, up to a `#`. */
  function QueryOf(url: string): string {
    if '?' in url then Before(After(url, '?'), '#') else ""
  }

  /** `URLSearchParams.get(name)` on a query: the value of the first
      `&`-separated pair whose name matches. */
  function ParamIn(q: string, name: string): Option<string>
    decreases |q|
  {
    var pair := Before(q, '&');
    if Before(pair, '=') == name then Some(After(pair, '='))
    else if IndexOf(q, '&') == |q| then None
    else ParamIn(After(q, '&'), name)
  }

  function SearchParam(url: string, name: string): Option<string> {
    ParamIn(QueryOf(url), name)
  }

  lemma IndexOfAbsent(s: string, c: char)
    requires c !in s
    ensures IndexOf(s, c) == |s|
  {
  }

  lemma IndexOfAt(a: string, c: char, b: string)
    requires c !in a
    ensures IndexOf(a + [c] + b, c) == |a|
  {
    assert (a + [c] + b)[|a|] == c;
  }

  lemma SuccessUrlQuery(origin: string, num: string)
    requires '?' !in origin && '#' !in origin && '#' !in num
    ensures QueryOf(origin + Checkout.SuccessPath + num) == "order=" + num
  {
    var head := origin + "/checkout/success";
    var q := "order=" + num;
    assert origin + Checkout.SuccessPath + num == head + ['?'] + q;
    IndexOfAt(head, '?', q);
    IndexOfAbsent(q, '#');
  }

  lemma OrderPairValue(num: string)
    requires '&' !in num && '=' !in num
    ensures ParamIn("order=" + num, "order") == Some(num)
  {
    var q := "order=" + num;
    IndexOfAbsent(q, '&');
    assert Before(q, '&') == q;
    assert q == "order" + ['='] + num;
    IndexOfAt("order", '=', num);
  }

  /** The `order` parameter of a success URL is the order number it was
      built with, when the number holds no `&`, `#` or `=`. */
  lemma SuccessUrlParam(origin: string, num: string)
    requires '?' !in origin && '#' !in origin
    requires '&' !in num && '#' !in num && '=' !in num
    ensures SearchParam(origin + Checkout.SuccessPath + num, "order") == Some(num)
  {
    SuccessUrlQuery(origin, num);
    OrderPairValue(num);
  }

  /** The success URL the checkout page sends the payer to carries the order
      number back: the `order` parameter of the redirect URL is exactly the
      order number, for any cart, form and page origin (an origin holds no
      `?` or `#`). */
  lemma RedirectCarriesOrderNumber(cart: Cart.CartState, c: CustomerInfo, now: nat, origin: string)
    requires '?' !in origin && '#' !in origin
    ensures SearchParam(Checkout.BuildCharge(cart, c, Checkout.OrderNumber(now), origin).redirectUrl, "order")
      == Some(Checkout.OrderNumber(now))
  {
    var num := Checkout.OrderNumber(now);
    Checkout.OrderNumberFormat(now);
    SuccessUrlParam(origin, num);
  }

  // ---------------------------------------------------------------------------
  // The page

  datatype View = LoadingView | NotFoundView | OrderView(status: Status)

  /** `!value` for the query parameter. */
  predicate Present(v: Option<string>) {
    v.Some? && v.value != ""
  }

  /** The render: the spinner while loading, then "Order Not Found" without a
      stored order or an `order` parameter, whatever the payment status. */
  function PageView(loading: bool, orderInfo: Option<PendingOrder>, orderParam: Option<string>, status: Status): (v: View)
    ensures v == LoadingView <==> loading
    ensures v == NotFoundView <==> !loading && (orderInfo.None? || !Present(orderParam))
    ensures v.OrderView? ==> v.status == status
  {
    if loading then LoadingView
    else if orderInfo.None? || !Present(orderParam) then NotFoundView
    else OrderView(status)
  }

  /** The lookup runs only for a readable stored order with a charge id. */
  predicate LookupRuns(slot: PendingSlot) {
    slot.SavedPending? && slot.order.chargeId != ""
  }

  class SuccessPage {
    var orderInfo: Option<PendingOrder>
    var paymentStatus: Status
    var loading: bool
    const orderParam: Option<string>
    const storage: LocalStorage

    constructor (storage: LocalStorage, url: string)
      ensures orderInfo == None && paymentStatus == Pending && loading
      ensures orderParam == SearchParam(url, "order") && this.storage == storage
    {
      orderInfo := None;
      paymentStatus := Pending;
      loading := true;
      orderParam := SearchParam(url, "order");
      this.storage := storage;
    }

    function View(): View
      reads this
    {
      PageView(loading, orderInfo, orderParam, paymentStatus)
    }

    /** `checkPaymentStatus` once the charge lookup has settled. */
    method CheckPaymentStatus(lookup: Lookup)
      modifies this`paymentStatus, storage`pendingOrder
      ensures paymentStatus == StatusOf(lookup)
      ensures storage.pendingOrder == if paymentStatus == Confirmed then NoPending else old(storage.pendingOrder)
    {
      if lookup.LookupFailed? {
        paymentStatus := Failed;
        return;
      }
      var payments := AnyWithStatus(lookup.charge, "payments", "CONFIRMED");
      if payments.Threw? {
        paymentStatus := Failed;
      } else if payments.found {
        paymentStatus := Confirmed;
        storage.pendingOrder := NoPending;
      } else {
        var timeline := AnyWithStatus(lookup.charge, "timeline", "COMPLETED");
        if timeline.Threw? {
          paymentStatus := Failed;
        } else if timeline.found {
          paymentStatus := Confirmed;
          storage.pendingOrder := NoPending;
        } else {
          paymentStatus := Pending;
        }
      }
    }

    /** `loadOrderInfo` with the charge looked up where the payment SDK can
        run (on the server): `lookup` is what that lookup returned. */
    method LoadOrderInfo(lookup: Lookup)
      modifies this`orderInfo, this`paymentStatus, this`loading, storage`pendingOrder
      ensures !loading
      ensures orderInfo == if old(storage.pendingOrder).SavedPending? then Some(old(storage.pendingOrder).order)
                           else old(orderInfo)
      ensures LookupRuns(old(storage.pendingOrder)) ==>
        && paymentStatus == StatusOf(lookup)
        && storage.pendingOrder == if paymentStatus == Confirmed then NoPending else old(storage.pendingOrder)
      ensures !LookupRuns(old(storage.pendingOrder)) ==>
        paymentStatus == old(paymentStatus) && storage.pendingOrder == old(storage.pendingOrder)
    {
      var stored := storage.pendingOrder;
      if stored.SavedPending? {
        var order := stored.order;
        orderInfo := Some(order);
        if order.chargeId != "" {
          CheckPaymentStatus(lookup);
        }
      }
      loading := false;
    }

    /** `loadOrderInfo` as written: the page is a browser component and calls
        the server-only `getCharge` itself, so the lookup always throws. */
    method LoadOrderInfoInBrowser(gateway: CoinbaseCommerce.Gateway, env: CoinbaseCommerce.Env,
                                  retrieve: string -> CoinbaseCommerce.SdkReply)
      modifies this`orderInfo, this`paymentStatus, this`loading, storage`pendingOrder, gateway
      ensures !loading
      ensures gateway.State() == old(gateway.State())
      ensures orderInfo == if old(storage.pendingOrder).SavedPending? then Some(old(storage.pendingOrder).order)
                           else old(orderInfo)
      ensures LookupRuns(old(storage.pendingOrder)) ==> paymentStatus == Failed
      ensures !LookupRuns(old(storage.pendingOrder)) ==> paymentStatus == old(paymentStatus)
      ensures storage.pendingOrder == old(storage.pendingOrder)
    {
      var stored := storage.pendingOrder;
      if stored.SavedPending? {
        var order := stored.order;
        orderInfo := Some(order);
        if order.chargeId != "" {
          var lookup := gateway.GetCharge(env.(onServer := false), order.chargeId, retrieve);
          CheckPaymentStatus(lookup);
        }
      }
      loading := false;
    }
  }

  /** A charge whose one payment is CONFIRMED. */
  const ConfirmedCharge := JObj(map["payments" := JArr([JObj(map["status" := JStr("CONFIRMED")])])])

  /** The status rule confirms that charge. */
  lemma ConfirmedChargeStatus()
    ensures StatusOf(CoinbaseCommerce.Fetched(ConfirmedCharge)) == Confirmed
  {
    var p := JArr([JObj(map["status" := JStr("CONFIRMED")])]);
    assert Get(ConfirmedCharge, "payments") == Some(p);
    assert HasStatus(p.elems[0], "CONFIRMED");
  }

  /** A stored order whose charge the SDK returns with a confirmed payment,
      loaded once by the page as written and once with the lookup done on the
      server, each on its own fresh storage: the page as written shows
      "failed" and keeps the pending order, the server lookup shows
      "confirmed" and removes it. */
  method ConfirmedChargeReportedFailed(order: PendingOrder, url: string, env: CoinbaseCommerce.Env,
                                       retrieve: string -> CoinbaseCommerce.SdkReply)
    returns (asWritten: View, keptAsWritten: PendingSlot, intended: View, keptIntended: PendingSlot)
    requires order.chargeId != "" && Present(SearchParam(url, "order"))
    requires retrieve(order.chargeId) == CoinbaseCommerce.SdkReturned(ConfirmedCharge)
    ensures StatusOf(CoinbaseCommerce.Fetched(ConfirmedCharge)) == Confirmed
    ensures asWritten == OrderView(Failed) && keptAsWritten == SavedPending(order)
    ensures intended == OrderView(Confirmed) && keptIntended == NoPending
  {
    ConfirmedChargeStatus();
    var storage := new LocalStorage(NoCart, SavedPending(order));
    var gateway := new CoinbaseCommerce.Gateway();
    var page := new SuccessPage(storage, url);
    page.LoadOrderInfoInBrowser(gateway, env, retrieve);
    asWritten := page.View();
    keptAsWritten := storage.pendingOrder;

    var serverStorage := new LocalStorage(NoCart, SavedPending(order));
    var serverPage := new SuccessPage(serverStorage, url);
    serverPage.LoadOrderInfo(CoinbaseCommerce.Fetched(ConfirmedCharge));
    intended := serverPage.View();
    keptIntended := serverStorage.pendingOrder;
  }

  /** Two visits to the success URL sharing one browser storage: the first
      shows the order with its status; once that status is confirmed the
      snapshot is gone and the reload shows "Order Not Found", otherwise the
      reload shows the order again with the newly looked-up status. */
  method VisitTwice(order: PendingOrder, url: string, first: Lookup, second: Lookup)
    returns (v1: View, v2: View)
    requires order.chargeId != ""
    ensures v1 == if Present(SearchParam(url, "order")) then OrderView(StatusOf(first)) else NotFoundView
    ensures v2 == if StatusOf(first) == Confirmed || !Present(SearchParam(url, "order")) then NotFoundView
                  else OrderView(StatusOf(second))
  {
    var storage := new LocalStorage(NoCart, SavedPending(order));
    var page := new SuccessPage(storage, url);
    page.LoadOrderInfo(first);
    v1 := page.View();
    var reloaded := new SuccessPage(storage, url);
    reloaded.LoadOrderInfo(second);
    v2 := reloaded.View();
  }
}
