/** Starting a payment (`processPayment`): the purchase parameters sent to
    CHIP's create-purchase endpoint, built from the checkout's payment data,
    and the classification of CHIP's answer. */
module Checkout {
  import opened PhpValues
  import opened Platform
  import opened Config
  import ChipApi

  // ------------------------------------------------------------ integer casts

  /** The whitespace PHP skips before a numeric string. */
  predicate LeadingSpace(c: char) {
    c == ' ' || c == '\t' || c == '\n' || c == '\r' || c == '\U{0B}' || c == '\U{0C}'
  }

  function SkipSpace(s: string): (r: string)
    ensures |r| <= |s| && r == s[|s| - |r|..]
    ensures |r| > 0 ==> !LeadingSpace(r[0])
  {
    if |s| > 0 && LeadingSpace(s[0]) then SkipSpace(s[1..]) else s
  }

  /** The longest prefix of decimal digits. */
  function DigitPrefix(s: string): (r: string)
    ensures |r| <= |s| && r == s[..|r|]
    ensures forall j :: 0 <= j < |r| ==> '0' <= r[j] <= '9'
    ensures |r| < |s| ==> !('0' <= s[|r|] <= '9')
  {
    if |s| > 0 && '0' <= s[0] <= '9' then [s[0]] + DigitPrefix(s[1..]) else ""
  }

  /** `(int)` of a string: the optionally signed leading run of digits, 0 when
      there is none. */
  function StringToInt(s: string): int {
    var t := SkipSpace(s);
    if |t| > 0 && t[0] == '-' then -(DigitsValue(DigitPrefix(t[1..])) as int)
    else if |t| > 0 && t[0] == '+' then DigitsValue(DigitPrefix(t[1..]))
    else DigitsValue(DigitPrefix(t))
  }

  /** A run of digits is its own digit prefix. */
  lemma {:induction false} DigitPrefixOfDigits(s: string)
    requires forall j :: 0 <= j < |s| ==> '0' <= s[j] <= '9'
    ensures DigitPrefix(s) == s
  {
    if |s| > 0 {
      DigitPrefixOfDigits(s[1..]);
    }
  }

  /** Text starting with a digit or a sign has no leading space to skip. */
  lemma NoSpaceToSkip(s: string)
    requires |s| > 0 && !LeadingSpace(s[0])
    ensures SkipSpace(s) == s
  {
  }

  /** An unsigned run of digits reads back as its value. */
  lemma DigitsReadBack(s: string)
    requires |s| > 0 && forall j :: 0 <= j < |s| ==> '0' <= s[j] <= '9'
    ensures StringToInt(s) == DigitsValue(s)
  {
    NoSpaceToSkip(s);
    DigitPrefixOfDigits(s);
  }

  /** A minus sign followed by digits reads back as the negated value. */
  lemma NegatedDigitsReadBack(t: string)
    requires |t| > 1 && t[0] == '-' && forall j :: 1 <= j < |t| ==> '0' <= t[j] <= '9'
    ensures StringToInt(t) == -(DigitsValue(t[1..]) as int)
  {
    NoSpaceToSkip(t);
    DigitPrefixOfDigits(t[1..]);
  }

  /** The cast reads back every natural number PHP prints. */
  lemma NatTextReadBack(n: nat)
    ensures StringToInt(NatToString(n)) == n
  {
    DigitsReadBack(NatToString(n));
    NatToStringRoundTrip(n);
  }

  /** The same for negative numbers, printed with a minus sign. */
  lemma NegativeTextReadBack(n: nat)
    requires n > 0
    ensures StringToInt("-" + NatToString(n)) == -(n as int)
  {
    var t := "-" + NatToString(n);
    assert t[1..] == NatToString(n);
    NegatedDigitsReadBack(t);
    NatToStringRoundTrip(n);
  }

  /** `(int)` of a value. */
  function ToInt(v: Value): int {
    match v
    case Null => 0
    case Bool(b) => if b then 1 else 0
    case Int(i) => i
    case Str(s) => StringToInt(s)
    case Arr(es) => if |es| == 0 then 0 else 1
  }

  // ------------------------------------------------------------ products

  /** One line of the purchase. */
  datatype Product = Product(name: Value, price: int, qty: int)

  function ProductValue(p: Product): Value {
    Assoc([("name", p.name), ("price", Int(p.price)), ("qty", Int(p.qty))])
  }

  /** An order item that becomes a product: one with a non-empty title. */
  predicate Titled(item: Value) {
    !Empty(Field(item, "post_title", Str("")))
  }

  /** The product an order item contributes: its title, its line total as the
      price and its quantity (1 when unset). */
  function ItemProduct(item: Value): Product {
    Product(Field(item, "post_title", Str("")),
            ToInt(Field(item, "line_total", Int(0))),
            ToInt(Field(item, "quantity", Int(1))))
  }

  /** The `foreach` over the order items, keeping titled ones in order. */
  function ItemProducts(items: seq<(Key, Value)>): (r: seq<Product>)
    ensures |r| <= |items|
    ensures forall j :: 0 <= j < |r| ==> !Empty(r[j].name)
    ensures |r| == 0 <==> forall j :: 0 <= j < |items| ==> !Titled(items[j].1)
  {
    if |items| == 0 then []
    else
      var rest := ItemProducts(items[1..]);
      assert forall j :: 1 <= j < |items| ==> items[j] == items[1..][j - 1];
      if Titled(items[0].1) then [ItemProduct(items[0].1)] + rest else rest
  }

  /** Every titled item contributes its product. */
  lemma {:induction false} TitledItemsAreBilled(items: seq<(Key, Value)>)
    ensures forall j :: 0 <= j < |items| && Titled(items[j].1) ==> ItemProduct(items[j].1) in ItemProducts(items)
  {
    if |items| > 0 {
      TitledItemsAreBilled(items[1..]);
      assert forall j :: 1 <= j < |items| ==> items[j] == items[1..][j - 1];
    }
  }

  /** Every product comes from a titled item. */
  lemma {:induction false} BilledProductsAreTitledItems(items: seq<(Key, Value)>)
    ensures forall p :: p in ItemProducts(items) ==>
              exists j :: 0 <= j < |items| && Titled(items[j].1) && p == ItemProduct(items[j].1)
  {
    if |items| > 0 {
      BilledProductsAreTitledItems(items[1..]);
      assert forall j :: 1 <= j < |items| ==> items[j] == items[1..][j - 1];
    }
  }

  const ShippingFee := "Shipping Fee"

  function ShippingTotal(data: Value): int {
    ToInt(Field(data, "shipping_total", Int(0)))
  }

  function ItemsOf(data: Value): seq<(Key, Value)> {
    var items := Field(data, "order_items", Arr([]));
    if !Empty(items) && items.Arr? then items.entries else []
  }

  /** The line used when nothing else is billed: "Order #<order id>" for the
      whole amount. */
  function DefaultProduct(data: Value): Product {
    Product(Str("Order #" + Interpolate(Field(data, "order_id", Null))), ToInt(Field(data, "amount", Null)), 1)
  }

  /** The purchase's products: titled items, then a shipping line when the
      shipping total is positive, or else the default line. */
  function Products(data: Value): (r: seq<Product>)
    ensures |r| >= 1
    // The item lines are always kept, in order, with the shipping line after them.
    ensures ShippingTotal(data) > 0 ==>
              r == ItemProducts(ItemsOf(data)) + [Product(Str(ShippingFee), ShippingTotal(data), 1)]
    ensures ShippingTotal(data) <= 0 && (exists j :: 0 <= j < |ItemsOf(data)| && Titled(ItemsOf(data)[j].1)) ==>
              r == ItemProducts(ItemsOf(data))
    ensures (ShippingTotal(data) <= 0 && forall j :: 0 <= j < |ItemsOf(data)| ==> !Titled(ItemsOf(data)[j].1))
              ==> r == [DefaultProduct(data)]
    ensures (exists j :: 0 <= j < |ItemsOf(data)| && Titled(ItemsOf(data)[j].1)) || ShippingTotal(data) > 0 ==>
              forall p :: p in r ==> !Empty(p.name)
  {
    var base := ItemProducts(ItemsOf(data));
    var billed := if ShippingTotal(data) > 0 then base + [Product(Str(ShippingFee), ShippingTotal(data), 1)] else base;
    if |billed| == 0 then [DefaultProduct(data)] else billed
  }

  // ------------------------------------------------------------ notes

  const NotesLimit := 1000

  /** The purchase notes: the trimmed customer notes cut to 1000 characters,
      or "" when there are none. */
  function Notes(data: Value): (r: string)
    ensures |r| <= NotesLimit
    ensures Empty(Field(data, "customer_notes", Null)) ==> r == ""
    ensures !Empty(Field(data, "customer_notes", Null)) ==>
              var t := Trim(Interpolate(Field(data, "customer_notes", Null)));
              r == t[..if |t| < NotesLimit then |t| else NotesLimit]
  {
    var notes := Field(data, "customer_notes", Null);
    if Empty(notes) then ""
    else
      var t := Trim(Interpolate(notes));
      if |t| <= NotesLimit then t else t[..NotesLimit]
  }

  // ------------------------------------------------------------ client

  /** The payment-data fields copied into `client`, with their names there. */
  const ClientFields: seq<(string, string)> := [
    ("customer_email", "email"), ("customer_full_name", "full_name"),
    ("customer_phone", "phone"), ("customer_personal_code", "personal_code"),
    ("billing_street_address", "street_address"), ("billing_country", "country"),
    ("billing_city", "city"), ("billing_zip_code", "zip_code"), ("billing_state", "state"),
    ("shipping_street_address", "shipping_street_address"), ("shipping_country", "shipping_country"),
    ("shipping_city", "shipping_city"), ("shipping_zip_code", "shipping_zip_code"),
    ("shipping_state", "shipping_state")]

  /** A payment-data field that is set and not empty. */
  predicate Present(data: Value, name: string) {
    !Empty(Field(data, name, Null))
  }

  /** The client entry a field contributes: its client name and its value. */
  function Renamed(data: Value, f: (string, string)): (string, Value) {
    (f.1, Field(data, f.0, Null))
  }

  /** The present fields among `fields`, renamed, in order. */
  function ClientEntries(data: Value, fields: seq<(string, string)>): (r: seq<(string, Value)>)
    ensures |r| <= |fields|
    ensures |fields| > 0 && Present(data, fields[0].0) ==> |r| > 0 && r[0] == Renamed(data, fields[0])
  {
    if |fields| == 0 then []
    else
      var rest := ClientEntries(data, fields[1..]);
      assert forall i :: 1 <= i < |fields| ==> fields[i] == fields[1..][i - 1];
      if Present(data, fields[0].0) then [Renamed(data, fields[0])] + rest else rest
  }

  /** Every entry is a present field, renamed. */
  lemma {:induction false} ClientEntriesArePresentFields(data: Value, fields: seq<(string, string)>)
    ensures forall e :: e in ClientEntries(data, fields) ==>
              exists i :: 0 <= i < |fields| && Present(data, fields[i].0) && e == Renamed(data, fields[i])
  {
    if |fields| > 0 {
      ClientEntriesArePresentFields(data, fields[1..]);
      assert forall i :: 1 <= i < |fields| ==> fields[i] == fields[1..][i - 1];
    }
  }

  /** Every present field is sent, renamed. */
  lemma {:induction false} PresentFieldsAreSent(data: Value, fields: seq<(string, string)>)
    ensures forall i :: 0 <= i < |fields| && Present(data, fields[i].0) ==> Renamed(data, fields[i]) in ClientEntries(data, fields)
  {
    if |fields| > 0 {
      PresentFieldsAreSent(data, fields[1..]);
      assert forall i :: 1 <= i < |fields| ==> fields[i] == fields[1..][i - 1];
    }
  }

  function CustomerEmail(data: Value): Value {
    Field(data, "customer_email", Null)
  }

  /** The `client` parameter, when one is sent: the customer's fields, added
      only when an email or a full name is known, then the configured
      fallback email when no email was added. */
  function Client(data: Value, emailFallback: string): (r: Option<seq<(string, Value)>>)
    ensures r.Some? <==>
              Present(data, "customer_email") || Present(data, "customer_full_name") || !EmptyString(emailFallback)
    ensures r.Some? && Present(data, "customer_email") ==> |r.value| > 0 && r.value[0] == ("email", CustomerEmail(data))
    ensures r.Some? && !Present(data, "customer_email") && !EmptyString(emailFallback) ==>
              |r.value| > 0 && r.value[|r.value| - 1] == ("email", Str(emailFallback))
    // A known customer contributes all their present fields, in order, first.
    ensures r.Some? && (Present(data, "customer_email") || Present(data, "customer_full_name")) ==>
              |r.value| >= |ClientEntries(data, ClientFields)|
              && r.value[..|ClientEntries(data, ClientFields)|] == ClientEntries(data, ClientFields)
    // Otherwise the fallback email is the only entry.
    ensures r.Some? && !(Present(data, "customer_email") || Present(data, "customer_full_name")) ==>
              r.value == [("email", Str(emailFallback))]
  {
    var customer := Present(data, "customer_email") || Present(data, "customer_full_name");
    var base := if customer then ClientEntries(data, ClientFields) else [];
    if !EmptyString(emailFallback) && !Present(data, "customer_email") then Some(base + [("email", Str(emailFallback))])
    else if customer then Some(base)
    else None
  }

  /** A name no present field is renamed to never appears among the entries. */
  lemma {:induction false} ClientEntriesAvoid(data: Value, fields: seq<(string, string)>, name: string)
    requires forall i :: 0 <= i < |fields| && Present(data, fields[i].0) ==> fields[i].1 != name
    ensures forall j :: 0 <= j < |ClientEntries(data, fields)| ==> ClientEntries(data, fields)[j].0 != name
  {
    if |fields| > 0 {
      assert forall i :: 1 <= i < |fields| ==> fields[i] == fields[1..][i - 1];
      ClientEntriesAvoid(data, fields[1..], name);
    }
  }

  /** Without a customer email, no client entry is named "email": only the
      first of `ClientFields` is. */
  lemma EmailComesOnlyFromCustomer(data: Value)
    requires !Present(data, "customer_email")
    ensures forall j :: 0 <= j < |ClientEntries(data, ClientFields)| ==> ClientEntries(data, ClientFields)[j].0 != "email"
  {
    ClientEntriesAvoid(data, ClientFields, "email");
  }

  /** With a fallback configured, the client sent always carries an email:
      the customer's when known, else the fallback. */
  lemma {:induction false} FallbackGuaranteesEmail(data: Value, emailFallback: string)
    requires !EmptyString(emailFallback)
    ensures Client(data, emailFallback).Some?
    ensures var c := Assoc(Client(data, emailFallback).value);
            Get(c, StrKey("email")) == Some(if Present(data, "customer_email") then CustomerEmail(data) else Str(emailFallback))
  {
    var entries := Client(data, emailFallback).value;
    if Present(data, "customer_email") {
      AssocGet(entries, 0, "email");
    } else {
      var customer := Present(data, "customer_full_name");
      var base := if customer then ClientEntries(data, ClientFields) else [];
      assert entries == base + [("email", Str(emailFallback))];
      if customer {
        EmailComesOnlyFromCustomer(data);
      }
      assert forall m :: 0 <= m < |base| ==> entries[m].0 != "email";
      AssocGet(entries, |base|, "email");
    }
  }

  // ------------------------------------------------------------ parameters

  /** What the site supplies that the gateway does not compute: the home URL,
      `add_query_arg`, a freshly generated passphrase (`md5` of the site URL,
      the time and a salt) and the shop's version. */
  datatype Site = Site(
    home: string,
    addQueryArg: (seq<(string, Value)>, string) -> string,
    freshPassphrase: string,
    version: string)

  const RedirectKey := "chip-for-fluent-cart-redirect"

  /** `getInitUrl`'s passphrase: the stored one, or a fresh one that is stored
      first. */
  function IssuePassphrase(options: Options, site: Site): (r: (Options, Value))
    ensures !Empty(GetOption(options, RedirectPassphraseOption, Bool(false))) ==>
              r == (options, GetOption(options, RedirectPassphraseOption, Bool(false)))
    ensures Empty(GetOption(options, RedirectPassphraseOption, Bool(false))) ==>
              r == (options[RedirectPassphraseOption := Str(site.freshPassphrase)], Str(site.freshPassphrase))
    ensures GetOption(r.0, RedirectPassphraseOption, Bool(false)) == r.1
    ensures !EmptyString(site.freshPassphrase) ==> !Empty(r.1)
  {
    var stored := GetOption(options, RedirectPassphraseOption, Bool(false));
    if !Empty(stored) then (options, stored)
    else (options[RedirectPassphraseOption := Str(site.freshPassphrase)], Str(site.freshPassphrase))
  }

  /** The redirect back from the payment page: the passphrase and the
      transaction uuid as query arguments on the home URL. */
  function InitUrl(site: Site, passphrase: Value, transactionUuid: Value): string {
    site.addQueryArg([(RedirectKey, passphrase), ("transaction_uuid", transactionUuid)], site.home)
  }

  /** The IPN listener URL given as the success callback. */
  function CallbackUrl(site: Site): string {
    site.addQueryArg([("fluent-cart", Str("fct_payment_listener_ipn")), ("method", Str("chip"))], site.home)
  }

  /** The transaction uuid the redirect carries: the data's, else the order id. */
  function TransactionUuid(data: Value): Value {
    Field(data, "transaction_uuid", Field(data, "order_id", Null))
  }

  /** The `purchase` object: currency, the amount as total, the products and
      the notes. */
  function PurchaseObject(data: Value): Value {
    var products := Products(data);
    Assoc([
      ("currency", Field(data, "currency", Null)),
      ("total_override", Int(ToInt(Field(data, "amount", Null)))),
      ("products", List(seq(|products|, j requires 0 <= j < |products| => ProductValue(products[j])))),
      ("notes", Str(Notes(data)))])
  }

  /** The parameters every purchase carries, in order. */
  function CoreParams(brandId: string, reference: Value, successRedirect: string, successCallback: string,
                      cancelUrl: Value, version: string, purchase: Value): seq<(string, Value)>
  {
    [ ("brand_id", Str(brandId)),
      ("reference", reference),
      ("success_redirect", Str(successRedirect)),
      ("success_callback", Str(successCallback)),
      ("failure_redirect", cancelUrl),
      ("cancel_redirect", cancelUrl),
      ("send_receipt", Bool(false)),
      ("creator_agent", Str("FluentCart v" + version)),
      ("purchase", purchase) ]
  }

  /** Whatever optional parameters follow, the core ones read back as given. */
  lemma CoreParamsReadBack(brandId: string, reference: Value, successRedirect: string, successCallback: string,
                           cancelUrl: Value, version: string, purchase: Value, extra: seq<(string, Value)>, r: Value)
    requires r == Assoc(CoreParams(brandId, reference, successRedirect, successCallback, cancelUrl, version, purchase) + extra)
    ensures Get(r, StrKey("brand_id")) == Some(Str(brandId))
    ensures Get(r, StrKey("reference")) == Some(reference)
    ensures Get(r, StrKey("success_redirect")) == Some(Str(successRedirect))
  {
    var core := CoreParams(brandId, reference, successRedirect, successCallback, cancelUrl, version, purchase);
    AssocGetPrefix(core, extra, 0, "brand_id");
    AssocGetPrefix(core, extra, 1, "reference");
    AssocGetPrefix(core, extra, 2, "success_redirect");
  }

  /** The same for the receipt flag and the `purchase` object further down. */
  lemma CoreParamsReadBackPurchase(brandId: string, reference: Value, successRedirect: string, successCallback: string,
                                   cancelUrl: Value, version: string, purchase: Value, extra: seq<(string, Value)>, r: Value)
    requires r == Assoc(CoreParams(brandId, reference, successRedirect, successCallback, cancelUrl, version, purchase) + extra)
    ensures Get(r, StrKey("send_receipt")) == Some(Bool(false))
    ensures Get(r, StrKey("purchase")) == Some(purchase)
  {
    var core := CoreParams(brandId, reference, successRedirect, successCallback, cancelUrl, version, purchase);
    AssocGetPrefix(core, extra, 6, "send_receipt");
    AssocGetPrefix(core, extra, 8, "purchase");
  }

  /** The whitelist as sent: a list of the method codes. */
  function WhitelistValue(whitelist: seq<string>): Value {
    List(seq(|whitelist|, j requires 0 <= j < |whitelist| => Str(whitelist[j])))
  }

  /** The optional parameters: the client when there is one, then the method
      whitelist when it is non-empty. */
  function ExtraParams(client: Option<seq<(string, Value)>>, whitelist: seq<string>): seq<(string, Value)> {
    (if client.Some? then [("client", Assoc(client.value))] else [])
    + (if |whitelist| > 0 then [("payment_method_whitelist", WhitelistValue(whitelist))] else [])
  }

  /** The core parameters carry neither optional name. */
  lemma CoreParamsAvoidOptional(brandId: string, reference: Value, successRedirect: string, successCallback: string,
                                cancelUrl: Value, version: string, purchase: Value)
    ensures var core := CoreParams(brandId, reference, successRedirect, successCallback, cancelUrl, version, purchase);
            forall m :: 0 <= m < |core| ==> core[m].0 != "client" && core[m].0 != "payment_method_whitelist"
  {
  }

  /** After core parameters that do not use their names, the optional
      parameters read back: each present exactly when it is sent. */
  lemma {:induction false} ExtraParamsReadBack(core: seq<(string, Value)>, client: Option<seq<(string, Value)>>,
                                               whitelist: seq<string>, r: Value)
    requires forall m :: 0 <= m < |core| ==> core[m].0 != "client" && core[m].0 != "payment_method_whitelist"
    requires r == Assoc(core + ExtraParams(client, whitelist))
    ensures Get(r, StrKey("client")) == (if client.Some? then Some(Assoc(client.value)) else None)
    ensures Get(r, StrKey("payment_method_whitelist")) == (if |whitelist| > 0 then Some(WhitelistValue(whitelist)) else None)
  {
    var pairs := core + ExtraParams(client, whitelist);
    var c := if client.Some? then 1 else 0;
    assert |pairs| == |core| + c + (if |whitelist| > 0 then 1 else 0);
    assert forall m :: |core| <= m < |core| + c ==> pairs[m].0 == "client";
    assert forall m :: |core| + c <= m < |pairs| ==> pairs[m].0 == "payment_method_whitelist";
    if client.Some? {
      AssocGet(pairs, |core|, "client");
    } else {
      AssocMissing(pairs, "client");
    }
    if |whitelist| > 0 {
      AssocGet(pairs, |core| + c, "payment_method_whitelist");
    } else {
      AssocMissing(pairs, "payment_method_whitelist");
    }
  }

  /** The create-purchase parameters. */
  function PurchaseParams(settings: Settings, data: Value, site: Site, passphrase: Value): (r: Value)
    ensures Get(r, StrKey("brand_id")) == Some(Str(settings.brandId))
    ensures Get(r, StrKey("reference")) == Some(Field(data, "order_id", Null))
    ensures Get(r, StrKey("success_redirect")) == Some(Str(InitUrl(site, passphrase, TransactionUuid(data))))
    ensures Get(r, StrKey("send_receipt")) == Some(Bool(false))
    ensures Get(r, StrKey("purchase")) == Some(PurchaseObject(data))
    // The client and the whitelist are sent exactly when they exist.
    ensures Get(r, StrKey("client")) ==
              (if Client(data, settings.emailFallback).Some? then Some(Assoc(Client(data, settings.emailFallback).value)) else None)
    ensures Get(r, StrKey("payment_method_whitelist")) ==
              (if |settings.whitelist| > 0 then Some(WhitelistValue(settings.whitelist)) else None)
  {
    var reference := Field(data, "order_id", Null);
    var successRedirect := InitUrl(site, passphrase, TransactionUuid(data));
    var cancelUrl := Field(data, "cancel_url", Null);
    var purchase := PurchaseObject(data);
    var extra := ExtraParams(Client(data, settings.emailFallback), settings.whitelist);
    var r := Assoc(CoreParams(settings.brandId, reference, successRedirect, CallbackUrl(site), cancelUrl, site.version, purchase) + extra);
    CoreParamsReadBack(settings.brandId, reference, successRedirect, CallbackUrl(site), cancelUrl, site.version, purchase, extra, r);
    CoreParamsReadBackPurchase(settings.brandId, reference, successRedirect, CallbackUrl(site), cancelUrl, site.version, purchase, extra, r);
    CoreParamsAvoidOptional(settings.brandId, reference, successRedirect, CallbackUrl(site), cancelUrl, site.version, purchase);
    ExtraParamsReadBack(CoreParams(settings.brandId, reference, successRedirect, CallbackUrl(site), cancelUrl, site.version, purchase),
                        Client(data, settings.emailFallback), settings.whitelist, r);
    r
  }

  // ------------------------------------------------------------ response

  /** `processPayment`'s result: an error message, or the checkout page to
      send the shopper to and the purchase id. */
  datatype PaymentResult = PaymentFailed(message: string) | PaymentStarted(redirectUrl: Value, paymentId: Value)

  const NotActivated := "CHIP payment is not activated"
  const NotConfigured := "CHIP API credentials are not configured"
  const CreateFailed := "Failed to create payment. Please try again."
  const Unexpected := "Unexpected response from payment gateway"

  /** The `message` of each `__all__` error ("" when unset), keeping only the
      truthy ones (`array_filter`). */
  function ErrorMessages(errors: seq<(Key, Value)>): (r: seq<Value>)
    ensures |r| <= |errors|
    ensures forall j :: 0 <= j < |r| ==> !Empty(r[j])
    ensures |r| == 0 <==> forall j :: 0 <= j < |errors| ==> Empty(Field(errors[j].1, "message", Str("")))
  {
    if |errors| == 0 then []
    else
      var m := Field(errors[0].1, "message", Str(""));
      var rest := ErrorMessages(errors[1..]);
      assert forall j :: 1 <= j < |errors| ==> errors[j] == errors[1..][j - 1];
      if Empty(m) then rest else [m] + rest
  }

  /** `implode(' ', $messages)`. */
  function Implode(sep: string, vs: seq<Value>): string {
    if |vs| == 0 then "" else if |vs| == 1 then Interpolate(vs[0]) else Interpolate(vs[0]) + sep + Implode(sep, vs[1..])
  }

  /** The validation messages in a create-purchase answer, if `__all__` is an
      array holding any. */
  function AllErrors(response: Value): seq<Value> {
    var all := Get(response, StrKey("__all__"));
    if all.Some? && all.value.Arr? then ErrorMessages(all.value.entries) else []
  }

  /** The answer to the create-purchase request, classified. */
  function ClassifyCreation(response: Option<Value>): (r: PaymentResult)
    ensures response.None? ==> r == PaymentFailed(CreateFailed)
    ensures response.Some? && |AllErrors(response.value)| > 0 ==>
              r == PaymentFailed(Implode(" ", AllErrors(response.value)))
    ensures r.PaymentStarted? <==>
              && response.Some? && |AllErrors(response.value)| == 0
              && Isset(response.value, StrKey("checkout_url")) && Isset(response.value, StrKey("id"))
    ensures r.PaymentStarted? ==>
              && Get(response.value, StrKey("checkout_url")) == Some(r.redirectUrl) && r.redirectUrl != Null
              && Get(response.value, StrKey("id")) == Some(r.paymentId) && r.paymentId != Null
    // An answer without messages that lacks either field is unexpected.
    ensures response.Some? && |AllErrors(response.value)| == 0
            && !(Isset(response.value, StrKey("checkout_url")) && Isset(response.value, StrKey("id"))) ==>
              r == PaymentFailed(Unexpected)
  {
    if response.None? then PaymentFailed(CreateFailed)
    else if |AllErrors(response.value)| > 0 then PaymentFailed(Implode(" ", AllErrors(response.value)))
    else if Isset(response.value, StrKey("checkout_url")) && Isset(response.value, StrKey("id")) then
      PaymentStarted(Get(response.value, StrKey("checkout_url")).value, Get(response.value, StrKey("id")).value)
    else PaymentFailed(Unexpected)
  }

  /** The result, the option store afterwards (the passphrase may have been
      issued) and the parameters sent, if any. */
  datatype PaymentRun = PaymentRun(result: PaymentResult, options: Options, sent: Option<Value>)

  /** `processPayment($payment_data)`. */
  function ProcessPayment(settings: Settings, env: Env, site: Site, options: Options, data: Value): (r: PaymentRun)
    ensures settings.isActive != "yes" ==> r == PaymentRun(PaymentFailed(NotActivated), options, None)
    ensures settings.isActive == "yes" && !HasCredentials(settings) ==>
              r == PaymentRun(PaymentFailed(NotConfigured), options, None)
    // Parameters are sent exactly when the gateway is active and configured,
    // with a redirect passphrase the option store then holds.
    ensures r.sent.Some? <==> settings.isActive == "yes" && HasCredentials(settings)
    ensures r.sent.Some? ==>
              && r.sent.value == PurchaseParams(settings, data, site, IssuePassphrase(options, site).1)
              && r.options == IssuePassphrase(options, site).0
    ensures r.sent.Some? ==>
              r.result == ClassifyCreation(ChipApi.CreatePayment(ApiClient(settings, settings.brandId), env, r.sent.value).result)
  {
    if settings.isActive != "yes" then PaymentRun(PaymentFailed(NotActivated), options, None)
    else if !HasCredentials(settings) then PaymentRun(PaymentFailed(NotConfigured), options, None)
    else
      var (options', passphrase) := IssuePassphrase(options, site);
      var params := PurchaseParams(settings, data, site, passphrase);
      var reply := ChipApi.CreatePayment(ApiClient(settings, settings.brandId), env, params);
      PaymentRun(ClassifyCreation(reply.result), options', Some(params))
  }

  /** The redirect sent with a purchase carries the passphrase the option
      store holds afterwards, so the shopper's return is accepted. */
  lemma SentRedirectCarriesStoredPassphrase(settings: Settings, env: Env, site: Site, options: Options, data: Value)
    requires settings.isActive == "yes" && HasCredentials(settings)
    ensures var r := ProcessPayment(settings, env, site, options, data);
            && r.sent.Some?
            && Get(r.sent.value, StrKey("success_redirect")) ==
                 Some(Str(InitUrl(site, GetOption(r.options, RedirectPassphraseOption, Bool(false)), TransactionUuid(data))))
  {
    var issued := IssuePassphrase(options, site);
    assert ProcessPayment(settings, env, site, options, data).sent == Some(PurchaseParams(settings, data, site, issued.1));
  }
}
