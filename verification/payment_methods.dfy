/** The payment-method label mapper (`mapPaymentMethodType`) and the FPX
    bank-branch scan it relies on (`extractFpxBuyerBankBranch`). */
module PaymentMethods {
  import opened PhpValues

  const BranchKey := StrKey("fpx_buyerBankBranch")

  /** An `extra` entry the scan stops at: an array with a non-null
      `fpx_buyerBankBranch`. */
  predicate HoldsBranch(v: Value) {
    v.Arr? && Isset(v, BranchKey)
  }

  /** What the scan returns from the entry it stops at: the branch itself, or,
      when the branch is an array, its element 0 if that is non-empty and ""
      otherwise. */
  function BranchOf(holder: Value): Value
    requires HoldsBranch(holder)
  {
    var b := Get(holder, BranchKey).value;
    if b.Arr? then
      var first := Get(b, IntKey(0));
      if first.Some? && !Empty(first.value) then first.value else Str("")
    else b
  }

  /** The `foreach` over `extra`, in iteration order. */
  function ScanExtra(es: seq<(Key, Value)>): (r: Value)
    ensures forall i :: 0 <= i < |es| && HoldsBranch(es[i].1) && (forall j :: 0 <= j < i ==> !HoldsBranch(es[j].1))
              ==> r == BranchOf(es[i].1)
    ensures (forall i :: 0 <= i < |es| ==> !HoldsBranch(es[i].1)) ==> r == Str("")
  {
    if |es| == 0 then Str("")
    else if HoldsBranch(es[0].1) then BranchOf(es[0].1)
    else ScanExtra(es[1..])
  }

  /** `extractFpxBuyerBankBranch`: "" unless `extra` is an array, else the
      branch from the first entry that holds one. */
  function ExtractFpxBuyerBankBranch(extra: Value): (r: Value)
    ensures !extra.Arr? ==> r == Str("")
    ensures extra.Arr? ==>
              (forall i :: 0 <= i < |extra.entries| && HoldsBranch(extra.entries[i].1)
                 && (forall j :: 0 <= j < i ==> !HoldsBranch(extra.entries[j].1))
                 ==> r == BranchOf(extra.entries[i].1))
    ensures extra.Arr? && (forall i :: 0 <= i < |extra.entries| ==> !HoldsBranch(extra.entries[i].1)) ==> r == Str("")
  {
    if extra.Arr? then ScanExtra(extra.entries) else Str("")
  }

  /** The four wallet codes the mapping table renames. */
  predicate IsWalletCode(code: Value) {
    code == Str("razer_atome") || code == Str("razer_grabpay")
    || code == Str("razer_tng") || code == Str("razer_shopeepay")
  }

  /** The mapping table lookup `$mapping[$payment_method] ?? $payment_method`. */
  function TableLabel(code: Value): (r: Value)
    ensures code == Str("razer_atome") ==> r == Str("Atome")
    ensures code == Str("razer_grabpay") ==> r == Str("GrabPay")
    ensures code == Str("razer_tng") ==> r == Str("TnG")
    ensures code == Str("razer_shopeepay") ==> r == Str("ShopeePay")
    ensures !IsWalletCode(code) ==> r == code
  {
    match code
    case Str(c) =>
      if c == "razer_atome" then Str("Atome")
      else if c == "razer_grabpay" then Str("GrabPay")
      else if c == "razer_tng" then Str("TnG")
      else if c == "razer_shopeepay" then Str("ShopeePay")
      else code
    case _ => code
  }

  /** The FPX bank branch found in `transaction_data.extra`, when `extra` is
      non-empty (`""` otherwise). */
  function FpxBranch(txData: Value): Value {
    var extra := Get(txData, StrKey("extra"));
    if extra.Some? && !Empty(extra.value) then ExtractFpxBuyerBankBranch(extra.value) else Str("")
  }

  /** `mapPaymentMethodType`. */
  function MapPaymentMethodType(code: Value, txData: Value): (r: Value)
    ensures code == Str("fpx") && !Empty(FpxBranch(txData)) ==> r == FpxBranch(txData)
    ensures code == Str("fpx") && Empty(FpxBranch(txData)) ==> r == Str("fpx")
    ensures IsWalletCode(code) ==> r == TableLabel(code) && r != code
    ensures code != Str("fpx") && !IsWalletCode(code) ==> r == code
    ensures !Empty(code) ==> !Empty(r)
  {
    if code == Str("fpx") && !Empty(FpxBranch(txData)) then FpxBranch(txData)
    else TableLabel(code)
  }

  /** Mapping a label a second time changes nothing, for every code but FPX
      (whose label is whatever bank branch the provider reported). */
  lemma MappingIsIdempotentOffFpx(code: Value, txData: Value)
    requires code != Str("fpx")
    ensures MapPaymentMethodType(MapPaymentMethodType(code, txData), txData) == MapPaymentMethodType(code, txData)
  {
  }

  /** A wallet code is renamed and an unknown code passes through. */
  lemma WalletAndUnknownExamples()
    ensures MapPaymentMethodType(Str("razer_grabpay"), Arr([])) == Str("GrabPay")
    ensures MapPaymentMethodType(Str("unknown_code"), Arr([])) == Str("unknown_code")
  {
  }

  /** FPX takes the branch from whichever `extra` entry holds it, using
      element 0 when the branch is a list. */
  lemma FpxBranchExample()
    ensures var holder := Assoc([("fpx_buyerBankBranch", List([Str("MAYBANK2U")]))]);
            MapPaymentMethodType(Str("fpx"), Assoc([("extra", Assoc([("anything", holder)]))])) == Str("MAYBANK2U")
  {
    var holder := Assoc([("fpx_buyerBankBranch", List([Str("MAYBANK2U")]))]);
    var extra := Assoc([("anything", holder)]);
    assert Get(holder, BranchKey) == Some(List([Str("MAYBANK2U")]));
    assert HoldsBranch(extra.entries[0].1);
    assert Get(Assoc([("extra", extra)]), StrKey("extra")) == Some(extra);
  }

  /** Entries after the first holder are never looked at. */
  lemma {:induction false} LaterEntriesIgnored(es: seq<(Key, Value)>, more: seq<(Key, Value)>)
    requires exists i :: 0 <= i < |es| && HoldsBranch(es[i].1)
    ensures ScanExtra(es + more) == ScanExtra(es)
  {
    if HoldsBranch(es[0].1) {
      assert (es + more)[0] == es[0];
    } else {
      assert (es + more)[1..] == es[1..] + more;
      LaterEntriesIgnored(es[1..], more);
    }
  }
}
