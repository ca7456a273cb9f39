/** The order form carried by every ticket: its five fields, their defaults, and the rule each
    modal applies to its raw input before the value is stored. */
module OrderForm {
  import opened Text

  datatype OrderField = AccountName | PaymentMethods | Tip | DeliveryType | DeliveryNotes

  /** The `order_details` record of a ticket. */
  datatype OrderDetails = OrderDetails(
    accountName: string,
    paymentMethods: string,
    tip: string,
    deliveryType: string,
    deliveryNotes: string)

  const DefaultAccountName: string := "Not set"
  const DefaultPaymentMethods: string := "Not set (chef will confirm in ticket)"
  const DefaultTip: string := "$0"
  const DefaultDeliveryType: string := "Leave at my door"
  const DefaultDeliveryNotes: string := "N/A"

  /** The details a freshly created ticket starts with. */
  const DefaultDetails: OrderDetails :=
    OrderDetails(DefaultAccountName, DefaultPaymentMethods, DefaultTip, DefaultDeliveryType, DefaultDeliveryNotes)

  function Get(d: OrderDetails, f: OrderField): string {
    match f
    case AccountName => d.accountName
    case PaymentMethods => d.paymentMethods
    case Tip => d.tip
    case DeliveryType => d.deliveryType
    case DeliveryNotes => d.deliveryNotes
  }

  /** `details[field] = value`: that one field takes the new value, the other four keep theirs. */
  function With(d: OrderDetails, f: OrderField, v: string): (r: OrderDetails)
    ensures Get(r, f) == v
    ensures forall g :: g != f ==> Get(r, g) == Get(d, g)
  {
    match f
    case AccountName => d.(accountName := v)
    case PaymentMethods => d.(paymentMethods := v)
    case Tip => d.(tip := v)
    case DeliveryType => d.(deliveryType := v)
    case DeliveryNotes => d.(deliveryNotes := v)
  }

  /** The tip rule once the input is stripped and defaulted: prefix "$" unless the value already
      starts with "$" or ends with "%". */
  function Dollarize(value: string): (r: string)
    ensures StartsWith(r, "$") || EndsWith(r, "%")
    ensures (StartsWith(value, "$") || EndsWith(value, "%")) ==> r == value
    ensures !StartsWith(value, "$") && !EndsWith(value, "%") ==> r == "$" + value
    ensures value != [] && Trimmed(value) ==> r != [] && Trimmed(r)
  {
    if !StartsWith(value, "$") && !EndsWith(value, "%") then "$" + value else value
  }

  /** The tip modal: strip, fall back to "$0" when nothing is left, then apply the dollar rule. */
  function NormalizeTip(raw: string): (r: string)
    ensures StartsWith(r, "$") || EndsWith(r, "%")
    ensures r != [] && Trimmed(r)
  {
    Dollarize(OrDefault(Strip(raw), DefaultTip))
  }

  /** Blank input (empty or whitespace only) becomes "$0". */
  lemma TipOfBlank(raw: string)
    requires AllWhitespace(raw)
    ensures NormalizeTip(raw) == "$0"
  {
    StripEmptyIff(raw);
  }

  /** Any other input keeps its stripped text, gaining a "$" only when it neither starts with "$"
      nor ends with "%". */
  lemma TipOfNonBlank(raw: string)
    requires !AllWhitespace(raw)
    ensures var v := Strip(raw);
      NormalizeTip(raw) == if StartsWith(v, "$") || EndsWith(v, "%") then v else "$" + v
  {
    StripEmptyIff(raw);
  }

  /** Normalising a normalised tip changes nothing. */
  lemma TipIdempotent(raw: string)
    ensures NormalizeTip(NormalizeTip(raw)) == NormalizeTip(raw)
  {
    var r := NormalizeTip(raw);
    StripTrimmed(r);
    assert OrDefault(Strip(r), DefaultTip) == r;
  }

  /** The rule shared by the payment and notes modals: `value.strip() or placeholder`. */
  function WithPlaceholder(raw: string, placeholder: string): (r: string)
    requires placeholder != [] && Trimmed(placeholder)
    ensures r != [] && Trimmed(r)
  {
    OrDefault(Strip(raw), placeholder)
  }

  lemma {:induction false} PlaceholderRule(raw: string, placeholder: string)
    requires placeholder != [] && Trimmed(placeholder)
    ensures AllWhitespace(raw) ==> WithPlaceholder(raw, placeholder) == placeholder
    ensures !AllWhitespace(raw) ==> WithPlaceholder(raw, placeholder) == Strip(raw)
    ensures WithPlaceholder(WithPlaceholder(raw, placeholder), placeholder) == WithPlaceholder(raw, placeholder)
  {
    StripEmptyIff(raw);
    StripTrimmed(WithPlaceholder(raw, placeholder));
  }

  /** The payment-methods modal. */
  function NormalizePaymentMethods(raw: string): (r: string)
    ensures r != [] && Trimmed(r)
  {
    WithPlaceholder(raw, DefaultPaymentMethods)
  }

  /** Blank payment input stores the placeholder, anything else its stripped text; a stored value
      is never empty and normalising it again changes nothing. */
  lemma PaymentMethodsRule(raw: string)
    ensures AllWhitespace(raw) ==> NormalizePaymentMethods(raw) == DefaultPaymentMethods
    ensures !AllWhitespace(raw) ==> NormalizePaymentMethods(raw) == Strip(raw)
    ensures NormalizePaymentMethods(NormalizePaymentMethods(raw)) == NormalizePaymentMethods(raw)
  {
    PlaceholderRule(raw, DefaultPaymentMethods);
  }

  /** The delivery-notes modal. */
  function NormalizeDeliveryNotes(raw: string): (r: string)
    ensures r != [] && Trimmed(r)
  {
    WithPlaceholder(raw, DefaultDeliveryNotes)
  }

  /** Blank notes store "N/A", anything else its stripped text; normalising again changes nothing. */
  lemma DeliveryNotesRule(raw: string)
    ensures AllWhitespace(raw) ==> NormalizeDeliveryNotes(raw) == DefaultDeliveryNotes
    ensures !AllWhitespace(raw) ==> NormalizeDeliveryNotes(raw) == Strip(raw)
    ensures NormalizeDeliveryNotes(NormalizeDeliveryNotes(raw)) == NormalizeDeliveryNotes(raw)
  {
    PlaceholderRule(raw, DefaultDeliveryNotes);
  }

  /** The value each form input stores: the account-name modal and the delivery-type select store
      their input verbatim, the other three apply their rule. */
  function FormValue(f: OrderField, raw: string): (r: string)
    ensures (f == AccountName || f == DeliveryType) ==> r == raw
    ensures (f == PaymentMethods || f == Tip || f == DeliveryNotes) ==> r != [] && Trimmed(r)
  {
    match f
    case AccountName => raw
    case PaymentMethods => NormalizePaymentMethods(raw)
    case Tip => NormalizeTip(raw)
    case DeliveryType => raw
    case DeliveryNotes => NormalizeDeliveryNotes(raw)
  }

  /** The defaults are already in normal form, and a blank payment, tip or notes form puts back
      exactly the default a new ticket started with. */
  lemma DefaultsAreNormal(f: OrderField)
    ensures FormValue(f, Get(DefaultDetails, f)) == Get(DefaultDetails, f)
    ensures (f == PaymentMethods || f == Tip || f == DeliveryNotes) ==> FormValue(f, "") == Get(DefaultDetails, f)
  {
    match f
    case AccountName =>
    case DeliveryType =>
    case PaymentMethods => PlaceholderIsNormal(DefaultPaymentMethods);
    case Tip => TipDefaultIsNormal();
    case DeliveryNotes => PlaceholderIsNormal(DefaultDeliveryNotes);
  }

  /** A placeholder is what both itself and the empty input normalise to. */
  lemma PlaceholderIsNormal(placeholder: string)
    requires placeholder != [] && Trimmed(placeholder)
    ensures WithPlaceholder(placeholder, placeholder) == placeholder
    ensures WithPlaceholder("", placeholder) == placeholder
  {
    StripTrimmed(placeholder);
    StripTrimmed("");
  }

  lemma TipDefaultIsNormal()
    ensures NormalizeTip(DefaultTip) == DefaultTip && NormalizeTip("") == DefaultTip
  {
    StripTrimmed(DefaultTip);
    StripTrimmed("");
    assert StartsWith(DefaultTip, "$");
  }
}
