/**
 * The wallet recharge dialog of `components/dashboard/RechargeWalletModal.tsx`:
 * the balance shown next to the button, the payment networks of which only
 * ACTIVE ones can be picked, the phone and amount rules, and what a
 * submission sends and resets.
 */
module RechargeWallet {
  import opened Wrappers
  import opened Text
  import opened Interfaces

  datatype RechargeField = PhoneField | AmountField

  /** The message under each field. */
  function ErrorMessage(f: RechargeField): string {
    match f
    case PhoneField => "Numéro invalide"
    case AmountField => "Montant minimum 1"
  }

  /**
   * The fields `rechargeWalletSchema` flags. An untouched phone field reads
   * "" and an untouched amount field reads NaN (`valueAsNumber` of an empty
   * input); None stands for a value that is missing or NaN. Both fail their
   * rule.
   */
  function RechargeErrors(phone: Option<string>, amount: Option<int>): (errs: set<RechargeField>)
    ensures PhoneField in errs <==> phone.None? || Utf16Length(phone.value) < 8
    ensures AmountField in errs <==> amount.None? || amount.value < 1
  {
    (if phone.None? || Utf16Length(phone.value) < 8 then {PhoneField} else {})
    + (if amount.None? || amount.value < 1 then {AmountField} else {})
  }

  /** The body `rechargeWallet(data)` receives: the two form fields, no payment network. */
  datatype RechargeRequest = RechargeRequest(phoneNumber: string, amount: int)

  /** `balance !== null ? `${balance} F` : "0 F"`. */
  function BalanceText(balance: Option<int>): (s: string)
    ensures balance.None? ==> s == "0 F"
    ensures balance.Some? ==> |s| > 2 && s[|s| - 2..] == " F" && s[..|s| - 2] == IntToString(balance.value)
  {
    if balance.Some? then IntToString(balance.value) + " F" else "0 F"
  }

  /** A zero balance and an unknown one look the same. */
  lemma ZeroAndUnknownLookAlike()
    ensures BalanceText(Some(0)) == BalanceText(None)
  {
    assert NatToString(0) == "0";
  }

  /** A network button is enabled only for an ACTIVE method. */
  predicate Selectable(m: PaymentMethodes) {
    m.status == Status.ACTIVE.Name()
  }

  class Modal {
    var paymentMethods: seq<PaymentMethodes>
    var selectedNetwork: Option<string>
    var open: bool
    var balance: Option<int>
    var phone: Option<string>
    var amount: Option<int>

    /** The initial state: no method, no network, closed, balance unknown, empty fields. */
    constructor()
      ensures paymentMethods == [] && selectedNetwork.None? && !open && balance.None?
      ensures phone.None? && amount.None?
    {
      paymentMethods := [];
      selectedNetwork := None;
      open := false;
      balance := None;
      phone := None;
      amount := None;
    }

    /** The balance answer: only a 200 carrying data sets the balance. */
    method BalanceLoaded(statusCode: int, data: Option<int>)
      modifies this`balance
      ensures statusCode == 200 && data.Some? ==> balance == data
      ensures !(statusCode == 200 && data.Some?) ==> balance == old(balance)
    {
      if statusCode == 200 && data.Some? {
        balance := data;
      }
    }

    /** The payment methods arrived. */
    method MethodsLoaded(ms: seq<PaymentMethodes>)
      modifies this`paymentMethods
      ensures paymentMethods == ms
    {
      paymentMethods := ms;
    }

    /** Clicking a network: `status === "ACTIVE" && handleSelectNetwork(id)`. */
    method ClickNetwork(m: PaymentMethodes)
      modifies this`selectedNetwork
      ensures Selectable(m) ==> selectedNetwork == Some(m.id)
      ensures !Selectable(m) ==> selectedNetwork == old(selectedNetwork)
    {
      if m.status == Status.ACTIVE.Name() {
        selectedNetwork := Some(m.id);
      }
    }

    /** A network is drawn as picked only when it is the selected id and ACTIVE. */
    predicate Highlighted(m: PaymentMethodes)
      reads this
    {
      selectedNetwork == Some(m.id) && Selectable(m)
    }

    /** The dialog's `onOpenChange`. */
    method SetOpen(b: bool)
      modifies this`open
      ensures open == b
    {
      open := b;
    }

    /** Typing into the fields. */
    method Edit(p: Option<string>, a: Option<int>)
      modifies this`phone, this`amount
      ensures phone == p && amount == a
    {
      phone := p;
      amount := a;
    }

    /** Annuler: the network clears and the dialog closes; the typed fields stay. */
    method Cancel()
      modifies this`selectedNetwork, this`open
      ensures selectedNetwork.None? && !open
    {
      selectedNetwork := None;
      open := false;
    }

    /**
     * Submitting with the service's answer `statusCode`: fields the rules
     * refuse, or no (truthy) network, send nothing and change nothing.
     * Otherwise the phone and amount alone are sent; on 200 the fields reset,
     * the network clears and the dialog closes, on any other answer the state
     * stays.
     */
    method Submit(statusCode: int) returns (req: Option<RechargeRequest>)
      modifies this`phone, this`amount, this`selectedNetwork, this`open
      ensures RechargeErrors(old(phone), old(amount)) != {} || old(selectedNetwork).None? || old(selectedNetwork) == Some("") ==>
        req.None? && phone == old(phone) && amount == old(amount) && selectedNetwork == old(selectedNetwork) && open == old(open)
      ensures RechargeErrors(old(phone), old(amount)) == {} && old(selectedNetwork).Some? && old(selectedNetwork) != Some("") ==>
        req == Some(RechargeRequest(old(phone).value, old(amount).value))
      ensures req.Some? && statusCode == 200 ==> phone.None? && amount.None? && selectedNetwork.None? && !open
      ensures req.Some? && statusCode != 200 ==>
        phone == old(phone) && amount == old(amount) && selectedNetwork == old(selectedNetwork) && open == old(open)
    {
      if RechargeErrors(phone, amount) != {} {
        return None;
      }
      if selectedNetwork.None? || selectedNetwork.value == "" {
        return None;
      }
      req := Some(RechargeRequest(phone.value, amount.value));
      if statusCode == 200 {
        phone := None;
        amount := None;
        selectedNetwork := None;
        open := false;
      }
    }
  }

  /** A request is only ever built from values the rules accept: at least 8 phone characters and an amount of 1 or more. */
  lemma SentValuesAreValid(phone: Option<string>, amount: Option<int>)
    requires RechargeErrors(phone, amount) == {}
    ensures phone.Some? && Utf16Length(phone.value) >= 8 && amount.Some? && amount.value >= 1
  {
    assert PhoneField !in RechargeErrors(phone, amount);
    assert AmountField !in RechargeErrors(phone, amount);
  }

  /** After a successful recharge the fields are empty again, so submitting at once is refused on both fields. */
  lemma ResetFormIsRefused()
    ensures RechargeErrors(None, None) == {PhoneField, AmountField}
  {
  }
}
