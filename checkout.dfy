/** The checkout wizard (pages/Checkout.tsx): three steps, 0 address,
    1 shipping, 2 payment, driven over the cart session. A step advances
    only when its backend mutation goes through; the back controls are
    unconditional; payment hands over to the payment popup, whose outcome
    is a parameter. */
module Checkout {
  import opened Js
  import opened CartModel
  import opened CartSession

  const AddressStep: int := 0
  const ShippingStep: int := 1
  const PaymentStep: int := 2

  const SaveAddressFailed: string := "Failed to save address"
  const SelectShippingFailed: string := "Failed to select shipping method"
  const EmailMissing: string := "Please provide an email address"
  const AccessCodeMissing: string := "Payment access code missing"
  const InitiateFailed: string := "Failed to initiate payment"
  const CompletionFailed: string := "Order completion failed"
  const PopupFailed: string := "Payment failed"

  /** How the payment popup ends: `onSuccess`, `onError(error)` or `onClose`. */
  datatype PopupResult = PopupSuccess | PopupError(message: string) | PopupClosed

  /** What the page renders. */
  datatype Screen = LoadingScreen | EmptyCartScreen | WizardScreen(step: int)

  /** The address form's initial value: blank fields, country 'za'. */
  function BlankAddress(): AddressPayload {
    AddressPayload("", "", "", None, "", "za", "", Some(""), Some(""))
  }

  /** What the page shows once the payment session call has returned with
      `session`, starting from message `message0`, processing flag
      `processing0` and placed order `placed0`: the initiation error or the
      missing access code; else the popup's ending, where success places the
      order the completion of `seen` returned, or shows its failure. Every
      ending but a placed order clears the processing flag. */
  predicate PaymentEnding(session: Reply<PaymentSession>, popup: PopupResult, seen: Option<Cart>,
                          completion: Reply<Order>, message0: string, processing0: bool, placed0: Option<Order>,
                          message: string, processing: bool, placed: Option<Order>)
  {
    match session
    case Err(m) =>
      message == ErrorText(m, InitiateFailed) && !processing && placed == placed0
    case Ok(s) =>
      if !Truthy(s.accessCode) then
        message == AccessCodeMissing && !processing && placed == placed0
      else
        match popup
        case PopupClosed =>
          message == message0 && !processing && placed == placed0
        case PopupError(m) =>
          message == ErrorText(m, PopupFailed) && !processing && placed == placed0
        case PopupSuccess =>
          match Completion(seen, completion)
          case Ok(order) => placed == Some(order) && processing == processing0 && message == message0
          case Err(m) =>
            message == ErrorText(m, CompletionFailed) && !processing && placed == placed0
  }

  class CheckoutPage {
    const store: CartStore
    var step: int
    var isProcessing: bool
    var errorMessage: string          // "" when no message is shown
    var address: AddressPayload
    var email: string
    var placedOrder: Option<Order>    // set when the page navigates to the order confirmation

    ghost predicate Valid()
      reads this, store
    {
      && AddressStep <= step <= PaymentStep
      && store.Valid()
    }

    constructor (store: CartStore)
      requires store.Valid()
      ensures Valid() && this.store == store
      ensures step == AddressStep && !isProcessing && errorMessage == ""
      ensures address == BlankAddress() && email == "" && placedOrder == None
    {
      this.store := store;
      step := AddressStep;
      isProcessing := false;
      errorMessage := "";
      address := BlankAddress();
      email := "";
      placedOrder := None;
    }

    /** What the page shows: a loading notice while the first cart is being
        fetched, an empty-cart notice without a cart or lines, else the wizard
        at its current step. */
    function View(): (s: Screen)
      reads this, store
      requires Valid()
      ensures s.WizardScreen? <==> store.cart.Some? && |store.cart.value.items| > 0
      ensures s.WizardScreen? ==> s.step == step && AddressStep <= s.step <= PaymentStep
      ensures s == LoadingScreen <==> store.isLoading && store.cart.None?
    {
      if store.isLoading && store.cart.None? then LoadingScreen
      else if store.cart.None? || |store.cart.value.items| == 0 then EmptyCartScreen
      else WizardScreen(step)
    }

    /** The effect that runs when the cart changes: the email field is
        prefilled from the cart, or blank. */
    method CartChanged()
      modifies this`email
      ensures store.cart.Some? ==> email == OrStr(store.cart.value.email, "")
      ensures store.cart.None? ==> email == old(email)
    {
      if store.cart.Some? {
        email := OrStr(store.cart.value.email, "");
      }
    }

    /** Typing in the address form. */
    method EditAddress(a: AddressPayload)
      requires step == AddressStep
      modifies this`address
      ensures address == a
    {
      address := a;
    }

    /** Typing in the email field. */
    method EditEmail(e: string)
      requires step == PaymentStep
      modifies this`email
      ensures email == e
    {
      email := e;
    }

    /** `handleAddressSubmit`: save the address on the cart; move to the
        shipping step only if that succeeded. */
    method SubmitAddress(reply: Reply<ServerCart>)
      requires Valid() && step == AddressStep && !isProcessing
      modifies this`step, this`isProcessing, this`errorMessage, store
      ensures Valid() && !isProcessing
      ensures store.sent == old(store.sent) +
        (if IdOf(old(store.cart)).Some? then [UpdateCartAddresses(IdOf(old(store.cart)).value, address, address)] else [])
      ensures match MutationOutcome(old(store.cart), reply)
        case Pass => step == ShippingStep && errorMessage == ""
        case Raised(m) => step == AddressStep && errorMessage == ErrorText(m, SaveAddressFailed)
      ensures IdOf(old(store.cart)).Some? ==>
        Applied(old(store.cart), old(store.error), reply, AddressFailed, store.cart, store.error) && !store.isLoading
      ensures IdOf(old(store.cart)).None? ==>
        store.cart == old(store.cart) && store.error == old(store.error) && store.isLoading == old(store.isLoading)
      ensures store.storedCartId == old(store.storedCartId) && store.shippingOptions == old(store.shippingOptions)
    {
      isProcessing := true;
      errorMessage := "";
      var o := store.UpdateAddress(address, reply);
      match o {
        case Pass => step := ShippingStep;
        case Raised(m) => errorMessage := ErrorText(m, SaveAddressFailed);
      }
      isProcessing := false;
    }

    /** `handleShippingSelect(optionId)`: move to the payment step only if
        the shipping method was added. */
    method SelectShipping(optionId: string, reply: Reply<ServerCart>)
      requires Valid() && step == ShippingStep
      modifies this`step, this`isProcessing, this`errorMessage, store
      ensures Valid() && !isProcessing
      ensures store.sent == old(store.sent) +
        (if IdOf(old(store.cart)).Some? then [SelectShippingOption(IdOf(old(store.cart)).value, optionId)] else [])
      ensures match MutationOutcome(old(store.cart), reply)
        case Pass => step == PaymentStep && errorMessage == ""
        case Raised(m) => step == ShippingStep && errorMessage == ErrorText(m, SelectShippingFailed)
      ensures IdOf(old(store.cart)).Some? ==>
        Applied(old(store.cart), old(store.error), reply, ShippingFailed, store.cart, store.error) && !store.isLoading
      ensures IdOf(old(store.cart)).None? ==>
        store.cart == old(store.cart) && store.error == old(store.error) && store.isLoading == old(store.isLoading)
      ensures store.storedCartId == old(store.storedCartId) && store.shippingOptions == old(store.shippingOptions)
    {
      isProcessing := true;
      errorMessage := "";
      var o := store.AddShippingMethod(optionId, reply);
      match o {
        case Pass => step := PaymentStep;
        case Raised(m) => errorMessage := ErrorText(m, SelectShippingFailed);
      }
      isProcessing := false;
    }

    /** 'Back to Address', offered on the shipping step. */
    method BackToAddress()
      requires Valid() && step == ShippingStep
      modifies this`step
      ensures Valid() && step == AddressStep
    {
      step := AddressStep;
    }

    /** 'Back to Shipping', offered on the payment step. */
    method BackToShipping()
      requires Valid() && step == PaymentStep
      modifies this`step
      ensures Valid() && step == ShippingStep
    {
      step := ShippingStep;
    }

    /** `handlePayment`: refuse an empty email without any remote call;
        otherwise initiate the payment session and, given an access code,
        hand over to the popup. A successful popup completes the cart and
        navigates to the confirmation with the order; every other ending
        clears `isProcessing`. The step never changes. */
    method Pay(payment: PaymentReplies, popup: PopupResult, completion: Reply<Order>, renewal: InitReplies)
      requires Valid() && step == PaymentStep && !isProcessing
      modifies this`isProcessing, this`errorMessage, this`placedOrder, store
      ensures Valid() && step == old(step)
      ensures old(email) == "" ==>
        && errorMessage == EmailMissing && isProcessing == old(isProcessing)
        && placedOrder == old(placedOrder)
        && store.sent == old(store.sent) && store.cart == old(store.cart)
        && store.error == old(store.error) && store.isLoading == old(store.isLoading)
        && store.storedCartId == old(store.storedCartId) && store.shippingOptions == old(store.shippingOptions)
      ensures old(email) != "" ==>
        PaymentEnding(InitiatedSession(old(store.cart), old(email), payment), popup, old(store.cart), completion,
                      "", true, old(placedOrder), errorMessage, isProcessing, placedOrder)
      ensures old(email) != "" ==>
        var s := InitiatedSession(old(store.cart), old(email), payment);
        var completes := s.Ok? && Truthy(s.value.accessCode) && popup.PopupSuccess?;
        && store.sent == old(store.sent) + PaymentRequests(old(store.cart), old(email), payment)
             + (if completes then CompletionRequests(old(store.cart), completion, renewal) else [])
        && (!(completes && completion.Ok?) ==>
              store.storedCartId == old(store.storedCartId) && store.shippingOptions == old(store.shippingOptions))
        && (s.Err? && IdOf(old(store.cart)).None? ==> store.cart == old(store.cart) && store.error == old(store.error))
        && (s.Err? && IdOf(old(store.cart)).Some? ==>
              && store.cart == CartAfterEmail(old(store.cart), old(email), payment)
              && store.error == ErrorText(s.message, PaymentFailed))
        && (s.Ok? && !completes ==> store.cart == Some(MapCart(payment.refreshed.value)) && store.error == old(store.error))
        && (completes && completion.Err? ==>
              && store.cart == Some(MapCart(payment.refreshed.value))
              && store.error == ErrorText(completion.message, CompleteFailed))
        && (completes && completion.Ok? ==>
              Renewed(renewal, old(store.shippingOptions), store.cart, store.storedCartId, store.error, store.shippingOptions))
        && (IdOf(old(store.cart)).None? ==> store.isLoading == old(store.isLoading))
        && (IdOf(old(store.cart)).Some? ==> !store.isLoading)
    {
      if email == "" {
        errorMessage := EmailMissing;
        return;
      }
      isProcessing := true;
      errorMessage := "";
      var seen := store.cart;   // the cart the popup's completion callback closes over
      var session := store.InitiatePaymentSession(email, payment);
      Proceed(seen, session, popup, completion, renewal);
    }

    /** The rest of `handlePayment` once the session call has returned: a
        failure or a missing access code is shown and ends processing;
        otherwise the popup takes over. Only a successful popup touches the
        store. */
    method Proceed(seen: Option<Cart>, session: Reply<PaymentSession>, popup: PopupResult,
                   completion: Reply<Order>, renewal: InitReplies)
      requires Valid() && (session.Ok? ==> IdOf(seen).Some?)
      modifies this`isProcessing, this`errorMessage, this`placedOrder, store
      ensures Valid()
      ensures PaymentEnding(session, popup, seen, completion, old(errorMessage), old(isProcessing), old(placedOrder),
                            errorMessage, isProcessing, placedOrder)
      ensures store.sent == old(store.sent) +
        (if session.Ok? && Truthy(session.value.accessCode) && popup.PopupSuccess?
         then CompletionRequests(seen, completion, renewal) else [])
      ensures !(session.Ok? && Truthy(session.value.accessCode) && popup.PopupSuccess?) ==>
        && store.cart == old(store.cart) && store.error == old(store.error)
        && store.storedCartId == old(store.storedCartId) && store.shippingOptions == old(store.shippingOptions)
        && store.isLoading == old(store.isLoading)
      ensures session.Ok? && Truthy(session.value.accessCode) && popup.PopupSuccess? ==>
        && (completion.Err? ==>
              && store.cart == old(store.cart) && store.storedCartId == old(store.storedCartId)
              && store.shippingOptions == old(store.shippingOptions)
              && store.error == ErrorText(completion.message, CompleteFailed))
        && (completion.Ok? ==>
              Renewed(renewal, old(store.shippingOptions), store.cart, store.storedCartId, store.error, store.shippingOptions))
        && !store.isLoading
    {
      match session {
        case Err(m) =>
          errorMessage := ErrorText(m, InitiateFailed);
          isProcessing := false;
        case Ok(s) =>
          if !Truthy(s.accessCode) {
            errorMessage := ErrorText(AccessCodeMissing, InitiateFailed);
            isProcessing := false;
            return;
          }
          HandOver(seen, popup, completion, renewal);
      }
    }

    /** The popup's callbacks, bound to the cart `seen` when Pay was pressed:
        `onSuccess` completes that cart and places the order, `onError`
        shows the error, `onClose` only ends processing. */
    method HandOver(seen: Option<Cart>, popup: PopupResult, completion: Reply<Order>, renewal: InitReplies)
      requires Valid() && IdOf(seen).Some?
      modifies this`isProcessing, this`errorMessage, this`placedOrder, store
      ensures Valid()
      ensures match popup
        case PopupClosed =>
          errorMessage == old(errorMessage) && !isProcessing && placedOrder == old(placedOrder)
        case PopupError(m) =>
          errorMessage == ErrorText(m, PopupFailed) && !isProcessing && placedOrder == old(placedOrder)
        case PopupSuccess =>
          match Completion(seen, completion)
          case Ok(order) => placedOrder == Some(order) && isProcessing == old(isProcessing) && errorMessage == old(errorMessage)
          case Err(m) =>
            errorMessage == ErrorText(m, CompletionFailed) && !isProcessing && placedOrder == old(placedOrder)
      ensures store.sent == old(store.sent) +
        (if popup.PopupSuccess? then CompletionRequests(seen, completion, renewal) else [])
      ensures !popup.PopupSuccess? ==>
        && store.cart == old(store.cart) && store.error == old(store.error)
        && store.storedCartId == old(store.storedCartId) && store.shippingOptions == old(store.shippingOptions)
        && store.isLoading == old(store.isLoading)
      ensures popup.PopupSuccess? ==>
        && (completion.Err? ==>
              && store.cart == old(store.cart) && store.storedCartId == old(store.storedCartId)
              && store.shippingOptions == old(store.shippingOptions)
              && store.error == ErrorText(completion.message, CompleteFailed))
        && (completion.Ok? ==>
              Renewed(renewal, old(store.shippingOptions), store.cart, store.storedCartId, store.error, store.shippingOptions))
        && !store.isLoading
    {
      match popup {
        case PopupSuccess =>
          var order := store.CompleteCart(seen, completion, renewal);
          match order {
            case Ok(o) => placedOrder := Some(o);
            case Err(m) =>
              errorMessage := ErrorText(m, CompletionFailed);
              isProcessing := false;
          }
        case PopupError(m) =>
          errorMessage := ErrorText(m, PopupFailed);
          isProcessing := false;
        case PopupClosed =>
          isProcessing := false;
      }
    }
  }
}
