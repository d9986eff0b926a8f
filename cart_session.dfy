/** The cart session (context/CartContext.tsx): a local mirror of the remote
    cart plus the cart id persisted in the browser's storage. Each backend
    call is an oracle: the caller passes the reply the backend gives, and the
    model states what the client does with it. The ghost `sent` log records
    every request the client makes, in order. */
module CartSession {
  import opened Js
  import opened CartModel

  datatype ShippingOption = ShippingOption(id: string, name: string, amount: int)
  datatype Region = Region(id: string)
  datatype Order = Order(id: string)

  /** The shipping and billing address sent to the backend (`AddressPayload`). */
  datatype AddressPayload = AddressPayload(
    firstName: string,
    lastName: string,
    address1: string,
    address2: Option<string>,
    city: string,
    countryCode: string,
    postalCode: string,
    phone: Option<string>,
    province: Option<string>)

  /** A payment session; `accessCode` is `data.paystackTxAccessCode`. */
  datatype PaymentSession = PaymentSession(id: string, accessCode: Option<string>)

  /** The reply to the session request: `payment_session` when present, and
      the whole reply read as a session otherwise. */
  datatype SessionReply = SessionReply(paymentSession: Option<PaymentSession>, whole: PaymentSession)

  /** Requests the client sends to the commerce backend. */
  datatype CartRequest =
    | RetrieveCart(cartId: string)
    | ListRegions
    | CreateCart(regionId: string)
    | ListCartShippingOptions(cartId: string)
    | ListAllShippingOptions
    | CreateLineItem(cartId: string, variantId: string, quantity: int)
    | UpdateLineItem(cartId: string, lineItemId: string, quantity: int)
    | DeleteLineItem(cartId: string, lineItemId: string)
    | UpdateCartEmail(cartId: string, email: string)
    | UpdateCartAddresses(cartId: string, shipping: AddressPayload, billing: AddressPayload)
    | SelectShippingOption(cartId: string, optionId: string)
    | CreatePaymentCollection(cartId: string)
    | CreatePaymentSession(collectionId: string, providerId: string)
    | CompleteCheckout(cartId: string)

  /** The replies to the two shipping-option lookups (the second is the
      fallback used only when the first fails). */
  datatype OptionsReplies = OptionsReplies(
    primary: Reply<Option<seq<ShippingOption>>>,
    fallback: Reply<Option<seq<ShippingOption>>>)

  /** The replies `initializeCart` may consult. */
  datatype InitReplies = InitReplies(
    existing: Reply<Option<ServerCart>>,
    regions: Reply<Option<seq<Region>>>,
    created: Reply<ServerCart>,
    options: OptionsReplies)

  /** The replies `initiatePaymentSession` may consult. */
  datatype PaymentReplies = PaymentReplies(
    emailUpdate: Reply<ServerCart>,
    collection: Reply<Option<string>>,
    collectionCart: Reply<ServerCart>,
    session: Reply<SessionReply>,
    refreshed: Reply<ServerCart>)

  const NoCart: string := "No cart available"
  const NoRegions: string := "No regions configured in Medusa"
  const InitFailed: string := "Failed to initialize cart"
  const AddFailed: string := "Failed to add item to cart"
  const UpdateItemFailed: string := "Failed to update item"
  const RemoveFailed: string := "Failed to remove item"
  const EmailFailed: string := "Failed to update email"
  const AddressFailed: string := "Failed to update address"
  const ShippingFailed: string := "Failed to select shipping method"
  const NoCollection: string := "Failed to create payment collection"
  const PaymentFailed: string := "Failed to initiate payment"
  const CompleteFailed: string := "Failed to complete order"
  const PaymentProvider: string := "pp_system_default"

  /** `cart?.id`, when truthy. */
  function IdOf(c: Option<Cart>): Option<string> {
    if c.Some? && c.value.id != "" then Some(c.value.id) else None
  }

  /** The options list after `fetchShippingOptions`: the cart's options, else
      the unfiltered list, else what was there (an absent list reads as []). */
  function FetchedOptions(current: seq<ShippingOption>, r: OptionsReplies): seq<ShippingOption> {
    match r.primary
    case Ok(opts) => opts.GetOr([])
    case Err(_) =>
      match r.fallback
      case Ok(opts) => opts.GetOr([])
      case Err(_) => current
  }

  /** Whether `initializeCart` reuses the stored cart: there is a stored id,
      and the backend returns a cart for it that is not completed. */
  predicate Reusable(stored: Option<string>, existing: Reply<Option<ServerCart>>) {
    Truthy(stored) && existing.Ok? && existing.value.Some? && !existing.value.value.completed
  }

  /** The stored id after a lookup that did not reuse the cart: dropped when
      retrieval failed, kept otherwise (a completed cart's id is kept). */
  function StoredAfterLookup(stored: Option<string>, existing: Reply<Option<ServerCart>>): Option<string> {
    if Truthy(stored) && existing.Err? then None else stored
  }

  /** `regions[0].id` when the region list is non-empty. */
  function FirstRegion(regions: Reply<Option<seq<Region>>>): Option<string> {
    if regions.Ok? && regions.value.Some? && |regions.value.value| > 0
    then Some(regions.value.value[0].id) else None
  }

  /** The new cart `initializeCart` creates, or the error text it records. */
  function NewCart(r: InitReplies): (res: Reply<ServerCart>)
    ensures res.Ok? ==> FirstRegion(r.regions).Some? && r.created == res
    ensures FirstRegion(r.regions).Some? && r.created.Ok? ==> res == r.created
    ensures res.Err? ==> res.message != ""
    ensures r.regions.Err? ==> res == Err(ErrorText(r.regions.message, InitFailed))
    ensures FirstRegion(r.regions).None? && r.regions.Ok? ==> res == Err(NoRegions)
    ensures FirstRegion(r.regions).Some? && r.created.Err? ==> res == Err(ErrorText(r.created.message, InitFailed))
  {
    match r.regions
    case Err(m) => Err(ErrorText(m, InitFailed))
    case Ok(regions) =>
      if regions.None? || |regions.value| == 0 then Err(NoRegions)
      else
        match r.created
        case Err(m) => Err(ErrorText(m, InitFailed))
        case Ok(c) => Ok(c)
  }

  /** The requests `fetchShippingOptions(cartId)` sends. */
  function OptionsRequests(cartId: string, r: OptionsReplies): seq<CartRequest> {
    [ListCartShippingOptions(cartId)] + (if r.primary.Err? then [ListAllShippingOptions] else [])
  }

  /** The requests that create a cart: list the regions, create the cart
      in the first one, and fetch its shipping options. */
  function CreationRequests(r: InitReplies): seq<CartRequest> {
    [ListRegions] +
    (if FirstRegion(r.regions).Some? then [CreateCart(FirstRegion(r.regions).value)] else []) +
    (if NewCart(r).Ok? then OptionsRequests(NewCart(r).value.id, r.options) else [])
  }

  /** The requests `initializeCart` sends, in order, given the stored id. */
  function InitRequests(stored: Option<string>, r: InitReplies): seq<CartRequest> {
    (if Truthy(stored) then [RetrieveCart(stored.value)] else []) +
    if Reusable(stored, r.existing) then
      var found := r.existing.value.value;
      if found.regionId != "" then OptionsRequests(found.id, r.options) else []
    else CreationRequests(r)
  }

  /** The cart `initializeCart` leaves: the reused cart, else the new one,
      else the cart it started with. */
  function CartAfterInit(cart: Option<Cart>, stored: Option<string>, r: InitReplies): (c: Option<Cart>)
    ensures Reusable(stored, r.existing) ==> c == Some(MapCart(r.existing.value.value))
    ensures !Reusable(stored, r.existing) && NewCart(r).Ok? ==> c == Some(MapCart(NewCart(r).value))
    ensures !Reusable(stored, r.existing) && NewCart(r).Err? ==> c == cart
    ensures c != cart ==> c.Some? && Normalised(c.value)
  {
    if Reusable(stored, r.existing) then Some(MapCart(r.existing.value.value))
    else match NewCart(r)
      case Ok(created) => Some(MapCart(created))
      case Err(_) => cart
  }

  /** The stored cart id `initializeCart` leaves. */
  function StoredAfterInit(stored: Option<string>, r: InitReplies): (id: Option<string>)
    ensures Reusable(stored, r.existing) ==> id == stored
    ensures !Reusable(stored, r.existing) && NewCart(r).Ok? ==> id == Some(NewCart(r).value.id)
    ensures Truthy(stored) && r.existing.Err? && NewCart(r).Err? ==> id == None
    ensures !Reusable(stored, r.existing) && NewCart(r).Err? && (r.existing.Ok? || !Truthy(stored)) ==> id == stored
    ensures id != stored ==> id == None || (NewCart(r).Ok? && id == Some(NewCart(r).value.id))
  {
    if Reusable(stored, r.existing) then stored
    else match NewCart(r)
      case Ok(created) => Some(created.id)
      case Err(_) => StoredAfterLookup(stored, r.existing)
  }

  /** The error text `initializeCart` leaves: cleared, or the creation failure. */
  function ErrorAfterInit(stored: Option<string>, r: InitReplies): (e: string)
    ensures e == "" <==> Reusable(stored, r.existing) || NewCart(r).Ok?
    ensures e != "" ==> e == NewCart(r).message
  {
    if Reusable(stored, r.existing) then ""
    else match NewCart(r)
      case Ok(_) => ""
      case Err(text) => text
  }

  /** The shipping options `initializeCart` leaves: refetched for the cart it
      settles on, kept when it settles on none or on a cart without region. */
  function OptionsAfterInit(options: seq<ShippingOption>, stored: Option<string>, r: InitReplies): (o: seq<ShippingOption>)
    ensures o == options || o == FetchedOptions(options, r.options)
    ensures !Reusable(stored, r.existing) && NewCart(r).Err? ==> o == options
    ensures !Reusable(stored, r.existing) && NewCart(r).Ok? ==> o == FetchedOptions(options, r.options)
    ensures Reusable(stored, r.existing) ==>
      o == (if r.existing.value.value.regionId != "" then FetchedOptions(options, r.options) else options)
  {
    if Reusable(stored, r.existing) then
      (if r.existing.value.value.regionId != "" then FetchedOptions(options, r.options) else options)
    else match NewCart(r)
      case Ok(_) => FetchedOptions(options, r.options)
      case Err(_) => options
  }

  /** The requests `completeCart` sends for the cart `seen`: none without a
      cart id; else the completion and, after it succeeds, the renewal. */
  function CompletionRequests(seen: Option<Cart>, reply: Reply<Order>, renewal: InitReplies): seq<CartRequest> {
    if IdOf(seen).None? then []
    else [CompleteCheckout(IdOf(seen).value)] + (if reply.Ok? then InitRequests(None, renewal) else [])
  }

  /** The state a completed checkout leaves once the renewal has run: the
      renewal's new cart, its id stored and its options fetched; or, when
      no cart could be created, no cart, no stored id and the failure text. */
  predicate Renewed(renewal: InitReplies, options0: seq<ShippingOption>, cart: Option<Cart>,
                    stored: Option<string>, error: string, options: seq<ShippingOption>)
  {
    match NewCart(renewal)
    case Ok(created) =>
      && cart == Some(MapCart(created)) && stored == Some(created.id) && error == ""
      && options == FetchedOptions(options0, renewal.options)
    case Err(text) =>
      && cart == None && stored == None && error == text && options == options0
  }

  /** The outcome of one cart mutation that rethrows: on success the cart is
      the mapped server cart and the error is untouched; on failure the cart
      is untouched and the error is the message or the fallback text. */
  predicate Applied(cart0: Option<Cart>, error0: string, reply: Reply<ServerCart>, fallback: string,
                    cart1: Option<Cart>, error1: string)
    requires fallback != ""
  {
    match reply
    case Ok(s) => cart1 == Some(MapCart(s)) && error1 == error0
    case Err(m) => cart1 == cart0 && error1 == ErrorText(m, fallback)
  }

  /** How a guarded mutation ends for its caller: silently when there is no
      cart, else as its backend reply. */
  function MutationOutcome<T>(cart: Option<Cart>, reply: Reply<T>): (o: Outcome)
    ensures IdOf(cart).None? ==> o == Pass
    ensures IdOf(cart).Some? ==> o == Rethrown(reply)
    ensures o.Raised? ==> reply.Err? && o.message == reply.message
  {
    if IdOf(cart).None? then Pass else Rethrown(reply)
  }

  /** The payment collection `initiatePaymentSession` obtains: from the
      creation request, else from the cart when creation fails. */
  function ObtainedCollection(r: PaymentReplies): Reply<Option<string>> {
    match r.collection
    case Ok(pc) => Ok(pc)
    case Err(_) =>
      match r.collectionCart
      case Ok(s) => Ok(s.paymentCollection)
      case Err(m) => Err(m)
  }

  /** What the payment half of `initiatePaymentSession` returns or throws:
      a collection must be obtained, then the session request and the final
      refresh must succeed; the session is `payment_session` or the reply. */
  function SessionOutcome(r: PaymentReplies): (res: Reply<PaymentSession>)
    ensures r.collection.Err? && r.collectionCart.Err? ==> res == Err(r.collectionCart.message)
    ensures ObtainedCollection(r) == Ok(None) ==> res == Err(NoCollection)
    ensures ObtainedCollection(r).Ok? && ObtainedCollection(r).value.Some? ==>
      match r.session
      case Err(m) => res == Err(m)
      case Ok(reply) =>
        if r.refreshed.Err? then res == Err(r.refreshed.message)
        else res == Ok(reply.paymentSession.GetOr(reply.whole))
    ensures res.Ok? ==> r.session.Ok? && r.refreshed.Ok?
  {
    match ObtainedCollection(r)
    case Err(m) => Err(m)
    case Ok(None) => Err(NoCollection)
    case Ok(Some(_)) =>
      match r.session
      case Err(m) => Err(m)
      case Ok(reply) =>
        match r.refreshed
        case Err(m) => Err(m)
        case Ok(_) => Ok(reply.paymentSession.GetOr(reply.whole))
  }

  /** The requests of the payment half of `initiatePaymentSession`. */
  function SessionRequests(cartId: string, r: PaymentReplies): seq<CartRequest> {
    [CreatePaymentCollection(cartId)] +
    (if r.collection.Err? then [RetrieveCart(cartId)] else []) +
    match ObtainedCollection(r)
    case Ok(Some(collectionId)) =>
      [CreatePaymentSession(collectionId, PaymentProvider)] + (if r.session.Ok? then [RetrieveCart(cartId)] else [])
    case _ => []
  }

  /** What `initiatePaymentSession(email)` returns or throws for a cart.
      A session comes back only when there is a cart, the email update (if
      needed) succeeded, a payment collection was obtained, and the session
      request and the final refresh succeeded. */
  function InitiatedSession(cart: Option<Cart>, email: string, r: PaymentReplies): (res: Reply<PaymentSession>)
    ensures IdOf(cart).None? ==> res == Err(NoCart)
    ensures res.Ok? ==> IdOf(cart).Some? && r.session.Ok? && r.refreshed.Ok?
    ensures res.Ok? ==> ObtainedCollection(r).Ok? && ObtainedCollection(r).value.Some?
    ensures res.Ok? && cart.value.email != Some(email) ==> r.emailUpdate.Ok?
    ensures (IdOf(cart).Some? && (cart.value.email == Some(email) || r.emailUpdate.Ok?)
             && ObtainedCollection(r) == Ok(None)) ==> res == Err(NoCollection)
    ensures (IdOf(cart).Some? && (cart.value.email == Some(email) || r.emailUpdate.Ok?)
             && ObtainedCollection(r).Ok? && ObtainedCollection(r).value.Some?
             && r.session.Ok? && r.refreshed.Ok?)
            ==> res == Ok(r.session.value.paymentSession.GetOr(r.session.value.whole))
    ensures IdOf(cart).Some? && cart.value.email != Some(email) && r.emailUpdate.Err?
            ==> res == Err(r.emailUpdate.message)
    ensures IdOf(cart).Some? && (cart.value.email == Some(email) || r.emailUpdate.Ok?)
            ==> res == SessionOutcome(r)
  {
    if IdOf(cart).None? then Err(NoCart)
    else if cart.value.email != Some(email) && r.emailUpdate.Err? then Err(r.emailUpdate.message)
    else SessionOutcome(r)
  }

  /** The requests `initiatePaymentSession(email)` sends, in order. */
  function PaymentRequests(cart: Option<Cart>, email: string, r: PaymentReplies): seq<CartRequest> {
    if IdOf(cart).None? then [] else
    var changed := cart.value.email != Some(email);
    (if changed then [UpdateCartEmail(cart.value.id, email)] else []) +
    (if changed && r.emailUpdate.Err? then [] else SessionRequests(cart.value.id, r))
  }

  /** The cart after `initiatePaymentSession` fails: the email update, when
      one was sent and succeeded, is the last change that took effect. */
  function CartAfterEmail(cart: Option<Cart>, email: string, r: PaymentReplies): Option<Cart> {
    if cart.Some? && cart.value.email != Some(email) && r.emailUpdate.Ok?
    then Some(MapCart(r.emailUpdate.value)) else cart
  }

  /** What `completeCart` returns or throws for a cart. */
  function Completion(cart: Option<Cart>, reply: Reply<Order>): (res: Reply<Order>)
    ensures IdOf(cart).None? ==> res == Err(NoCart)
    ensures IdOf(cart).Some? ==> res == reply
  {
    if IdOf(cart).None? then Err(NoCart) else reply
  }

  /** `initializeCart` creates a cart only when the stored one could not be
      reused, and then only in the first configured region. */
  lemma CreatesOnlyInFirstRegion(stored: Option<string>, r: InitReplies, regionId: string)
    requires CreateCart(regionId) in InitRequests(stored, r)
    ensures !Reusable(stored, r.existing)
    ensures FirstRegion(r.regions) == Some(regionId)
  {
  }

  /** `initiatePaymentSession` writes the email to the cart exactly when it
      differs from the cart's. */
  lemma EmailWrittenIffChanged(cart: Option<Cart>, email: string, r: PaymentReplies)
    requires IdOf(cart).Some?
    ensures UpdateCartEmail(cart.value.id, email) in PaymentRequests(cart, email, r)
            <==> cart.value.email != Some(email)
  {
  }

  /** A session that comes back was opened on the obtained payment
      collection with the default provider. */
  lemma SessionOpenedWithDefaultProvider(cart: Option<Cart>, email: string, r: PaymentReplies)
    requires InitiatedSession(cart, email, r).Ok?
    ensures CreatePaymentSession(ObtainedCollection(r).value.value, PaymentProvider)
            in PaymentRequests(cart, email, r)
  {
  }

  class CartStore {
    var cart: Option<Cart>
    var isLoading: bool
    var error: string                       // "" when there is no error
    var shippingOptions: seq<ShippingOption>
    var storedCartId: Option<string>        // storage key 'medusa_cart_id'
    ghost var sent: seq<CartRequest>

    /** The cart the client holds is always one `mapCart` produced. */
    ghost predicate Valid()
      reads this
    {
      cart.Some? ==> Normalised(cart.value)
    }

    /** The provider's initial state; `stored` is what the browser kept. */
    constructor (stored: Option<string>)
      ensures Valid()
      ensures cart == None && isLoading && error == "" && shippingOptions == []
      ensures storedCartId == stored && sent == []
    {
      cart := None;
      isLoading := true;
      error := "";
      shippingOptions := [];
      storedCartId := stored;
      sent := [];
    }

    function CartId(): Option<string>
      reads this
    {
      IdOf(cart)
    }

    /** `fetchShippingOptions(cartId)`: failures are logged and swallowed. */
    method FetchShippingOptions(cartId: string, r: OptionsReplies)
      modifies this`shippingOptions, this`sent
      ensures shippingOptions == FetchedOptions(old(shippingOptions), r)
      ensures sent == old(sent) + [ListCartShippingOptions(cartId)]
                    + (if r.primary.Err? then [ListAllShippingOptions] else [])
    {
      sent := sent + [ListCartShippingOptions(cartId)];
      match r.primary {
        case Ok(opts) =>
          shippingOptions := opts.GetOr([]);
        case Err(_) =>
          sent := sent + [ListAllShippingOptions];
          match r.fallback {
            case Ok(opts) => shippingOptions := opts.GetOr([]);
            case Err(_) =>
          }
      }
    }

    /** The creation half of `initializeCart`: list the regions, create a
        cart in the first one, store its id and fetch its shipping options. */
    method StartNewCart(r: InitReplies)
      requires Valid()
      modifies this`cart, this`error, this`storedCartId, this`shippingOptions, this`sent
      ensures Valid()
      ensures sent == old(sent) + CreationRequests(r)
      ensures match NewCart(r)
        case Ok(created) =>
          && cart == Some(MapCart(created))
          && storedCartId == Some(created.id)
          && error == old(error)
          && shippingOptions == FetchedOptions(old(shippingOptions), r.options)
        case Err(text) =>
          && cart == old(cart)
          && storedCartId == old(storedCartId)
          && error == text
          && shippingOptions == old(shippingOptions)
    {
      sent := sent + [ListRegions];
      match r.regions {
        case Err(m) =>
          error := ErrorText(m, InitFailed);
        case Ok(regions) =>
          if regions.None? || |regions.value| == 0 {
            error := NoRegions;
          } else {
            sent := sent + [CreateCart(regions.value[0].id)];
            match r.created {
              case Err(m) =>
                error := ErrorText(m, InitFailed);
              case Ok(created) =>
                storedCartId := Some(created.id);
                cart := Some(MapCart(created));
                FetchShippingOptions(created.id, r.options);
            }
          }
      }
    }

    /** `initializeCart`: reuse the stored cart when it can be retrieved and
        is not completed; otherwise create one in the first region and store
        its id. Failures are recorded, never thrown. */
    method InitializeCart(r: InitReplies)
      requires Valid()
      modifies this
      ensures Valid() && !isLoading
      ensures sent == old(sent) + InitRequests(old(storedCartId), r)
      ensures cart == CartAfterInit(old(cart), old(storedCartId), r)
      ensures storedCartId == StoredAfterInit(old(storedCartId), r)
      ensures error == ErrorAfterInit(old(storedCartId), r)
      ensures shippingOptions == OptionsAfterInit(old(shippingOptions), old(storedCartId), r)
    {
      isLoading := true;
      error := "";
      if Truthy(storedCartId) {
        sent := sent + [RetrieveCart(storedCartId.value)];
        match r.existing {
          case Ok(found) =>
            if found.Some? && !found.value.completed {
              cart := Some(MapCart(found.value));
              if found.value.regionId != "" {
                FetchShippingOptions(found.value.id, r.options);
              }
              isLoading := false;
              return;
            }
          case Err(_) =>
            storedCartId := None;
        }
      }
      StartNewCart(r);
      isLoading := false;
    }

    /** `refreshCart`: re-read the cart; a failure records the bare message
        (no fallback text) and is not rethrown. No-op without a cart. */
    method RefreshCart(reply: Reply<ServerCart>)
      requires Valid()
      modifies this`cart, this`error, this`sent
      ensures Valid()
      ensures old(CartId()).None? ==> cart == old(cart) && error == old(error) && sent == old(sent)
      ensures old(CartId()).Some? ==>
        && sent == old(sent) + [RetrieveCart(old(CartId()).value)]
        && match reply
           case Ok(s) => cart == Some(MapCart(s)) && error == old(error)
           case Err(m) => cart == old(cart) && error == m
    {
      if CartId().None? {
        return;
      }
      sent := sent + [RetrieveCart(cart.value.id)];
      match reply {
        case Ok(s) => cart := Some(MapCart(s));
        case Err(m) => error := m;
      }
    }

    /** `addItem(variantId, quantity)`: without a cart it first runs
        `initializeCart`, then adds to the cart it had or, failing that, to
        the stored cart id; with neither it records 'No cart available'. */
    method AddItem(variantId: string, quantity: int, init: InitReplies, reply: Reply<ServerCart>)
      returns (o: Outcome)
      requires Valid()
      modifies this
      ensures Valid()
      ensures old(CartId()).Some? ==>
        && sent == old(sent) + [CreateLineItem(old(CartId()).value, variantId, quantity)]
        && Applied(old(cart), old(error), reply, AddFailed, cart, error)
        && o == Rethrown(reply) && !isLoading
        && storedCartId == old(storedCartId) && shippingOptions == old(shippingOptions)
      ensures old(CartId()).None? ==>
        var stored := StoredAfterInit(old(storedCartId), init);
        var initialised := CartAfterInit(old(cart), old(storedCartId), init);
        && storedCartId == stored
        && shippingOptions == OptionsAfterInit(old(shippingOptions), old(storedCartId), init)
        && !isLoading
        && sent == old(sent) + InitRequests(old(storedCartId), init)
                             + (if Truthy(stored) then [CreateLineItem(stored.value, variantId, quantity)] else [])
        && (!Truthy(stored) ==> o == Pass && cart == initialised && error == NoCart)
        && (Truthy(stored) ==>
              && o == Rethrown(reply)
              && Applied(initialised, ErrorAfterInit(old(storedCartId), init), reply, AddFailed, cart, error))
    {
      var captured := CartId();
      if captured.None? {
        InitializeCart(init);
      }
      var cartId := if captured.Some? then captured else storedCartId;
      if !Truthy(cartId) {
        error := NoCart;
        return Pass;
      }
      isLoading := true;
      sent := sent + [CreateLineItem(cartId.value, variantId, quantity)];
      match reply {
        case Ok(s) =>
          cart := Some(MapCart(s));
          o := Pass;
        case Err(m) =>
          error := ErrorText(m, AddFailed);
          o := Raised(m);
      }
      isLoading := false;
    }

    /** `removeItem(lineItemId)`. No-op without a cart. */
    method RemoveItem(lineItemId: string, reply: Reply<ServerCart>) returns (o: Outcome)
      requires Valid()
      modifies this`cart, this`error, this`isLoading, this`sent
      ensures Valid()
      ensures o == MutationOutcome(old(cart), reply)
      ensures old(CartId()).None? ==>
        cart == old(cart) && error == old(error) && isLoading == old(isLoading) && sent == old(sent)
      ensures old(CartId()).Some? ==>
        && sent == old(sent) + [DeleteLineItem(old(CartId()).value, lineItemId)]
        && Applied(old(cart), old(error), reply, RemoveFailed, cart, error)
        && !isLoading
    {
      if CartId().None? {
        return Pass;
      }
      isLoading := true;
      sent := sent + [DeleteLineItem(cart.value.id, lineItemId)];
      match reply {
        case Ok(s) =>
          cart := Some(MapCart(s));
          o := Pass;
        case Err(m) =>
          error := ErrorText(m, RemoveFailed);
          o := Raised(m);
      }
      isLoading := false;
    }

    /** `updateItem(lineItemId, quantity)`: a quantity of 0 or less removes
        the line instead and never sends an update. A failure of that removal
        is recorded under this operation's own fallback text. `reply` is the
        backend's answer to whichever request is sent. No-op without a cart. */
    method UpdateItem(lineItemId: string, quantity: int, reply: Reply<ServerCart>) returns (o: Outcome)
      requires Valid()
      modifies this`cart, this`error, this`isLoading, this`sent
      ensures Valid()
      ensures o == MutationOutcome(old(cart), reply)
      ensures old(CartId()).None? ==>
        cart == old(cart) && error == old(error) && isLoading == old(isLoading) && sent == old(sent)
      ensures old(CartId()).Some? ==>
        && sent == old(sent) + [if quantity <= 0 then DeleteLineItem(old(CartId()).value, lineItemId)
                                else UpdateLineItem(old(CartId()).value, lineItemId, quantity)]
        && Applied(old(cart), old(error), reply, UpdateItemFailed, cart, error)
        && !isLoading
    {
      if CartId().None? {
        return Pass;
      }
      isLoading := true;
      if quantity <= 0 {
        o := RemoveItem(lineItemId, reply);
        if o.Raised? {
          error := ErrorText(o.message, UpdateItemFailed);
        }
        isLoading := false;
        return;
      }
      sent := sent + [UpdateLineItem(cart.value.id, lineItemId, quantity)];
      match reply {
        case Ok(s) =>
          cart := Some(MapCart(s));
          o := Pass;
        case Err(m) =>
          error := ErrorText(m, UpdateItemFailed);
          o := Raised(m);
      }
      isLoading := false;
    }

    /** `updateEmail(email)`. No-op without a cart. */
    method UpdateEmail(email: string, reply: Reply<ServerCart>) returns (o: Outcome)
      requires Valid()
      modifies this`cart, this`error, this`isLoading, this`sent
      ensures Valid()
      ensures o == MutationOutcome(old(cart), reply)
      ensures old(CartId()).None? ==>
        cart == old(cart) && error == old(error) && isLoading == old(isLoading) && sent == old(sent)
      ensures old(CartId()).Some? ==>
        && sent == old(sent) + [UpdateCartEmail(old(CartId()).value, email)]
        && Applied(old(cart), old(error), reply, EmailFailed, cart, error)
        && !isLoading
    {
      if CartId().None? {
        return Pass;
      }
      isLoading := true;
      sent := sent + [UpdateCartEmail(cart.value.id, email)];
      match reply {
        case Ok(s) =>
          cart := Some(MapCart(s));
          o := Pass;
        case Err(m) =>
          error := ErrorText(m, EmailFailed);
          o := Raised(m);
      }
      isLoading := false;
    }

    /** `updateAddress(address)`: the one address is sent as both the
        shipping and the billing address. No-op without a cart. */
    method UpdateAddress(address: AddressPayload, reply: Reply<ServerCart>) returns (o: Outcome)
      requires Valid()
      modifies this`cart, this`error, this`isLoading, this`sent
      ensures Valid()
      ensures o == MutationOutcome(old(cart), reply)
      ensures old(CartId()).None? ==>
        cart == old(cart) && error == old(error) && isLoading == old(isLoading) && sent == old(sent)
      ensures old(CartId()).Some? ==>
        && sent == old(sent) + [UpdateCartAddresses(old(CartId()).value, address, address)]
        && Applied(old(cart), old(error), reply, AddressFailed, cart, error)
        && !isLoading
    {
      if CartId().None? {
        return Pass;
      }
      isLoading := true;
      sent := sent + [UpdateCartAddresses(cart.value.id, address, address)];
      match reply {
        case Ok(s) =>
          cart := Some(MapCart(s));
          o := Pass;
        case Err(m) =>
          error := ErrorText(m, AddressFailed);
          o := Raised(m);
      }
      isLoading := false;
    }

    /** `addShippingMethod(optionId)`. No-op without a cart. */
    method AddShippingMethod(optionId: string, reply: Reply<ServerCart>) returns (o: Outcome)
      requires Valid()
      modifies this`cart, this`error, this`isLoading, this`sent
      ensures Valid()
      ensures o == MutationOutcome(old(cart), reply)
      ensures old(CartId()).None? ==>
        cart == old(cart) && error == old(error) && isLoading == old(isLoading) && sent == old(sent)
      ensures old(CartId()).Some? ==>
        && sent == old(sent) + [SelectShippingOption(old(CartId()).value, optionId)]
        && Applied(old(cart), old(error), reply, ShippingFailed, cart, error)
        && !isLoading
    {
      if CartId().None? {
        return Pass;
      }
      isLoading := true;
      sent := sent + [SelectShippingOption(cart.value.id, optionId)];
      match reply {
        case Ok(s) =>
          cart := Some(MapCart(s));
          o := Pass;
        case Err(m) =>
          error := ErrorText(m, ShippingFailed);
          o := Raised(m);
      }
      isLoading := false;
    }

    /** The payment half of `initiatePaymentSession`: obtain a payment
        collection (creating one, else reading it from the cart), open a
        session with the default provider and refresh the cart. */
    method OpenPaymentSession(cartId: string, r: PaymentReplies) returns (res: Reply<PaymentSession>)
      requires Valid()
      modifies this`cart, this`error, this`sent
      ensures Valid()
      ensures res == SessionOutcome(r)
      ensures sent == old(sent) + SessionRequests(cartId, r)
      ensures res.Ok? ==> cart == Some(MapCart(r.refreshed.value)) && error == old(error)
      ensures res.Err? ==> cart == old(cart) && error == ErrorText(res.message, PaymentFailed)
    {
      sent := sent + [CreatePaymentCollection(cartId)];
      var collection: Option<string>;
      match r.collection {
        case Ok(pc) =>
          collection := pc;
        case Err(_) =>
          sent := sent + [RetrieveCart(cartId)];
          match r.collectionCart {
            case Ok(s) =>
              collection := s.paymentCollection;
            case Err(m) =>
              error := ErrorText(m, PaymentFailed);
              return Err(m);
          }
      }
      if collection.None? {
        error := ErrorText(NoCollection, PaymentFailed);
        return Err(NoCollection);
      }
      sent := sent + [CreatePaymentSession(collection.value, PaymentProvider)];
      match r.session {
        case Err(m) =>
          error := ErrorText(m, PaymentFailed);
          return Err(m);
        case Ok(reply) =>
          sent := sent + [RetrieveCart(cartId)];
          match r.refreshed {
            case Err(m) =>
              error := ErrorText(m, PaymentFailed);
              return Err(m);
            case Ok(s) =>
              cart := Some(MapCart(s));
              return Ok(reply.paymentSession.GetOr(reply.whole));
          }
      }
    }

    /** `initiatePaymentSession(email)`: throws 'No cart available' without
        a cart and changes nothing; otherwise updates the email only when it
        differs from the cart's, then opens the payment session. */
    method InitiatePaymentSession(email: string, r: PaymentReplies) returns (res: Reply<PaymentSession>)
      requires Valid()
      modifies this`cart, this`error, this`isLoading, this`sent
      ensures Valid()
      ensures res == InitiatedSession(old(cart), email, r)
      ensures sent == old(sent) + PaymentRequests(old(cart), email, r)
      ensures old(CartId()).None? ==> cart == old(cart) && error == old(error) && isLoading == old(isLoading)
      ensures old(CartId()).Some? ==> !isLoading
      ensures res.Ok? ==> cart == Some(MapCart(r.refreshed.value)) && error == old(error)
      ensures old(CartId()).Some? && res.Err? ==>
        cart == CartAfterEmail(old(cart), email, r) && error == ErrorText(res.message, PaymentFailed)
    {
      if CartId().None? {
        return Err(NoCart);
      }
      var id := cart.value.id;
      isLoading := true;
      if cart.value.email != Some(email) {
        var o := UpdateEmail(email, r.emailUpdate);
        if o.Raised? {
          error := ErrorText(o.message, PaymentFailed);
          isLoading := false;
          return Err(o.message);
        }
      }
      res := OpenPaymentSession(id, r);
      isLoading := false;
    }

    /** `completeCart()` as bound to the render whose cart was `seen`: the
        id it checks and completes is that cart's, whatever the cart is by
        the time it runs. Without one it throws 'No cart available' and
        changes nothing; on success it forgets the stored cart, starts a
        fresh one with `initializeCart` and returns the order. */
    method CompleteCart(seen: Option<Cart>, reply: Reply<Order>, renewal: InitReplies) returns (res: Reply<Order>)
      requires Valid()
      modifies this
      ensures Valid()
      ensures res == Completion(seen, reply)
      ensures sent == old(sent) + CompletionRequests(seen, reply, renewal)
      ensures IdOf(seen).None? ==>
        && cart == old(cart) && error == old(error) && isLoading == old(isLoading)
        && storedCartId == old(storedCartId) && shippingOptions == old(shippingOptions) && sent == old(sent)
      ensures IdOf(seen).Some? ==>
        && !isLoading
        && sent == old(sent) + [CompleteCheckout(IdOf(seen).value)]
                             + (if reply.Ok? then InitRequests(None, renewal) else [])
      ensures IdOf(seen).Some? && reply.Err? ==>
        && cart == old(cart) && storedCartId == old(storedCartId) && shippingOptions == old(shippingOptions)
        && error == ErrorText(reply.message, CompleteFailed)
      ensures IdOf(seen).Some? && reply.Ok? ==>
        Renewed(renewal, old(shippingOptions), cart, storedCartId, error, shippingOptions)
    {
      if IdOf(seen).None? {
        return Err(NoCart);
      }
      var id := IdOf(seen).value;
      isLoading := true;
      sent := sent + [CompleteCheckout(id)];
      match reply {
        case Err(m) =>
          error := ErrorText(m, CompleteFailed);
          isLoading := false;
          return Err(m);
        case Ok(order) =>
          storedCartId := None;
          cart := None;
          InitializeCart(renewal);
          isLoading := false;
          return Ok(order);
      }
    }

    /** `itemCount` as the provider exposes it. */
    function ItemCountNow(): (n: int)
      reads this
      ensures n == SumQuantities(if cart.Some? then cart.value.items else [])
    {
      ItemCount(cart)
    }
  }
}
