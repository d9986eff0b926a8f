# Storefront client state, modelled in Dafny

This project models the client-side state of a React storefront that runs
against a Medusa v2 commerce backend:

- the **cart session** (`CartContext`): the current cart, normalised from the
  backend's cart by `mapCart`; a loading flag; an error text; the shipping
  options; and the cart id kept in browser storage;
- the **checkout wizard**: address step, then shipping step, then payment
  step, ending in a payment popup;
- the **account session** (`AccountContext`): the signed-in customer and the
  auth token kept in browser storage;
- the **account-details form** and the orders-tab fetch of the account page;
- the **address book** form.

Every backend call is an oracle. The caller passes its reply as a parameter:
`Reply<T> = Ok(value) | Err(message)`, where an empty message stands for an
error without one. Each store keeps a ghost log, `sent`, of the requests it
sends, in order, so every operation states which requests it sends and what
state it leaves behind. An operation that rethrows returns an
`Outcome = Pass | Raised(message)`. JavaScript's `a || b` on strings and
numbers is written out explicitly, in module `Js`.

Modules:

- `Js` (js.dfy): the JavaScript value conventions.
- `CartModel` (cart_model.dfy): the server-to-client cart mapping and the item count.
- `CartSession` (cart_session.dfy): the cart provider, as class `CartStore`.
- `Checkout` (checkout.dfy): the checkout page, as class `CheckoutPage`.
- `AccountSession` (account_session.dfy): the account provider, as class `AccountStore`.
- `AccountDetails` (account_details.dfy): the account-details form and the account page's order fetch.
- `AddressBook` (address_book.dfy): the address book form.

The stores keep two invariants:

- `CartStore.Valid()`: a cart the client holds always lies in the image of
  `mapCart`.
- `CheckoutPage.Valid()`: the wizard step stays between 0 and 2, and the
  cart store stays valid.

The image of `mapCart` is characterised by `CartModel.Normalised`. The lemma
`CartRoundTrip` shows that `mapCart` is a fixpoint on that image, and
`MapCartIdempotent` follows from it.

## Model

| member | source | states |
|---|---|---|
| CartModel.LineTotal | context/CartContext.tsx:151 | a line's total is the server total when that is non-zero, else the subtotal when that is non-zero, else unit price times quantity; a zero result means price times quantity is zero |
| CartModel.MapItem | context/CartContext.tsx:140-152 | a mapped line keeps the server line's id, variant id, quantity and unit price; its total is `LineTotal`; title, description and variant title are the first non-empty of their two candidates, else blank; the thumbnail is the item's, else the product's, else none; the line is in normal form |
| CartModel.MapItems | context/CartContext.tsx:140 | the mapped lines correspond one to one, in order, to the server lines |
| CartModel.MapCart | context/CartContext.tsx:138-158 | the client cart keeps id, region and email; its lines are `MapItem` of the server lines in order (absent items read as none); the subtotal is the server subtotal when non-zero, else the item subtotal when non-zero, else 0; a non-zero total is kept, else 0; the currency is the cart's, else the region's, else 'usd'; the result is normalised |
| CartModel.CartRoundTrip | context/CartContext.tsx:138-158 | every normalised cart is a fixpoint: mapping back its server form gives it again |
| CartModel.MapCartIdempotent | context/CartContext.tsx:138-158 | mapping an already mapped cart changes nothing |
| CartModel.ZeroTotalFallsThrough | context/CartContext.tsx:151 | a zero line total is treated as an absent one: the line total is the same as without it |
| CartModel.FoldIsSum | context/CartContext.tsx:372 | the left fold over quantities with accumulator `acc` equals `acc` plus the sum of the quantities |
| CartModel.ItemCount | context/CartContext.tsx:372 | the badge count is 0 without a cart and the sum of the line quantities with one |
| CartModel.CountPositiveIffItems | context/CartContext.tsx:372 | with positive quantities the count is positive exactly when the cart has lines |
| CartModel.CountOfMappedCart | context/CartContext.tsx:138-158 | the count of a mapped cart is the sum of the server lines' quantities |
| Js.ErrorText | context/CartContext.tsx:193 | `err.message || fallback` is never empty, is the message when there is one and the fallback otherwise |
| Js.OrStr3 | context/CartContext.tsx:142 | a chain of two optional strings and a fallback gives the first non-empty candidate, else the fallback |
| Js.Rethrown | context/CartContext.tsx:191-195 | a handler that rethrows fails exactly when the call failed, with the call's message |
| CartSession.NewCart | context/CartContext.tsx:94-110 | a cart results if and only if a region exists and the creation succeeds, and it is the backend's reply; a failed region lookup or creation gives its message or 'Failed to initialize cart'; an empty region list gives 'No regions configured in Medusa'; failures carry a non-empty text |
| CartSession.MutationOutcome | context/CartContext.tsx:260-277 | a guarded mutation without a cart passes silently; with a cart it fails exactly when the call failed, with the call's message |
| CartSession.SessionOutcome | context/CartContext.tsx:307-337 | a failed collection creation falls back to the refreshed cart's collection, and a failed fallback is rethrown; no collection gives 'Failed to create payment collection'; a failed session or refresh call is rethrown with its message; otherwise the result is `payment_session`, else the whole reply; success needs the session and refresh calls to succeed |
| CartSession.InitiatedSession | context/CartContext.tsx:297-345 | no cart gives 'No cart available'; with a cart whose email matches, or after a successful email update, the result is exactly `SessionOutcome`; a session comes back if and only if a payment collection was obtained, the session and refresh calls succeeded and, when the email differs, the email update succeeded; it is `payment_session`, else the whole reply; a failed email update is rethrown; a missing collection gives its own error |
| CartSession.Completion | context/CartContext.tsx:347-370 | completion without a cart fails with 'No cart available'; with one it is the backend's reply |
| CartSession.CartAfterInit | context/CartContext.tsx:69-114 | the cart after initialisation is the reused cart, else the created one; it is unchanged when no cart was reused and creation failed; any new cart is normalised |
| CartSession.StoredAfterInit | context/CartContext.tsx:74-104 | the stored id is kept on reuse, becomes the new cart's id on creation, and is dropped when retrieval failed and creation failed too; when retrieval answered (no cart, or a completed one) or nothing was stored, and creation failed, it is kept |
| CartSession.ErrorAfterInit | context/CartContext.tsx:70-112 | initialisation leaves an error exactly when it neither reused nor created a cart, and then it is the creation failure's text |
| CartSession.OptionsAfterInit | context/CartContext.tsx:82-106 | the shipping options are refetched after a creation and after reusing a cart that has a region; they are kept when the reused cart has no region, and when no cart was reused or created |
| CartSession.CreatesOnlyInFirstRegion | context/CartContext.tsx:69-110 | a cart is created only when the stored cart was not reusable, and always in the first region |
| CartSession.EmailWrittenIffChanged | context/CartContext.tsx:302-305 | the email is written to the cart if and only if it differs from the cart's |
| CartSession.SessionOpenedWithDefaultProvider | context/CartContext.tsx:309-333 | a returned session was opened on the obtained collection with provider 'pp_system_default' |
| CartSession.CartStore.constructor | context/CartContext.tsx:62-66 | the provider starts loading, with no cart, no error and no options |
| CartSession.CartStore.FetchShippingOptions | context/CartContext.tsx:116-131 | the cart's options are taken; if that fails, the unfiltered list is fetched and taken; if both fail, the options stay unchanged |
| CartSession.CartStore.InitializeCart | context/CartContext.tsx:69-114 | the new cart, stored id, error and options are exactly `CartAfterInit`, `StoredAfterInit`, `ErrorAfterInit` and `OptionsAfterInit`: the stored cart is reused when it is retrievable and not completed, else a cart is created in the first region; errors are recorded, never thrown; the exact request trace |
| CartSession.CartStore.StartNewCart | context/CartContext.tsx:94-110 | lists the regions, creates a cart in the first one, stores its id and fetches its options; a failure leaves cart, stored id and options as they were and records the text |
| CartSession.CartStore.RefreshCart | context/CartContext.tsx:160-170 | re-reads the cart; a failure records the bare message; no-op without a cart |
| CartSession.CartStore.AddItem | context/CartContext.tsx:172-198 | with a cart, the item is added to it; without one, the cart is initialised first and the item added to the id stored afterwards, with the whole state and request trace given; with neither a cart nor an id, 'No cart available' is recorded; a failure is recorded and rethrown |
| CartSession.CartStore.UpdateItem | context/CartContext.tsx:200-222 | a quantity of 0 or less deletes the line instead of updating it; the cart or error follows the reply; a failure is rethrown |
| CartSession.CartStore.RemoveItem | context/CartContext.tsx:224-239 | deletes the line; the cart or error follows the reply; a failure is rethrown |
| CartSession.CartStore.UpdateEmail | context/CartContext.tsx:241-258 | writes the email; the cart or error follows the reply; a failure is rethrown |
| CartSession.CartStore.UpdateAddress | context/CartContext.tsx:260-277 | the one address is sent as both shipping and billing address; the cart or error follows the reply |
| CartSession.CartStore.AddShippingMethod | context/CartContext.tsx:279-295 | selects the option; the cart or error follows the reply; a failure is rethrown |
| CartSession.CartStore.InitiatePaymentSession | context/CartContext.tsx:297-345 | returns exactly `InitiatedSession`, sends exactly `PaymentRequests`; on failure the cart reflects any email update that took effect |
| CartSession.CartStore.OpenPaymentSession | context/CartContext.tsx:307-337 | returns exactly `SessionOutcome` and sends exactly `SessionRequests`; on success the cart is the refreshed one, on failure it is unchanged and the error is the message or 'Failed to initiate payment' |
| CartSession.CartStore.CompleteCart | context/CartContext.tsx:347-370 | completes the id of the cart the calling render held; on success the stored cart is forgotten and a new one initialised (cart, id, error and options of the new cart) before the order is returned; on failure cart, stored id and options are kept |
| CartSession.CartStore.ItemCountNow | context/CartContext.tsx:372 | the exposed count is the sum of the held cart's quantities |
| Checkout.CheckoutPage.constructor | pages/Checkout.tsx:21-38 | the wizard starts on the address step with a blank address (country 'za') and no email |
| Checkout.CheckoutPage.View | pages/Checkout.tsx:127-138 | the wizard shows exactly when a cart with lines is held; loading shows only while loading without a cart |
| Checkout.CheckoutPage.CartChanged | pages/Checkout.tsx:41-48 | the email field is prefilled from the cart's email, or blank |
| Checkout.CheckoutPage.SubmitAddress | pages/Checkout.tsx:58-70 | moves to shipping exactly when the address update does not throw, which includes the silent no-op when there is no cart id; otherwise shows the message or 'Failed to save address'. With a cart id the store's cart and error are those of the update (`Applied`); without one they are unchanged; the stored id and shipping options never change |
| Checkout.CheckoutPage.SelectShipping | pages/Checkout.tsx:72-83 | moves to payment exactly when adding the shipping method does not throw, which includes the silent no-op when there is no cart id; otherwise shows the message or the fallback. With a cart id the store's cart and error are those of the update (`Applied`); without one they are unchanged; the stored id and shipping options never change |
| Checkout.CheckoutPage.BackToAddress | pages/Checkout.tsx:196 | the back control returns to the address step unconditionally |
| Checkout.CheckoutPage.BackToShipping | pages/Checkout.tsx:236 | the back control returns to the shipping step unconditionally |
| Checkout.CheckoutPage.Pay | pages/Checkout.tsx:85-125 | an empty email is refused with no remote call; a missing access code, popup error or failed completion shows its message and ends processing; closing the popup ends processing silently; success completes the cart held when Pay was pressed and places the order; the step never changes. The store's request trace is `PaymentRequests`, then the completion and, after it succeeds, the renewal's `InitRequests`; the store's cart, error, stored id and options are stated for each ending: the email-updated cart and the payment error when initiation fails, the refreshed cart otherwise, and the renewed cart (or none, with its error) after completion (`Renewed`); the store's loading flag is unchanged without a cart id and cleared otherwise |
| Checkout.CheckoutPage.HandOver | pages/Checkout.tsx:104-120 | the popup's success completes the cart held when Pay was pressed: the order is placed, or the completion's message or 'Order completion failed' is shown and processing ends; the store's trace and state are those of the completion and renewal; a popup error shows its message or 'Payment failed'; closing only ends processing; neither touches the store (requests, cart, error, stored id, options and loading flag are unchanged), while success leaves the store not loading |
| Checkout.CheckoutPage.Proceed | pages/Checkout.tsx:95-124 | after the session call, an initiation failure shows its message or 'Failed to initiate payment' and a missing access code shows 'Payment access code missing', both ending processing and leaving the store untouched; otherwise the popup takes over as in `HandOver` |
| AccountSession.AccountStore.constructor | context/AccountContext.tsx:22-24 | the provider starts loading with no customer |
| AccountSession.AccountStore.RefetchCustomer | context/AccountContext.tsx:26-38 | on success the customer is the one returned; on failure the customer is cleared and the token removed; never throws |
| AccountSession.AccountStore.Login | context/AccountContext.tsx:44-66 | authenticates, stores a returned token only, then refetches; a failed authentication is rethrown and changes nothing |
| AccountSession.AccountStore.Register | context/AccountContext.tsx:68-110 | creates the identity, then authenticates, then sends the profile update only when names or phone were given, then refetches; the first failure is rethrown |
| AccountSession.AccountStore.Logout | context/AccountContext.tsx:112-129 | whether or not the backend call succeeds, the token is removed and the customer cleared |
| AccountSession.AccountStore.UpdateCustomer | context/AccountContext.tsx:131-143 | sends the profile update, then refetches; a failure is rethrown and changes nothing |
| AccountSession.AccountStore.AddAddress | context/AccountContext.tsx:145-157 | creates the address, then refetches; a failure is rethrown and changes nothing |
| AccountSession.AccountStore.UpdateAddress | context/AccountContext.tsx:159-171 | updates the address, then refetches; a failure is rethrown and changes nothing |
| AccountSession.AccountStore.DeleteAddress | context/AccountContext.tsx:173-185 | deletes the address, then refetches; a failure is rethrown and changes nothing |
| AccountDetails.BuildPayload | pages/Account.tsx:228-236 | the payload carries names and phone always, and the password if and only if one was typed |
| AccountDetails.DetailsForm.constructor | pages/Account.tsx:204-210 | the form starts from the customer's names and phone, blank when absent, with empty passwords |
| AccountDetails.DetailsForm.Submit | pages/Account.tsx:216-246 | a mismatching password pair is refused with no call; success clears both password fields and keeps the rest; failure keeps the fields; loading always ends; the account's customer and token are the refetched ones after success and unchanged otherwise |
| AccountDetails.AccountPage.constructor | pages/Account.tsx:11-13 | the page opens on the dashboard tab with no orders |
| AccountDetails.AccountPage.SelectTab | pages/Account.tsx:88 | a menu entry makes its tab the active one |
| AccountDetails.AccountPage.RefreshOrders | pages/Account.tsx:15-28 | orders are fetched only with a signed-in customer on the orders tab; a failed fetch keeps the previous orders |
| AddressBook.AddressBookView.constructor | components/account/AddressBook.tsx:8-24 | the form starts closed, blank, with country 'za' |
| AddressBook.AddressBookView.ResetForm | components/account/AddressBook.tsx:26-41 | the form is refilled with the customer's names and phone and blank address fields, country 'za'; closed, no error, not editing |
| AddressBook.AddressBookView.StartAdd | components/account/AddressBook.tsx:103 | 'Add New' resets the form and opens it for a new address |
| AddressBook.AddressBookView.SelectRadarAddress | components/account/AddressBook.tsx:43-49 | the selected address overwrites its own fields and keeps names, second line and phone |
| AddressBook.AddressBookView.Submit | components/account/AddressBook.tsx:51-68 | updates the address being edited, else adds one; success resets the form as rendered; failure keeps form and mode and shows the message or 'Failed to save address'; the account's customer and token are the refetched ones after success and unchanged otherwise |
| AddressBook.AddressBookView.StartEdit | components/account/AddressBook.tsx:70-84 | copies every field of the address, blank when absent and 'za' without a country, and opens the form editing that address |
| AddressBook.AddressBookView.Delete | components/account/AddressBook.tsx:86-93 | deletes only after confirmation, and without it changes nothing in the account; a failure is swallowed and the form is untouched; the account's customer and token are the refetched ones after success and unchanged after failure |

## Left out

- The commerce backend SDK, the payment popup and the address autocomplete
  service: each is an oracle reply or a parameter. The popup's result is
  `PopupResult`. An autocomplete selection is a `RadarAddress` whose
  missing fields read as blank.
- Asynchrony: every handler runs to completion before the next one starts,
  so interleavings of concurrent handlers and React's batched re-renders are
  not modelled. Where a handler reads a value captured at render time, the
  model reads it at entry:
  - `addItem` uses the cart id from before its own `initializeCart`;
  - the payment popup's success callback completes the cart held when Pay
    was pressed, although `initiatePaymentSession` has since refreshed it;
  - the address book's submit resets the form with the customer it was
    rendered with.
- AccountDetails.DetailsForm.Submit and AddressBook.AddressBookView.Submit:
  the account provider's loading flag unmounts these forms while a request
  runs (pages/Account.tsx:30-36 renders a spinner in their place), so their
  local state is reset on remount. The contracts describe what the handlers
  write, not the remount.
- CartSession.CartStore.InitializeCart: the provider does not await
  `fetchShippingOptions`. The model lets it finish inside the operation.
- `undefined` and `null` are one `None`. A cart creation reply without a
  cart, and a non-numeric quantity or price (NaN), are not modelled.
- Prices are integers in minor units. `formatPrice` and the other display
  formatting are left out.
- Console logging, navigation other than the order hand-over, the Paystack
  object's creation, and the UI toggles outside the named handlers (the
  login/register switch, menu tabs other than orders) are left out.
- `handleChange` on the forms is left out as well. Typing a field is plain
  assignment: `EditAddress`, `EditEmail` and direct field updates.
- Browser storage is a field of each store. Its persistence across page
  loads is the constructor's parameter.
