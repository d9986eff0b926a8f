/** The account page (pages/Account.tsx): the account-details form, which
    validates the password pair and builds the profile update, and the
    condition under which the page fetches the customer's orders. */
module AccountDetails {
  import opened Js
  import opened AccountSession

  const PasswordsDiffer: string := "Passwords do not match."
  const DetailsSaved: string := "Account details updated successfully."
  const DetailsFailed: string := "Failed to update account details. Please try again."
  const OrdersTab: string := "orders"
  const DashboardTab: string := "dashboard"

  /** The form's fields. */
  datatype DetailsFields = DetailsFields(
    firstName: string, lastName: string, phone: string, password: string, passwordConfirm: string)

  datatype MessageKind = SuccessMessage | ErrorMessage
  datatype Message = Message(kind: MessageKind, text: string)

  /** An order in the customer's history. */
  datatype OrderSummary = OrderSummary(id: string, displayId: int, status: string)

  /** The form's initial value: the customer's names and phone, blank when
      absent, and empty password fields. */
  function InitialFields(c: Customer): DetailsFields {
    DetailsFields(OrStr(c.firstName, ""), OrStr(c.lastName, ""), OrStr(c.phone, ""), "", "")
  }

  /** The password check of `handleSubmit`: a new password must equal its
      confirmation; an empty password skips the check. */
  predicate PasswordsAcceptable(f: DetailsFields) {
    f.password == "" || f.password == f.passwordConfirm
  }

  /** The profile update the form sends for its fields. */
  function Payload(f: DetailsFields): ProfileUpdate {
    ProfileUpdate(f.firstName, f.lastName, f.phone, if f.password != "" then Some(f.password) else None)
  }

  /** The payload `handleSubmit` builds: names and phone always, the
      password if and only if one was typed. */
  method BuildPayload(f: DetailsFields) returns (p: ProfileUpdate)
    ensures p == Payload(f)
    ensures p.firstName == f.firstName && p.lastName == f.lastName && p.phone == f.phone
    ensures p.password.Some? <==> f.password != ""
    ensures p.password.Some? ==> p.password.value == f.password
  {
    p := ProfileUpdate(f.firstName, f.lastName, f.phone, None);
    if f.password != "" {
      p := p.(password := Some(f.password));
    }
  }

  /** `AccountDetailsForm`. */
  class DetailsForm {
    const account: AccountStore
    var fields: DetailsFields
    var isLoading: bool
    var message: Option<Message>

    constructor (account: AccountStore, customer: Customer)
      ensures this.account == account
      ensures fields == InitialFields(customer) && fields.password == "" && fields.passwordConfirm == ""
      ensures !isLoading && message == None
    {
      this.account := account;
      fields := InitialFields(customer);
      isLoading := false;
      message := None;
    }

    /** `handleSubmit`. A mismatching password pair is reported without any
        update call. Otherwise the profile update is sent; on success both
        password fields are cleared and the rest kept, on failure the fields
        stay as typed. Loading always ends. */
    method Submit(reply: Reply<()>, refetch: Reply<Customer>)
      modifies this`fields, this`isLoading, this`message, account
      ensures !isLoading
      ensures !PasswordsAcceptable(old(fields)) ==>
        && message == Some(Message(ErrorMessage, PasswordsDiffer))
        && fields == old(fields)
        && account.sent == old(account.sent) && account.customer == old(account.customer)
        && account.authToken == old(account.authToken) && account.isLoading == old(account.isLoading)
      ensures PasswordsAcceptable(old(fields)) ==>
        && !account.isLoading
        && account.customer == (if reply.Ok? then RefetchedCustomer(refetch) else old(account.customer))
        && account.authToken == (if reply.Ok? then TokenAfterRefetch(old(account.authToken), refetch)
                                 else old(account.authToken))
      ensures PasswordsAcceptable(old(fields)) ==>
        && account.sent == old(account.sent) + [UpdateProfile(Payload(old(fields)))]
                                             + (if reply.Ok? then [RetrieveCustomer] else [])
        && match reply
           case Ok(_) =>
             && message == Some(Message(SuccessMessage, DetailsSaved))
             && fields == old(fields).(password := "", passwordConfirm := "")
           case Err(_) =>
             && message == Some(Message(ErrorMessage, DetailsFailed))
             && fields == old(fields)
    {
      message := None;
      isLoading := true;
      if fields.password != "" && fields.password != fields.passwordConfirm {
        message := Some(Message(ErrorMessage, PasswordsDiffer));
        isLoading := false;
        return;
      }
      var payload := BuildPayload(fields);
      var o := account.UpdateCustomer(payload, reply, refetch);
      if o.Pass? {
        message := Some(Message(SuccessMessage, DetailsSaved));
        fields := fields.(password := "", passwordConfirm := "");
      } else {
        message := Some(Message(ErrorMessage, DetailsFailed));
      }
      isLoading := false;
    }
  }

  /** The account page's tab and order history. */
  class AccountPage {
    const account: AccountStore
    var activeTab: string
    var orders: seq<OrderSummary>
    ghost var orderFetches: nat

    constructor (account: AccountStore)
      ensures this.account == account
      ensures activeTab == DashboardTab && orders == [] && orderFetches == 0
    {
      this.account := account;
      activeTab := DashboardTab;
      orders := [];
      orderFetches := 0;
    }

    method SelectTab(tab: string)
      modifies this`activeTab
      ensures activeTab == tab
    {
      activeTab := tab;
    }

    /** The effect on the customer and the active tab: the orders are
        fetched only when a customer is signed in and the orders tab is
        active; a failed fetch is swallowed. */
    method RefreshOrders(reply: Reply<seq<OrderSummary>>)
      modifies this`orders, this`orderFetches
      ensures account.customer.Some? && activeTab == OrdersTab ==>
        orderFetches == old(orderFetches) + 1 && orders == (if reply.Ok? then reply.value else old(orders))
      ensures !(account.customer.Some? && activeTab == OrdersTab) ==>
        orderFetches == old(orderFetches) && orders == old(orders)
    {
      if account.customer.Some? && activeTab == OrdersTab {
        orderFetches := orderFetches + 1;
        match reply {
          case Ok(list) => orders := list;
          case Err(_) =>
        }
      }
    }
  }
}
