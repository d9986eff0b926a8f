/** The account session (context/AccountContext.tsx): the signed-in
    customer, a loading flag and the auth token persisted in the browser's
    storage. Backend calls are oracles whose replies the caller supplies;
    the ghost `sent` log records every request, in order. */
module AccountSession {
  import opened Js

  /** A saved address of a customer. */
  datatype CustomerAddress = CustomerAddress(
    id: string,
    firstName: Option<string>,
    lastName: Option<string>,
    address1: Option<string>,
    address2: Option<string>,
    city: Option<string>,
    province: Option<string>,
    postalCode: Option<string>,
    countryCode: Option<string>,
    phone: Option<string>)

  datatype Customer = Customer(
    id: string,
    email: string,
    firstName: Option<string>,
    lastName: Option<string>,
    phone: Option<string>,
    shippingAddresses: seq<CustomerAddress>)

  /** The reply of the email/password authentication endpoint. */
  datatype AuthReply = AuthReply(token: Option<string>)

  /** A profile update; `password` is present only when one is sent. */
  datatype ProfileUpdate = ProfileUpdate(firstName: string, lastName: string, phone: string, password: Option<string>)

  /** The address form's fields, as sent to the backend. */
  datatype AddressFields = AddressFields(
    firstName: string,
    lastName: string,
    address1: string,
    address2: string,
    city: string,
    province: string,
    postalCode: string,
    countryCode: string,
    phone: string)

  /** The registration form's fields. */
  datatype Registration = Registration(
    email: string, password: string, firstName: string, lastName: string, phone: string)

  /** Requests the client sends for the account. */
  datatype AccountRequest =
    | Authenticate(email: string, password: string)
    | RegisterIdentity(email: string, password: string)
    | RetrieveCustomer
    | UpdateProfile(update: ProfileUpdate)
    | CreateAddress(fields: AddressFields)
    | UpdateAddressRequest(addressId: string, fields: AddressFields)
    | DeleteAddressRequest(addressId: string)
    | DeleteSession

  /** The customer after `refetchCustomer`: the one returned, or none. */
  function RefetchedCustomer(reply: Reply<Customer>): Option<Customer> {
    match reply
    case Ok(c) => Some(c)
    case Err(_) => None
  }

  /** The token after `refetchCustomer`: dropped when the refetch fails. */
  function TokenAfterRefetch(token: Option<string>, reply: Reply<Customer>): (t: Option<string>)
    ensures reply.Err? ==> t == None
    ensures reply.Ok? ==> t == token
  {
    if reply.Err? then None else token
  }

  /** The token after an authentication reply: stored only when returned. */
  function TokenAfterAuth(token: Option<string>, reply: AuthReply): (t: Option<string>)
    ensures Truthy(reply.token) ==> t == reply.token
    ensures !Truthy(reply.token) ==> t == token
  {
    if Truthy(reply.token) then reply.token else token
  }

  /** `data.first_name || data.last_name || data.phone`: whether `register`
      sends the profile update. */
  predicate HasProfileData(data: Registration) {
    data.firstName != "" || data.lastName != "" || data.phone != ""
  }

  /** The profile update `register` sends: names and phone, no password. */
  function RegistrationProfile(data: Registration): ProfileUpdate {
    ProfileUpdate(data.firstName, data.lastName, data.phone, None)
  }

  class AccountStore {
    var customer: Option<Customer>
    var isLoading: bool
    var authToken: Option<string>     // storage key 'medusa_auth_token'
    ghost var sent: seq<AccountRequest>

    /** The provider's initial state: loading, no customer yet. */
    constructor (token: Option<string>)
      ensures customer == None && isLoading && authToken == token && sent == []
    {
      customer := None;
      isLoading := true;
      authToken := token;
      sent := [];
    }

    /** `refetchCustomer`: on success the customer is the one returned; on
        failure the customer is cleared and the token removed. Never throws;
        always ends not loading. */
    method RefetchCustomer(reply: Reply<Customer>)
      modifies this
      ensures sent == old(sent) + [RetrieveCustomer]
      ensures customer == RefetchedCustomer(reply)
      ensures authToken == TokenAfterRefetch(old(authToken), reply)
      ensures !isLoading
    {
      sent := sent + [RetrieveCustomer];
      match reply {
        case Ok(c) =>
          customer := Some(c);
        case Err(_) =>
          customer := None;
          authToken := None;
      }
      isLoading := false;
    }

    /** `login(email, password)`: authenticate, store the token only if one
        is returned, then refetch. A failed authentication is rethrown and
        leaves customer and token as they were. */
    method Login(email: string, password: string, auth: Reply<AuthReply>, refetch: Reply<Customer>)
      returns (o: Outcome)
      modifies this
      ensures o == Rethrown(auth) && !isLoading
      ensures auth.Err? ==>
        && sent == old(sent) + [Authenticate(email, password)]
        && customer == old(customer) && authToken == old(authToken)
      ensures auth.Ok? ==>
        && sent == old(sent) + [Authenticate(email, password), RetrieveCustomer]
        && customer == RefetchedCustomer(refetch)
        && authToken == TokenAfterRefetch(TokenAfterAuth(old(authToken), auth.value), refetch)
    {
      isLoading := true;
      sent := sent + [Authenticate(email, password)];
      match auth {
        case Err(m) =>
          o := Raised(m);
        case Ok(response) =>
          if Truthy(response.token) {
            authToken := response.token;
          }
          RefetchCustomer(refetch);
          o := Pass;
      }
      isLoading := false;
    }

    /** `register(data)`: create the identity, authenticate (storing the
        token if one is returned), send the profile update only when there is
        profile data, then refetch. The first failure is rethrown. */
    method Register(data: Registration, created: Reply<()>, auth: Reply<AuthReply>,
                    profile: Reply<()>, refetch: Reply<Customer>)
      returns (o: Outcome)
      modifies this
      ensures !isLoading
      ensures created.Err? ==>
        && o == Raised(created.message)
        && sent == old(sent) + [RegisterIdentity(data.email, data.password)]
        && customer == old(customer) && authToken == old(authToken)
      ensures created.Ok? && auth.Err? ==>
        && o == Raised(auth.message)
        && sent == old(sent) + [RegisterIdentity(data.email, data.password), Authenticate(data.email, data.password)]
        && customer == old(customer) && authToken == old(authToken)
      ensures created.Ok? && auth.Ok? ==>
        var token := TokenAfterAuth(old(authToken), auth.value);
        var head := old(sent) + [RegisterIdentity(data.email, data.password), Authenticate(data.email, data.password)];
        if HasProfileData(data) && profile.Err? then
          && o == Raised(profile.message)
          && sent == head + [UpdateProfile(RegistrationProfile(data))]
          && customer == old(customer) && authToken == token
        else
          && o == Pass
          && sent == head + (if HasProfileData(data) then [UpdateProfile(RegistrationProfile(data))] else [])
                          + [RetrieveCustomer]
          && customer == RefetchedCustomer(refetch)
          && authToken == TokenAfterRefetch(token, refetch)
    {
      isLoading := true;
      sent := sent + [RegisterIdentity(data.email, data.password)];
      if created.Err? {
        isLoading := false;
        return Raised(created.message);
      }
      sent := sent + [Authenticate(data.email, data.password)];
      if auth.Err? {
        isLoading := false;
        return Raised(auth.message);
      }
      if Truthy(auth.value.token) {
        authToken := auth.value.token;
      }
      if HasProfileData(data) {
        sent := sent + [UpdateProfile(RegistrationProfile(data))];
        if profile.Err? {
          isLoading := false;
          return Raised(profile.message);
        }
      }
      RefetchCustomer(refetch);
      isLoading := false;
      o := Pass;
    }

    /** `logout`: whether or not the backend call succeeds, the token is
        removed and the customer cleared. Never throws. */
    method Logout(reply: Reply<()>)
      modifies this
      ensures sent == old(sent) + [DeleteSession]
      ensures customer == None && authToken == None && !isLoading
    {
      isLoading := true;
      sent := sent + [DeleteSession];
      match reply {
        case Ok(_) =>
          authToken := None;
          customer := None;
        case Err(_) =>
          authToken := None;
          customer := None;
      }
      isLoading := false;
    }

    /** One remote call followed by a refetch, as `updateCustomer`,
        `addAddress`, `updateAddress` and `deleteAddress` all do: a failed
        call is rethrown and leaves the session as it was. */
    method CallThenRefetch(request: AccountRequest, reply: Reply<()>, refetch: Reply<Customer>)
      returns (o: Outcome)
      modifies this
      ensures o == Rethrown(reply) && !isLoading
      ensures reply.Err? ==>
        sent == old(sent) + [request] && customer == old(customer) && authToken == old(authToken)
      ensures reply.Ok? ==>
        && sent == old(sent) + [request, RetrieveCustomer]
        && customer == RefetchedCustomer(refetch)
        && authToken == TokenAfterRefetch(old(authToken), refetch)
    {
      isLoading := true;
      sent := sent + [request];
      match reply {
        case Err(m) =>
          o := Raised(m);
        case Ok(_) =>
          RefetchCustomer(refetch);
          o := Pass;
      }
      isLoading := false;
    }

    /** `updateCustomer(data)`. */
    method UpdateCustomer(data: ProfileUpdate, reply: Reply<()>, refetch: Reply<Customer>)
      returns (o: Outcome)
      modifies this
      ensures o == Rethrown(reply) && !isLoading
      ensures reply.Err? ==>
        sent == old(sent) + [UpdateProfile(data)] && customer == old(customer) && authToken == old(authToken)
      ensures reply.Ok? ==>
        && sent == old(sent) + [UpdateProfile(data), RetrieveCustomer]
        && customer == RefetchedCustomer(refetch)
        && authToken == TokenAfterRefetch(old(authToken), refetch)
    {
      o := CallThenRefetch(UpdateProfile(data), reply, refetch);
    }

    /** `addAddress(address)`. */
    method AddAddress(fields: AddressFields, reply: Reply<()>, refetch: Reply<Customer>)
      returns (o: Outcome)
      modifies this
      ensures o == Rethrown(reply) && !isLoading
      ensures reply.Err? ==>
        sent == old(sent) + [CreateAddress(fields)] && customer == old(customer) && authToken == old(authToken)
      ensures reply.Ok? ==>
        && sent == old(sent) + [CreateAddress(fields), RetrieveCustomer]
        && customer == RefetchedCustomer(refetch)
        && authToken == TokenAfterRefetch(old(authToken), refetch)
    {
      o := CallThenRefetch(CreateAddress(fields), reply, refetch);
    }

    /** `updateAddress(addressId, address)`. */
    method UpdateAddress(addressId: string, fields: AddressFields, reply: Reply<()>, refetch: Reply<Customer>)
      returns (o: Outcome)
      modifies this
      ensures o == Rethrown(reply) && !isLoading
      ensures reply.Err? ==>
        && sent == old(sent) + [UpdateAddressRequest(addressId, fields)]
        && customer == old(customer) && authToken == old(authToken)
      ensures reply.Ok? ==>
        && sent == old(sent) + [UpdateAddressRequest(addressId, fields), RetrieveCustomer]
        && customer == RefetchedCustomer(refetch)
        && authToken == TokenAfterRefetch(old(authToken), refetch)
    {
      o := CallThenRefetch(UpdateAddressRequest(addressId, fields), reply, refetch);
    }

    /** `deleteAddress(addressId)`. */
    method DeleteAddress(addressId: string, reply: Reply<()>, refetch: Reply<Customer>)
      returns (o: Outcome)
      modifies this
      ensures o == Rethrown(reply) && !isLoading
      ensures reply.Err? ==>
        && sent == old(sent) + [DeleteAddressRequest(addressId)]
        && customer == old(customer) && authToken == old(authToken)
      ensures reply.Ok? ==>
        && sent == old(sent) + [DeleteAddressRequest(addressId), RetrieveCustomer]
        && customer == RefetchedCustomer(refetch)
        && authToken == TokenAfterRefetch(old(authToken), refetch)
    {
      o := CallThenRefetch(DeleteAddressRequest(addressId), reply, refetch);
    }
  }
}
