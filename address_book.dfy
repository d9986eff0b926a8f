/** The address book (components/account/AddressBook.tsx): a form that is
    either closed, adding a new address or editing a saved one, over the
    account session's address calls. */
module AddressBook {
  import opened Js
  import opened AccountSession

  const DefaultCountry: string := "za"
  const SaveFailed: string := "Failed to save address"

  /** The fields an address autocomplete selection supplies. */
  datatype RadarAddress = RadarAddress(
    address1: string, city: string, province: string, postalCode: string, countryCode: string)

  /** The form on first render: every field blank, country 'za'. */
  function EmptyForm(): AddressFields {
    AddressFields("", "", "", "", "", "", "", DefaultCountry, "")
  }

  /** The form after `resetForm`: the customer's names and phone (blank
      when absent), every address field blank and the country 'za'. */
  function BlankForm(c: Option<Customer>): AddressFields {
    AddressFields(
      if c.Some? then OrStr(c.value.firstName, "") else "",
      if c.Some? then OrStr(c.value.lastName, "") else "",
      "", "", "", "", "", DefaultCountry,
      if c.Some? then OrStr(c.value.phone, "") else "")
  }

  /** The form after `startEdit(address)`: every field of the address,
      blank when absent, and 'za' when it has no country. */
  function FormFor(a: CustomerAddress): AddressFields {
    AddressFields(
      OrStr(a.firstName, ""), OrStr(a.lastName, ""), OrStr(a.address1, ""), OrStr(a.address2, ""),
      OrStr(a.city, ""), OrStr(a.province, ""), OrStr(a.postalCode, ""),
      OrStr(a.countryCode, DefaultCountry), OrStr(a.phone, ""))
  }

  /** `{ ...prev, ...verifiedAddress }`: the selection's fields replace the
      form's, the others are kept. */
  function Overlay(form: AddressFields, sel: RadarAddress): AddressFields {
    form.(address1 := sel.address1, city := sel.city, province := sel.province,
          postalCode := sel.postalCode, countryCode := sel.countryCode)
  }

  /** The request a submit sends: an update of the address being edited,
      else a new address. */
  function SubmitRequest(editingId: Option<string>, form: AddressFields): AccountRequest {
    if Truthy(editingId) then UpdateAddressRequest(editingId.value, form) else CreateAddress(form)
  }

  class AddressBookView {
    const account: AccountStore
    var isAdding: bool
    var editingId: Option<string>
    var error: string                 // "" when no error is shown
    var isLoading: bool
    var form: AddressFields

    constructor (account: AccountStore)
      ensures this.account == account
      ensures !isAdding && editingId == None && error == "" && !isLoading && form == EmptyForm()
    {
      this.account := account;
      isAdding := false;
      editingId := None;
      error := "";
      isLoading := false;
      form := EmptyForm();
    }

    /** `resetForm` as the customer `c` it was rendered with sees it. */
    method ResetTo(c: Option<Customer>)
      modifies this`form, this`error, this`isAdding, this`editingId
      ensures form == BlankForm(c) && error == "" && !isAdding && editingId == None
      ensures form.address1 == "" && form.city == "" && form.province == "" && form.postalCode == ""
      ensures form.countryCode == DefaultCountry
    {
      form := BlankForm(c);
      error := "";
      isAdding := false;
      editingId := None;
    }

    /** `resetForm`, also the Cancel and close buttons. */
    method ResetForm()
      modifies this`form, this`error, this`isAdding, this`editingId
      ensures form == BlankForm(account.customer) && error == "" && !isAdding && editingId == None
    {
      ResetTo(account.customer);
    }

    /** 'Add New': reset, then open the form for a new address. */
    method StartAdd()
      modifies this`form, this`error, this`isAdding, this`editingId
      ensures form == BlankForm(account.customer) && error == "" && isAdding && editingId == None
    {
      ResetTo(account.customer);
      isAdding := true;
    }

    /** `startEdit(address)`: copy the address into the form and open it in
        edit mode for that address. The error is left as it was. */
    method StartEdit(a: CustomerAddress)
      modifies this`form, this`isAdding, this`editingId
      ensures form == FormFor(a) && editingId == Some(a.id) && isAdding
    {
      form := FormFor(a);
      editingId := Some(a.id);
      isAdding := true;
    }

    /** `handleRadarSelection`: the selected address overwrites the fields
        it supplies and keeps names, second line and phone. */
    method SelectRadarAddress(sel: RadarAddress)
      modifies this`form
      ensures form == Overlay(old(form), sel)
      ensures form.firstName == old(form).firstName && form.lastName == old(form).lastName
      ensures form.address2 == old(form).address2 && form.phone == old(form).phone
    {
      form := Overlay(form, sel);
    }

    /** `handleSubmit`: update the address being edited, or add a new one.
        On success the form is reset as the customer it was rendered with
        sees it; on failure form and mode stay and the error is shown. */
    method Submit(reply: Reply<()>, refetch: Reply<Customer>)
      modifies this`form, this`error, this`isAdding, this`editingId, this`isLoading, account
      ensures !isLoading
      ensures account.sent == old(account.sent) + [SubmitRequest(old(editingId), old(form))]
                                               + (if reply.Ok? then [RetrieveCustomer] else [])
      ensures reply.Ok? ==>
        form == BlankForm(old(account.customer)) && error == "" && !isAdding && editingId == None
      ensures reply.Err? ==>
        && form == old(form) && isAdding == old(isAdding) && editingId == old(editingId)
        && error == ErrorText(reply.message, SaveFailed)
      ensures !account.isLoading
      ensures account.customer == (if reply.Ok? then RefetchedCustomer(refetch) else old(account.customer))
      ensures account.authToken == (if reply.Ok? then TokenAfterRefetch(old(account.authToken), refetch)
                                    else old(account.authToken))
    {
      var shown := account.customer;
      error := "";
      isLoading := true;
      var o: Outcome;
      if Truthy(editingId) {
        o := account.UpdateAddress(editingId.value, form, reply, refetch);
      } else {
        o := account.AddAddress(form, reply, refetch);
      }
      match o {
        case Pass => ResetTo(shown);
        case Raised(m) => error := ErrorText(m, SaveFailed);
      }
      isLoading := false;
    }

    /** `handleDelete(id)`: only after the user confirms; a failure is
        swallowed and the form is never touched. */
    method Delete(id: string, confirmed: bool, reply: Reply<()>, refetch: Reply<Customer>)
      modifies account
      ensures !confirmed ==>
        && account.sent == old(account.sent) && account.customer == old(account.customer)
        && account.authToken == old(account.authToken) && account.isLoading == old(account.isLoading)
      ensures confirmed ==>
        && account.sent == old(account.sent) + [DeleteAddressRequest(id)] + (if reply.Ok? then [RetrieveCustomer] else [])
        && !account.isLoading
        && account.customer == (if reply.Ok? then RefetchedCustomer(refetch) else old(account.customer))
        && account.authToken == (if reply.Ok? then TokenAfterRefetch(old(account.authToken), refetch)
                                 else old(account.authToken))
      ensures form == old(form) && isAdding == old(isAdding) && editingId == old(editingId) && error == old(error)
    {
      if !confirmed {
        return;
      }
      var o := account.DeleteAddress(id, reply, refetch);
    }
  }
}
