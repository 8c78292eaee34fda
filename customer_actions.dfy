/** The customer actions of the newer action layer: selecting a customer, adding
    one (trimmed, validated, with a unique non-empty phone), updating one field by
    field, and deleting one (never the Guest ids 0 and 1).  Ids are matched
    strictly (`===`); a new customer's id is the fresh string `generateId`
    returns, taken here as a parameter. */
module CustomerActions {
  import opened Wrappers
  import opened Text
  import opened Domain
  import opened ReactiveStore
  import opened Validators

  // ---------------------------------------------------------------------------
  // setCurrentCustomer
  // ---------------------------------------------------------------------------

  /** `setCurrentCustomer(store, customer)`: only `currentCustomer` changes. */
  method SetCurrentCustomer(store: Store<Field, Slot>, customer: Option<Customer>)
    requires Shaped(store.state)
    modifies store`state, store`trace
    ensures store.state == old(store.state)[CurrentCustomer := Selected(customer)]
    ensures Shaped(store.state) && CurrentOf(store.state) == customer
    ensures store.trace == old(store.trace) + store.Notifications(store.state)
  {
    MergeOne(store.state, CurrentCustomer, Selected(customer));
    store.SetState(Patch(Some(map[CurrentCustomer := Selected(customer)])));
  }

  // ---------------------------------------------------------------------------
  // addCustomer
  // ---------------------------------------------------------------------------

  /** The record `addCustomer` builds from its arguments. */
  function Candidate(name: string, phone: string, email: string, freshId: string): Customer {
    Customer(Str(freshId), Trim(name), Trim(phone), Trim(email))
  }

  /** The result of `addCustomer(store, name, phone, email)` against the current
      list (`name`, `phone` and `email` are the arguments after `x || ''`). */
  function NewCustomer(customers: seq<Customer>, name: string, phone: string, email: string,
                       freshId: string): (r: Result<Customer>)
    ensures Trim(name) == "" ==> r == Err("Name is required")
    ensures Trim(name) != "" && Trim(phone) != "" && PhoneTaken(customers, Trim(phone)) ==>
              r == Err("Phone number already exists")
    ensures r.Ok? <==>
              && Trim(name) != ""
              && (Trim(phone) == "" || !PhoneTaken(customers, Trim(phone)))
              && ValidateCustomer(Candidate(name, phone, email, freshId)).isValid
    ensures r.Err? && Trim(name) != "" && (Trim(phone) == "" || !PhoneTaken(customers, Trim(phone))) ==>
              r.error == ValidateCustomer(Candidate(name, phone, email, freshId)).errors[0].message
    ensures r.Ok? ==> r.value == Candidate(name, phone, email, freshId)
    ensures r.Ok? ==>
              && |r.value.name| >= CUSTOMER_NAME_MIN_LENGTH
              && (r.value.phone == "" || (PhonePattern(r.value.phone) && !PhoneTaken(customers, r.value.phone)))
              && (r.value.email == "" || EmailPattern(r.value.email))
  {
    var c := Candidate(name, phone, email, freshId);
    if Trim(name) == "" then Err("Name is required")
    else if Trim(phone) != "" && PhoneTaken(customers, Trim(phone)) then Err("Phone number already exists")
    else
      var v := ValidateCustomer(c);
      TrimIdempotent(name);
      if !v.isValid then Err(FirstMessage(v, "Invalid customer data")) else Ok(c)
  }

  /** `addCustomer(store, name, phone, email)`: on success the new customer is
      appended with one `setState`; on failure nothing is written. */
  method AddCustomer(store: Store<Field, Slot>, name: string, phone: string, email: string,
                     freshId: string) returns (result: Result<Customer>)
    requires Shaped(store.state)
    modifies store`state, store`trace
    ensures result == NewCustomer(CustomersOf(old(store.state)), name, phone, email, freshId)
    ensures result.Err? ==> store.state == old(store.state) && store.trace == old(store.trace)
    ensures result.Ok? ==>
              && store.state == old(store.state)[Customers := CustomerList(CustomersOf(old(store.state)) + [result.value])]
              && store.trace == old(store.trace) + store.Notifications(store.state)
  {
    var trimmedName := Trim(name);
    var trimmedPhone := Trim(phone);
    if trimmedName == "" {
      return Err("Name is required");
    }
    var state := store.GetState();
    if trimmedPhone != "" && PhoneTaken(CustomersOf(state), trimmedPhone) {
      return Err("Phone number already exists");
    }
    var customer := Customer(Str(freshId), trimmedName, trimmedPhone, Trim(email));
    var validation := ValidateCustomer(customer);
    if !validation.isValid {
      return Err(FirstMessage(validation, "Invalid customer data"));
    }
    store.SetState(Patch(Some(map[Customers := CustomerList(CustomersOf(state) + [customer])])));
    MergeOne(state, Customers, CustomerList(CustomersOf(state) + [customer]));
    result := Ok(customer);
  }

  /** A successful `addCustomer` grows the list by exactly the new customer and
      keeps non-empty phone numbers unique. */
  lemma AddCustomerKeepsPhonesUnique(customers: seq<Customer>, name: string, phone: string,
                                     email: string, freshId: string)
    requires PhonesUnique(customers)
    ensures var r := NewCustomer(customers, name, phone, email, freshId);
            r.Ok? ==> PhonesUnique(customers + [r.value]) && |customers + [r.value]| == |customers| + 1
  {
    var r := NewCustomer(customers, name, phone, email, freshId);
    if r.Ok? {
      var cs := customers + [r.value];
      forall i, j | 0 <= i < j < |cs| && cs[i].phone != "" ensures cs[i].phone != cs[j].phone {
        if j == |customers| {
          assert cs[i] == customers[i];
          if r.value.phone == cs[i].phone {
            assert PhoneTaken(customers, r.value.phone);
          }
        }
      }
    }
  }

  /** A duplicate non-empty phone is refused whatever the name and email. */
  lemma DuplicatePhoneRefused(customers: seq<Customer>, i: nat, name: string, email: string,
                              freshId: string)
    requires i < |customers| && customers[i].phone != "" && Trim(customers[i].phone) == customers[i].phone
    requires Trim(name) != ""
    ensures NewCustomer(customers, name, customers[i].phone, email, freshId) == Err("Phone number already exists")
  {
    assert PhoneTaken(customers, customers[i].phone);
  }

  // ---------------------------------------------------------------------------
  // updateCustomer
  // ---------------------------------------------------------------------------

  /** One field of an update object: the key is absent (`undefined`), `null`, or
      a string. */
  datatype Provided = Missing | Null | Given(text: string)

  datatype CustomerUpdate = CustomerUpdate(name: Provided, phone: Provided, email: Provided)

  /** `...(updates.name?.trim() && { name: updates.name.trim() })`: a name that
      is blank once trimmed is ignored. */
  function NewName(p: Provided, current: string): string {
    if p.Given? && Trim(p.text) != "" then Trim(p.text) else current
  }

  /** `...(updates.x !== undefined && { x: (updates.x || '').trim() })`: any
      defined value replaces the field, `null` blanking it. */
  function NewText(p: Provided, current: string): string {
    match p
    case Missing => current
    case Null => ""
    case Given(t) => Trim(t)
  }

  /** The customer once an update is spread over it. */
  function Revised(c: Customer, u: CustomerUpdate): (r: Customer)
    ensures r.id == c.id
    ensures Trim(c.name) != "" ==> Trim(r.name) != ""
    ensures u.name.Given? && Trim(u.name.text) != "" ==> r.name == Trim(u.name.text)
    ensures u.phone.Missing? ==> r.phone == c.phone
    ensures u.phone.Null? || (u.phone.Given? && AllSpace(u.phone.text)) ==> r.phone == ""
    ensures u.email.Missing? ==> r.email == c.email
    ensures u.email.Null? || (u.email.Given? && AllSpace(u.email.text)) ==> r.email == ""
    ensures u == CustomerUpdate(Missing, Missing, Missing) ==> r == c
    // field by field: a blank or missing name leaves the name; any given
    // phone or email replaces the field, trimmed
    ensures !(u.name.Given? && Trim(u.name.text) != "") ==> r.name == c.name
    ensures u.phone.Given? ==> r.phone == Trim(u.phone.text)
    ensures u.email.Given? ==> r.email == Trim(u.email.text)
  {
    var name := NewName(u.name, c.name);
    TrimIdempotent(if u.name.Given? then u.name.text else "");
    Customer(c.id, name, NewText(u.phone, c.phone), NewText(u.email, c.email))
  }

  /** Applying the same update twice is applying it once. */
  lemma RevisedIdempotent(c: Customer, u: CustomerUpdate)
    ensures Revised(Revised(c, u), u) == Revised(c, u)
  {
    match u.phone {
      case Given(t) => TrimIdempotent(t);
      case _ =>
    }
    match u.email {
      case Given(t) => TrimIdempotent(t);
      case _ =>
    }
  }

  /** The state after a successful update of the customer at index `i`: the list
      with that entry replaced, and the selection refreshed when its id is `id`. */
  function CustomerReplaced(s: AppState, i: nat, id: Id, c: Customer): (r: AppState)
    requires Shaped(s) && i < |CustomersOf(s)|
    ensures Shaped(r)
    ensures |CustomersOf(r)| == |CustomersOf(s)| && CustomersOf(r)[i] == c
    ensures forall j :: 0 <= j < |CustomersOf(s)| && j != i ==> CustomersOf(r)[j] == CustomersOf(s)[j]
    ensures CurrentOf(r) == if CurrentId(s) == id then Some(c) else CurrentOf(s)
    ensures forall f :: f in s && f != Customers && f != CurrentCustomer ==> f in r && r[f] == s[f]
  {
    var s1 := s[Customers := CustomerList(CustomersOf(s)[i := c])];
    if CurrentId(s) == id then s1[CurrentCustomer := Selected(Some(c))] else s1
  }

  /** `updateCustomer(store, id, updates)`: no phone-uniqueness check; two
      `setState` calls when the selected customer is the one updated. */
  method UpdateCustomer(store: Store<Field, Slot>, id: Id, updates: CustomerUpdate)
    returns (result: Result<Customer>)
    requires Shaped(store.state)
    modifies store`state, store`trace
    ensures var i := IndexOf(CustomersOf(old(store.state)), CustomerId, id, Strict);
            && (i.None? ==> result == Err("Customer not found") && store.state == old(store.state)
                            && store.trace == old(store.trace))
            && (i.Some? ==>
                  && result == Ok(Revised(CustomersOf(old(store.state))[i.value], updates))
                  && store.state == CustomerReplaced(old(store.state), i.value, id, result.value)
                  // one round after the list write, a second after a refreshed selection
                  && store.trace == old(store.trace)
                       + store.Notifications(old(store.state)[Customers := CustomerList(
                           CustomersOf(old(store.state))[i.value := result.value])])
                       + (if CurrentId(old(store.state)) == id then store.Notifications(store.state) else []))
  {
    var state := store.GetState();
    var customerIndex := IndexOf(CustomersOf(state), CustomerId, id, Strict);
    if customerIndex.None? {
      return Err("Customer not found");
    }
    var i := customerIndex.value;
    var customer := Revised(CustomersOf(state)[i], updates);
    ReplaceCustomer(store, i, id, customer);
    result := Ok(customer);
  }

  /** The two `setState` calls of `updateCustomer`: the list, then the
      selection when its id is `id`. */
  method ReplaceCustomer(store: Store<Field, Slot>, i: nat, id: Id, customer: Customer)
    requires Shaped(store.state) && i < |CustomersOf(store.state)|
    modifies store`state, store`trace
    ensures store.state == CustomerReplaced(old(store.state), i, id, customer)
    ensures store.trace == old(store.trace)
                           + store.Notifications(old(store.state)[Customers := CustomerList(CustomersOf(old(store.state))[i := customer])])
                           + (if CurrentId(old(store.state)) == id then store.Notifications(store.state) else [])
  {
    var state := store.GetState();
    var customers := CustomersOf(state)[i := customer];
    store.SetState(Patch(Some(map[Customers := CustomerList(customers)])));
    MergeOne(state, Customers, CustomerList(customers));
    if CurrentId(state) == id {
      ghost var mid := store.state;
      store.SetState(Patch(Some(map[CurrentCustomer := Selected(Some(customer))])));
      MergeOne(mid, CurrentCustomer, Selected(Some(customer)));
    }
    assert store.state == CustomerReplaced(state, i, id, customer);
  }

  /** `updateCustomer` does not re-check phone numbers: giving one customer
      another's phone is accepted, so uniqueness holds only for `addCustomer`. */
  lemma UpdateMayDuplicatePhone(a: Customer, b: Customer, phone: string)
    requires a.id != b.id && phone != "" && Trim(phone) == phone
    requires a.phone == phone && b.phone != phone
    ensures var s := StateOf([], [], [a, b], [], None, "dine-in", [], None);
            && PhonesUnique(CustomersOf(s))
            && IndexOf(CustomersOf(s), CustomerId, b.id, Strict) == Some(1)
            && !PhonesUnique(CustomersOf(CustomerReplaced(s, 1, b.id,
                                         Revised(b, CustomerUpdate(Missing, Given(phone), Missing)))))
  {
    TrimNoOuterSpaceOrEmpty(phone);
    var s := StateOf([], [], [a, b], [], None, "dine-in", [], None);
    assert CustomerId([a, b][1]) == b.id && CustomerId([a, b][0]) != b.id;
    var r := CustomerReplaced(s, 1, b.id, Revised(b, CustomerUpdate(Missing, Given(phone), Missing)));
    assert CustomersOf(r)[0].phone == phone && CustomersOf(r)[1].phone == phone;
  }

  /** A string that trims to itself. */
  lemma TrimNoOuterSpaceOrEmpty(s: string)
    requires Trim(s) == s
    ensures NewText(Given(s), "") == s
  {
  }

  // ---------------------------------------------------------------------------
  // deleteCustomer
  // ---------------------------------------------------------------------------

  /** The Guest ids `deleteCustomer` refuses, compared with `===`. */
  predicate GuestId(id: Id)
    ensures id.Str? || id.Undefined? ==> !GuestId(id)
  {
    id == Num(0) || id == Num(1)
  }

  /** The state after `deleteCustomer(store, id)` for an id that is not a Guest
      id: every matching customer goes, and if the deleted id was selected, the
      selection becomes the first 'guest' of the list as it was BEFORE the
      deletion (or null). */
  function CustomerDeleted(s: AppState, id: Id): (r: AppState)
    requires Shaped(s)
    ensures Shaped(r)
    ensures GuestId(id) ==> r == s
    ensures !GuestId(id) ==> CustomersOf(r) == Without(CustomersOf(s), CustomerId, id, Strict)
    ensures !GuestId(id) ==> forall c :: c in CustomersOf(r) ==> c.id != id
    ensures !GuestId(id) ==>
              CurrentOf(r) == if CurrentId(s) == id then FirstGuest(CustomersOf(s)) else CurrentOf(s)
    ensures forall f :: f in s && f != Customers && f != CurrentCustomer ==> f in r && r[f] == s[f]
  {
    if GuestId(id) then s
    else
      var rest := Without(CustomersOf(s), CustomerId, id, Strict);
      assert forall c :: c in rest ==> c.id != id;
      var s1 := s[Customers := CustomerList(rest)];
      UpdateKeepsShape(s, Customers, CustomerList(rest));
      UpdateKeepsShape(s1, CurrentCustomer, Selected(FirstGuest(CustomersOf(s))));
      if CurrentId(s) == id then s1[CurrentCustomer := Selected(FirstGuest(CustomersOf(s)))] else s1
  }

  /** `deleteCustomer(store, customerId)`: fails for the Guest ids, otherwise
      succeeds (even for an unknown id). */
  method DeleteCustomer(store: Store<Field, Slot>, customerId: Id) returns (result: Result<()>)
    requires Shaped(store.state)
    modifies store`state, store`trace
    ensures result == if GuestId(customerId) then Err("Cannot delete Guest customer") else Ok(())
    ensures store.state == CustomerDeleted(old(store.state), customerId)
    ensures GuestId(customerId) ==> store.trace == old(store.trace)
    // one round after the filter, a second after a refreshed selection
    ensures !GuestId(customerId) ==>
              store.trace == old(store.trace)
                             + store.Notifications(old(store.state)[Customers := CustomerList(
                                 Without(CustomersOf(old(store.state)), CustomerId, customerId, Strict))])
                             + (if CurrentId(old(store.state)) == customerId then store.Notifications(store.state) else [])
  {
    if customerId == Num(0) || customerId == Num(1) {
      return Err("Cannot delete Guest customer");
    }
    DropCustomer(store, customerId);
    result := Ok(());
  }

  /** The two `setState` calls of `deleteCustomer` for an id that is not a
      Guest id: the filtered list, then the guest found BEFORE the deletion
      when the deleted customer was selected. */
  method DropCustomer(store: Store<Field, Slot>, customerId: Id)
    requires Shaped(store.state) && !GuestId(customerId)
    modifies store`state, store`trace
    ensures store.state == CustomerDeleted(old(store.state), customerId)
    ensures store.trace == old(store.trace)
                           + store.Notifications(old(store.state)[Customers := CustomerList(
                               Without(CustomersOf(old(store.state)), CustomerId, customerId, Strict))])
                           + (if CurrentId(old(store.state)) == customerId then store.Notifications(store.state) else [])
  {
    var state := store.GetState();
    var wasSelected := CurrentId(state) == customerId;
    var remaining := Without(CustomersOf(state), CustomerId, customerId, Strict);
    store.SetState(Patch(Some(map[Customers := CustomerList(remaining)])));
    MergeOne(state, Customers, CustomerList(remaining));
    if wasSelected {
      var guest := FirstGuest(CustomersOf(state));
      ghost var mid := store.state;
      store.SetState(Patch(Some(map[CurrentCustomer := Selected(guest)])));
      MergeOne(mid, CurrentCustomer, Selected(guest));
    }
    assert store.state == CustomerDeleted(state, customerId);
  }

  /** The guard compares with `===`: the string '0' is not protected, and
      deleting it removes a customer whose id is that string. */
  lemma StringGuestIdNotProtected(s: AppState)
    requires Shaped(s)
    ensures !GuestId(Str("0"))
    ensures forall c :: c in CustomersOf(CustomerDeleted(s, Str("0"))) ==> c.id != Str("0")
  {
  }

  /** Because the guest is looked up before the deletion, deleting the selected
      customer when it is itself the first customer named 'guest' (under an id
      other than 0 or 1) leaves it selected although it is no longer listed. */
  lemma DeletedGuestNamesakeStaysSelected(s: AppState, c: Customer)
    requires Shaped(s) && !GuestId(c.id)
    requires CurrentOf(s) == Some(c) && |CustomersOf(s)| > 0 && CustomersOf(s)[0] == c && IsGuestName(c)
    ensures CurrentOf(CustomerDeleted(s, c.id)) == Some(c)
    ensures c !in CustomersOf(CustomerDeleted(s, c.id))
  {
  }
}
