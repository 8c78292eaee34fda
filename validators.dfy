/** Field validation for customers, products and orders.  Each validator builds
    its error list field by field (in the order the fields are checked) and is
    valid exactly when that list is empty. */
module Validators {
  import opened Wrappers
  import opened Text
  import opened Domain

  const CUSTOMER_NAME_MIN_LENGTH: nat := 2
  const PRODUCT_NAME_MIN_LENGTH: nat := 3
  const PRICE_MIN: real := 0.0
  const ORDER_MAX_ITEMS: nat := 50
  const ORDER_MIN_TOTAL: real := 0.0

  datatype FieldName =
    | NameField | PhoneField | EmailField
    | PriceField | CategoryField
    | ItemsField | CustomerField | TotalField

  datatype FieldError = FieldError(field: FieldName, message: string)

  /** `{ isValid, errors }`. */
  datatype Validation = Validation(isValid: bool, errors: seq<FieldError>)

  function Verdict(errors: seq<FieldError>): (v: Validation)
    ensures v.errors == errors
    ensures v.isValid <==> errors == []
  {
    Validation(|errors| == 0, errors)
  }

  /** The position of a field in the order its validator checks it. */
  function Rank(f: FieldName): nat {
    match f
    case NameField => 0
    case PhoneField => 1
    case EmailField => 2
    case PriceField => 1
    case CategoryField => 2
    case ItemsField => 0
    case CustomerField => 1
    case TotalField => 2
  }

  predicate InFieldOrder(errors: seq<FieldError>) {
    forall i, j :: 0 <= i < j < |errors| ==> Rank(errors[i].field) < Rank(errors[j].field)
  }

  function Has(errors: seq<FieldError>, f: FieldName): bool {
    exists i :: 0 <= i < |errors| && errors[i].field == f
  }

  // ---------------------------------------------------------------------------
  // The two patterns
  // ---------------------------------------------------------------------------

  /** `/^0[0-9]{9}$/`: a '0' followed by exactly nine decimal digits. */
  predicate PhonePattern(s: string) {
    |s| == 10 && s[0] == '0' && AllDigits(s[1..])
  }

  /** A run of characters that are neither white space nor '@' (`[^\s@]`). */
  predicate Plain(s: string) {
    forall i :: 0 <= i < |s| ==> !IsSpace(s[i]) && s[i] != '@'
  }

  /** `/^[^\s@]+@[^\s@]+\.[^\s@]+$/`: a non-empty plain run, '@', a non-empty
      plain run, '.', and a non-empty plain run. */
  predicate EmailPattern(s: string) {
    exists at, dot :: 0 < at && at + 1 < dot < |s| - 1 && s[at] == '@' && s[dot] == '.'
                      && Plain(s[..at]) && Plain(s[at + 1..dot]) && Plain(s[dot + 1..])
  }

  /** The position of the first `c` in `s`. */
  function FirstIndex(s: string, c: char): (r: Option<nat>)
    ensures r.Some? ==> r.value < |s| && s[r.value] == c && c !in s[..r.value]
    ensures r.None? ==> c !in s
  {
    if s == [] then None
    else if s[0] == c then Some(0)
    else
      var rest := FirstIndex(s[1..], c);
      if rest.None? then None
      else
        assert s[..rest.value + 1] == [s[0]] + s[1..][..rest.value];
        Some(rest.value + 1)
  }

  /** A reading of the email pattern by its parts: no white space anywhere, one
      '@' with something before it, and after it a '.' that is neither the first
      nor the last character. */
  predicate EmailShape(s: string) {
    var at := FirstIndex(s, '@');
    && (forall i :: 0 <= i < |s| ==> !IsSpace(s[i]))
    && at.Some? && at.value > 0
    && '@' !in s[at.value + 1..]
    && exists dot :: at.value + 1 < dot < |s| - 1 && s[dot] == '.'
  }

  lemma PlainSlice(s: string, a: nat, b: nat)
    requires a <= b <= |s|
    requires forall i :: a <= i < b ==> !IsSpace(s[i]) && s[i] != '@'
    ensures Plain(s[a..b])
  {
    assert forall i :: 0 <= i < b - a ==> s[a..b][i] == s[a + i];
  }

  lemma PatternHasShape(s: string)
    requires EmailPattern(s)
    ensures EmailShape(s)
  {
    var at, dot :| 0 < at && at + 1 < dot < |s| - 1 && s[at] == '@' && s[dot] == '.'
                   && Plain(s[..at]) && Plain(s[at + 1..dot]) && Plain(s[dot + 1..]);
    forall i | 0 <= i < |s|
      ensures !IsSpace(s[i]) && (i != at ==> s[i] != '@')
    {
      if i < at {
        assert s[..at][i] == s[i];
      } else if at < i < dot {
        assert s[at + 1..dot][i - at - 1] == s[i];
      } else if dot < i {
        assert s[dot + 1..][i - dot - 1] == s[i];
      }
    }
    var first := FirstIndex(s, '@');
    assert first == Some(at);
    var rest := s[at + 1..];
    assert forall i :: 0 <= i < |rest| ==> rest[i] == s[at + 1 + i];
  }

  lemma ShapeHasPattern(s: string)
    requires EmailShape(s)
    ensures EmailPattern(s)
  {
    var at := FirstIndex(s, '@').value;
    var dot :| at + 1 < dot < |s| - 1 && s[dot] == '.';
    forall i | 0 <= i < |s| && i != at
      ensures s[i] != '@'
    {
      if i < at {
        assert s[..at][i] == s[i];
      } else {
        assert s[at + 1..][i - at - 1] == s[i];
      }
    }
    PlainSlice(s, 0, at);
    PlainSlice(s, at + 1, dot);
    PlainSlice(s, dot + 1, |s|);
    assert s[0..at] == s[..at];
    assert s[dot + 1..|s|] == s[dot + 1..];
  }

  /** The regular expression and the reading by parts accept the same strings. */
  lemma EmailPatternByParts(s: string)
    ensures EmailPattern(s) <==> EmailShape(s)
  {
    if EmailPattern(s) {
      PatternHasShape(s);
    }
    if EmailShape(s) {
      ShapeHasPattern(s);
    }
  }

  /** Three at-most-one-error lists for three fields checked in order. */
  lemma ThreeFields(a: seq<FieldError>, b: seq<FieldError>, c: seq<FieldError>,
                    fa: FieldName, fb: FieldName, fc: FieldName)
    requires |a| <= 1 && |b| <= 1 && |c| <= 1
    requires a != [] ==> a[0].field == fa
    requires b != [] ==> b[0].field == fb
    requires c != [] ==> c[0].field == fc
    requires Rank(fa) < Rank(fb) < Rank(fc)
    ensures InFieldOrder(a + b + c) && |a + b + c| <= 3
    ensures Has(a + b + c, fa) <==> a != []
    ensures Has(a + b + c, fb) <==> b != []
    ensures Has(a + b + c, fc) <==> c != []
    ensures a != [] ==> (a + b + c)[0] == a[0]
    ensures a == [] && b != [] ==> (a + b + c)[0] == b[0]
  {
    var e := a + b + c;
    forall i | 0 <= i < |e|
      ensures Rank(e[i].field) == if i < |a| then Rank(fa) else if i < |a| + |b| then Rank(fb) else Rank(fc)
    {
      if i < |a| {
        assert e[i] == a[0];
      } else if i < |a| + |b| {
        assert e[i] == b[0];
      } else {
        assert e[i] == c[0];
      }
    }
    assert a != [] ==> e[0] == a[0];
    assert a == [] && b != [] ==> e[0] == b[0];
    assert b != [] ==> e[|a|] == b[0];
    assert c != [] ==> e[|a| + |b|] == c[0];
  }

  // ---------------------------------------------------------------------------
  // Validators
  // ---------------------------------------------------------------------------

  /** The minimum-length messages, with the lengths spelled out. */
  lemma MinLengthMessages()
    ensures "Name must be at least " + NatToString(CUSTOMER_NAME_MIN_LENGTH) + " characters"
            == "Name must be at least 2 characters"
    ensures "Name must be at least " + NatToString(PRODUCT_NAME_MIN_LENGTH) + " characters"
            == "Name must be at least 3 characters"
  {
    assert NatToString(CUSTOMER_NAME_MIN_LENGTH) == "2";
    assert NatToString(PRODUCT_NAME_MIN_LENGTH) == "3";
  }

  /** The name check both validators share: a blank trimmed name is missing,
      a shorter one than `minLength` too short. */
  function NameErrors(name: string, minLength: nat): (r: seq<FieldError>)
    ensures |r| <= 1 && (r != [] ==> r[0].field == NameField)
    ensures r != [] <==> Trim(name) == "" || |Trim(name)| < minLength
    ensures Trim(name) == "" ==> r == [FieldError(NameField, "Name is required")]
    ensures Trim(name) != "" && |Trim(name)| < minLength ==>
              r == [FieldError(NameField, "Name must be at least " + NatToString(minLength) + " characters")]
  {
    var trimmed := Trim(name);
    if trimmed == "" then [FieldError(NameField, "Name is required")]
    else if |trimmed| < minLength then
      [FieldError(NameField, "Name must be at least " + NatToString(minLength) + " characters")]
    else []
  }

  /** `validateCustomer`: the trimmed name must be present and at least two
      characters long; a non-empty phone must match the phone pattern and a
      non-empty email the email pattern.  Each field yields at most one error,
      in the order name, phone, email. */
  function ValidateCustomer(c: Customer): (v: Validation)
    ensures v.isValid <==> v.errors == []
    ensures InFieldOrder(v.errors) && |v.errors| <= 3
    ensures Has(v.errors, NameField) <==> |Trim(c.name)| < CUSTOMER_NAME_MIN_LENGTH
    ensures Has(v.errors, PhoneField) <==> c.phone != "" && !PhonePattern(c.phone)
    ensures Has(v.errors, EmailField) <==> c.email != "" && !EmailPattern(c.email)
    ensures v.errors != [] && Trim(c.name) == "" ==> v.errors[0] == FieldError(NameField, "Name is required")
    ensures v.errors != [] && 0 < |Trim(c.name)| < CUSTOMER_NAME_MIN_LENGTH ==>
              v.errors[0] == FieldError(NameField, "Name must be at least 2 characters")
  {
    var nameErrors := NameErrors(c.name, CUSTOMER_NAME_MIN_LENGTH);
    var phoneErrors :=
      if c.phone != "" && !PhonePattern(c.phone) then [FieldError(PhoneField, "Invalid phone format (0XXXXXXXXX)")]
      else [];
    var emailErrors :=
      if c.email != "" && !EmailPattern(c.email) then [FieldError(EmailField, "Invalid email format")]
      else [];
    var errors := nameErrors + phoneErrors + emailErrors;
    assert 0 < |Trim(c.name)| < CUSTOMER_NAME_MIN_LENGTH ==>
             nameErrors == [FieldError(NameField, "Name must be at least 2 characters")] by {
      MinLengthMessages();
    }
    ThreeFields(nameErrors, phoneErrors, emailErrors, NameField, PhoneField, EmailField);
    Verdict(errors)
  }

  /** `validateProduct`: the trimmed name must be present and at least three
      characters long, a price must be given and be at least 0, and the trimmed
      category must be present. */
  function ValidateProduct(name: string, price: Option<real>, category: string): (v: Validation)
    ensures v.isValid <==> v.errors == []
    ensures InFieldOrder(v.errors) && |v.errors| <= 3
    ensures Has(v.errors, NameField) <==> |Trim(name)| < PRODUCT_NAME_MIN_LENGTH
    ensures Has(v.errors, PriceField) <==> price.None? || price.value < PRICE_MIN
    ensures Has(v.errors, CategoryField) <==> Trim(category) == ""
    ensures v.errors != [] && Trim(name) != "" && |Trim(name)| < PRODUCT_NAME_MIN_LENGTH ==>
              v.errors[0] == FieldError(NameField, "Name must be at least 3 characters")
    ensures v.errors != [] && v.errors[0].field == PriceField ==>
              v.errors[0].message == (if price.None? then "Price is required" else "Price cannot be negative")
  {
    var nameErrors := NameErrors(name, PRODUCT_NAME_MIN_LENGTH);
    var priceErrors :=
      if price.None? then [FieldError(PriceField, "Price is required")]
      else if price.value < PRICE_MIN then [FieldError(PriceField, "Price cannot be negative")]
      else [];
    var categoryErrors :=
      if Trim(category) == "" then [FieldError(CategoryField, "Category is required")] else [];
    var errors := nameErrors + priceErrors + categoryErrors;
    assert Trim(name) != "" && |Trim(name)| < PRODUCT_NAME_MIN_LENGTH ==>
             nameErrors == [FieldError(NameField, "Name must be at least 3 characters")] by {
      MinLengthMessages();
    }
    ThreeFields(nameErrors, priceErrors, categoryErrors, NameField, PriceField, CategoryField);
    Verdict(errors)
  }

  /** `validateOrder`: between 1 and 50 lines, a customer with a truthy id (so the
      Guest record, id 0, is refused), and a truthy total that is not below 0
      (so a missing or zero total is refused). */
  function ValidateOrder(items: seq<CartItem>, customer: Option<Customer>, total: Option<real>)
    : (v: Validation)
    ensures v.isValid <==> v.errors == []
    ensures InFieldOrder(v.errors) && |v.errors| <= 3
    ensures v.isValid <==>
              && 1 <= |items| <= ORDER_MAX_ITEMS
              && customer.Some? && !Falsy(customer.value.id)
              && total.Some? && total.value != 0.0 && total.value >= ORDER_MIN_TOTAL
    ensures Has(v.errors, ItemsField) <==> |items| == 0 || |items| > ORDER_MAX_ITEMS
    ensures Has(v.errors, CustomerField) <==> customer.None? || Falsy(customer.value.id)
    ensures Has(v.errors, TotalField) <==> total.None? || total.value == 0.0 || total.value < ORDER_MIN_TOTAL
  {
    var itemErrors :=
      if |items| == 0 then [FieldError(ItemsField, "Order must contain at least one item")]
      else if |items| > ORDER_MAX_ITEMS then
        [FieldError(ItemsField, "Order cannot exceed " + NatToString(ORDER_MAX_ITEMS) + " items")]
      else [];
    var customerErrors :=
      if customer.None? || Falsy(customer.value.id) then [FieldError(CustomerField, "Customer is required")]
      else [];
    var totalErrors :=
      if total.None? || total.value == 0.0 || total.value < ORDER_MIN_TOTAL then
        [FieldError(TotalField, "Invalid order total")]
      else [];
    var errors := itemErrors + customerErrors + totalErrors;
    ThreeFields(itemErrors, customerErrors, totalErrors, ItemsField, CustomerField, TotalField);
    Verdict(errors)
  }

  /** The first error's message, or the fallback text the actions use. */
  function FirstMessage(v: Validation, fallback: string): string {
    if v.errors == [] then fallback else v.errors[0].message
  }
}
