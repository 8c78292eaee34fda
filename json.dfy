/** JSON values and the encoding of the persisted entities.  A stored entry is
    what `JSON.parse(JSON.stringify(value))` gives back: objects become maps of
    their own keys, a key holding `undefined` is dropped, and `null` stays
    `null`.  Each decoder is a partial inverse of its encoder. */
module JsonCodec {
  import opened Wrappers
  import opened Domain

  datatype Json =
    | JNull
    | JBool(b: bool)
    | JNumber(n: real)
    | JString(s: string)
    | JArray(items: seq<Json>)
    | JObject(fields: map<string, Json>)

  // ---------------------------------------------------------------------------
  // Fields
  // ---------------------------------------------------------------------------

  /** The `id` key: present for a number or a string, dropped for `undefined`. */
  function IdEntry(id: Id): map<string, Json> {
    match id
    case Num(n) => map["id" := JNumber(n as real)]
    case Str(s) => map["id" := JString(s)]
    case Undefined => map[]
  }

  function DecodeId(m: map<string, Json>): Option<Id> {
    if "id" !in m then Some(Undefined)
    else match m["id"]
      case JNumber(r) => if r.Floor as real == r then Some(Num(r.Floor)) else None
      case JString(s) => Some(Str(s))
      case _ => None
  }

  lemma IdRoundTrip(id: Id, m: map<string, Json>)
    requires "id" !in m
    ensures DecodeId(m + IdEntry(id)) == Some(id)
  {
  }

  function Text(m: map<string, Json>, key: string): Option<string> {
    if key in m && m[key].JString? then Some(m[key].s) else None
  }

  function Number(m: map<string, Json>, key: string): Option<real> {
    if key in m && m[key].JNumber? then Some(m[key].n) else None
  }

  function Integer(m: map<string, Json>, key: string): Option<int> {
    if key in m && m[key].JNumber? && m[key].n.Floor as real == m[key].n then Some(m[key].n.Floor) else None
  }

  // ---------------------------------------------------------------------------
  // Lists
  // ---------------------------------------------------------------------------

  function EncodeAll<T>(xs: seq<T>, enc: T -> Json): (r: seq<Json>)
    ensures |r| == |xs|
  {
    if xs == [] then [] else [enc(xs[0])] + EncodeAll(xs[1..], enc)
  }

  /** Decode every element, failing if any element fails. */
  function DecodeAll<T>(items: seq<Json>, dec: Json -> Option<T>): (r: Option<seq<T>>)
    ensures r.Some? ==> |r.value| == |items|
  {
    if items == [] then Some([])
    else
      var head := dec(items[0]);
      var tail := DecodeAll(items[1..], dec);
      if head.Some? && tail.Some? then Some([head.value] + tail.value) else None
  }

  /** Decoding an encoded list gives the list back when every element does. */
  lemma {:induction false} AllRoundTrip<T>(xs: seq<T>, enc: T -> Json, dec: Json -> Option<T>)
    requires forall x :: x in xs ==> dec(enc(x)) == Some(x)
    ensures DecodeAll(EncodeAll(xs, enc), dec) == Some(xs)
  {
    if xs != [] {
      assert xs[0] in xs;
      assert forall x :: x in xs[1..] ==> x in xs;
      AllRoundTrip(xs[1..], enc, dec);
      assert EncodeAll(xs, enc)[1..] == EncodeAll(xs[1..], enc);
      assert xs == [xs[0]] + xs[1..];
    }
  }

  // ---------------------------------------------------------------------------
  // Entities
  // ---------------------------------------------------------------------------

  function EncodeProduct(p: Product): (r: Json)
    ensures r.JObject? && r.fields.Keys == {"name", "price", "category", "image"} + IdEntry(p.id).Keys
  {
    JObject(map["name" := JString(p.name), "price" := JNumber(p.price),
                "category" := JString(p.category), "image" := JString(p.image)] + IdEntry(p.id))
  }

  function DecodeProduct(j: Json): (r: Option<Product>)
    ensures r.Some? ==> j.JObject? && {"name", "price", "category", "image"} <= j.fields.Keys
  {
    if !j.JObject? then None
    else
      var m := j.fields;
      var id, name, price := DecodeId(m), Text(m, "name"), Number(m, "price");
      var category, image := Text(m, "category"), Text(m, "image");
      if id.Some? && name.Some? && price.Some? && category.Some? && image.Some?
      then Some(Product(id.value, name.value, price.value, category.value, image.value))
      else None
  }

  lemma ProductRoundTrip(p: Product)
    ensures DecodeProduct(EncodeProduct(p)) == Some(p)
  {
    IdRoundTrip(p.id, map["name" := JString(p.name), "price" := JNumber(p.price),
                          "category" := JString(p.category), "image" := JString(p.image)]);
  }

  function EncodeLine(c: CartItem): (r: Json)
    ensures r.JObject? && r.fields.Keys == {"name", "price", "category", "image", "quantity"} + IdEntry(c.id).Keys
  {
    JObject(map["name" := JString(c.name), "price" := JNumber(c.price), "category" := JString(c.category),
                "image" := JString(c.image), "quantity" := JNumber(c.quantity as real)] + IdEntry(c.id))
  }

  function DecodeLine(j: Json): (r: Option<CartItem>)
    ensures r.Some? ==> j.JObject? && {"name", "price", "category", "image", "quantity"} <= j.fields.Keys
    ensures r.Some? ==> j.fields["quantity"].JNumber? && j.fields["quantity"].n == r.value.quantity as real
  {
    if !j.JObject? then None
    else
      var m := j.fields;
      var id, name, price := DecodeId(m), Text(m, "name"), Number(m, "price");
      var category, image, quantity := Text(m, "category"), Text(m, "image"), Integer(m, "quantity");
      if id.Some? && name.Some? && price.Some? && category.Some? && image.Some? && quantity.Some?
      then Some(CartItem(id.value, name.value, price.value, category.value, image.value, quantity.value))
      else None
  }

  lemma LineRoundTrip(c: CartItem)
    ensures DecodeLine(EncodeLine(c)) == Some(c)
  {
    IdRoundTrip(c.id, map["name" := JString(c.name), "price" := JNumber(c.price), "category" := JString(c.category),
                          "image" := JString(c.image), "quantity" := JNumber(c.quantity as real)]);
  }

  function EncodeCustomer(c: Customer): (r: Json)
    ensures r.JObject? && r.fields.Keys == {"name", "phone", "email"} + IdEntry(c.id).Keys
  {
    JObject(map["name" := JString(c.name), "phone" := JString(c.phone), "email" := JString(c.email)]
            + IdEntry(c.id))
  }

  function DecodeCustomer(j: Json): (r: Option<Customer>)
    ensures r.Some? ==> j.JObject? && {"name", "phone", "email"} <= j.fields.Keys
  {
    if !j.JObject? then None
    else
      var m := j.fields;
      var id, name, phone, email := DecodeId(m), Text(m, "name"), Text(m, "phone"), Text(m, "email");
      if id.Some? && name.Some? && phone.Some? && email.Some?
      then Some(Customer(id.value, name.value, phone.value, email.value))
      else None
  }

  lemma CustomerRoundTrip(c: Customer)
    ensures DecodeCustomer(EncodeCustomer(c)) == Some(c)
  {
    IdRoundTrip(c.id, map["name" := JString(c.name), "phone" := JString(c.phone), "email" := JString(c.email)]);
  }

  /** `currentCustomer` and an order's `customer`: a customer object or `null`. */
  function EncodeSelected(c: Option<Customer>): (r: Json)
    ensures r.JNull? <==> c.None?
  {
    if c.None? then JNull else EncodeCustomer(c.value)
  }

  function DecodeSelected(j: Json): (r: Option<Option<Customer>>)
    ensures j.JNull? <==> r == Some(None)
    ensures r.Some? && r.value.Some? ==> j.JObject?
  {
    if j.JNull? then Some(None)
    else
      var c := DecodeCustomer(j);
      if c.Some? then Some(Some(c.value)) else None
  }

  lemma SelectedRoundTrip(c: Option<Customer>)
    ensures DecodeSelected(EncodeSelected(c)) == Some(c)
  {
    if c.Some? { CustomerRoundTrip(c.value); }
  }

  /** The keys of an order other than `id`, `items`, `customer` and `subtotal`. */
  function OrderScalars(o: Order): map<string, Json> {
    map["orderType" := JString(o.orderType), "discountValue" := JNumber(o.discountValue),
        "discountType" := JString(o.discountType), "taxRate" := JNumber(o.taxRate),
        "taxAmount" := JNumber(o.taxAmount), "total" := JNumber(o.total),
        "amountReceived" := JNumber(o.amountReceived), "changeDue" := JNumber(o.changeDue),
        "paymentMethod" := JString(o.paymentMethod), "paymentStatus" := JString(o.paymentStatus),
        "status" := JString(o.status), "timestamp" := JString(o.timestamp)]
  }

  /** The structured keys of an order: lines, customer and the optional subtotal. */
  function OrderParts(o: Order): map<string, Json> {
    var parts := map["items" := JArray(EncodeAll(o.items, EncodeLine)), "customer" := EncodeSelected(o.customer)];
    if o.subtotal.Some? then parts["subtotal" := JNumber(o.subtotal.value)] else parts
  }

  function EncodeOrder(o: Order): (r: Json)
    ensures r.JObject? && {"items", "customer", "total", "status", "timestamp"} <= r.fields.Keys
    ensures "subtotal" in r.fields <==> o.subtotal.Some?
    ensures "id" in r.fields <==> !o.id.Undefined?
  {
    var parts, id, scalars := OrderParts(o), IdEntry(o.id), OrderScalars(o);
    assert "items" in parts && "customer" in parts && "id" !in parts;
    assert "subtotal" in parts <==> o.subtotal.Some?;
    assert "total" in scalars && "status" in scalars && "timestamp" in scalars;
    assert "subtotal" !in scalars && "id" !in scalars && "subtotal" !in id;
    assert "id" in id <==> !o.id.Undefined?;
    JObject(parts + id + scalars)
  }

  /** The scalar fields of a stored order, in one record. */
  datatype Scalars = Scalars(orderType: string, discountValue: real, discountType: string, taxRate: real,
                             taxAmount: real, total: real, amountReceived: real, changeDue: real,
                             paymentMethod: string, paymentStatus: string, status: string, timestamp: string)

  function DecodeScalars(m: map<string, Json>): Option<Scalars> {
    var orderType, discountType := Text(m, "orderType"), Text(m, "discountType");
    var discountValue, taxRate, taxAmount := Number(m, "discountValue"), Number(m, "taxRate"), Number(m, "taxAmount");
    var total, amountReceived, changeDue := Number(m, "total"), Number(m, "amountReceived"), Number(m, "changeDue");
    var paymentMethod, paymentStatus := Text(m, "paymentMethod"), Text(m, "paymentStatus");
    var status, timestamp := Text(m, "status"), Text(m, "timestamp");
    if && orderType.Some? && discountValue.Some? && discountType.Some? && taxRate.Some? && taxAmount.Some?
       && total.Some? && amountReceived.Some? && changeDue.Some? && paymentMethod.Some?
       && paymentStatus.Some? && status.Some? && timestamp.Some?
    then Some(Scalars(orderType.value, discountValue.value, discountType.value, taxRate.value, taxAmount.value,
                      total.value, amountReceived.value, changeDue.value, paymentMethod.value,
                      paymentStatus.value, status.value, timestamp.value))
    else None
  }

  function DecodeOrder(j: Json): (r: Option<Order>)
    ensures r.Some? ==> j.JObject? && {"items", "customer", "total", "status", "timestamp"} <= j.fields.Keys
    ensures r.Some? ==> j.fields["items"].JArray? && |r.value.items| == |j.fields["items"].items|
    ensures r.Some? ==> (r.value.subtotal.Some? <==> "subtotal" in j.fields)
  {
    if !j.JObject? then None
    else
      var m := j.fields;
      var id, scalars := DecodeId(m), DecodeScalars(m);
      var items := if "items" in m && m["items"].JArray? then DecodeAll(m["items"].items, DecodeLine) else None;
      var customer := if "customer" in m then DecodeSelected(m["customer"]) else None;
      var subtotal: Option<Option<real>> :=
        if "subtotal" !in m then Some(None)
        else if m["subtotal"].JNumber? then Some(Some(m["subtotal"].n)) else None;
      if id.Some? && scalars.Some? && items.Some? && customer.Some? && subtotal.Some?
      then
        var v := scalars.value;
        Some(Order(id.value, items.value, customer.value, v.orderType, subtotal.value, v.discountValue,
                   v.discountType, v.taxRate, v.taxAmount, v.total, v.amountReceived, v.changeDue,
                   v.paymentMethod, v.paymentStatus, v.status, v.timestamp))
      else None
  }

  function ScalarsOf(o: Order): Scalars {
    Scalars(o.orderType, o.discountValue, o.discountType, o.taxRate, o.taxAmount, o.total,
            o.amountReceived, o.changeDue, o.paymentMethod, o.paymentStatus, o.status, o.timestamp)
  }

  /** The scalar keys decode to the order's scalar fields, whatever else the
      object holds. */
  lemma ScalarsRoundTrip(o: Order, others: map<string, Json>)
    ensures DecodeScalars(others + OrderScalars(o)) == Some(ScalarsOf(o))
  {
    ScalarTexts(o, others);
    ScalarRates(o, others);
    ScalarAmounts(o, others);
  }

  lemma ScalarTexts(o: Order, others: map<string, Json>)
    ensures var m := others + OrderScalars(o);
            && Text(m, "orderType") == Some(o.orderType) && Text(m, "discountType") == Some(o.discountType)
            && Text(m, "paymentMethod") == Some(o.paymentMethod)
            && Text(m, "paymentStatus") == Some(o.paymentStatus)
            && Text(m, "status") == Some(o.status) && Text(m, "timestamp") == Some(o.timestamp)
  {
  }

  lemma ScalarRates(o: Order, others: map<string, Json>)
    ensures var m := others + OrderScalars(o);
            && Number(m, "discountValue") == Some(o.discountValue) && Number(m, "taxRate") == Some(o.taxRate)
            && Number(m, "taxAmount") == Some(o.taxAmount)
  {
  }

  lemma ScalarAmounts(o: Order, others: map<string, Json>)
    ensures var m := others + OrderScalars(o);
            && Number(m, "total") == Some(o.total) && Number(m, "amountReceived") == Some(o.amountReceived)
            && Number(m, "changeDue") == Some(o.changeDue)
  {
  }

  /** The structured keys decode to the order's lines, customer and subtotal. */
  lemma PartsRoundTrip(o: Order)
    ensures var m := OrderParts(o) + IdEntry(o.id) + OrderScalars(o);
            && "items" in m && m["items"] == JArray(EncodeAll(o.items, EncodeLine))
            && "customer" in m && m["customer"] == EncodeSelected(o.customer)
            && ("subtotal" in m <==> o.subtotal.Some?)
            && (o.subtotal.Some? ==> m["subtotal"] == JNumber(o.subtotal.value))
            && DecodeId(m) == Some(o.id)
  {
    OrderKeysApart(o);
    var withId := OrderParts(o) + IdEntry(o.id);
    var m := withId + OrderScalars(o);
    assert "items" !in IdEntry(o.id) && "customer" !in IdEntry(o.id) && "subtotal" !in IdEntry(o.id);
    IdRoundTrip(o.id, OrderParts(o));
    assert ("id" in m <==> "id" in withId) && ("id" in m ==> m["id"] == withId["id"]);
  }

  /** The structured keys and the id are not among the scalar keys. */
  lemma OrderKeysApart(o: Order)
    ensures "items" !in OrderScalars(o) && "customer" !in OrderScalars(o) && "subtotal" !in OrderScalars(o)
    ensures "id" !in OrderScalars(o) && "id" !in OrderParts(o)
  {
  }

  lemma OrderRoundTrip(o: Order)
    ensures DecodeOrder(EncodeOrder(o)) == Some(o)
  {
    ScalarsRoundTrip(o, OrderParts(o) + IdEntry(o.id));
    PartsRoundTrip(o);
    forall c | c in o.items ensures DecodeLine(EncodeLine(c)) == Some(c) {
      LineRoundTrip(c);
    }
    AllRoundTrip(o.items, EncodeLine, DecodeLine);
    SelectedRoundTrip(o.customer);
  }
}
