/** The demo fixtures: eleven customers (the first is the walk-in Guest), a menu
    of twenty products in six categories, and two completed orders.  The orders'
    ids and timestamps are taken from the clock when the module loads, so they
    are parameters: the load time in milliseconds and its two ISO spellings. */
module DemoData {
  import opened Wrappers
  import opened Text
  import opened Domain

  const FIRST_ORDER_TIME_OFFSET := 100000
  const SECOND_ORDER_TIME_OFFSET := 50000

  const BURGER := "\U{1F354}"
  const BACON := "\U{1F953}"
  const DRUMSTICK := "\U{1F357}"
  const PEPPER := "\U{1F336}\U{FE0F}"
  const LEAFY := "\U{1F96C}"
  const MUSHROOM := "\U{1F344}"
  const FRIES := "\U{1F35F}"
  const ONION := "\U{1F9C5}"
  const CHEESE := "\U{1F9C0}"
  const SALAD := "\U{1F957}"
  const COFFEE := "\U{2615}"
  const SODA := "\U{1F964}"
  const ORANGE := "\U{1F34A}"
  const MILK := "\U{1F95B}"
  const CHOCOLATE := "\U{1F36B}"
  const SUNDAE := "\U{1F368}"
  const PIE := "\U{1F967}"

  const DemoCustomers: seq<Customer> := [
    Customer(Num(0), "Guest", "", ""),
    Customer(Num(2), "Alice Demo", "0711234567", "alice@test.com"),
    Customer(Num(3), "Bob Demo", "0729876543", "bob@test.com"),
    Customer(Num(4), "Charlie Demo", "0735556789", ""),
    Customer(Num(5), "Diana Demo", "0744441234", ""),
    Customer(Num(6), "Ethan Demo", "0753335678", ""),
    Customer(Num(7), "Fiona Demo", "0762224321", ""),
    Customer(Num(8), "George Demo", "0771118765", ""),
    Customer(Num(9), "Hannah Demo", "0780003456", ""),
    Customer(Num(10), "Ian Demo", "0799996543", ""),
    Customer(Num(11), "Jane Demo", "0701237890", "")
  ]

  const DemoProducts: seq<Product> := [
    Product(Num(1), "Beef Whopper", 2050.85, "Beef Burgers", BURGER),
    Product(Num(2), "Classic Beef", 1650.0, "Beef Burgers", BURGER),
    Product(Num(3), "Double Beef", 2450.0, "Beef Burgers", BURGER),
    Product(Num(4), "Bacon Beef", 2250.0, "Beef Burgers", BACON),
    Product(Num(5), "Crispy Chicken", 1850.0, "Chicken Burgers", DRUMSTICK),
    Product(Num(6), "Spicy Chicken", 1950.0, "Chicken Burgers", PEPPER),
    Product(Num(7), "Grilled Chicken", 2050.0, "Chicken Burgers", DRUMSTICK),
    Product(Num(8), "Veggie Burger", 913.56, "Veggie Burger", LEAFY),
    Product(Num(9), "Mushroom Burger", 1150.0, "Veggie Burger", MUSHROOM),
    Product(Num(10), "Thick Cut Fries", 559.32, "Sides", FRIES),
    Product(Num(11), "Onion Rings", 450.0, "Sides", ONION),
    Product(Num(12), "Cheese Fries", 650.0, "Sides", CHEESE),
    Product(Num(13), "Coleslaw", 350.0, "Sides", SALAD),
    Product(Num(14), "Iced Coffee", 593.0, "Beverages", COFFEE),
    Product(Num(15), "Coca Cola", 250.0, "Beverages", SODA),
    Product(Num(16), "Orange Juice", 350.0, "Beverages", ORANGE),
    Product(Num(17), "Milkshake", 550.0, "Beverages", MILK),
    Product(Num(18), "Chocolate Brownie", 450.0, "Desserts", CHOCOLATE),
    Product(Num(19), "Ice Cream Sundae", 550.0, "Desserts", SUNDAE),
    Product(Num(20), "Apple Pie", 400.0, "Desserts", PIE)
  ]

  /** The two demo orders, as created at load time `now` (milliseconds), with
      `firstStamp` and `secondStamp` the ISO strings of `now - 100000` and
      `now - 50000`. */
  function DemoOrders(now: int, firstStamp: string, secondStamp: string): (r: seq<Order>)
    ensures |r| == 2
    ensures r[0].id == Num(now - FIRST_ORDER_TIME_OFFSET) && r[1].id == Num(now - SECOND_ORDER_TIME_OFFSET)
    ensures r[0].timestamp == firstStamp && r[1].timestamp == secondStamp
  {
    [
      Order(Num(now - FIRST_ORDER_TIME_OFFSET),
            [CartItem(Num(1), "Beef Whopper", 2050.85, "Beef Burgers", BURGER, 2),
             CartItem(Num(10), "Thick Cut Fries", 559.32, "Sides", FRIES, 1)],
            Some(Customer(Num(2), "Alice Demo", "0711234567", "alice@test.com")),
            "dine-in", Some(4661.02), 0.0, "none", 0.0, 0.0, 4661.02, 5000.0, 338.98,
            "cash", "paid", "completed", firstStamp),
      Order(Num(now - SECOND_ORDER_TIME_OFFSET),
            [CartItem(Num(8), "Veggie Burger", 913.56, "Veggie Burger", LEAFY, 1),
             CartItem(Num(14), "Iced Coffee", 593.0, "Beverages", COFFEE, 2)],
            Some(Customer(Num(3), "Bob Demo", "0729876543", "bob@test.com")),
            "takeaway", Some(2099.56), 100.0, "flat", 0.0, 0.0, 1999.56, 2000.0, 0.44,
            "card", "paid", "completed", secondStamp)
    ]
  }

  /** Product `i` of the menu has id `i + 1`, so the ids are distinct, and no
      price is negative. */
  lemma DemoProductsWellFormed()
    ensures |DemoProducts| == 20
    ensures forall i :: 0 <= i < |DemoProducts| ==> DemoProducts[i].id == Num(i + 1)
    ensures forall i :: 0 <= i < |DemoProducts| ==> DemoProducts[i].price >= 0.0
  {
  }

  /** No two demo customers share a non-empty phone number. */
  lemma DemoPhonesUnique()
    ensures PhonesUnique(DemoCustomers)
  {
  }

  /** The Guest, with id 0, comes first, so it is the guest the actions find. */
  lemma DemoGuestFirst()
    ensures FirstGuest(DemoCustomers) == Some(DemoCustomers[0])
    ensures DemoCustomers[0].id == Num(0)
  {
    assert IsGuestName(DemoCustomers[0]) by {
      assert Lower("Guest") == "guest";
    }
    var r := FirstGuest(DemoCustomers);
    var i :| 0 <= i < |DemoCustomers| && DemoCustomers[i] == r.value
             && forall j :: 0 <= j < i ==> !IsGuestName(DemoCustomers[j]);
    assert i == 0;
  }

  /** Each demo order is arithmetically consistent: its subtotal is the cart
      total of its lines, the total is the subtotal less the flat discount, and
      the change is what was received less the total. */
  lemma DemoOrdersConsistent(now: int, firstStamp: string, secondStamp: string)
    ensures forall o :: o in DemoOrders(now, firstStamp, secondStamp) ==>
              && o.subtotal == Some(CartTotal(o.items))
              && o.total == o.subtotal.value - o.discountValue + o.taxAmount
              && o.changeDue == o.amountReceived - o.total
  {
    var r := DemoOrders(now, firstStamp, secondStamp);
    assert CartTotal(r[0].items) == 4661.02 by {
      assert r[0].items[..1] == [r[0].items[0]];
      assert CartTotal(r[0].items[..1]) == 4101.70;
    }
    assert CartTotal(r[1].items) == 2099.56 by {
      assert r[1].items[..1] == [r[1].items[0]];
      assert CartTotal(r[1].items[..1]) == 913.56;
    }
  }
}
