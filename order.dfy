/** The pricing part of the `token` checkout handler: it turns a cart, the
    product catalogue, the shipping quotes for the destination city and the
    customer record into the payment gateway's transaction parameter. */
module OrderController {
  import opened Wrappers

  // ---------------------------------------------------------------------
  // Data model
  // ---------------------------------------------------------------------

  /** One entry of the request body's `products` array. */
  datatype CartEntry = CartEntry(id: int, size: string, quantity: int)

  /** One entry of the product catalogue (`strapi.services.product.find()`). */
  datatype Product = Product(id: int, name: string, price: int)

  /** The request body's `customer` object; `city` is the shipping provider's
      region id and `service` the chosen shipping service code. */
  datatype Customer = Customer(
    firstName: string, lastName: string, email: string, phone: string,
    address: string, city: string, service: string)

  /** One element of a service's `cost` array in the shipping quote. */
  datatype CostDetail = CostDetail(value: int, etd: string, note: string)

  /** One element of a quote result's `costs` array: one service of the carrier. */
  datatype ServiceCost = ServiceCost(service: string, description: string, cost: seq<CostDetail>)

  /** One element of the shipping provider's cost `results` list (one carrier). */
  datatype QuoteResult = QuoteResult(code: string, name: string, costs: seq<ServiceCost>)

  /** The shipping provider's record for the customer's city. */
  datatype CityRecord = CityRecord(cityName: string, postalCode: string)

  /** A line item's `id`: a product id for product lines, the service code for
      the shipping line. */
  datatype ItemId = ProductRef(productId: int) | ServiceRef(service: string)

  /** One element of `item_details`. */
  datatype LineItem = LineItem(id: ItemId, quantity: int, name: string, price: int)

  datatype ShippingAddress = ShippingAddress(
    firstName: string, lastName: string, email: string, phone: string,
    address: string, city: string, postalCode: string, countryCode: string)

  /** The parameter's `customer_details`: the contact fields plus the address. */
  datatype CustomerDetails = CustomerDetails(
    firstName: string, lastName: string, email: string, phone: string,
    shippingAddress: ShippingAddress)

  datatype TransactionDetails = TransactionDetails(orderId: int, grossAmount: int)

  /** The object handed to the payment gateway's `createTransactionToken`. */
  datatype Parameter = Parameter(
    transactionDetails: TransactionDetails,
    itemDetails: seq<LineItem>,
    customerDetails: CustomerDetails)

  /** The ways the handler's dereference of an `undefined` lookup result throws. */
  datatype Error =
    | ProductNotFound(productId: int)     // `item.name` with no catalogue match
    | NoQuoteResult                       // `shippingOption[0].costs` on an empty list
    | ShippingOptionNotFound(service: string) // `shipping.service` with no matching service
    | NoCostValue(service: string)        // `shipping.cost[0].value` on an empty cost list

  const COUNTRY_CODE: string := "IDN"

  // ---------------------------------------------------------------------
  // Array.prototype.find
  // ---------------------------------------------------------------------

  /** `j` is the index of the first element of `s` that satisfies `p`. */
  ghost predicate IsFirst<T>(s: seq<T>, p: T -> bool, j: int) {
    0 <= j < |s| && p(s[j]) && forall k :: 0 <= k < j ==> !p(s[k])
  }

  /** The first element of `s` satisfying `p`, or None (JavaScript's `undefined`). */
  function Find<T>(s: seq<T>, p: T -> bool): (r: Option<T>)
    ensures r.None? <==> forall k :: 0 <= k < |s| ==> !p(s[k])
    ensures r.Some? ==> exists j :: IsFirst(s, p, j) && r.value == s[j]
  {
    if s == [] then None
    else if p(s[0]) then
      assert IsFirst(s, p, 0);
      Some(s[0])
    else
      var r := Find(s[1..], p);
      assert r.Some? ==> exists j :: IsFirst(s, p, j) && r.value == s[j] by {
        if r.Some? {
          var j :| IsFirst(s[1..], p, j) && r.value == s[1..][j];
          assert IsFirst(s, p, j + 1);
        }
      }
      r
  }

  // ---------------------------------------------------------------------
  // Product line items (`products.map` with `productList.find`)
  // ---------------------------------------------------------------------

  ghost predicate InCatalogue(catalogue: seq<Product>, id: int) {
    exists j :: 0 <= j < |catalogue| && catalogue[j].id == id
  }

  ghost predicate AllInCatalogue(products: seq<CartEntry>, catalogue: seq<Product>) {
    forall i :: 0 <= i < |products| ==> InCatalogue(catalogue, products[i].id)
  }

  /** Index of the first catalogue entry carrying `id`. */
  ghost function FirstIndex(catalogue: seq<Product>, id: int): (j: nat)
    requires InCatalogue(catalogue, id)
    ensures j < |catalogue| && catalogue[j].id == id
    ensures forall k :: 0 <= k < j ==> catalogue[k].id != id
  {
    if catalogue[0].id == id then 0
    else
      assert InCatalogue(catalogue[1..], id) by {
        var j :| 0 <= j < |catalogue| && catalogue[j].id == id;
        assert catalogue[1..][j - 1].id == id;
      }
      1 + FirstIndex(catalogue[1..], id)
  }

  /** The catalogue's price for `id` (that of its first entry with that id). */
  ghost function CataloguePrice(catalogue: seq<Product>, id: int): int
    requires InCatalogue(catalogue, id)
  {
    catalogue[FirstIndex(catalogue, id)].price
  }

  /** The line item for one cart entry: id and quantity from the cart, name,
      and price from the first catalogue entry with the same id. */
  function ProductLine(entry: CartEntry, catalogue: seq<Product>): (r: Result<LineItem, Error>)
    ensures r.Failure? <==> !InCatalogue(catalogue, entry.id)
    ensures r.Failure? ==> r.error == ProductNotFound(entry.id)
    ensures r.Success? ==>
      var item := catalogue[FirstIndex(catalogue, entry.id)];
      r.value == LineItem(ProductRef(entry.id), entry.quantity,
                          item.name + " (Size " + entry.size + ")", item.price)
  {
    var found := Find(catalogue, (item: Product) => item.id == entry.id);
    match found
    case None => Failure(ProductNotFound(entry.id))
    case Some(item) =>
      assert item == catalogue[FirstIndex(catalogue, entry.id)] by {
        var j :| IsFirst(catalogue, (item: Product) => item.id == entry.id, j) && item == catalogue[j];
        var f := FirstIndex(catalogue, entry.id);
        assert !(j < f) && !(f < j);
      }
      Success(LineItem(ProductRef(entry.id), entry.quantity,
                       item.name + " (Size " + entry.size + ")", item.price))
  }

  /** `products.map(...)`: one line item per cart entry, in cart order; the
      first cart entry without a catalogue match aborts the whole map. */
  function ProductLines(products: seq<CartEntry>, catalogue: seq<Product>): (r: Result<seq<LineItem>, Error>)
    ensures r.Success? <==> AllInCatalogue(products, catalogue)
    ensures r.Success? ==>
      |r.value| == |products| &&
      forall i :: 0 <= i < |products| ==> ProductLine(products[i], catalogue) == Success(r.value[i])
    ensures r.Failure? ==>
      exists i :: 0 <= i < |products| && !InCatalogue(catalogue, products[i].id) &&
        r.error == ProductNotFound(products[i].id) &&
        forall k :: 0 <= k < i ==> InCatalogue(catalogue, products[k].id)
  {
    if products == [] then Success([])
    else
      match ProductLine(products[0], catalogue)
      case Failure(e) =>
        assert !InCatalogue(catalogue, products[0].id);
        Failure(e)
      case Success(item) =>
        var rest := ProductLines(products[1..], catalogue);
        match rest
        case Failure(e) =>
          assert (exists i :: 0 <= i < |products| && !InCatalogue(catalogue, products[i].id) &&
                    e == ProductNotFound(products[i].id) &&
                    forall k :: 0 <= k < i ==> InCatalogue(catalogue, products[k].id)) by {
            var i :| 0 <= i < |products[1..]| && !InCatalogue(catalogue, products[1..][i].id) &&
              e == ProductNotFound(products[1..][i].id) &&
              forall k :: 0 <= k < i ==> InCatalogue(catalogue, products[1..][k].id);
            forall k | 0 <= k < i + 1 ensures InCatalogue(catalogue, products[k].id) {
              if k > 0 { assert products[k] == products[1..][k - 1]; }
            }
            assert products[i + 1] == products[1..][i];
          }
          Failure(e)
        case Success(lines) =>
          assert forall i :: 0 <= i < |products| ==> InCatalogue(catalogue, products[i].id) by {
            forall i | 0 <= i < |products| ensures InCatalogue(catalogue, products[i].id) {
              if i > 0 { assert products[i] == products[1..][i - 1]; }
            }
          }
          Success([item] + lines)
  }

  // ---------------------------------------------------------------------
  // Shipping selection (`shippingOption[0].costs.find`) and its line item
  // ---------------------------------------------------------------------

  /** The first service of the first quote result whose code is `service`. */
  function SelectShipping(shippingOption: seq<QuoteResult>, service: string): (r: Result<ServiceCost, Error>)
    ensures |shippingOption| == 0 ==> r == Failure(NoQuoteResult)
    ensures |shippingOption| > 0 ==>
      var costs := shippingOption[0].costs;
      && (r.Failure? <==> forall k :: 0 <= k < |costs| ==> costs[k].service != service)
      && (r.Failure? ==> r.error == ShippingOptionNotFound(service))
      && (r.Success? ==>
            exists k :: 0 <= k < |costs| && r.value == costs[k] && r.value.service == service &&
              forall m :: 0 <= m < k ==> costs[m].service != service)
  {
    if |shippingOption| == 0 then Failure(NoQuoteResult)
    else
      var costs := shippingOption[0].costs;
      match Find(costs, (option: ServiceCost) => option.service == service)
      case None => Failure(ShippingOptionNotFound(service))
      case Some(option) =>
        assert (exists k :: 0 <= k < |costs| && option == costs[k] && option.service == service &&
                  forall m :: 0 <= m < k ==> costs[m].service != service) by {
          var j :| IsFirst(costs, (option: ServiceCost) => option.service == service, j) && option == costs[j];
          forall m | 0 <= m < j ensures costs[m].service != service {
            assert !((option: ServiceCost) => option.service == service)(costs[m]);
          }
        }
        Success(option)
  }

  /** The synthetic shipping line item pushed onto `item_details`; reading
      `cost[0].value` of an empty cost list throws. */
  function ShippingItem(choice: ServiceCost): (r: Result<LineItem, Error>)
    ensures r.Failure? <==> |choice.cost| == 0
    ensures r.Failure? ==> r.error == NoCostValue(choice.service)
    ensures r.Success? ==>
      && r.value.id == ServiceRef(choice.service)
      && r.value.quantity == 1
      && r.value.name == "Shipping JNE (" + choice.service + ")"
      && r.value.price == choice.cost[0].value
      && LineTotal(r.value) == choice.cost[0].value
  {
    if |choice.cost| == 0 then Failure(NoCostValue(choice.service))
    else Success(LineItem(ServiceRef(choice.service), 1,
                          "Shipping JNE (" + choice.service + ")", choice.cost[0].value))
  }

  // ---------------------------------------------------------------------
  // Gross amount (`item_details.reduce`)
  // ---------------------------------------------------------------------

  function LineTotal(item: LineItem): int {
    item.quantity * item.price
  }

  /** Reference definition of a list's total: the sum of quantity * price. */
  function Sum(items: seq<LineItem>): int {
    if items == [] then 0 else LineTotal(items[0]) + Sum(items[1..])
  }

  /** `items.reduce((prev, curr) => curr.quantity * curr.price + prev, acc)`:
      the accumulator plus the sum of quantity * price. */
  function Reduce(items: seq<LineItem>, acc: int): (r: int)
    ensures r == acc + Sum(items)
  {
    if items == [] then acc else Reduce(items[1..], LineTotal(items[0]) + acc)
  }

  /** `gross_amount`: the fold from 0, which is the sum of quantity * price. */
  function GrossAmount(items: seq<LineItem>): (r: int)
    ensures r == Sum(items)
  {
    Reduce(items, 0)
  }

  /** The cart's subtotal at catalogue prices. */
  ghost function CartSubtotal(products: seq<CartEntry>, catalogue: seq<Product>): int
    requires AllInCatalogue(products, catalogue)
  {
    if products == [] then 0
    else
      products[0].quantity * CataloguePrice(catalogue, products[0].id) +
      CartSubtotal(products[1..], catalogue)
  }

  // ---------------------------------------------------------------------
  // Customer details and shipping address
  // ---------------------------------------------------------------------

  /** `shipping_address`: the contact fields unchanged, the customer's street
      address, the looked-up city name and postal code, and the fixed country. */
  function ShippingAddressOf(customer: Customer, city: CityRecord): (r: ShippingAddress)
    ensures r.firstName == customer.firstName && r.lastName == customer.lastName
    ensures r.email == customer.email && r.phone == customer.phone
    ensures r.address == customer.address
    ensures r.city == city.cityName && r.postalCode == city.postalCode
    ensures r.countryCode == "IDN"
  {
    ShippingAddress(customer.firstName, customer.lastName, customer.email, customer.phone,
                    customer.address, city.cityName, city.postalCode, COUNTRY_CODE)
  }

  /** The parameter's `customer_details`: the four contact fields of the
      customer spread beside the given `shipping_address`. */
  function CustomerDetailsOf(customer: Customer, address: ShippingAddress): (r: CustomerDetails)
    ensures r.firstName == customer.firstName && r.lastName == customer.lastName
    ensures r.email == customer.email && r.phone == customer.phone
    ensures r.shippingAddress == address
  {
    CustomerDetails(customer.firstName, customer.lastName, customer.email, customer.phone, address)
  }

  // ---------------------------------------------------------------------
  // The handler
  // ---------------------------------------------------------------------

  /** The `token` handler up to the gateway call. `productList`,
      `shippingOption` and `city` are the results of the catalogue read, the
      cost quote for `customer.city` and the city lookup; `orderId` stands for
      the random order id. */
  method Token(products: seq<CartEntry>, customer: Customer, productList: seq<Product>,
               shippingOption: seq<QuoteResult>, city: CityRecord, orderId: int)
    returns (r: Result<Parameter, Error>)
    // a cart entry without a catalogue match fails first, naming the first such entry
    ensures !AllInCatalogue(products, productList) ==>
      exists i :: 0 <= i < |products| && !InCatalogue(productList, products[i].id) &&
        r == Failure(ProductNotFound(products[i].id)) &&
        forall k :: 0 <= k < i ==> InCatalogue(productList, products[k].id)
    // then a missing quote, a missing service or an empty cost list
    ensures AllInCatalogue(products, productList) ==>
      var choice := SelectShipping(shippingOption, customer.service);
      && (choice.Failure? ==> r == Failure(choice.error))
      && (choice.Success? && |choice.value.cost| == 0 ==>
            r == Failure(NoCostValue(customer.service)))
      && (choice.Success? && |choice.value.cost| > 0 ==> r.Success?)
    ensures r.Success? ==>
      var p := r.value;
      var items := p.itemDetails;
      var choice := SelectShipping(shippingOption, customer.service);
      && AllInCatalogue(products, productList)
      // one line per cart entry, in order, then the shipping line
      && |items| == |products| + 1
      && (forall i :: 0 <= i < |products| ==> ProductLine(products[i], productList) == Success(items[i]))
      && choice.Success? && |choice.value.cost| > 0
      && items[|products|] == LineItem(ServiceRef(customer.service), 1,
                                       "Shipping JNE (" + customer.service + ")",
                                       choice.value.cost[0].value)
      // the total
      && p.transactionDetails.orderId == orderId
      && p.transactionDetails.grossAmount == Sum(items)
      && p.transactionDetails.grossAmount ==
           CartSubtotal(products, productList) + choice.value.cost[0].value
      // the customer details and the shipping address
      && p.customerDetails == CustomerDetails(
           customer.firstName, customer.lastName, customer.email, customer.phone,
           ShippingAddress(customer.firstName, customer.lastName, customer.email, customer.phone,
                           customer.address, city.cityName, city.postalCode, "IDN"))
  {
    var itemDetails :- ProductLines(products, productList);
    var shipping :- SelectShipping(shippingOption, customer.service);
    var shippingLine :- ShippingItem(shipping);
    ghost var productItems := itemDetails;
    itemDetails := itemDetails + [shippingLine];
    var shippingAddress := ShippingAddressOf(customer, city);
    var customerDetails := CustomerDetailsOf(customer, shippingAddress);
    var grossAmount := GrossAmount(itemDetails);
    SumAppend(productItems, [shippingLine]);
    ProductLinesSubtotal(products, productList);
    r := Success(Parameter(TransactionDetails(orderId, grossAmount), itemDetails, customerDetails));
  }

  // ---------------------------------------------------------------------
  // Lemmas used by the handler
  // ---------------------------------------------------------------------

  /** The total of a concatenation is the sum of the totals. */
  lemma {:induction false} SumAppend(a: seq<LineItem>, b: seq<LineItem>)
    ensures Sum(a + b) == Sum(a) + Sum(b)
  {
    if a == [] {
      assert a + b == b;
    } else {
      assert (a + b)[1..] == a[1..] + b;
      SumAppend(a[1..], b);
    }
  }

  /** The product lines total the cart at catalogue prices. */
  lemma {:induction false} ProductLinesSubtotal(products: seq<CartEntry>, catalogue: seq<Product>)
    requires AllInCatalogue(products, catalogue)
    ensures ProductLines(products, catalogue).Success?
    ensures Sum(ProductLines(products, catalogue).value) == CartSubtotal(products, catalogue)
  {
    if products != [] {
      assert AllInCatalogue(products[1..], catalogue) by {
        forall i | 0 <= i < |products[1..]| ensures InCatalogue(catalogue, products[1..][i].id) {
          assert products[1..][i] == products[i + 1];
        }
      }
      ProductLinesSubtotal(products[1..], catalogue);
      var lines := ProductLines(products, catalogue).value;
      var rest := ProductLines(products[1..], catalogue).value;
      assert ProductLine(products[0], catalogue) == Success(lines[0]);
      forall i | 0 <= i < |rest| ensures rest[i] == lines[1..][i] {
        assert ProductLine(products[1..][i], catalogue) == Success(rest[i]);
        assert products[1..][i] == products[i + 1];
        assert ProductLine(products[i + 1], catalogue) == Success(lines[i + 1]);
      }
      assert lines[1..] == rest;
    }
  }
}
