# Checkout pricing model of the Strapi order controller

This project models the pricing assembly inside the `token` checkout handler of
`api/order/controllers/order.js`. The handler takes the cart (`products`: id, size,
quantity) and the product catalogue (`productList`). It also takes the shipping
provider's cost quotes for the customer's city (`shippingOption`), the provider's record
for that city, and the customer record. It builds the payment gateway's parameter from
them: `item_details`, `transaction_details.gross_amount` and `customer_details` with its
`shipping_address`.

The model has three modules:

- `Wrappers` (`wrappers.dfy`): `Option` and a failure-compatible `Result`.
- `OrderController` (`order.dfy`): the records the handler reads and writes, as
  datatypes. It also holds `Array.prototype.find` (`Find`), the product `map`
  (`ProductLine`, `ProductLines`), the shipping selection (`SelectShipping`,
  `ShippingItem`) and the `reduce` (`Reduce`, `GrossAmount`). The handler itself is the
  method `Token`. It keeps `item_details` in a local sequence and models the `push` of
  the shipping line as an append.
- `OrderProperties` (`order_properties.dfy`): lemmas relating several calls, and a
  worked example.

The handler throws whenever it dereferences `undefined`. There are four such failure
paths. Each is a `Failure` of `Result` and produces no parameter. In the order the
handler reaches them:

1. `ProductNotFound(id)`: the first cart entry with no catalogue match (`item.name`).
2. `NoQuoteResult`: the quote list is empty (`shippingOption[0].costs`).
3. `ShippingOptionNotFound(service)`: no entry of `shippingOption[0].costs` has the
   customer's service (`shipping.service`).
4. `NoCostValue(service)`: the chosen service has an empty `cost` list
   (`shipping.cost[0].value`).

Inputs that come from I/O are parameters of `Token`:

- the catalogue read (`strapi.services.product.find()`);
- the cost quote (`getOngkir`);
- the city lookup (`getArea("/city", …)`);
- the random order id (`getRandomInt`).

## Model

| member | source | states |
|---|---|---|
| `OrderController.Find` | api/order/controllers/order.js:49 | returns the first element that satisfies the predicate, and None exactly when no element does |
| `OrderController.FirstIndex` | api/order/controllers/order.js:49 | the index of the first catalogue entry that carries the id: it matches, and no earlier entry does |
| `OrderController.ProductLine` | api/order/controllers/order.js:49-55 | fails with ProductNotFound exactly when the id is absent from the catalogue. Otherwise id and quantity come from the cart entry, and price comes from the first catalogue entry with that id, never from the cart. The name is that entry's name followed by " (Size ", the cart size and ")" |
| `OrderController.ProductLines` | api/order/controllers/order.js:48-56 | succeeds exactly when every cart id is in the catalogue, and then gives one line per cart entry, in cart order. Otherwise it fails with ProductNotFound for the first cart entry that has no match |
| `OrderController.SelectShipping` | api/order/controllers/order.js:62-64 | an empty quote list fails with NoQuoteResult. Otherwise the selection is the first entry of `shippingOption[0].costs` whose `service` equals `customer.service`, and it fails with ShippingOptionNotFound exactly when no entry matches |
| `OrderController.ShippingItem` | api/order/controllers/order.js:66-71 | fails with NoCostValue exactly when the chosen service's cost list is empty. Otherwise the line has id the service, quantity 1, name "Shipping JNE (service)" and price cost[0].value, so it contributes exactly that cost to the total |
| `OrderController.Reduce` | api/order/controllers/order.js:94-97 | folding `quantity * price + prev` from an accumulator gives the accumulator plus the sum of quantity × price |
| `OrderController.GrossAmount` | api/order/controllers/order.js:92-98 | gross_amount, the reduce from 0, equals the sum over the line items of quantity × price |
| `OrderController.SumAppend` | api/order/controllers/order.js:94-97 | the total of a concatenation of line-item lists is the sum of their totals |
| `OrderController.ShippingAddressOf` | api/order/controllers/order.js:84-90 | shipping_address keeps the four contact fields unchanged and adds the customer's address, the looked-up city name and postal code, and country code "IDN" |
| `OrderController.CustomerDetailsOf` | api/order/controllers/order.js:73-78 | customer_details holds the customer's four contact fields unchanged, with the given shipping_address beside them (the spread at order.js lines 103-106) |
| `OrderController.ProductLinesSubtotal` | api/order/controllers/order.js:48-56 | when every cart id is in the catalogue, the product lines total the cart at catalogue prices (quantity × the first matching entry's price) |
| `OrderController.Token` | api/order/controllers/order.js:45-107 | fails on the first unmatched cart entry, then on the shipping-selection errors, and succeeds otherwise. On success the item list has one line per cart entry (in cart order), then the shipping line: id the service, quantity 1, name "Shipping JNE (service)", price cost[0].value. gross_amount is the sum of the item list, which equals the cart subtotal at catalogue prices plus the shipping cost. The order id is the one supplied. customer_details holds the four contact fields and a shipping_address with those fields, the customer's address, the city name, the postal code and country code "IDN" |
| `OrderProperties.ExampleCheckout` | api/order/controllers/order.js:48-97 | a cart of two "Tee" in size M at catalogue price 100 with service SVC at 20 gives the lines "Tee (Size M)" and "Shipping JNE (SVC)" and a gross amount of 220 |
| `OrderProperties.FirstCatalogueEntryWins` | api/order/controllers/order.js:49-54 | the first catalogue entry carrying the id decides the line's name and price. Any entries before it carry other ids, and a later duplicate is ignored |
| `OrderProperties.MissingProductFails` | api/order/controllers/order.js:48-53 | one cart entry whose id is absent from the catalogue makes the whole line-item map fail, wherever it sits in the cart |
| `OrderProperties.GrossAmountWithShipping` | api/order/controllers/order.js:66-97 | appending a quantity-1 shipping line raises the gross amount by exactly its price |

## Left out

- `getArea` and `getOngkir`, the HTTPS calls to the shipping provider (order.js:9-38): their results are inputs. The fixed origin region "289", the weight of 1000 grams and the courier "jne" therefore do not appear. A failed call (a network error or a malformed body) is not modelled.
- `getRandomInt` (order.js:40-42) uses floating-point `Math.random`. The order id is an unconstrained integer parameter.
- The Midtrans Snap client, `JSON.stringify` and `createTransactionToken` (order.js:109-117) are a foreign SDK. The model stops at the parameter handed to it.
- `getProvince`, `getCity`, `getCost` and `findOne` (order.js:120-155) are pass-throughs to HTTP and to the framework's services. Payment-notification reconciliation is not in the controller file.
- Ids and amounts are integers. JavaScript's loose `==` between a string id and a number id is not modelled, and neither is the floating-point arithmetic of `quantity * price`.
- Fields the handler never reads (a client-supplied price, for one) are not part of the cart entry.
