/** The order dashboard's edit screen (client/src/pages/dashboards/Orders.jsx):
    the cached order list, the order being edited with its service and product
    line objects, the per-line change handlers that update a line object in
    place, the edit-screen order total, the save split into existing and new
    lines, and the local list mirrors kept after each remote write.  Remote
    calls appear as their success/failure outcome. */
module OrderDashboard {
  import opened Catalog
  import opened Totals
  import opened Filters

  // ------------------------------------------------------------ line values

  /** A snapshot of a service line object. `orderServiceId` is the child row's
      key (None on a line added in this session); `totalServicePrice` is None
      until a change handler has computed it. */
  datatype ServiceLine = ServiceLine(orderServiceId: Option<int>, orderId: Option<int>,
                                     serviceId: Option<int>, serviceName: string,
                                     servicePrice: real, serviceDisc: real,
                                     totalServicePrice: Option<real>)

  /** A snapshot of a product line object, keyed by `orderProductId`. */
  datatype ProductLine = ProductLine(orderProductId: Option<int>, orderId: Option<int>,
                                     productId: Option<int>, productName: string,
                                     productPrice: real, quantity: real, productDisc: real,
                                     totalProductPrice: Option<real>)

  /** The `name` and `value` of the input that fired handleServiceChange. */
  datatype ServiceChange = ServiceNameChange(name: string) | ServiceDiscChange(disc: real) | OtherServiceInput

  /** The `name` and `value` of the input that fired handleProductChange. */
  datatype ProductChange =
    | ProductNameChange(name: string)
    | QuantityChange(qty: real)
    | ProductDiscChange(disc: real)
    | OtherProductInput

  /** The header columns of an `orders` row. */
  datatype OrderHeader = OrderHeader(orderId: int, userId: string, fname: string, email: string,
                                     phoneNo: string, paymentMethod: string, paidDate: string,
                                     orderStatus: string, orderRemark: string, totalOrderPrice: real)

  /** An entry of the cached `orders` list. Rows fetched from the table carry no
      lines (empty sequences); an entry rewritten by a save carries the combined
      line lists, in which an `undefined` entry is None. */
  datatype CachedOrder = CachedOrder(header: OrderHeader, services: seq<Option<ServiceLine>>,
                                     products: seq<Option<ProductLine>>)

  /** The text inputs of the edit form that handleChange writes back by name. */
  datatype DetailsField = Fname | Email | PhoneNo | PaymentMethod | PaidDate | OrderStatus | OrderRemark

  /** `{ ...orderDetails, [name]: value }` for one of the text inputs. */
  function SetDetailsField(h: OrderHeader, field: DetailsField, value: string): (r: OrderHeader)
    ensures r.orderId == h.orderId && r.userId == h.userId && r.totalOrderPrice == h.totalOrderPrice
    ensures r.fname == (if field == Fname then value else h.fname)
    ensures r.email == (if field == Email then value else h.email)
    ensures r.phoneNo == (if field == PhoneNo then value else h.phoneNo)
    ensures r.paymentMethod == (if field == PaymentMethod then value else h.paymentMethod)
    ensures r.paidDate == (if field == PaidDate then value else h.paidDate)
    ensures r.orderStatus == (if field == OrderStatus then value else h.orderStatus)
    ensures r.orderRemark == (if field == OrderRemark then value else h.orderRemark)
  {
    match field
    case Fname => h.(fname := value)
    case Email => h.(email := value)
    case PhoneNo => h.(phoneNo := value)
    case PaymentMethod => h.(paymentMethod := value)
    case PaidDate => h.(paidDate := value)
    case OrderStatus => h.(orderStatus := value)
    case OrderRemark => h.(orderRemark := value)
  }

  /** Writing a field twice keeps the last value; writing two different fields
      commutes. */
  lemma SetDetailsFieldLaws(h: OrderHeader, f: DetailsField, g: DetailsField, v: string, w: string)
    ensures SetDetailsField(SetDetailsField(h, f, v), f, w) == SetDetailsField(h, f, w)
    ensures f != g ==> SetDetailsField(SetDetailsField(h, f, v), g, w)
                       == SetDetailsField(SetDetailsField(h, g, w), f, v)
  {
  }

  // ------------------------------------------------------- change handlers

  /** handleServiceChange's effect on one line: the switch on the input name,
      then `total_service_price = service_price * (1 - service_disc / 100)`. */
  function ApplyServiceChange(l: ServiceLine, c: ServiceChange, catalog: seq<CatalogItem>): (r: ServiceLine)
    ensures r.orderServiceId == l.orderServiceId && r.orderId == l.orderId
    ensures r.totalServicePrice == Some(ServiceNet(r))
    ensures !c.ServiceDiscChange? ==> r.serviceDisc == l.serviceDisc
    ensures c.ServiceNameChange? && Listed(catalog, c.name) ==>
              var item := FindByName(catalog, c.name).value;
              r.serviceName == c.name && r.serviceId == Some(item.id) && r.servicePrice == item.price
    ensures c.ServiceNameChange? && !Listed(catalog, c.name) ==>
              r.serviceName == l.serviceName && r.serviceId.None? && r.servicePrice == 0.0
    ensures !c.ServiceNameChange? ==>
              r.serviceName == l.serviceName && r.serviceId == l.serviceId && r.servicePrice == l.servicePrice
    ensures c.ServiceDiscChange? ==> r.serviceDisc == c.disc
  {
    var l' := match c
      case ServiceNameChange(name) =>
        (match FindByName(catalog, name)
         case Some(item) => l.(serviceId := Some(item.id), serviceName := name, servicePrice := item.price)
         case None => l.(serviceId := None, servicePrice := 0.0))
      case ServiceDiscChange(d) => l.(serviceDisc := d)
      case OtherServiceInput => l;
    l'.(totalServicePrice := Some(ServiceNet(l')))
  }

  /** handleProductChange's effect on one line, with
      `total_product_price = product_price * quantity * (1 - product_disc / 100)`. */
  function ApplyProductChange(l: ProductLine, c: ProductChange, catalog: seq<CatalogItem>): (r: ProductLine)
    ensures r.orderProductId == l.orderProductId && r.orderId == l.orderId
    ensures r.totalProductPrice == Some(ProductNet(r))
    ensures !c.QuantityChange? ==> r.quantity == l.quantity
    ensures !c.ProductDiscChange? ==> r.productDisc == l.productDisc
    ensures c.ProductNameChange? && Listed(catalog, c.name) ==>
              var item := FindByName(catalog, c.name).value;
              r.productName == c.name && r.productId == Some(item.id) && r.productPrice == item.price
    ensures c.ProductNameChange? && !Listed(catalog, c.name) ==>
              r.productName == l.productName && r.productId.None? && r.productPrice == 0.0
    ensures !c.ProductNameChange? ==>
              r.productName == l.productName && r.productId == l.productId && r.productPrice == l.productPrice
    ensures c.QuantityChange? ==> r.quantity == c.qty
    ensures c.ProductDiscChange? ==> r.productDisc == c.disc
  {
    var l' := match c
      case ProductNameChange(name) =>
        (match FindByName(catalog, name)
         case Some(item) => l.(productId := Some(item.id), productName := name, productPrice := item.price)
         case None => l.(productId := None, productPrice := 0.0))
      case QuantityChange(q) => l.(quantity := q)
      case ProductDiscChange(d) => l.(productDisc := d)
      case OtherProductInput => l;
    var r := l'.(totalProductPrice := Some(ProductNet(l')));
    assert ProductGross(r) == ProductGross(l') by {
      assert r.productPrice == l'.productPrice && r.quantity == l'.quantity;
    }
    r
  }

  /** Selecting a listed service and then clearing the selection leaves the
      line unselected at price 0 with the discount it had before. */
  lemma SelectThenClearService(l: ServiceLine, catalog: seq<CatalogItem>, name: string, cleared: string)
    requires Listed(catalog, name) && !Listed(catalog, cleared)
    ensures var r := ApplyServiceChange(ApplyServiceChange(l, ServiceNameChange(name), catalog),
                                        ServiceNameChange(cleared), catalog);
            r.serviceId.None? && r.servicePrice == 0.0 && r.serviceDisc == l.serviceDisc
            && r.serviceName == name && r.totalServicePrice == Some(0.0)
  {
  }

  // -------------------------------------------------------------- totals

  /** The undiscounted amount of a line: its price, times its quantity for a product. */
  function ServicePrice(l: ServiceLine): real { l.servicePrice }
  function ProductGross(l: ProductLine): real { l.productPrice * l.quantity }

  /** A line's own total after its discount, as the change handlers compute it. */
  function ServiceNet(l: ServiceLine): real { Discounted(l.servicePrice, l.serviceDisc) }
  function ProductNet(l: ProductLine): real { Discounted(ProductGross(l), l.productDisc) }

  /** calculateTotalOrderPrice of the edit screen: the sum of service prices plus
      the sum of `price * quantity` over products; discounts are not applied. */
  function EditOrderTotal(services: seq<ServiceLine>, products: seq<ProductLine>): (r: real)
    ensures services == [] && products == [] ==> r == 0.0
  {
    Sum(services, ServicePrice) + Sum(products, ProductGross)
  }

  /** The discounted total the line handlers and the new-order screen use:
      the sum of every line's own total. */
  function DiscountedTotal(services: seq<ServiceLine>, products: seq<ProductLine>): (r: real)
    ensures services == [] && products == [] ==> r == 0.0
  {
    Sum(services, ServiceNet) + Sum(products, ProductNet)
  }

  /** Changing any service discount leaves the edit-screen total as it was. */
  lemma EditTotalIgnoresServiceDiscount(services: seq<ServiceLine>, products: seq<ProductLine>,
                                        index: nat, disc: real)
    requires index < |services|
    ensures EditOrderTotal(services[index := services[index].(serviceDisc := disc)], products)
            == EditOrderTotal(services, products)
  {
    SumUpdate(services, index, services[index].(serviceDisc := disc), ServicePrice);
  }

  /** Changing any product discount leaves the edit-screen total as it was. */
  lemma EditTotalIgnoresProductDiscount(services: seq<ServiceLine>, products: seq<ProductLine>,
                                        index: nat, disc: real)
    requires index < |products|
    ensures EditOrderTotal(services, products[index := products[index].(productDisc := disc)])
            == EditOrderTotal(services, products)
  {
    SumUpdate(products, index, products[index].(productDisc := disc), ProductGross);
  }

  /** With non-negative prices and quantities and discounts within 0..100 the
      edit-screen total never falls below the discounted total, and the two agree
      when no line is discounted. */
  lemma EditTotalBoundsDiscountedTotal(services: seq<ServiceLine>, products: seq<ProductLine>)
    requires forall k :: 0 <= k < |services| ==>
               0.0 <= services[k].servicePrice && 0.0 <= services[k].serviceDisc <= 100.0
    requires forall k :: 0 <= k < |products| ==>
               0.0 <= products[k].productPrice && 0.0 <= products[k].quantity
               && 0.0 <= products[k].productDisc <= 100.0
    ensures DiscountedTotal(services, products) <= EditOrderTotal(services, products)
    ensures (forall k :: 0 <= k < |services| ==> services[k].serviceDisc == 0.0) &&
            (forall k :: 0 <= k < |products| ==> products[k].productDisc == 0.0)
            ==> DiscountedTotal(services, products) == EditOrderTotal(services, products)
  {
    forall k | 0 <= k < |products| ensures 0.0 <= ProductGross(products[k]) {
      var l := products[k];
      assert 0.0 <= l.productPrice * l.quantity;
    }
    SumMonotone(services, ServiceNet, ServicePrice);
    SumMonotone(products, ProductNet, ProductGross);
    if (forall k :: 0 <= k < |services| ==> services[k].serviceDisc == 0.0) &&
       (forall k :: 0 <= k < |products| ==> products[k].productDisc == 0.0) {
      SumCongruent(services, ServiceNet, ServicePrice);
      SumCongruent(products, ProductNet, ProductGross);
    }
  }

  /** One service at 100 with a 10% discount: the edit screen totals 100 where
      the line's own total, and the new-order screen's total, is 90. */
  lemma EditTotalDivergesFromDiscountedTotal()
    ensures var s := [ServiceLine(Some(1), Some(1), Some(1), "Facial", 100.0, 10.0, None)];
            EditOrderTotal(s, []) == 100.0 && DiscountedTotal(s, []) == 90.0
  {
    var s := [ServiceLine(Some(1), Some(1), Some(1), "Facial", 100.0, 10.0, None)];
    SumSingleton(s[0], ServicePrice);
    SumSingleton(s[0], ServiceNet);
  }

  // ------------------------------------------------------------ save split

  /** JavaScript truthiness of a child-row key: present and not 0. */
  predicate HasRowId(id: Option<int>) { id.Some? && id.value != 0 }

  predicate ServiceSaved(l: ServiceLine) { HasRowId(l.orderServiceId) }
  predicate ServiceUnsaved(l: ServiceLine) { !HasRowId(l.orderServiceId) }
  predicate ProductSaved(l: ProductLine) { HasRowId(l.orderProductId) }
  predicate ProductUnsaved(l: ProductLine) { !HasRowId(l.orderProductId) }

  /** servicesToUpdate / servicesToAdd: the lines with and without an
      `order_service_id`. Every line lands in exactly one group, and together
      the groups hold exactly the original lines. */
  function SplitServices(lines: seq<ServiceLine>): (split: (seq<ServiceLine>, seq<ServiceLine>))
    ensures forall k :: 0 <= k < |split.0| ==> HasRowId(split.0[k].orderServiceId)
    ensures forall k :: 0 <= k < |split.1| ==> !HasRowId(split.1[k].orderServiceId)
    ensures multiset(split.0) + multiset(split.1) == multiset(lines)
    ensures |split.0| + |split.1| == |lines|
  {
    var toUpdate := Filter(lines, ServiceSaved);
    var toAdd := Filter(lines, ServiceUnsaved);
    FilterPartition(lines, ServiceSaved, ServiceUnsaved);
    (toUpdate, toAdd)
  }

  /** A service line is in the update group exactly when it is one of the lines
      and has a row id, and in the add group exactly when it has none. */
  lemma SplitServicesMembership(lines: seq<ServiceLine>, l: ServiceLine)
    ensures l in SplitServices(lines).0 <==> l in lines && HasRowId(l.orderServiceId)
    ensures l in SplitServices(lines).1 <==> l in lines && !HasRowId(l.orderServiceId)
  {
    FilterMembership(lines, ServiceSaved, l);
    FilterMembership(lines, ServiceUnsaved, l);
  }

  /** The split of a concatenation is the concatenation of the splits: the
      relative order of the lines is kept within each group. */
  lemma SplitServicesAppend(a: seq<ServiceLine>, b: seq<ServiceLine>)
    ensures SplitServices(a + b).0 == SplitServices(a).0 + SplitServices(b).0
    ensures SplitServices(a + b).1 == SplitServices(a).1 + SplitServices(b).1
  {
    FilterAppend(a, b, ServiceSaved);
    FilterAppend(a, b, ServiceUnsaved);
  }

  /** productsToUpdate / productsToAdd: the lines with and without an
      `order_product_id`. Every line lands in exactly one group, and together
      the groups hold exactly the original lines. */
  function SplitProducts(lines: seq<ProductLine>): (split: (seq<ProductLine>, seq<ProductLine>))
    ensures forall k :: 0 <= k < |split.0| ==> HasRowId(split.0[k].orderProductId)
    ensures forall k :: 0 <= k < |split.1| ==> !HasRowId(split.1[k].orderProductId)
    ensures multiset(split.0) + multiset(split.1) == multiset(lines)
    ensures |split.0| + |split.1| == |lines|
  {
    var toUpdate := Filter(lines, ProductSaved);
    var toAdd := Filter(lines, ProductUnsaved);
    FilterPartition(lines, ProductSaved, ProductUnsaved);
    (toUpdate, toAdd)
  }

  /** A product line is in the update group exactly when it is one of the lines
      and has a row id, and in the add group exactly when it has none. */
  lemma SplitProductsMembership(lines: seq<ProductLine>, l: ProductLine)
    ensures l in SplitProducts(lines).0 <==> l in lines && HasRowId(l.orderProductId)
    ensures l in SplitProducts(lines).1 <==> l in lines && !HasRowId(l.orderProductId)
  {
    FilterMembership(lines, ProductSaved, l);
    FilterMembership(lines, ProductUnsaved, l);
  }

  /** The split of a concatenation is the concatenation of the splits. */
  lemma SplitProductsAppend(a: seq<ProductLine>, b: seq<ProductLine>)
    ensures SplitProducts(a + b).0 == SplitProducts(a).0 + SplitProducts(b).0
    ensures SplitProducts(a + b).1 == SplitProducts(a).1 + SplitProducts(b).1
  {
    FilterAppend(a, b, ProductSaved);
    FilterAppend(a, b, ProductUnsaved);
  }

  /** `[...servicesToUpdate, ...savedServices]` as written: saveService resolves
      to `undefined`, so every added line becomes an undefined entry (None). */
  function CombineServicesAsWritten(lines: seq<ServiceLine>): (all: seq<Option<ServiceLine>>)
    ensures |all| == |lines|
    ensures forall k :: 0 <= k < |all| && all[k].Some? ==> HasRowId(all[k].value.orderServiceId)
  {
    var (toUpdate, toAdd) := SplitServices(lines);
    seq(|toUpdate|, k requires 0 <= k < |toUpdate| => Some(toUpdate[k]))
      + seq(|toAdd|, k requires 0 <= k < |toAdd| => None)
  }

  /** As written, each line added in this session reaches the cached order only
      as an undefined entry, so its contents are lost. */
  lemma CombineAsWrittenLosesAddedLines(lines: seq<ServiceLine>, l: ServiceLine)
    requires l in lines && !HasRowId(l.orderServiceId)
    ensures Some(l) !in CombineServicesAsWritten(lines)
    ensures None in CombineServicesAsWritten(lines)
  {
    var (toUpdate, toAdd) := SplitServices(lines);
    FilterMembership(lines, ServiceSaved, l);
    FilterMembership(lines, ServiceUnsaved, l);
    var all := CombineServicesAsWritten(lines);
    assert |toAdd| > 0;
    assert all[|toUpdate|] == None;
  }

  /** `[...productsToUpdate, ...savedProducts]` as written: saveProduct resolves
      to `undefined` too. */
  function CombineProductsAsWritten(lines: seq<ProductLine>): (all: seq<Option<ProductLine>>)
    ensures |all| == |lines|
    ensures forall k :: 0 <= k < |all| && all[k].Some? ==> HasRowId(all[k].value.orderProductId)
  {
    var (toUpdate, toAdd) := SplitProducts(lines);
    seq(|toUpdate|, k requires 0 <= k < |toUpdate| => Some(toUpdate[k]))
      + seq(|toAdd|, k requires 0 <= k < |toAdd| => None)
  }

  /** As written, each product line added in this session reaches the cached
      order only as an undefined entry. */
  lemma CombineAsWrittenLosesAddedProducts(lines: seq<ProductLine>, l: ProductLine)
    requires l in lines && !HasRowId(l.orderProductId)
    ensures Some(l) !in CombineProductsAsWritten(lines)
    ensures None in CombineProductsAsWritten(lines)
  {
    var (toUpdate, toAdd) := SplitProducts(lines);
    FilterMembership(lines, ProductSaved, l);
    FilterMembership(lines, ProductUnsaved, l);
    var all := CombineProductsAsWritten(lines);
    assert |toAdd| > 0;
    assert all[|toUpdate|] == None;
  }

  /** The combined service list as evidently intended: the existing lines
      followed by the added ones, every line kept. */
  function CombineServices(lines: seq<ServiceLine>): (all: seq<ServiceLine>)
    ensures multiset(all) == multiset(lines)
    ensures |all| == |lines|
  {
    var (toUpdate, toAdd) := SplitServices(lines);
    FilterPartition(lines, ServiceSaved, ServiceUnsaved);
    toUpdate + toAdd
  }

  /** The combined product list as evidently intended: every line kept. */
  function CombineProducts(lines: seq<ProductLine>): (all: seq<ProductLine>)
    ensures multiset(all) == multiset(lines)
    ensures |all| == |lines|
  {
    var (toUpdate, toAdd) := SplitProducts(lines);
    FilterPartition(lines, ProductSaved, ProductUnsaved);
    toUpdate + toAdd
  }

  /** Position by position the as-written service list agrees with the intended
      combination at each existing line and is undefined exactly where the
      intended list holds an added line. */
  lemma CombineServicesAsWrittenAgrees(lines: seq<ServiceLine>)
    ensures |CombineServicesAsWritten(lines)| == |CombineServices(lines)|
    ensures forall k :: 0 <= k < |CombineServices(lines)| ==>
              if HasRowId(CombineServices(lines)[k].orderServiceId)
              then CombineServicesAsWritten(lines)[k] == Some(CombineServices(lines)[k])
              else CombineServicesAsWritten(lines)[k].None?
  {
  }

  /** The same agreement for the product lists. */
  lemma CombineProductsAsWrittenAgrees(lines: seq<ProductLine>)
    ensures |CombineProductsAsWritten(lines)| == |CombineProducts(lines)|
    ensures forall k :: 0 <= k < |CombineProducts(lines)| ==>
              if HasRowId(CombineProducts(lines)[k].orderProductId)
              then CombineProductsAsWritten(lines)[k] == Some(CombineProducts(lines)[k])
              else CombineProductsAsWritten(lines)[k].None?
  {
  }

  /** Reordering into existing-then-new lines does not change either total. */
  lemma CombineKeepsTotals(services: seq<ServiceLine>, products: seq<ProductLine>)
    ensures EditOrderTotal(CombineServices(services), CombineProducts(products))
            == EditOrderTotal(services, products)
    ensures DiscountedTotal(CombineServices(services), CombineProducts(products))
            == DiscountedTotal(services, products)
  {
    SumPermutation(CombineServices(services), services, ServicePrice);
    SumPermutation(CombineProducts(products), products, ProductGross);
    SumPermutation(CombineServices(services), services, ServiceNet);
    SumPermutation(CombineProducts(products), products, ProductNet);
  }

  // --------------------------------------------------------- local mirrors

  /** `services.filter(s => s.order_service_id !== serviceId)`. */
  function RemoveServiceLines(lines: seq<ServiceLine>, serviceId: Option<int>): (r: seq<ServiceLine>)
    ensures |r| <= |lines|
    ensures forall k :: 0 <= k < |r| ==> r[k].orderServiceId != serviceId
  {
    Filter(lines, (l: ServiceLine) => l.orderServiceId != serviceId)
  }

  /** Exactly the lines carrying `serviceId` are removed; the others stay, in order. */
  lemma RemoveServiceLinesExact(lines: seq<ServiceLine>, serviceId: Option<int>, l: ServiceLine)
    ensures l in RemoveServiceLines(lines, serviceId) <==> l in lines && l.orderServiceId != serviceId
    ensures |RemoveServiceLines(lines, serviceId)| <= |lines|
    ensures (forall k :: 0 <= k < |lines| ==> lines[k].orderServiceId != serviceId)
            ==> RemoveServiceLines(lines, serviceId) == lines
  {
    FilterMembership(lines, (l: ServiceLine) => l.orderServiceId != serviceId, l);
    if forall k :: 0 <= k < |lines| ==> lines[k].orderServiceId != serviceId {
      FilterAll(lines, (l: ServiceLine) => l.orderServiceId != serviceId);
    }
  }

  /** `products.filter(p => p.order_product_id !== productId)`. */
  function RemoveProductLines(lines: seq<ProductLine>, productId: Option<int>): (r: seq<ProductLine>)
    ensures |r| <= |lines|
    ensures forall k :: 0 <= k < |r| ==> r[k].orderProductId != productId
  {
    Filter(lines, (l: ProductLine) => l.orderProductId != productId)
  }

  /** Exactly the lines carrying `productId` are removed; the others stay, in order. */
  lemma RemoveProductLinesExact(lines: seq<ProductLine>, productId: Option<int>, l: ProductLine)
    ensures l in RemoveProductLines(lines, productId) <==> l in lines && l.orderProductId != productId
    ensures |RemoveProductLines(lines, productId)| <= |lines|
    ensures (forall k :: 0 <= k < |lines| ==> lines[k].orderProductId != productId)
            ==> RemoveProductLines(lines, productId) == lines
  {
    FilterMembership(lines, (l: ProductLine) => l.orderProductId != productId, l);
    if forall k :: 0 <= k < |lines| ==> lines[k].orderProductId != productId {
      FilterAll(lines, (l: ProductLine) => l.orderProductId != productId);
    }
  }

  /** handleDeleteOrder's mirror: `orders.filter(o => o.order_id !== orderId)`. */
  function RemoveOrder(orders: seq<CachedOrder>, orderId: int): (r: seq<CachedOrder>)
    ensures |r| <= |orders|
    ensures forall k :: 0 <= k < |r| ==> r[k].header.orderId != orderId
  {
    Filter(orders, (o: CachedOrder) => o.header.orderId != orderId)
  }

  /** Exactly the cached orders with that id are removed; the others stay, in order. */
  lemma RemoveOrderExact(orders: seq<CachedOrder>, orderId: int, o: CachedOrder)
    ensures o in RemoveOrder(orders, orderId) <==> o in orders && o.header.orderId != orderId
    ensures RemoveOrder(RemoveOrder(orders, orderId), orderId) == RemoveOrder(orders, orderId)
  {
    FilterMembership(orders, (o: CachedOrder) => o.header.orderId != orderId, o);
    FilterIdempotent(orders, (o: CachedOrder) => o.header.orderId != orderId);
  }

  /** handleSaveOrder's mirror at lines 355-357: every cached order with the
      selected id becomes `saved`; every other entry is kept as it is. */
  function MirrorSavedOrder(orders: seq<CachedOrder>, orderId: int, saved: CachedOrder): (r: seq<CachedOrder>)
    ensures |r| == |orders|
    ensures forall k :: 0 <= k < |orders| && orders[k].header.orderId != orderId ==> r[k] == orders[k]
    ensures forall k :: 0 <= k < |orders| && orders[k].header.orderId == orderId ==> r[k] == saved
  {
    seq(|orders|, k requires 0 <= k < |orders| =>
      if orders[k].header.orderId == orderId then saved else orders[k])
  }

  /** Saving and then deleting an order leaves the same list as deleting it
      straight away, provided the saved entry keeps the order's id. */
  lemma {:induction false} DeleteAfterSave(orders: seq<CachedOrder>, orderId: int, saved: CachedOrder)
    requires saved.header.orderId == orderId
    ensures RemoveOrder(MirrorSavedOrder(orders, orderId, saved), orderId) == RemoveOrder(orders, orderId)
  {
    if |orders| > 0 {
      var m := MirrorSavedOrder(orders, orderId, saved);
      assert m[1..] == MirrorSavedOrder(orders[1..], orderId, saved);
      DeleteAfterSave(orders[1..], orderId, saved);
    }
  }

  // ----------------------------------------------------------- line objects

  /** A service line object of `orderDetails.services`; handleServiceChange
      assigns its fields in place. */
  class ServiceRecord {
    var orderServiceId: Option<int>
    var orderId: Option<int>
    var serviceId: Option<int>
    var serviceName: string
    var servicePrice: real
    var serviceDisc: real
    var totalServicePrice: Option<real>

    function Value(): ServiceLine
      reads this
    {
      ServiceLine(orderServiceId, orderId, serviceId, serviceName, servicePrice, serviceDisc, totalServicePrice)
    }

    constructor (l: ServiceLine)
      ensures Value() == l
    {
      orderServiceId, orderId, serviceId := l.orderServiceId, l.orderId, l.serviceId;
      serviceName, servicePrice, serviceDisc := l.serviceName, l.servicePrice, l.serviceDisc;
      totalServicePrice := l.totalServicePrice;
    }

    /** The body of handleServiceChange applied to this object. */
    method HandleChange(c: ServiceChange, catalog: seq<CatalogItem>)
      modifies this
      ensures Value() == ApplyServiceChange(old(Value()), c, catalog)
    {
      match c {
        case ServiceNameChange(name) =>
          var selected := FindByName(catalog, name);
          if selected.Some? {
            serviceId := Some(selected.value.id);
            serviceName := name;
            servicePrice := selected.value.price;
          } else {
            serviceId := None;
            servicePrice := 0.0;
          }
        case ServiceDiscChange(d) =>
          serviceDisc := d;
        case OtherServiceInput =>
      }
      totalServicePrice := Some(Discounted(servicePrice, serviceDisc));
    }
  }

  /** A product line object of `orderDetails.products`; handleProductChange
      assigns its fields in place. */
  class ProductRecord {
    var orderProductId: Option<int>
    var orderId: Option<int>
    var productId: Option<int>
    var productName: string
    var productPrice: real
    var quantity: real
    var productDisc: real
    var totalProductPrice: Option<real>

    function Value(): ProductLine
      reads this
    {
      ProductLine(orderProductId, orderId, productId, productName, productPrice, quantity,
                  productDisc, totalProductPrice)
    }

    constructor (l: ProductLine)
      ensures Value() == l
    {
      orderProductId, orderId, productId := l.orderProductId, l.orderId, l.productId;
      productName, productPrice, quantity := l.productName, l.productPrice, l.quantity;
      productDisc, totalProductPrice := l.productDisc, l.totalProductPrice;
    }

    /** The body of handleProductChange applied to this object. */
    method HandleChange(c: ProductChange, catalog: seq<CatalogItem>)
      modifies this
      ensures Value() == ApplyProductChange(old(Value()), c, catalog)
    {
      ghost var expected := ApplyProductChange(Value(), c, catalog);
      match c {
        case ProductNameChange(name) =>
          var selected := FindByName(catalog, name);
          if selected.Some? {
            productId := Some(selected.value.id);
            productName := name;
            productPrice := selected.value.price;
          } else {
            productId := None;
            productPrice := 0.0;
          }
        case QuantityChange(q) =>
          quantity := q;
        case ProductDiscChange(d) =>
          productDisc := d;
        case OtherProductInput =>
      }
      var gross := productPrice * quantity;
      assert gross == ProductGross(expected) by {
        assert expected.productPrice == productPrice && expected.quantity == quantity;
      }
      totalProductPrice := Some(Discounted(gross, productDisc));
    }
  }

  /** The snapshots of a sequence of service line objects. */
  function ServiceValues(rows: seq<ServiceRecord>): (r: seq<ServiceLine>)
    reads rows
    ensures |r| == |rows|
    ensures forall k :: 0 <= k < |rows| ==> r[k] == rows[k].Value()
  {
    if |rows| == 0 then [] else [rows[0].Value()] + ServiceValues(rows[1..])
  }

  /** The snapshots of a sequence of product line objects. */
  function ProductValues(rows: seq<ProductRecord>): (r: seq<ProductLine>)
    reads rows
    ensures |r| == |rows|
    ensures forall k :: 0 <= k < |rows| ==> r[k] == rows[k].Value()
  {
    if |rows| == 0 then [] else [rows[0].Value()] + ProductValues(rows[1..])
  }

  /** No object occurs twice. */
  ghost predicate Distinct<T>(s: seq<T>)
  {
    forall i, j :: 0 <= i < j < |s| ==> s[i] != s[j]
  }

  /** The service objects kept by handleDeleteOrderService's filter. */
  function KeepServiceRecords(rows: seq<ServiceRecord>, serviceId: Option<int>): (r: seq<ServiceRecord>)
    reads rows
    ensures forall x :: x in r ==> x in rows
  {
    if |rows| == 0 then []
    else if rows[0].orderServiceId != serviceId then [rows[0]] + KeepServiceRecords(rows[1..], serviceId)
    else KeepServiceRecords(rows[1..], serviceId)
  }

  /** Filtering the objects and then reading them gives the filtered snapshots,
      and no object becomes duplicated. */
  lemma {:induction false} KeepServiceRecordsSound(rows: seq<ServiceRecord>, serviceId: Option<int>)
    ensures ServiceValues(KeepServiceRecords(rows, serviceId)) == RemoveServiceLines(ServiceValues(rows), serviceId)
    ensures Distinct(rows) ==> Distinct(KeepServiceRecords(rows, serviceId))
  {
    if |rows| > 0 {
      var vs := ServiceValues(rows);
      var rest := KeepServiceRecords(rows[1..], serviceId);
      KeepServiceRecordsSound(rows[1..], serviceId);
      assert vs[1..] == ServiceValues(rows[1..]);
      assert vs == [vs[0]] + vs[1..];
      if rows[0].orderServiceId != serviceId {
        assert ServiceValues([rows[0]] + rest) == [rows[0].Value()] + ServiceValues(rest);
      }
      if Distinct(rows) {
        assert Distinct(rows[1..]);
        assert rows[0] !in rows[1..];
      }
    }
  }

  /** The product objects kept by handleDeleteOrderProduct's filter. */
  function KeepProductRecords(rows: seq<ProductRecord>, productId: Option<int>): (r: seq<ProductRecord>)
    reads rows
    ensures forall x :: x in r ==> x in rows
  {
    if |rows| == 0 then []
    else if rows[0].orderProductId != productId then [rows[0]] + KeepProductRecords(rows[1..], productId)
    else KeepProductRecords(rows[1..], productId)
  }

  /** Filtering the objects and then reading them gives the filtered snapshots,
      and no object becomes duplicated. */
  lemma {:induction false} KeepProductRecordsSound(rows: seq<ProductRecord>, productId: Option<int>)
    ensures ProductValues(KeepProductRecords(rows, productId)) == RemoveProductLines(ProductValues(rows), productId)
    ensures Distinct(rows) ==> Distinct(KeepProductRecords(rows, productId))
  {
    if |rows| > 0 {
      var vs := ProductValues(rows);
      var rest := KeepProductRecords(rows[1..], productId);
      KeepProductRecordsSound(rows[1..], productId);
      assert vs[1..] == ProductValues(rows[1..]);
      assert vs == [vs[0]] + vs[1..];
      if rows[0].orderProductId != productId {
        assert ProductValues([rows[0]] + rest) == [rows[0].Value()] + ProductValues(rest);
      }
      if Distinct(rows) {
        assert Distinct(rows[1..]);
        assert rows[0] !in rows[1..];
      }
    }
  }

  /** The service line handleAddService appends. */
  function NewServiceLine(orderId: int): ServiceLine
  {
    ServiceLine(None, Some(orderId), None, "", 0.0, 0.0, None)
  }

  /** The product line handleAddProduct appends. */
  function NewProductLine(orderId: int): ProductLine
  {
    ProductLine(None, Some(orderId), None, "", 0.0, 1.0, 0.0, None)
  }

  /** Fresh, pairwise distinct service line objects holding `lines`. */
  method NewServiceRecords(lines: seq<ServiceLine>) returns (rows: seq<ServiceRecord>)
    ensures Distinct(rows) && ServiceValues(rows) == lines
    ensures forall x :: x in rows ==> fresh(x)
  {
    rows := [];
    for i := 0 to |lines|
      invariant |rows| == i && Distinct(rows)
      invariant forall k :: 0 <= k < i ==> rows[k].Value() == lines[k]
      invariant forall x :: x in rows ==> fresh(x)
    {
      var row := new ServiceRecord(lines[i]);
      rows := rows + [row];
    }
  }

  /** Fresh, pairwise distinct product line objects holding `lines`. */
  method NewProductRecords(lines: seq<ProductLine>) returns (rows: seq<ProductRecord>)
    ensures Distinct(rows) && ProductValues(rows) == lines
    ensures forall x :: x in rows ==> fresh(x)
  {
    rows := [];
    for i := 0 to |lines|
      invariant |rows| == i && Distinct(rows)
      invariant forall k :: 0 <= k < i ==> rows[k].Value() == lines[k]
      invariant forall x :: x in rows ==> fresh(x)
    {
      var row := new ProductRecord(lines[i]);
      rows := rows + [row];
    }
  }

  // -------------------------------------------------------------- screen

  /** The component state of the order dashboard. `details` and the two line
      sequences together are `orderDetails`. */
  class OrderScreen {
    var orders: seq<CachedOrder>
    var selectedOrder: Option<OrderHeader>
    var editMode: bool
    var details: OrderHeader
    var services: seq<ServiceRecord>
    var products: seq<ProductRecord>
    var servicesList: seq<CatalogItem>
    var productsList: seq<CatalogItem>

    /** Each line object appears once, so a handler that updates one of them
        leaves every other line as it was. */
    ghost predicate Valid()
      reads this
    {
      Distinct(services) && Distinct(products)
    }

    function ServiceLines(): seq<ServiceLine>
      reads this, services
    {
      ServiceValues(services)
    }

    function ProductLines(): seq<ProductLine>
      reads this, products
    {
      ProductValues(products)
    }

    constructor ()
      ensures Valid()
      ensures orders == [] && selectedOrder.None? && !editMode
      ensures services == [] && products == [] && servicesList == [] && productsList == []
    {
      orders, selectedOrder, editMode := [], None, false;
      details := OrderHeader(0, "", "", "", "", "", "", "", "", 0.0);
      services, products := [], [];
      servicesList, productsList := [], [];
    }

    /** loadInitialData: on success the three fetched lists replace the cached
        ones; if any fetch fails nothing changes. */
    method LoadInitialData(fetched: Option<(seq<CachedOrder>, seq<CatalogItem>, seq<CatalogItem>)>)
      modifies this
      ensures fetched.Some? ==> orders == fetched.value.0 && servicesList == fetched.value.1
                                && productsList == fetched.value.2
      ensures fetched.None? ==> orders == old(orders) && servicesList == old(servicesList)
                                && productsList == old(productsList)
      ensures selectedOrder == old(selectedOrder) && editMode == old(editMode) && details == old(details)
      ensures services == old(services) && products == old(products)
    {
      if fetched.Some? {
        orders, servicesList, productsList := fetched.value.0, fetched.value.1, fetched.value.2;
      }
    }

    /** handleEditOrder: switch the screen to edit mode. */
    method HandleEditOrder()
      modifies this
      ensures editMode
      ensures orders == old(orders) && selectedOrder == old(selectedOrder) && details == old(details)
      ensures services == old(services) && products == old(products)
      ensures servicesList == old(servicesList) && productsList == old(productsList)
    {
      editMode := true;
    }

    /** handleChange: a text input of the edit form writes its value into the
        order being edited. */
    method HandleDetailsChange(field: DetailsField, value: string)
      modifies this
      ensures details == SetDetailsField(old(details), field, value)
      ensures orders == old(orders) && selectedOrder == old(selectedOrder) && editMode == old(editMode)
      ensures services == old(services) && products == old(products)
      ensures servicesList == old(servicesList) && productsList == old(productsList)
    {
      details := SetDetailsField(details, field, value);
    }

    /** handleViewOrder: the fetched order becomes the selected order and the
        order being edited, each fetched line becoming a fresh line object. */
    method HandleViewOrder(fetched: Option<(OrderHeader, seq<ServiceLine>, seq<ProductLine>)>)
      requires Valid()
      modifies this
      ensures Valid()
      ensures fetched.Some? ==> selectedOrder == Some(fetched.value.0) && details == fetched.value.0
      ensures fetched.Some? ==> ServiceLines() == fetched.value.1 && ProductLines() == fetched.value.2
      ensures fetched.Some? ==> (forall x :: x in services ==> fresh(x)) && (forall x :: x in products ==> fresh(x))
      ensures fetched.None? ==> selectedOrder == old(selectedOrder) && details == old(details)
                                && services == old(services) && products == old(products)
      ensures orders == old(orders) && editMode == old(editMode)
      ensures servicesList == old(servicesList) && productsList == old(productsList)
    {
      if fetched.Some? {
        var (header, serviceLines, productLines) := fetched.value;
        var serviceRows := NewServiceRecords(serviceLines);
        var productRows := NewProductRecords(productLines);
        selectedOrder := Some(header);
        details := header;
        services, products := serviceRows, productRows;
      }
    }

    /** handleServiceChange(index, e): line object `index` is updated in place;
        the sequence keeps the same objects. */
    method HandleServiceChange(index: nat, c: ServiceChange)
      requires Valid() && index < |services|
      modifies services[index]
      ensures Valid() && services == old(services)
      ensures ServiceLines() == old(ServiceLines())[index := ApplyServiceChange(old(ServiceLines()[index]), c, servicesList)]
    {
      services[index].HandleChange(c, servicesList);
      ghost var updated := ApplyServiceChange(old(ServiceLines()[index]), c, servicesList);
      forall k | 0 <= k < |services|
        ensures ServiceLines()[k] == old(ServiceLines())[index := updated][k]
      {
        if k != index { assert services[k] != services[index]; }
      }
    }

    /** handleProductChange(index, e): line object `index` is updated in place;
        the sequence keeps the same objects. */
    method HandleProductChange(index: nat, c: ProductChange)
      requires Valid() && index < |products|
      modifies products[index]
      ensures Valid() && products == old(products)
      ensures ProductLines() == old(ProductLines())[index := ApplyProductChange(old(ProductLines()[index]), c, productsList)]
    {
      products[index].HandleChange(c, productsList);
      ghost var updated := ApplyProductChange(old(ProductLines()[index]), c, productsList);
      forall k | 0 <= k < |products|
        ensures ProductLines()[k] == old(ProductLines())[index := updated][k]
      {
        if k != index { assert products[k] != products[index]; }
      }
    }

    /** handleAddService: append a fresh default line for the selected order.
        The accompanying insert's outcome is only logged by the source. */
    method HandleAddService()
      requires Valid() && selectedOrder.Some?
      modifies this
      ensures Valid()
      ensures ServiceLines() == old(ServiceLines()) + [NewServiceLine(old(selectedOrder).value.orderId)]
      ensures fresh(services[|services| - 1]) && services[..|services| - 1] == old(services)
      ensures products == old(products) && orders == old(orders) && selectedOrder == old(selectedOrder)
      ensures details == old(details) && editMode == old(editMode)
      ensures servicesList == old(servicesList) && productsList == old(productsList)
    {
      var row := new ServiceRecord(NewServiceLine(selectedOrder.value.orderId));
      assert ServiceValues(services + [row]) == ServiceValues(services) + [row.Value()];
      services := services + [row];
    }

    /** handleAddProduct: append a fresh default line (quantity 1) for the selected order. */
    method HandleAddProduct()
      requires Valid() && selectedOrder.Some?
      modifies this
      ensures Valid()
      ensures ProductLines() == old(ProductLines()) + [NewProductLine(old(selectedOrder).value.orderId)]
      ensures fresh(products[|products| - 1]) && products[..|products| - 1] == old(products)
      ensures services == old(services) && orders == old(orders) && selectedOrder == old(selectedOrder)
      ensures details == old(details) && editMode == old(editMode)
      ensures servicesList == old(servicesList) && productsList == old(productsList)
    {
      var row := new ProductRecord(NewProductLine(selectedOrder.value.orderId));
      assert ProductValues(products + [row]) == ProductValues(products) + [row.Value()];
      products := products + [row];
    }

    /** handleDeleteOrderService: after the user confirms and the remote delete
        succeeds, drop the lines with that `order_service_id` locally. */
    method HandleDeleteOrderService(serviceId: Option<int>, confirmed: bool, deleteOk: bool)
      requires Valid()
      modifies this
      ensures Valid()
      ensures confirmed && deleteOk ==> ServiceLines() == RemoveServiceLines(old(ServiceLines()), serviceId)
      ensures !(confirmed && deleteOk) ==> services == old(services)
      ensures products == old(products) && orders == old(orders) && selectedOrder == old(selectedOrder)
      ensures details == old(details) && editMode == old(editMode)
      ensures servicesList == old(servicesList) && productsList == old(productsList)
    {
      if confirmed && deleteOk {
        KeepServiceRecordsSound(services, serviceId);
        services := KeepServiceRecords(services, serviceId);
      }
    }

    /** handleDeleteOrderProduct: the same for product lines. */
    method HandleDeleteOrderProduct(productId: Option<int>, confirmed: bool, deleteOk: bool)
      requires Valid()
      modifies this
      ensures Valid()
      ensures confirmed && deleteOk ==> ProductLines() == RemoveProductLines(old(ProductLines()), productId)
      ensures !(confirmed && deleteOk) ==> products == old(products)
      ensures services == old(services) && orders == old(orders) && selectedOrder == old(selectedOrder)
      ensures details == old(details) && editMode == old(editMode)
      ensures servicesList == old(servicesList) && productsList == old(productsList)
    {
      if confirmed && deleteOk {
        KeepProductRecordsSound(products, productId);
        products := KeepProductRecords(products, productId);
      }
    }

    /** handleDeleteOrder: after confirmation and a successful remote delete, drop
        the cached orders with that id and clear the selection. */
    method HandleDeleteOrder(orderId: int, confirmed: bool, deleteOk: bool)
      modifies this
      ensures confirmed && deleteOk ==> orders == RemoveOrder(old(orders), orderId) && selectedOrder.None?
      ensures !(confirmed && deleteOk) ==> orders == old(orders) && selectedOrder == old(selectedOrder)
      ensures services == old(services) && products == old(products)
      ensures details == old(details) && editMode == old(editMode)
      ensures servicesList == old(servicesList) && productsList == old(productsList)
    {
      if confirmed && deleteOk {
        orders := RemoveOrder(orders, orderId);
        selectedOrder := None;
      }
    }

    /** handleSaveOrder: the header gets the edit-screen total; the lines are
        split into existing and new ones; after a successful update the cached
        order with the selected id is replaced, the selection refreshed and edit
        mode left. The cached line lists are the as-written combinations, with
        an undefined entry for every added line. */
    method HandleSaveOrder(updateOk: bool)
      requires Valid() && selectedOrder.Some?
      modifies this
      ensures Valid()
      ensures var saved := CachedOrder(old(details).(totalOrderPrice := EditOrderTotal(old(ServiceLines()), old(ProductLines()))),
                                       CombineServicesAsWritten(old(ServiceLines())),
                                       CombineProductsAsWritten(old(ProductLines())));
              updateOk ==> orders == MirrorSavedOrder(old(orders), old(selectedOrder).value.orderId, saved)
                           && selectedOrder == Some(saved.header) && !editMode
      ensures !updateOk ==> orders == old(orders) && selectedOrder == old(selectedOrder) && editMode == old(editMode)
      ensures services == old(services) && products == old(products) && details == old(details)
      ensures servicesList == old(servicesList) && productsList == old(productsList)
    {
      var serviceLines := ServiceLines();
      var productLines := ProductLines();
      var total := EditOrderTotal(serviceLines, productLines);
      var newDetails := details.(totalOrderPrice := total);
      var saved := CachedOrder(newDetails, CombineServicesAsWritten(serviceLines),
                               CombineProductsAsWritten(productLines));
      if updateOk {
        orders := MirrorSavedOrder(orders, selectedOrder.value.orderId, saved);
        selectedOrder := Some(newDetails);
        editMode := false;
      }
    }
  }
}
