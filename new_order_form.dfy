/** The new-order screen (client/src/pages/NewOrderForm.jsx): the in-memory
    form with its two ordered sequences of lines, the handlers that edit them,
    the order total, and the submit sequence that writes one order header and
    one child row per line.  Every handler is a pure state-to-state function,
    as the React `setFormData(prev => ({...prev, ...}))` updates are. */
module NewOrderForm {
  import opened Catalog
  import opened Totals

  // ---------------------------------------------------------------- state

  /** A service line; `serviceId` is None while nothing is selected (`''`). */
  datatype ServiceLine = ServiceLine(serviceId: Option<int>, serviceName: string,
                                     servicePrice: real, serviceDisc: real)

  /** A product line; `productId` is None while nothing is selected (`''`). */
  datatype ProductLine = ProductLine(productId: Option<int>, productName: string,
                                     productPrice: real, quantity: real, productDisc: real)

  /** The line that "Add service" appends and the initial form starts with. */
  const EmptyService: ServiceLine := ServiceLine(None, "", 0.0, 0.0)
  /** The line that "Add product" appends and the initial form starts with. */
  const EmptyProduct: ProductLine := ProductLine(None, "", 0.0, 1.0, 0.0)

  /** A JavaScript value held in the photo list: a string or anything else. */
  datatype JsValue = JsString(s: string) | JsOther

  /** `formData.photos`: normally an array, but a header edit stores the typed
      text there (see HandleHeaderChangeAsWritten). */
  datatype Photos = PhotoArray(entries: seq<JsValue>) | PhotoText(text: string)

  /** The customer, payment and status fields of the form. */
  datatype Header = Header(userId: string, fname: string, email: string, phoneNo: string,
                           paymentMethod: string, orderStatus: string, orderRemark: string)

  /** The `name` attribute of a header input that calls handleChange: the
      phone number, payment method, status and remark inputs (the name and
      email inputs are read-only and there is no user-id input). */
  datatype HeaderField = PhoneNo | PaymentMethod | OrderStatus | OrderRemark

  const EmptyHeader: Header := Header("", "", "", "", "", "", "")

  datatype Form = Form(header: Header, services: seq<ServiceLine>, products: seq<ProductLine>,
                       photos: Photos)

  /** The `type` argument of the line handlers: 'service' or 'product'. */
  datatype Kind = ServiceKind | ProductKind

  /** The editable numeric inputs of a line: `service_disc`, `quantity`, `product_disc`. */
  datatype LineEdit = ServiceDisc(disc: real) | ProductQuantity(qty: real) | ProductDisc(disc: real)

  // --------------------------------------------------------------- prices

  /** `service_price * (1 - service_disc / 100)`. */
  function ServiceLineTotal(l: ServiceLine): real
  {
    Discounted(l.servicePrice, l.serviceDisc)
  }

  /** `product_price * quantity * (1 - product_disc / 100)`. */
  function ProductLineTotal(l: ProductLine): real
  {
    Discounted(l.productPrice * l.quantity, l.productDisc)
  }

  function ServicesTotal(s: seq<ServiceLine>): real { Sum(s, ServiceLineTotal) }
  function ProductsTotal(p: seq<ProductLine>): real { Sum(p, ProductLineTotal) }

  /** Every price, quantity and discount a user can reach through the inputs:
      non-negative amounts and discounts between 0 and 100 percent. */
  predicate LinesInRange(f: Form)
  {
    && (forall k :: 0 <= k < |f.services| ==>
          0.0 <= f.services[k].servicePrice && 0.0 <= f.services[k].serviceDisc <= 100.0)
    && (forall k :: 0 <= k < |f.products| ==>
          && 0.0 <= f.products[k].productPrice && 0.0 <= f.products[k].quantity
          && 0.0 <= f.products[k].productDisc <= 100.0)
  }

  /** The discounted order total over both kinds of line: 0 for a form with no lines. */
  function OrderTotal(f: Form): (r: real)
    ensures f.services == [] && f.products == [] ==> r == 0.0
  {
    ServicesTotal(f.services) + ProductsTotal(f.products)
  }

  /** While prices, quantities and discounts are in range the order total is
      never negative. */
  lemma OrderTotalNonNegative(f: Form)
    requires LinesInRange(f)
    ensures 0.0 <= OrderTotal(f)
  {
    SumNonNegative(f.services, ServiceLineTotal);
    forall k | 0 <= k < |f.products|
      ensures 0.0 <= ProductLineTotal(f.products[k])
    {
      var l := f.products[k];
      assert 0.0 <= l.productPrice * l.quantity;
    }
    SumNonNegative(f.products, ProductLineTotal);
  }

  /** calculateTotalOrderPrice: two `forEach` loops accumulating into
      `totalServicePrice` and `totalProductPrice`, then their sum. */
  method CalculateTotalOrderPrice(f: Form) returns (total: real)
    ensures total == OrderTotal(f)
    ensures f.services == [] && f.products == [] ==> total == 0.0
  {
    var totalServicePrice := 0.0;
    var totalProductPrice := 0.0;
    for i := 0 to |f.services|
      invariant totalServicePrice == ServicesTotal(f.services[..i])
    {
      assert f.services[..i + 1][..i] == f.services[..i];
      totalServicePrice := totalServicePrice + ServiceLineTotal(f.services[i]);
    }
    assert f.services[..|f.services|] == f.services;
    for j := 0 to |f.products|
      invariant totalProductPrice == ProductsTotal(f.products[..j])
    {
      assert f.products[..j + 1][..j] == f.products[..j];
      totalProductPrice := totalProductPrice + ProductLineTotal(f.products[j]);
    }
    assert f.products[..|f.products|] == f.products;
    total := totalServicePrice + totalProductPrice;
  }

  /** Reordering the lines of either kind leaves the order total unchanged. */
  lemma OrderTotalReorder(f: Form, services: seq<ServiceLine>, products: seq<ProductLine>)
    requires multiset(services) == multiset(f.services)
    requires multiset(products) == multiset(f.products)
    ensures OrderTotal(f.(services := services, products := products)) == OrderTotal(f)
  {
    SumPermutation(services, f.services, ServiceLineTotal);
    SumPermutation(products, f.products, ProductLineTotal);
  }

  /** With every discount at zero the total is the plain sum of
      `price` over services and `price * quantity` over products. */
  lemma UndiscountedOrderTotal(f: Form)
    requires forall k :: 0 <= k < |f.services| ==> f.services[k].serviceDisc == 0.0
    requires forall k :: 0 <= k < |f.products| ==> f.products[k].productDisc == 0.0
    ensures OrderTotal(f) == Sum(f.services, (l: ServiceLine) => l.servicePrice)
                             + Sum(f.products, (l: ProductLine) => l.productPrice * l.quantity)
  {
    SumCongruent(f.services, ServiceLineTotal, (l: ServiceLine) => l.servicePrice);
    SumCongruent(f.products, ProductLineTotal, (l: ProductLine) => l.productPrice * l.quantity);
  }

  // ------------------------------------------------------- initial state

  /** The state the screen starts in: one empty line of each kind, no photos. */
  function InitialForm(): (f: Form)
    ensures f.header == EmptyHeader && f.photos == PhotoArray([])
    ensures |f.services| == 1 && f.services[0].serviceId.None?
    ensures f.services[0].servicePrice == 0.0 && f.services[0].serviceDisc == 0.0
    ensures |f.products| == 1 && f.products[0].productId.None?
    ensures f.products[0].productPrice == 0.0 && f.products[0].quantity == 1.0
    ensures f.products[0].productDisc == 0.0
  {
    Form(EmptyHeader, [EmptyService], [EmptyProduct], PhotoArray([]))
  }

  /** The initial form totals 0. */
  lemma InitialFormTotal()
    ensures OrderTotal(InitialForm()) == 0.0
  {
    SumSingleton(EmptyService, ServiceLineTotal);
    SumSingleton(EmptyProduct, ProductLineTotal);
  }

  // ------------------------------------------------------ line handlers

  /** addItem(type): append one default line of that kind. */
  function AddItem(f: Form, kind: Kind): (g: Form)
    ensures g.header == f.header && g.photos == f.photos
    ensures kind == ServiceKind ==> g.services == f.services + [EmptyService] && g.products == f.products
    ensures kind == ProductKind ==> g.products == f.products + [EmptyProduct] && g.services == f.services
    ensures OrderTotal(g) == OrderTotal(f)
  {
    match kind
    case ServiceKind =>
      SumAppend(f.services, [EmptyService], ServiceLineTotal);
      f.(services := f.services + [EmptyService])
    case ProductKind =>
      SumAppend(f.products, [EmptyProduct], ProductLineTotal);
      f.(products := f.products + [EmptyProduct])
  }

  /** `s.filter((_, i) => i !== index)`: drop the element at `index`, if there is one. */
  function RemoveAt<T>(s: seq<T>, index: int): (r: seq<T>)
    ensures 0 <= index < |s| ==> |r| == |s| - 1
    ensures 0 <= index < |s| ==> forall j :: 0 <= j < |r| ==> r[j] == s[if j < index then j else j + 1]
    ensures 0 <= index < |s| ==> multiset(r) + multiset{s[index]} == multiset(s)
    ensures !(0 <= index < |s|) ==> r == s
  {
    if 0 <= index < |s| then
      assert s == s[..index] + [s[index]] + s[index + 1..];
      s[..index] + s[index + 1..]
    else s
  }

  /** removeItem(type, index): remove one line of that kind; an index that
      matches no line removes nothing. The total drops by that line's total. */
  function RemoveItem(f: Form, kind: Kind, index: int): (g: Form)
    ensures g.header == f.header && g.photos == f.photos
    ensures kind == ServiceKind ==> g.services == RemoveAt(f.services, index) && g.products == f.products
    ensures kind == ProductKind ==> g.products == RemoveAt(f.products, index) && g.services == f.services
    ensures kind == ServiceKind && 0 <= index < |f.services| ==>
              OrderTotal(g) == OrderTotal(f) - ServiceLineTotal(f.services[index])
    ensures kind == ProductKind && 0 <= index < |f.products| ==>
              OrderTotal(g) == OrderTotal(f) - ProductLineTotal(f.products[index])
  {
    match kind
    case ServiceKind =>
      assert 0 <= index < |f.services| ==>
               ServicesTotal(RemoveAt(f.services, index)) == ServicesTotal(f.services) - ServiceLineTotal(f.services[index]) by {
        if 0 <= index < |f.services| { SumRemoveAt(f.services, index, ServiceLineTotal); }
      }
      f.(services := RemoveAt(f.services, index))
    case ProductKind =>
      assert 0 <= index < |f.products| ==>
               ProductsTotal(RemoveAt(f.products, index)) == ProductsTotal(f.products) - ProductLineTotal(f.products[index]) by {
        if 0 <= index < |f.products| { SumRemoveAt(f.products, index, ProductLineTotal); }
      }
      f.(products := RemoveAt(f.products, index))
  }

  /** handleChangeSelection(e, index, type): when `value` names a catalog entry,
      copy that entry's name, id and price onto line `index` (the first entry
      with that name wins); otherwise leave the form as it is. Discount and
      quantity are never touched. */
  function HandleChangeSelection(f: Form, kind: Kind, index: nat, value: string,
                                 services: seq<CatalogItem>, products: seq<CatalogItem>): (g: Form)
    requires kind == ServiceKind ==> index < |f.services|
    requires kind == ProductKind ==> index < |f.products|
    ensures g.header == f.header && g.photos == f.photos
    ensures |g.services| == |f.services| && |g.products| == |f.products|
    ensures kind == ServiceKind && !Listed(services, value) ==> g == f
    ensures kind == ProductKind && !Listed(products, value) ==> g == f
    ensures kind == ServiceKind ==> g.products == f.products
    ensures kind == ProductKind ==> g.services == f.services
    ensures kind == ServiceKind ==> forall j :: 0 <= j < |f.services| && j != index ==> g.services[j] == f.services[j]
    ensures kind == ProductKind ==> forall j :: 0 <= j < |f.products| && j != index ==> g.products[j] == f.products[j]
    ensures kind == ServiceKind && Listed(services, value) ==>
              var item := FindByName(services, value).value;
              g.services[index] == f.services[index].(serviceName := value, serviceId := Some(item.id),
                                                     servicePrice := item.price)
    ensures kind == ProductKind && Listed(products, value) ==>
              var item := FindByName(products, value).value;
              g.products[index] == f.products[index].(productName := value, productId := Some(item.id),
                                                     productPrice := item.price)
  {
    match kind
    case ServiceKind =>
      (match FindByName(services, value)
       case None => f
       case Some(item) =>
         var line := f.services[index].(serviceName := item.name, serviceId := Some(item.id),
                                        servicePrice := item.price);
         f.(services := f.services[index := line]))
    case ProductKind =>
      (match FindByName(products, value)
       case None => f
       case Some(item) =>
         var line := f.products[index].(productName := item.name, productId := Some(item.id),
                                        productPrice := item.price);
         f.(products := f.products[index := line]))
  }

  /** The line branch of handleChange: `{ ...line, [name]: value }` on line `index`
      of the kind the edited input belongs to. */
  function HandleLineChange(f: Form, index: nat, edit: LineEdit): (g: Form)
    requires edit.ServiceDisc? ==> index < |f.services|
    requires !edit.ServiceDisc? ==> index < |f.products|
    ensures g.header == f.header && g.photos == f.photos
    ensures |g.services| == |f.services| && |g.products| == |f.products|
    ensures edit.ServiceDisc? ==>
              && g.products == f.products
              && (forall j :: 0 <= j < |f.services| && j != index ==> g.services[j] == f.services[j])
              && g.services[index].serviceDisc == edit.disc
              && g.services[index].serviceId == f.services[index].serviceId
              && g.services[index].serviceName == f.services[index].serviceName
              && g.services[index].servicePrice == f.services[index].servicePrice
    ensures !edit.ServiceDisc? ==>
              && g.services == f.services
              && (forall j :: 0 <= j < |f.products| && j != index ==> g.products[j] == f.products[j])
              && g.products[index].productId == f.products[index].productId
              && g.products[index].productName == f.products[index].productName
              && g.products[index].productPrice == f.products[index].productPrice
    ensures edit.ProductQuantity? ==>
              g.products[index].quantity == edit.qty
              && g.products[index].productDisc == f.products[index].productDisc
    ensures edit.ProductDisc? ==>
              g.products[index].productDisc == edit.disc
              && g.products[index].quantity == f.products[index].quantity
  {
    match edit
    case ServiceDisc(d) =>
      f.(services := f.services[index := f.services[index].(serviceDisc := d)])
    case ProductQuantity(q) =>
      f.(products := f.products[index := f.products[index].(quantity := q)])
    case ProductDisc(d) =>
      f.(products := f.products[index := f.products[index].(productDisc := d)])
  }

  /** After a line edit the total is recomputed from the line's current fields:
      it moves by exactly the change in that line's total. */
  lemma LineChangeTotal(f: Form, index: nat, edit: LineEdit)
    requires edit.ServiceDisc? ==> index < |f.services|
    requires !edit.ServiceDisc? ==> index < |f.products|
    ensures var g := HandleLineChange(f, index, edit);
            if edit.ServiceDisc? then
              OrderTotal(g) == OrderTotal(f) - ServiceLineTotal(f.services[index]) + ServiceLineTotal(g.services[index])
            else
              OrderTotal(g) == OrderTotal(f) - ProductLineTotal(f.products[index]) + ProductLineTotal(g.products[index])
  {
    var g := HandleLineChange(f, index, edit);
    if edit.ServiceDisc? {
      SumUpdate(f.services, index, g.services[index], ServiceLineTotal);
      assert g.services == f.services[index := g.services[index]];
    } else {
      SumUpdate(f.products, index, g.products[index], ProductLineTotal);
      assert g.products == f.products[index := g.products[index]];
    }
  }

  // -------------------------------------------------------------- photos

  predicate StartsWithHttp(s: string)
  {
    |s| >= 4 && s[..4] == "http"
  }

  /** `entries.filter(p => typeof p === 'string' && p.startsWith('http'))`. */
  function KeepHttp(entries: seq<JsValue>): (r: seq<string>)
    ensures |r| <= |entries|
    ensures forall k :: 0 <= k < |r| ==> StartsWithHttp(r[k])
  {
    if |entries| == 0 then []
    else
      var rest := KeepHttp(entries[1..]);
      match entries[0]
      case JsString(s) => if StartsWithHttp(s) then [s] + rest else rest
      case JsOther => rest
  }

  /** Keeping http URLs distributes over concatenation, so the kept URLs stay in
      their original relative order. */
  lemma {:induction false} KeepHttpAppend(a: seq<JsValue>, b: seq<JsValue>)
    ensures KeepHttp(a + b) == KeepHttp(a) + KeepHttp(b)
  {
    if |a| > 0 {
      assert (a + b)[1..] == a[1..] + b;
      KeepHttpAppend(a[1..], b);
    } else {
      assert a + b == b;
    }
  }

  /** A string is kept exactly when it is a string entry that starts with "http". */
  lemma {:induction false} KeepHttpMembership(entries: seq<JsValue>, s: string)
    ensures s in KeepHttp(entries) <==> JsString(s) in entries && StartsWithHttp(s)
  {
    if |entries| > 0 {
      KeepHttpMembership(entries[1..], s);
      assert entries == [entries[0]] + entries[1..];
    }
  }

  /** validPhotos: the http URLs of an array; `[]` for anything that is not an array. */
  function ValidPhotos(p: Photos): (r: seq<string>)
    ensures p.PhotoText? ==> r == []
    ensures p.PhotoArray? ==> r == KeepHttp(p.entries) && |r| <= |p.entries|
    ensures forall k :: 0 <= k < |r| ==> StartsWithHttp(r[k])
  {
    match p
    case PhotoArray(entries) => KeepHttp(entries)
    case PhotoText(_) => []
  }

  /** Spreading a string `[...text]` yields its characters, one string each. */
  function SpreadText(text: string): (r: seq<JsValue>)
    ensures |r| == |text|
    ensures forall k :: 0 <= k < |r| ==> r[k] == JsString([text[k]])
  {
    if |text| == 0 then [] else [JsString([text[0]])] + SpreadText(text[1..])
  }

  /** No single character is an http URL, so a spread string contributes nothing. */
  lemma {:induction false} SpreadTextKeepsNothing(text: string)
    ensures KeepHttp(SpreadText(text)) == []
  {
    if |text| > 0 {
      SpreadTextKeepsNothing(text[1..]);
    }
  }

  /** handleImageUpload(url): `photos: [...prev.photos, url]`. */
  function HandleImageUpload(f: Form, url: string): (g: Form)
    ensures g.header == f.header && g.services == f.services && g.products == f.products
    ensures g.photos.PhotoArray?
    ensures f.photos.PhotoArray? ==> g.photos.entries == f.photos.entries + [JsString(url)]
    ensures f.photos.PhotoText? ==> g.photos.entries == SpreadText(f.photos.text) + [JsString(url)]
  {
    match f.photos
    case PhotoArray(entries) => f.(photos := PhotoArray(entries + [JsString(url)]))
    case PhotoText(text) => f.(photos := PhotoArray(SpreadText(text) + [JsString(url)]))
  }

  /** An uploaded http URL is kept after everything kept before it (while the
      photo list is still an array). */
  lemma UploadKeepsEarlierPhotos(f: Form, url: string)
    requires f.photos.PhotoArray? && StartsWithHttp(url)
    ensures ValidPhotos(HandleImageUpload(f, url).photos) == ValidPhotos(f.photos) + [url]
  {
    KeepHttpAppend(f.photos.entries, [JsString(url)]);
  }

  // ------------------------------------------------------ header handler

  /** `[name]: value` on the header: the named field takes the typed value and
      every other field keeps its value. */
  function SetHeaderField(h: Header, field: HeaderField, value: string): (r: Header)
    ensures r.userId == h.userId && r.fname == h.fname && r.email == h.email
    ensures r.phoneNo == (if field == PhoneNo then value else h.phoneNo)
    ensures r.paymentMethod == (if field == PaymentMethod then value else h.paymentMethod)
    ensures r.orderStatus == (if field == OrderStatus then value else h.orderStatus)
    ensures r.orderRemark == (if field == OrderRemark then value else h.orderRemark)
  {
    match field
    case PhoneNo => h.(phoneNo := value)
    case PaymentMethod => h.(paymentMethod := value)
    case OrderStatus => h.(orderStatus := value)
    case OrderRemark => h.(orderRemark := value)
  }

  /** The non-line branch of handleChange as written: `{ ...prev, [name]: value,
      photos: e.target.value }` also overwrites the photo list with the typed text. */
  function HandleHeaderChangeAsWritten(f: Form, field: HeaderField, value: string): (g: Form)
    ensures g.header == SetHeaderField(f.header, field, value)
    ensures g.services == f.services && g.products == f.products
    ensures g.photos == PhotoText(value) && ValidPhotos(g.photos) == []
  {
    f.(header := SetHeaderField(f.header, field, value), photos := PhotoText(value))
  }

  /** An uploaded photo followed by a remark edit and a second upload: as written,
      only the second photo reaches the order header. */
  lemma HeaderChangeDropsPhotos()
    ensures var f1 := HandleImageUpload(InitialForm(), "http://a");
            var f2 := HandleHeaderChangeAsWritten(f1, OrderRemark, "x");
            var f3 := HandleImageUpload(f2, "http://b");
            ValidPhotos(f1.photos) == ["http://a"] && ValidPhotos(f3.photos) == ["http://b"]
  {
    var f1 := HandleImageUpload(InitialForm(), "http://a");
    assert StartsWithHttp("http://a");
    assert StartsWithHttp("http://b");
    UploadKeepsEarlierPhotos(InitialForm(), "http://a");
    var f2 := HandleHeaderChangeAsWritten(f1, OrderRemark, "x");
    var f3 := HandleImageUpload(f2, "http://b");
    KeepHttpAppend(SpreadText("x"), [JsString("http://b")]);
    SpreadTextKeepsNothing("x");
  }

  /** The non-line branch of handleChange as evidently intended: set the named
      header field and nothing else. */
  function HandleHeaderChange(f: Form, field: HeaderField, value: string): (g: Form)
    ensures g.header == SetHeaderField(f.header, field, value)
    ensures g.services == f.services && g.products == f.products && g.photos == f.photos
    ensures OrderTotal(g) == OrderTotal(f)
  {
    f.(header := SetHeaderField(f.header, field, value))
  }

  /** With the intended header handler, a photo uploaded before a header edit is
      still kept at submit time, followed by the one uploaded after it. */
  lemma HeaderChangeKeepsPhotos(f: Form, field: HeaderField, value: string, url1: string, url2: string)
    requires f.photos.PhotoArray? && StartsWithHttp(url1) && StartsWithHttp(url2)
    ensures var g := HandleImageUpload(HandleHeaderChange(HandleImageUpload(f, url1), field, value), url2);
            ValidPhotos(g.photos) == ValidPhotos(f.photos) + [url1, url2]
  {
    var f1 := HandleImageUpload(f, url1);
    UploadKeepsEarlierPhotos(f, url1);
    var f2 := HandleHeaderChange(f1, field, value);
    UploadKeepsEarlierPhotos(f2, url2);
  }

  // --------------------------------------------------------------- submit

  /** A row of `orderservices` as handleSubmit builds it. */
  datatype ServiceRow = ServiceRow(orderId: int, serviceId: Option<int>, serviceName: string,
                                   servicePrice: real, serviceDisc: real, totalServicePrice: real)

  /** A row of `orderproducts` as handleSubmit builds it. */
  datatype ProductRow = ProductRow(orderId: int, productId: Option<int>, productName: string,
                                   productPrice: real, quantity: real, productDisc: real,
                                   totalProductPrice: real)

  /** The `orders` row inserted first. */
  datatype HeaderRow = HeaderRow(header: Header, totalOrderPrice: real, photos: seq<string>)

  /** One call into the data store, in the order handleSubmit issues them. */
  datatype StoreCall =
    | InsertOrder(row: HeaderRow)
    | SelectLatestOrderId
    | InsertOrderService(srow: ServiceRow)
    | InsertOrderProduct(prow: ProductRow)

  /** The alert shown at the end of a submit. */
  datatype Notice = FailedToCreateOrder | FailedToFetchOrderId | OrderCreated

  datatype SubmitResult = SubmitResult(calls: seq<StoreCall>, notice: Notice, form: Form)

  /** `formData.services.map(...)` plus `order_id`: one row per line, same order. */
  function ServiceRows(lines: seq<ServiceLine>, orderId: int): (rows: seq<ServiceRow>)
    ensures |rows| == |lines|
    ensures forall k :: 0 <= k < |rows| ==>
              rows[k] == ServiceRow(orderId, lines[k].serviceId, lines[k].serviceName,
                                    lines[k].servicePrice, lines[k].serviceDisc,
                                    ServiceLineTotal(lines[k]))
  {
    seq(|lines|, k requires 0 <= k < |lines| =>
      ServiceRow(orderId, lines[k].serviceId, lines[k].serviceName, lines[k].servicePrice,
                 lines[k].serviceDisc, ServiceLineTotal(lines[k])))
  }

  /** `formData.products.map(...)` plus `order_id`: one row per line, same order. */
  function ProductRows(lines: seq<ProductLine>, orderId: int): (rows: seq<ProductRow>)
    ensures |rows| == |lines|
    ensures forall k :: 0 <= k < |rows| ==>
              rows[k] == ProductRow(orderId, lines[k].productId, lines[k].productName,
                                    lines[k].productPrice, lines[k].quantity, lines[k].productDisc,
                                    ProductLineTotal(lines[k]))
  {
    seq(|lines|, k requires 0 <= k < |lines| =>
      ProductRow(orderId, lines[k].productId, lines[k].productName, lines[k].productPrice,
                 lines[k].quantity, lines[k].productDisc, ProductLineTotal(lines[k])))
  }

  function ServiceRowTotal(r: ServiceRow): real { r.totalServicePrice }
  function ProductRowTotal(r: ProductRow): real { r.totalProductPrice }

  /** The per-row totals of the child rows add up to the lines' totals. */
  lemma {:induction false} ServiceRowsTotal(lines: seq<ServiceLine>, orderId: int)
    ensures Sum(ServiceRows(lines, orderId), ServiceRowTotal) == ServicesTotal(lines)
  {
    if |lines| > 0 {
      var n := |lines| - 1;
      assert ServiceRows(lines, orderId)[..n] == ServiceRows(lines[..n], orderId);
      ServiceRowsTotal(lines[..n], orderId);
    }
  }

  /** The per-row totals of the child rows add up to the lines' totals. */
  lemma {:induction false} ProductRowsTotal(lines: seq<ProductLine>, orderId: int)
    ensures Sum(ProductRows(lines, orderId), ProductRowTotal) == ProductsTotal(lines)
  {
    if |lines| > 0 {
      var n := |lines| - 1;
      assert ProductRows(lines, orderId)[..n] == ProductRows(lines[..n], orderId);
      ProductRowsTotal(lines[..n], orderId);
    }
  }

  function ServiceInserts(rows: seq<ServiceRow>): (calls: seq<StoreCall>)
    ensures |calls| == |rows|
    ensures forall k :: 0 <= k < |rows| ==> calls[k] == InsertOrderService(rows[k])
  {
    seq(|rows|, k requires 0 <= k < |rows| => InsertOrderService(rows[k]))
  }

  function ProductInserts(rows: seq<ProductRow>): (calls: seq<StoreCall>)
    ensures |calls| == |rows|
    ensures forall k :: 0 <= k < |rows| ==> calls[k] == InsertOrderProduct(rows[k])
  {
    seq(|rows|, k requires 0 <= k < |rows| => InsertOrderProduct(rows[k]))
  }

  /** The header row handleSubmit inserts for form `f`: the form's header, the
      order total, and only the http URLs among the photos. */
  function OrderHeaderRow(f: Form): (r: HeaderRow)
    ensures r.header == f.header && r.photos == ValidPhotos(f.photos)
    ensures r.totalOrderPrice == OrderTotal(f)
    ensures f.services == [] && f.products == [] ==> r.totalOrderPrice == 0.0
    ensures forall k :: 0 <= k < |r.photos| ==> StartsWithHttp(r.photos[k])
    ensures f.photos.PhotoText? ==> r.photos == []
  {
    HeaderRow(f.header, OrderTotal(f), ValidPhotos(f.photos))
  }

  /** handleSubmit. `insertOk` is whether the `orders` insert reported no error;
      `latestOrderId` is the result of the "highest order_id" query (None on error).
      The child inserts' own results are not inspected by the source. */
  function HandleSubmit(f: Form, insertOk: bool, latestOrderId: Option<int>): (r: SubmitResult)
    ensures |r.calls| >= 1 && r.calls[0] == InsertOrder(OrderHeaderRow(f))
    ensures r.notice == OrderCreated <==> insertOk && latestOrderId.Some?
    ensures !insertOk ==> r.calls == [InsertOrder(OrderHeaderRow(f))] && r.notice == FailedToCreateOrder
    ensures insertOk && latestOrderId.None? ==>
              r.calls == [InsertOrder(OrderHeaderRow(f)), SelectLatestOrderId] && r.notice == FailedToFetchOrderId
    ensures r.notice != OrderCreated ==> r.form == f
    ensures r.notice == OrderCreated ==>
              && r.form == ResetFormAsWritten()
              && |r.calls| == 2 + |f.services| + |f.products|
              && r.calls[1] == SelectLatestOrderId
              && r.calls[2..2 + |f.services|] == ServiceInserts(ServiceRows(f.services, latestOrderId.value))
              && r.calls[2 + |f.services|..] == ProductInserts(ProductRows(f.products, latestOrderId.value))
  {
    var header := InsertOrder(OrderHeaderRow(f));
    if !insertOk then SubmitResult([header], FailedToCreateOrder, f)
    else match latestOrderId
      case None => SubmitResult([header, SelectLatestOrderId], FailedToFetchOrderId, f)
      case Some(orderId) =>
        var services := ServiceInserts(ServiceRows(f.services, orderId));
        var products := ProductInserts(ProductRows(f.products, orderId));
        var calls := [header, SelectLatestOrderId] + services + products;
        assert calls[2..2 + |f.services|] == services;
        assert calls[2 + |f.services|..] == products;
        SubmitResult(calls, OrderCreated, ResetFormAsWritten())
  }

  /** handleSubmit as evidently intended: the same store calls and notice, but a
      successful submit returns to the initial form (product quantity 1). */
  function HandleSubmitIntended(f: Form, insertOk: bool, latestOrderId: Option<int>): (r: SubmitResult)
    ensures r.calls == HandleSubmit(f, insertOk, latestOrderId).calls
    ensures r.notice == HandleSubmit(f, insertOk, latestOrderId).notice
    ensures r.notice == OrderCreated ==> r.form == InitialForm()
    ensures r.notice != OrderCreated ==> r.form == f
  {
    var w := HandleSubmit(f, insertOk, latestOrderId);
    if w.notice == OrderCreated then w.(form := InitialForm()) else w
  }

  /** On a successful submit the child rows' totals add up to the header's total. */
  lemma SubmitTotalsAgree(f: Form, orderId: int)
    ensures var head := OrderHeaderRow(f);
            Sum(ServiceRows(f.services, orderId), ServiceRowTotal)
              + Sum(ProductRows(f.products, orderId), ProductRowTotal) == head.totalOrderPrice
  {
    ServiceRowsTotal(f.services, orderId);
    ProductRowsTotal(f.products, orderId);
  }

  /** Submitting a form with no lines writes a zero-total header and no child rows. */
  lemma SubmitEmptyOrder(f: Form, orderId: int)
    requires f.services == [] && f.products == []
    ensures var r := HandleSubmit(f, true, Some(orderId));
            r.calls == [InsertOrder(HeaderRow(f.header, 0.0, ValidPhotos(f.photos))), SelectLatestOrderId]
  {
    var r := HandleSubmit(f, true, Some(orderId));
    assert r.calls == r.calls[..2] + r.calls[2..2 + |f.services|] + r.calls[2 + |f.services|..];
  }

  // ---------------------------------------------------------------- reset

  /** The form handleSubmit's success callback sets, as written: the initial
      form except that its product line carries `quantity: 0`, unlike the
      initial form and `addItem`. */
  function ResetFormAsWritten(): (f: Form)
    ensures f.header == InitialForm().header && f.services == InitialForm().services
    ensures f.photos == InitialForm().photos
    ensures |f.products| == 1 && f.products[0] == InitialForm().products[0].(quantity := 0.0)
  {
    Form(EmptyHeader, [EmptyService], [EmptyProduct.(quantity := 0.0)], PhotoArray([]))
  }

  /** After the as-written reset, selecting a priced product on the first line
      still totals 0, whereas the same selection on the initial form totals its
      price. */
  lemma ResetQuantityZeroHidesPrice(catalog: seq<CatalogItem>, name: string)
    requires Listed(catalog, name)
    ensures OrderTotal(HandleChangeSelection(ResetFormAsWritten(), ProductKind, 0, name, [], catalog)) == 0.0
    ensures OrderTotal(HandleChangeSelection(InitialForm(), ProductKind, 0, name, [], catalog))
              == FindByName(catalog, name).value.price
  {
    var g := HandleChangeSelection(ResetFormAsWritten(), ProductKind, 0, name, [], catalog);
    assert g.products == [g.products[0]];
    SumSingleton(EmptyService, ServiceLineTotal);
    SumSingleton(g.products[0], ProductLineTotal);
    var h := HandleChangeSelection(InitialForm(), ProductKind, 0, name, [], catalog);
    assert h.products == [h.products[0]];
    SumSingleton(h.products[0], ProductLineTotal);
  }
}
