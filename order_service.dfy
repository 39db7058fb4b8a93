/**
 * The order service of the tea-shop order server over an in-memory store: the users, the
 * product table (found by name, on sale when its status is 1) and the orders table, whose
 * keys the database generates in insertion order. Placing an order checks the user (in the
 * request form), the product and its stock, inserts the order and takes the quantity off the
 * stock; deleting and re-remarking an order first select it by user and order id.
 */
module OrderService {
  import opened Wrappers
  import opened Text
  import opened Orders

  const NullUserText: string := "用户ID不能为空，请提供有效的用户ID"
  const NoUserPrefix: string := "用户不存在，用户ID: "
  const NoUserSuffix: string := "，请先注册用户"
  const NoProductPrefix: string := "产品不存在或已下架: "
  const OrderIdPrefix: string := "ORDER_"
  /** The status of a product that is on sale. */
  const OnSale: int := 1
  /** A select of one row that finds several raises. */
  const TooManyResults: string := "TooManyResultsException"

  /** A product row, found by its name; the price is in cents. */
  datatype Product = Product(id: int, status: int, stock: int, price: int)

  /** The store: registered user ids, products by name, the orders table in insertion order, and
      the next key the database generates. */
  datatype Store = Store(users: set<int>, products: map<string, Product>, orders: seq<OrderRow>, nextId: int)

  /** The request of the user-aware `createOrder`: codes are passed as they are. */
  datatype Request = Request(userId: Option<int>, productName: string, sweetness: Option<int>,
    iceLevel: Option<int>, quantity: int, remark: Option<string>)

  /** Every order row has a key below the next one, and no two rows share a key. */
  ghost predicate KeysValid(orders: seq<OrderRow>, nextId: int) {
    && (forall i :: 0 <= i < |orders| ==> orders[i].id.Some? && orders[i].id.value < nextId)
    && (forall i, j :: 0 <= i < j < |orders| ==> orders[i].id != orders[j].id)
  }

  ghost predicate StoreValid(s: Store) {
    KeysValid(s.orders, s.nextId)
  }

  /** `validateUser`: the message it raises, if any. */
  function UserError(users: set<int>, userId: Option<int>): (e: Option<string>)
    ensures e.None? <==> userId.Some? && userId.value in users
  {
    if userId.None? then Some(NullUserText)
    else if userId.value !in users then Some(NoUserPrefix + IntToString(userId.value) + NoUserSuffix)
    else None
  }

  /** `selectByNameAndStatus(name, 1)`. */
  function OnSaleProduct(products: map<string, Product>, name: string): (p: Option<Product>)
    ensures p.Some? <==> name in products && products[name].status == OnSale
    ensures p.Some? ==> p.value == products[name]
  {
    if name in products && products[name].status == OnSale then Some(products[name]) else None
  }

  function ShortageText(name: string, stock: int, quantity: int): string {
    "库存不足，产品: " + name + ", 当前库存: " + IntToString(stock) + ", 需要数量: " + IntToString(quantity)
  }

  /** The row a placement inserts: the product's id and price, the total for the quantity, an
      order id made of the clock's milliseconds, and the generated key. */
  function NewRow(p: Product, userId: Option<int>, name: string, sweetness: Option<int>,
    iceLevel: Option<int>, quantity: int, remark: Option<string>, key: int, millis: int, now: int): OrderRow
  {
    OrderRow(Some(key), Some(OrderIdPrefix + IntToString(millis)), userId, Some(p.id), Some(name),
      sweetness, iceLevel, Some(quantity), Some(p.price), Some(p.price * quantity), remark, now, now)
  }

  /** The shared body of both `createOrder`s: the product check, the stock check, the insert and
      the stock decrement. The quantity is checked against the stock and nothing else. */
  function Placed(s: Store, userId: Option<int>, name: string, sweetness: Option<int>,
    iceLevel: Option<int>, quantity: int, remark: Option<string>, millis: int, now: int): Result<Store>
  {
    match OnSaleProduct(s.products, name)
    case None => Err(NoProductPrefix + name)
    case Some(p) =>
      if p.stock < quantity then Err(ShortageText(name, p.stock, quantity))
      else Ok(Store(s.users, s.products[name := p.(stock := p.stock - quantity)],
        s.orders + [NewRow(p, userId, name, sweetness, iceLevel, quantity, remark, s.nextId, millis, now)],
        s.nextId + 1))
  }

  /** `createOrder(productName, sweetness, iceLevel, quantity)`: the words become codes, and the
      order has no user and no remark. */
  function PlacedByWords(s: Store, name: string, sweetness: Option<string>, iceLevel: Option<string>,
    quantity: int, millis: int, now: int): Result<Store>
  {
    Placed(s, None, name, Some(SweetnessCode(sweetness)), Some(IceLevelCode(iceLevel)), quantity, None, millis, now)
  }

  /** `createOrder(request)`: the user is validated before the product is looked up. */
  function PlacedFor(s: Store, request: Request, millis: int, now: int): Result<Store> {
    match UserError(s.users, request.userId)
    case Some(e) => Err(e)
    case None => Placed(s, request.userId, request.productName, request.sweetness, request.iceLevel,
      request.quantity, request.remark, millis, now)
  }

  /** A successful placement decides: an on-sale product with enough stock. Then the product's
      stock drops by the quantity, every other product and the users stay as they were, and one
      row is appended, whose total is the unit price times the quantity. */
  lemma {:induction false} PlaceFacts(s: Store, userId: Option<int>, name: string, sweetness: Option<int>,
    iceLevel: Option<int>, quantity: int, remark: Option<string>, millis: int, now: int)
    ensures var r := Placed(s, userId, name, sweetness, iceLevel, quantity, remark, millis, now);
      r.Ok? <==> name in s.products && s.products[name].status == OnSale && s.products[name].stock >= quantity
    ensures var r := Placed(s, userId, name, sweetness, iceLevel, quantity, remark, millis, now);
      r.Ok? ==>
        var t := r.value;
        var p := s.products[name];
        var row := t.orders[|t.orders| - 1];
        && t.users == s.users
        && t.products.Keys == s.products.Keys
        && t.products[name].stock + quantity == p.stock
        && t.products[name].price == p.price && t.products[name].id == p.id
        && (forall other :: other in s.products && other != name ==> t.products[other] == s.products[other])
        && t.orders[..|s.orders|] == s.orders && |t.orders| == |s.orders| + 1
        && row.quantity == Some(quantity) && row.unitPrice == Some(p.price)
        && row.totalPrice == Some(p.price * quantity)
        && row.productId == Some(p.id) && row.userId == userId && row.remark == remark
  {
    var r := Placed(s, userId, name, sweetness, iceLevel, quantity, remark, millis, now);
    if r.Ok? {
      var p := s.products[name];
      assert r.value.orders == s.orders + [NewRow(p, userId, name, sweetness, iceLevel, quantity, remark, s.nextId, millis, now)];
      assert r.value.orders[..|s.orders|] == s.orders;
    }
  }

  /** A failed placement names the missing product, or the stock and the quantity. */
  lemma PlaceErrors(s: Store, userId: Option<int>, name: string, sweetness: Option<int>,
    iceLevel: Option<int>, quantity: int, remark: Option<string>, millis: int, now: int)
    ensures OnSaleProduct(s.products, name).None? ==>
      Placed(s, userId, name, sweetness, iceLevel, quantity, remark, millis, now) == Err(NoProductPrefix + name)
    ensures OnSaleProduct(s.products, name).Some? && s.products[name].stock < quantity ==>
      Placed(s, userId, name, sweetness, iceLevel, quantity, remark, millis, now) ==
        Err(ShortageText(name, s.products[name].stock, quantity))
  {
  }

  /** The stock is the only guard on the quantity: a zero or negative quantity is placed, gives
      an order that breaks the entity's constraints, and does not lower the stock. */
  lemma NonPositiveQuantityAccepted(s: Store, userId: Option<int>, name: string, sweetness: Option<int>,
    iceLevel: Option<int>, quantity: int, remark: Option<string>, millis: int, now: int)
    requires OnSaleProduct(s.products, name).Some? && s.products[name].stock >= 0
    requires quantity <= 0
    ensures var r := Placed(s, userId, name, sweetness, iceLevel, quantity, remark, millis, now);
      && r.Ok?
      && !IsValid(r.value.orders[|r.value.orders| - 1])
      && r.value.products[name].stock >= s.products[name].stock
  {
  }

  /** A string whose first character is not trimmable is not blank. */
  lemma LeadingCharNotBlank(id: string)
    requires id != [] && !IsTrimmed(id[0])
    ensures NotBlank(Some(id))
  {
    TrimEmptyIffBlank(id);
  }

  /** The row `createOrder` builds meets every declared constraint when its inputs do. */
  lemma NewRowValid(p: Product, userId: Option<int>, name: string, sweetness: Option<int>,
    iceLevel: Option<int>, quantity: int, remark: Option<string>, key: int, millis: int, now: int)
    requires quantity >= 1 && p.price >= 1 && NotBlank(Some(name))
    requires InRangeOrNull(sweetness, 1, 5) && InRangeOrNull(iceLevel, 1, 5)
    ensures IsValid(NewRow(p, userId, name, sweetness, iceLevel, quantity, remark, key, millis, now))
  {
    var row := NewRow(p, userId, name, sweetness, iceLevel, quantity, remark, key, millis, now);
    var id := OrderIdPrefix + IntToString(millis);
    assert row.orderId == Some(id) && row.productName == Some(name);
    LeadingCharNotBlank(id);
    PositiveProduct(p.price, quantity);
  }

  lemma PositiveProduct(price: int, quantity: int)
    requires price >= 1 && quantity >= 1
    ensures price * quantity >= 1
  {
    assert price * quantity == price + price * (quantity - 1);
    assert price * (quantity - 1) >= 0;
  }

  /** With a positive quantity, a priced product whose name is not blank, and codes in range,
      the inserted order meets every declared constraint. */
  lemma {:induction false} PlacedOrderValid(s: Store, userId: Option<int>, name: string, sweetness: Option<int>,
    iceLevel: Option<int>, quantity: int, remark: Option<string>, millis: int, now: int)
    requires Placed(s, userId, name, sweetness, iceLevel, quantity, remark, millis, now).Ok?
    requires quantity >= 1 && s.products[name].price >= 1 && NotBlank(Some(name))
    requires InRangeOrNull(sweetness, 1, 5) && InRangeOrNull(iceLevel, 1, 5)
    ensures var t := Placed(s, userId, name, sweetness, iceLevel, quantity, remark, millis, now).value;
      IsValid(t.orders[|t.orders| - 1])
  {
    var p := s.products[name];
    NewRowValid(p, userId, name, sweetness, iceLevel, quantity, remark, s.nextId, millis, now);
  }

  /** The word form of `createOrder` always stores codes in 1..5. */
  lemma WordsGiveCodesInRange(s: Store, name: string, sweetness: Option<string>, iceLevel: Option<string>,
    quantity: int, millis: int, now: int)
    ensures var r := PlacedByWords(s, name, sweetness, iceLevel, quantity, millis, now);
      r.Ok? ==>
        var row := r.value.orders[|r.value.orders| - 1];
        && InRangeOrNull(row.sweetness, 1, 5) && InRangeOrNull(row.iceLevel, 1, 5)
        && row.userId.None? && row.remark.None?
  {
  }

  /** The request form checks the user before anything else: an unknown or missing user fails
      with the validation message whatever the products, and a known user is placed as usual. */
  lemma UserCheckedFirst(s: Store, request: Request, millis: int, now: int)
    ensures UserError(s.users, request.userId).Some? ==>
      PlacedFor(s, request, millis, now) == Err(UserError(s.users, request.userId).value)
    ensures UserError(s.users, request.userId).None? ==>
      PlacedFor(s, request, millis, now) == Placed(s, request.userId, request.productName,
        request.sweetness, request.iceLevel, request.quantity, request.remark, millis, now)
  {
  }

  /** Placing keeps every key unique and below the next one. */
  lemma PlaceKeepsValid(s: Store, userId: Option<int>, name: string, sweetness: Option<int>,
    iceLevel: Option<int>, quantity: int, remark: Option<string>, millis: int, now: int)
    requires StoreValid(s)
    ensures var r := Placed(s, userId, name, sweetness, iceLevel, quantity, remark, millis, now);
      r.Ok? ==> StoreValid(r.value)
  {
  }

  /** `checkStockAvailability`, whose SQL is not part of this model: assumed to hold when the
      product exists, is on sale and has at least the quantity in stock, the guard of `createOrder`. */
  predicate Available(products: map<string, Product>, name: string, quantity: int) {
    name in products && products[name].status == OnSale && products[name].stock >= quantity
  }

  /** A product is reported available exactly when an order for it would pass the checks. */
  lemma AvailableIffPlaceable(s: Store, userId: Option<int>, name: string, sweetness: Option<int>,
    iceLevel: Option<int>, quantity: int, remark: Option<string>, millis: int, now: int)
    ensures Available(s.products, name, quantity) <==>
      Placed(s, userId, name, sweetness, iceLevel, quantity, remark, millis, now).Ok?
  {
    PlaceFacts(s, userId, name, sweetness, iceLevel, quantity, remark, millis, now);
  }

  /** The row is the order `orderId` of user `userId`. */
  predicate Matches(o: OrderRow, userId: int, orderId: string) {
    o.userId == Some(userId) && o.orderId == Some(orderId)
  }

  /** The positions of the rows a select by user and order id finds, in table order. */
  function MatchIndices(orders: seq<OrderRow>, userId: int, orderId: string): (ix: seq<nat>)
    ensures |ix| <= |orders|
    ensures forall k :: 0 <= k < |ix| ==> ix[k] < |orders| && Matches(orders[ix[k]], userId, orderId)
    ensures forall i :: 0 <= i < |orders| && Matches(orders[i], userId, orderId) ==> i in ix
    ensures forall k, l :: 0 <= k < l < |ix| ==> ix[k] < ix[l]
  {
    if orders == [] then []
    else
      var init := MatchIndices(orders[..|orders| - 1], userId, orderId);
      if Matches(orders[|orders| - 1], userId, orderId) then init + [|orders| - 1] else init
  }

  /** `selectByUserIdAndOrderId`: no row, the one row, or an error when several match. */
  function Selected(orders: seq<OrderRow>, userId: int, orderId: string): (r: Result<Option<nat>>)
    ensures r.Ok? && r.value.Some? ==> r.value.value < |orders| && Matches(orders[r.value.value], userId, orderId)
    ensures r.Ok? && r.value.Some? ==>
      forall i :: 0 <= i < |orders| && Matches(orders[i], userId, orderId) ==> i == r.value.value
    ensures r == Ok(None) <==> forall i :: 0 <= i < |orders| ==> !Matches(orders[i], userId, orderId)
  {
    var ix := MatchIndices(orders, userId, orderId);
    if |ix| == 0 then Ok(None)
    else if |ix| == 1 then Ok(Some(ix[0]))
    else Err(TooManyResults)
  }

  /** `deleteByUserIdAndOrderId`: every row of that user and order id is removed, the others
      keep their order. */
  function Unmatched(orders: seq<OrderRow>, userId: int, orderId: string): (r: seq<OrderRow>)
    ensures |r| + |MatchIndices(orders, userId, orderId)| == |orders|
    ensures forall k :: 0 <= k < |r| ==> !Matches(r[k], userId, orderId) && r[k] in orders
    ensures forall i :: 0 <= i < |orders| && !Matches(orders[i], userId, orderId) ==> orders[i] in r
  {
    if orders == [] then []
    else
      var init := Unmatched(orders[..|orders| - 1], userId, orderId);
      var last := orders[|orders| - 1];
      assert forall i :: 0 <= i < |orders| - 1 ==> orders[..|orders| - 1][i] == orders[i];
      if Matches(last, userId, orderId) then init else init + [last]
  }

  /** Removing rows keeps the keys unique and below the next one. */
  lemma {:induction false} UnmatchedKeepsKeys(orders: seq<OrderRow>, nextId: int, userId: int, orderId: string)
    requires KeysValid(orders, nextId)
    ensures KeysValid(Unmatched(orders, userId, orderId), nextId)
    decreases |orders|
  {
    if orders != [] {
      var init := orders[..|orders| - 1];
      var last := orders[|orders| - 1];
      assert forall i :: 0 <= i < |init| ==> init[i] == orders[i];
      UnmatchedKeepsKeys(init, nextId, userId, orderId);
      var u := Unmatched(init, userId, orderId);
      if !Matches(last, userId, orderId) {
        assert Unmatched(orders, userId, orderId) == u + [last];
        forall k | 0 <= k < |u| ensures u[k].id != last.id {
          var i :| 0 <= i < |init| && init[i] == u[k];
          assert orders[i].id != orders[|orders| - 1].id;
        }
        var r := u + [last];
        assert forall k :: 0 <= k < |u| ==> r[k] == u[k];
      }
    }
  }

  /** `deleteOrder`: after the user check, true and the row removed when the select finds it,
      false and nothing changed when it does not. */
  function Deleted(s: Store, userId: Option<int>, orderId: string): Result<(bool, Store)> {
    match UserError(s.users, userId)
    case Some(e) => Err(e)
    case None =>
      match Selected(s.orders, userId.value, orderId)
      case Err(e) => Err(e)
      case Ok(None) => Ok((false, s))
      case Ok(Some(_)) => Ok((true, s.(orders := Unmatched(s.orders, userId.value, orderId))))
  }

  /** `deleteOrder` answers true exactly when the user is known and exactly one row is theirs
      with that order id; that row is then gone, every other row stays, and false changes
      nothing. */
  lemma {:induction false} DeleteFacts(s: Store, userId: Option<int>, orderId: string)
    ensures Deleted(s, userId, orderId).Ok? && Deleted(s, userId, orderId).value.0 <==>
      UserError(s.users, userId).None? && |MatchIndices(s.orders, userId.value, orderId)| == 1
    ensures Deleted(s, userId, orderId).Ok? && !Deleted(s, userId, orderId).value.0 ==>
      Deleted(s, userId, orderId).value.1 == s
    ensures Deleted(s, userId, orderId).Ok? && Deleted(s, userId, orderId).value.0 ==>
      var t := Deleted(s, userId, orderId).value.1;
      && |t.orders| == |s.orders| - 1
      && (forall k :: 0 <= k < |t.orders| ==> !Matches(t.orders[k], userId.value, orderId))
      && (forall i :: 0 <= i < |s.orders| && !Matches(s.orders[i], userId.value, orderId) ==> s.orders[i] in t.orders)
      && t.users == s.users && t.products == s.products
    ensures StoreValid(s) && Deleted(s, userId, orderId).Ok? ==> StoreValid(Deleted(s, userId, orderId).value.1)
  {
    if UserError(s.users, userId).None? && StoreValid(s) {
      UnmatchedKeepsKeys(s.orders, s.nextId, userId.value, orderId);
    }
  }

  /** `updateOrderRemark`: after the user check, the selected row gets the new remark and the
      update instant, and the updated order is returned; nothing when the select finds nothing. */
  function RemarkUpdated(s: Store, userId: Option<int>, orderId: string, remark: Option<string>, now: int): Result<(Option<OrderRow>, Store)> {
    match UserError(s.users, userId)
    case Some(e) => Err(e)
    case None =>
      match Selected(s.orders, userId.value, orderId)
      case Err(e) => Err(e)
      case Ok(None) => Ok((None, s))
      case Ok(Some(i)) =>
        var o := s.orders[i].(remark := remark, updatedAt := now);
        Ok((Some(o), s.(orders := s.orders[i := o])))
  }

  /** A remark update touches one row, and in it only the remark and the update instant; an
      absent order leaves the store as it was. */
  lemma RemarkUpdateFacts(s: Store, userId: Option<int>, orderId: string, remark: Option<string>, now: int)
    ensures var r := RemarkUpdated(s, userId, orderId, remark, now);
      r.Ok? && r.value.0.None? ==> r.value.1 == s
    ensures var r := RemarkUpdated(s, userId, orderId, remark, now);
      r.Ok? && r.value.0.Some? ==>
        var t := r.value.1;
        && UserError(s.users, userId).None?
        && t.users == s.users && t.products == s.products && t.nextId == s.nextId
        && |t.orders| == |s.orders|
        && (exists i :: 0 <= i < |s.orders| && Matches(s.orders[i], userId.value, orderId)
              && t.orders[i] == s.orders[i].(remark := remark, updatedAt := now) && r.value.0.value == t.orders[i]
              && forall j :: 0 <= j < |s.orders| && j != i ==> t.orders[j] == s.orders[j])
    ensures var r := RemarkUpdated(s, userId, orderId, remark, now);
      StoreValid(s) && r.Ok? ==> StoreValid(r.value.1)
  {
  }

  /** The order service over its store. */
  class OrderService {
    var users: set<int>
    var products: map<string, Product>
    var orders: seq<OrderRow>
    var nextId: int

    function State(): Store
      reads this
    {
      Store(users, products, orders, nextId)
    }

    ghost predicate Valid()
      reads this
    {
      StoreValid(State())
    }

    /** A store with the given users and products and no orders yet. */
    constructor(users: set<int>, products: map<string, Product>)
      ensures Valid() && State() == Store(users, products, [], 1)
    {
      this.users := users;
      this.products := products;
      orders := [];
      nextId := 1;
    }

    /** `validateUser`: the user id when it is registered, else the validation message. */
    method ValidateUser(userId: Option<int>) returns (r: Result<int>)
      ensures r.Ok? <==> userId.Some? && userId.value in users
      ensures r.Ok? ==> r.value == userId.value
      ensures r.Err? ==> Some(r.message) == UserError(users, userId)
    {
      if userId.None? {
        return Err(NullUserText);
      }
      if userId.value !in users {
        return Err(NoUserPrefix + IntToString(userId.value) + NoUserSuffix);
      }
      r := Ok(userId.value);
    }

    /** The steps shared by both `createOrder`s. */
    method Place(userId: Option<int>, name: string, sweetness: Option<int>, iceLevel: Option<int>,
      quantity: int, remark: Option<string>, millis: int, now: int) returns (r: Result<Order>)
      requires Valid()
      modifies this
      ensures Valid()
      ensures match Placed(old(State()), userId, name, sweetness, iceLevel, quantity, remark, millis, now)
        case Err(e) => r == Err(e) && State() == old(State())
        case Ok(t) => State() == t && r.Ok? && fresh(r.value) && r.value.Row() == t.orders[|t.orders| - 1]
    {
      PlaceKeepsValid(State(), userId, name, sweetness, iceLevel, quantity, remark, millis, now);
      if name !in products || products[name].status != OnSale {
        return Err(NoProductPrefix + name);
      }
      var product := products[name];
      if product.stock < quantity {
        return Err(ShortageText(name, product.stock, quantity));
      }
      var unitPrice := product.price;
      var totalPrice := unitPrice * quantity;
      var orderId := OrderIdPrefix + IntToString(millis);
      var order := new Order(Some(orderId), userId, Some(product.id), Some(name), sweetness, iceLevel,
        Some(quantity), Some(unitPrice), Some(totalPrice), remark, now);
      order.OnCreate(now);
      order.SetId(Some(nextId));
      orders := orders + [order.Row()];
      nextId := nextId + 1;
      products := products[name := product.(stock := product.stock - quantity)];
      r := Ok(order);
    }

    /** `createOrder(productName, sweetness, iceLevel, quantity)`. */
    method CreateOrder(name: string, sweetness: Option<string>, iceLevel: Option<string>, quantity: int,
      millis: int, now: int) returns (r: Result<Order>)
      requires Valid()
      modifies this
      ensures Valid()
      ensures match PlacedByWords(old(State()), name, sweetness, iceLevel, quantity, millis, now)
        case Err(e) => r == Err(e) && State() == old(State())
        case Ok(t) => State() == t && r.Ok? && fresh(r.value) && r.value.Row() == t.orders[|t.orders| - 1]
    {
      var sweetnessLevel := SweetnessCode(sweetness);
      var iceLevelNumber := IceLevelCode(iceLevel);
      r := Place(None, name, Some(sweetnessLevel), Some(iceLevelNumber), quantity, None, millis, now);
    }

    /** `createOrder(request)`. */
    method CreateOrderFor(request: Request, millis: int, now: int) returns (r: Result<Order>)
      requires Valid()
      modifies this
      ensures Valid()
      ensures match PlacedFor(old(State()), request, millis, now)
        case Err(e) => r == Err(e) && State() == old(State())
        case Ok(t) => State() == t && r.Ok? && fresh(r.value) && r.value.Row() == t.orders[|t.orders| - 1]
    {
      var user := ValidateUser(request.userId);
      if user.Err? {
        return Err(user.message);
      }
      r := Place(request.userId, request.productName, request.sweetness, request.iceLevel,
        request.quantity, request.remark, millis, now);
    }

    /** `deleteOrder`. */
    method DeleteOrder(userId: Option<int>, orderId: string) returns (r: Result<bool>)
      requires Valid()
      modifies this
      ensures Valid()
      ensures match Deleted(old(State()), userId, orderId)
        case Err(e) => r == Err(e) && State() == old(State())
        case Ok(p) => r == Ok(p.0) && State() == p.1
    {
      DeleteFacts(State(), userId, orderId);
      var user := ValidateUser(userId);
      if user.Err? {
        return Err(user.message);
      }
      var found := Selected(orders, user.value, orderId);
      if found.Err? {
        return Err(found.message);
      }
      if found.value.None? {
        return Ok(false);
      }
      orders := Unmatched(orders, user.value, orderId);
      r := Ok(true);
    }

    /** `updateOrderRemark`: the updated order, or nothing when it is absent. */
    method UpdateOrderRemark(userId: Option<int>, orderId: string, remark: Option<string>, now: int)
      returns (r: Result<Option<OrderRow>>)
      requires Valid()
      modifies this
      ensures Valid()
      ensures match RemarkUpdated(old(State()), userId, orderId, remark, now)
        case Err(e) => r == Err(e) && State() == old(State())
        case Ok(p) => r == Ok(p.0) && State() == p.1
    {
      RemarkUpdateFacts(State(), userId, orderId, remark, now);
      var user := ValidateUser(userId);
      if user.Err? {
        return Err(user.message);
      }
      var found := Selected(orders, user.value, orderId);
      if found.Err? {
        return Err(found.message);
      }
      if found.value.None? {
        return Ok(None);
      }
      var i := found.value.value;
      var o := orders[i].(remark := remark, updatedAt := now);
      orders := orders[i := o];
      r := Ok(Some(o));
    }

    /** `checkStock`: the availability query, and false when the query fails. */
    method CheckStock(name: string, quantity: int, queryFails: bool) returns (available: bool)
      ensures available <==> !queryFails && Available(products, name, quantity)
    {
      if queryFails {
        return false;
      }
      available := name in products && products[name].status == OnSale && products[name].stock >= quantity;
    }
  }
}
