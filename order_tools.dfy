/**
 * The order server's agent tools: each calls the order service and turns the outcome into one
 * reply string, catching every failure into a message with a fixed prefix. The list tools
 * write a header and one line per order. Formatting an instant as "yyyy-MM-dd HH:mm:ss" is a
 * parameter; amounts are printed from cents.
 */
module OrderTools {
  import opened Wrappers
  import opened Text
  import opened Orders
  import opened OrderService

  const CreateFailedPrefix: string := "创建订单失败: "
  const QueryFailedPrefix: string := "查询订单失败: "
  const StockFailedPrefix: string := "检查库存失败: "
  const ListFailedPrefix: string := "获取订单列表失败: "
  const UserListFailedPrefix: string := "获取用户订单列表失败: "
  const DeleteFailedPrefix: string := "删除订单失败: "
  const RemarkFailedPrefix: string := "更新订单备注失败: "
  const ValidateFailedPrefix: string := "验证产品失败: "
  const MissingOrderPrefix: string := "订单不存在: "
  const DeletedPrefix: string := "订单删除成功: "
  const NotDeletedPrefix: string := "订单删除失败，订单不存在或无权限: "
  const RemarkedPrefix: string := "订单备注更新成功: "
  const NotRemarkedPrefix: string := "订单备注更新失败，订单不存在或无权限: "
  const NoOrdersText: string := "当前没有任何订单记录。"
  const AllOrdersHeader: string := "所有订单列表:\n"
  const NoMatchText: string := "未找到符合条件的订单记录。"
  const CreatedPrefix: string := "订单创建成功！订单ID: "

  /** `%s` or string concatenation of a value that may be null. */
  function ShownText(s: Option<string>): string {
    if s.None? then "null" else s.value
  }

  /** `%d` or concatenation of a number that may be null. */
  function ShownInt(n: Option<int>): string {
    if n.None? then "null" else IntToString(n.value)
  }

  /** `%.2f` of an amount that may be null. */
  function ShownCents(c: Option<int>): string {
    if c.None? then "null" else CentsToString(c.value)
  }

  /** `convertSweetnessToNumber` and `convertIceLevelToNumber` of the tools are the service's
      tables: the request the tool builds carries the service's codes. */
  function ToolRequest(userId: Option<int>, name: string, sweetness: Option<string>, iceLevel: Option<string>,
    quantity: int, remark: Option<string>): (r: Request)
    ensures r.sweetness.Some? && 1 <= r.sweetness.value <= 5
    ensures r.iceLevel.Some? && 1 <= r.iceLevel.value <= 5
    ensures r.userId == userId && r.productName == name && r.quantity == quantity && r.remark == remark
  {
    Request(userId, name, Some(SweetnessCode(sweetness)), Some(IceLevelCode(iceLevel)), quantity, remark)
  }

  /** The success reply of `createOrderWithUser`. */
  function CreatedText(o: OrderRow): string {
    CreatedPrefix + CreatedDetails(o)
  }

  function CreatedDetails(o: OrderRow): string {
    ShownText(o.orderId) + ", 用户ID: " + ShownInt(o.userId) +
    ", 产品: " + ShownText(o.productName) + ", 甜度: " + SweetnessText(o.sweetness) +
    ", 冰量: " + IceLevelText(o.iceLevel) + ", 数量: " + ShownInt(o.quantity) +
    ", 价格: " + ShownCents(o.totalPrice) + "元"
  }

  /** `createOrderWithUser`: the request form of `createOrder` with the words converted; any
      failure becomes a reply. */
  function CreateOrderWithUser(s: Store, userId: Option<int>, name: string, sweetness: Option<string>,
    iceLevel: Option<string>, quantity: int, remark: Option<string>, millis: int, now: int): string
  {
    match PlacedFor(s, ToolRequest(userId, name, sweetness, iceLevel, quantity, remark), millis, now)
    case Err(e) => CreateFailedPrefix + e
    case Ok(t) => CreatedText(t.orders[|t.orders| - 1])
  }

  /** The reply starts with the failure prefix exactly when the placement fails, and then
      carries the service's message; on success it shows the sweetness and ice words of the
      converted codes. */
  lemma {:induction false} CreateOrderWithUserFacts(s: Store, userId: Option<int>, name: string,
    sweetness: Option<string>, iceLevel: Option<string>, quantity: int, remark: Option<string>, millis: int, now: int)
    ensures var outcome := PlacedFor(s, ToolRequest(userId, name, sweetness, iceLevel, quantity, remark), millis, now);
      var reply := CreateOrderWithUser(s, userId, name, sweetness, iceLevel, quantity, remark, millis, now);
      && (StartsWith(reply, CreateFailedPrefix) <==> outcome.Err?)
      && (outcome.Err? ==> reply[|CreateFailedPrefix|..] == outcome.message)
      && (outcome.Ok? ==> reply == CreatedText(outcome.value.orders[|outcome.value.orders| - 1]))
  {
    var outcome := PlacedFor(s, ToolRequest(userId, name, sweetness, iceLevel, quantity, remark), millis, now);
    var reply := CreateOrderWithUser(s, userId, name, sweetness, iceLevel, quantity, remark, millis, now);
    if outcome.Ok? {
      var row := outcome.value.orders[|outcome.value.orders| - 1];
      assert reply == CreatedPrefix + CreatedDetails(row);
      assert reply[0] == CreatedPrefix[0] == '订';
      assert CreateFailedPrefix[0] == '创';
    } else {
      assert reply == CreateFailedPrefix + outcome.message;
      assert reply[..|CreateFailedPrefix|] == CreateFailedPrefix;
    }
  }

  /** The order the tool creates shows the sweetness and ice words of the converted codes:
      the customer's own word when it is in the table, the standard word otherwise. */
  lemma CreatedWords(s: Store, userId: Option<int>, name: string, sweetness: Option<string>,
    iceLevel: Option<string>, quantity: int, remark: Option<string>, millis: int, now: int)
    ensures var outcome := PlacedFor(s, ToolRequest(userId, name, sweetness, iceLevel, quantity, remark), millis, now);
      outcome.Ok? ==>
        var row := outcome.value.orders[|outcome.value.orders| - 1];
        && SweetnessText(row.sweetness) == SweetnessWords[SweetnessCode(sweetness) - 1]
        && IceLevelText(row.iceLevel) == IceLevelWords[IceLevelCode(iceLevel) - 1]
  {
    var request := ToolRequest(userId, name, sweetness, iceLevel, quantity, remark);
    var outcome := PlacedFor(s, request, millis, now);
    if outcome.Ok? {
      var row := outcome.value.orders[|outcome.value.orders| - 1];
      assert row.sweetness == request.sweetness && row.iceLevel == request.iceLevel;
    }
  }

  /** The detail line of `getOrder` and `getOrderByUser`; the second also shows the user. */
  function InfoText(o: OrderRow, withUser: bool, formatTime: int -> string): string {
    "订单信息 - ID: " + ShownText(o.orderId) +
    (if withUser then ", 用户ID: " + ShownInt(o.userId) else "") +
    ", 产品: " + ShownText(o.productName) + ", 甜度: " + SweetnessText(o.sweetness) +
    ", 冰量: " + IceLevelText(o.iceLevel) + ", 数量: " + ShownInt(o.quantity) +
    ", 价格: " + ShownCents(o.totalPrice) + "元, 创建时间: " + formatTime(o.createdAt)
  }

  /** `getOrder`, given what the lookup by order id gave. */
  function GetOrderReply(lookup: Result<Option<OrderRow>>, orderId: string, formatTime: int -> string): string {
    match lookup
    case Err(e) => QueryFailedPrefix + e
    case Ok(None) => MissingOrderPrefix + orderId
    case Ok(Some(o)) => InfoText(o, false, formatTime)
  }

  /** `getOrderByUserIdAndOrderId` of the service: the user check, then the select. */
  function OrderOfUser(s: Store, userId: Option<int>, orderId: string): Result<Option<OrderRow>> {
    match UserError(s.users, userId)
    case Some(e) => Err(e)
    case None =>
      match Selected(s.orders, userId.value, orderId)
      case Err(e) => Err(e)
      case Ok(None) => Ok(None)
      case Ok(Some(i)) => Ok(Some(s.orders[i]))
  }

  /** `getOrderByUser`. */
  function GetOrderByUser(s: Store, userId: Option<int>, orderId: string, formatTime: int -> string): string {
    match OrderOfUser(s, userId, orderId)
    case Err(e) => QueryFailedPrefix + e
    case Ok(None) => MissingOrderPrefix + orderId + " (用户ID: " + ShownInt(userId) + ")"
    case Ok(Some(o)) => InfoText(o, true, formatTime)
  }

  /** An absent order is reported with its id, and a known user with no such order is told so
      rather than failing; a found order is the user's own. */
  lemma GetOrderFacts(s: Store, userId: Option<int>, orderId: string, formatTime: int -> string)
    ensures GetOrderReply(Ok(None), orderId, formatTime) == MissingOrderPrefix + orderId
    ensures (UserError(s.users, userId).None? &&
        forall i :: 0 <= i < |s.orders| ==> !Matches(s.orders[i], userId.value, orderId)) ==>
      GetOrderByUser(s, userId, orderId, formatTime) ==
        MissingOrderPrefix + orderId + " (用户ID: " + IntToString(userId.value) + ")"
    ensures OrderOfUser(s, userId, orderId).Ok? && OrderOfUser(s, userId, orderId).value.Some? ==>
      var o := OrderOfUser(s, userId, orderId).value.value;
      o.userId == userId && o.orderId == Some(orderId) && o in s.orders
  {
  }

  /** `checkStock`: the reply is chosen by the availability alone. */
  function StockReply(available: bool, name: string, quantity: int): string {
    if available then "产品 " + name + " 库存充足，可提供 " + IntToString(quantity) + " 件"
    else "产品 " + name + " 库存不足，无法提供 " + IntToString(quantity) + " 件"
  }

  /** The two replies differ, so the reply tells the availability. */
  lemma StockReplyTellsAvailability(a: bool, b: bool, name: string, quantity: int)
    ensures StockReply(a, name, quantity) == StockReply(b, name, quantity) <==> a == b
  {
    if a != b {
      var k := |"产品 " + name + " 库存"|;
      assert StockReply(true, name, quantity)[k] == '充';
      assert StockReply(false, name, quantity)[k] == '不';
    }
  }

  /** `deleteOrder`, given the service's outcome. */
  function DeleteReply(outcome: Result<bool>, orderId: string): string {
    match outcome
    case Err(e) => DeleteFailedPrefix + e
    case Ok(true) => DeletedPrefix + orderId
    case Ok(false) => NotDeletedPrefix + orderId
  }

  /** The delete tool over the store: success is reported exactly when the service deleted. */
  lemma DeleteToolFacts(s: Store, userId: Option<int>, orderId: string)
    ensures var d := Deleted(s, userId, orderId);
      var reply := DeleteReply(if d.Ok? then Ok(d.value.0) else Err(d.message), orderId);
      && (reply == DeletedPrefix + orderId <==> d.Ok? && d.value.0)
      && (d.Ok? && !d.value.0 ==> reply == NotDeletedPrefix + orderId)
  {
    var d := Deleted(s, userId, orderId);
    if d.Ok? && !d.value.0 {
      assert (NotDeletedPrefix + orderId)[4] != (DeletedPrefix + orderId)[4];
    }
    if d.Err? {
      assert (DeleteFailedPrefix + d.message)[0] != (DeletedPrefix + orderId)[0];
    }
  }

  /** `updateOrderRemark`, given the service's outcome. */
  function RemarkReply(outcome: Result<Option<OrderRow>>, orderId: string, remark: Option<string>): string {
    match outcome
    case Err(e) => RemarkFailedPrefix + e
    case Ok(Some(_)) => RemarkedPrefix + orderId + ", 新备注: " + ShownText(remark)
    case Ok(None) => NotRemarkedPrefix + orderId
  }

  /** The remark tool over the store: an absent order gives the failure text and changes
      nothing. */
  lemma RemarkToolFacts(s: Store, userId: Option<int>, orderId: string, remark: Option<string>, now: int)
    ensures var u := RemarkUpdated(s, userId, orderId, remark, now);
      u.Ok? && u.value.0.None? ==>
        RemarkReply(Ok(u.value.0), orderId, remark) == NotRemarkedPrefix + orderId && u.value.1 == s
    ensures var u := RemarkUpdated(s, userId, orderId, remark, now);
      u.Ok? && u.value.0.Some? ==>
        RemarkReply(Ok(u.value.0), orderId, remark) == RemarkedPrefix + orderId + ", 新备注: " + ShownText(remark)
  {
    RemarkUpdateFacts(s, userId, orderId, remark, now);
  }

  /** `validateProduct`, given the service's answer. */
  function ValidateProductReply(found: Result<bool>, name: string): string {
    match found
    case Err(e) => ValidateFailedPrefix + e
    case Ok(true) => "产品 " + name + " 存在且可用"
    case Ok(false) => "产品 " + name + " 不存在或已下架"
  }

  /** The two answers read differently, so the reply tells whether the product is on sale. */
  lemma ValidateReplyTellsExistence(a: bool, b: bool, name: string)
    ensures ValidateProductReply(Ok(a), name) == ValidateProductReply(Ok(b), name) <==> a == b
  {
    if a != b {
      var k := |"产品 " + name + " "|;
      assert ValidateProductReply(Ok(true), name)[k] == '存';
      assert ValidateProductReply(Ok(false), name)[k] == '不';
    }
  }

  /** One line of a listing. */
  function Line(o: OrderRow, formatTime: int -> string): string {
    "- 订单ID: " + ShownText(o.orderId) + ", 产品: " + ShownText(o.productName) +
    ", 甜度: " + SweetnessText(o.sweetness) + ", 冰量: " + IceLevelText(o.iceLevel) +
    ", 数量: " + ShownInt(o.quantity) + ", 价格: " + ShownCents(o.totalPrice) +
    "元, 创建时间: " + formatTime(o.createdAt) + "\n"
  }

  /** The line renderer of a listing. */
  function LineOf(formatTime: int -> string): OrderRow -> string {
    o => Line(o, formatTime)
  }

  /** The lines of a listing, in the service's order. */
  function Lines(orders: seq<OrderRow>, render: OrderRow -> string): string {
    if orders == [] then "" else Lines(orders[..|orders| - 1], render) + render(orders[|orders| - 1])
  }

  /** The lines of two lists back to back are the lines of each, in order. */
  lemma {:induction false} LinesAppend(a: seq<OrderRow>, b: seq<OrderRow>, render: OrderRow -> string)
    ensures Lines(a + b, render) == Lines(a, render) + Lines(b, render)
    decreases |b|
  {
    if b == [] {
      assert a + b == a;
    } else {
      assert (a + b)[..|a + b| - 1] == a + b[..|b| - 1];
      LinesAppend(a, b[..|b| - 1], render);
    }
  }

  /** Order k's line sits right after the lines of the orders before it. */
  lemma LineAt(orders: seq<OrderRow>, k: nat, render: OrderRow -> string)
    requires k < |orders|
    ensures var start := |Lines(orders[..k], render)|;
      var end := start + |render(orders[k])|;
      end <= |Lines(orders, render)| && Lines(orders, render)[start..end] == render(orders[k])
  {
    assert orders == orders[..k + 1] + orders[k + 1..];
    LinesAppend(orders[..k + 1], orders[k + 1..], render);
    assert orders[..k + 1][..k] == orders[..k];
  }

  /** The listing loop: the header, then one appended line per order. */
  method AppendLines(header: string, orders: seq<OrderRow>, render: OrderRow -> string) returns (text: string)
    ensures text == header + Lines(orders, render)
  {
    text := header;
    for i := 0 to |orders|
      invariant text == header + Lines(orders[..i], render)
    {
      assert orders[..i + 1][..i] == orders[..i];
      text := text + render(orders[i]);
    }
    assert orders[..|orders|] == orders;
  }

  /** A list tool: the failure text, the fixed text for no orders, or the header and the lines. */
  function ListReply(outcome: Result<seq<OrderRow>>, failPrefix: string, emptyText: string,
    header: string, formatTime: int -> string): (reply: string)
    ensures outcome.Ok? && outcome.value != [] ==>
      |header| <= |reply| && reply[..|header|] == header && reply[|header|..] == Lines(outcome.value, LineOf(formatTime))
  {
    match outcome
    case Err(e) => failPrefix + e
    case Ok(orders) => if orders == [] then emptyText else header + Lines(orders, LineOf(formatTime))
  }

  function UserEmptyText(userId: Option<int>): string {
    "用户 " + ShownInt(userId) + " 当前没有任何订单记录。"
  }

  function UserHeader(userId: Option<int>): string {
    "用户 " + ShownInt(userId) + " 的订单列表:\n"
  }

  function QueryHeader(count: nat): string {
    "查询结果 (" + IntToString(count) + " 条记录):\n"
  }

  /** `getAllOrders`. */
  method GetAllOrders(outcome: Result<seq<OrderRow>>, formatTime: int -> string) returns (reply: string)
    ensures reply == ListReply(outcome, ListFailedPrefix, NoOrdersText, AllOrdersHeader, formatTime)
  {
    if outcome.Err? {
      return ListFailedPrefix + outcome.message;
    }
    if outcome.value == [] {
      return NoOrdersText;
    }
    reply := AppendLines(AllOrdersHeader, outcome.value, LineOf(formatTime));
  }

  /** `getOrdersByUser`. */
  method GetOrdersByUser(userId: Option<int>, outcome: Result<seq<OrderRow>>, formatTime: int -> string)
    returns (reply: string)
    ensures reply == ListReply(outcome, UserListFailedPrefix, UserEmptyText(userId), UserHeader(userId), formatTime)
  {
    if outcome.Err? {
      return UserListFailedPrefix + outcome.message;
    }
    if outcome.value == [] {
      return UserEmptyText(userId);
    }
    reply := AppendLines(UserHeader(userId), outcome.value, LineOf(formatTime));
  }

  /** `queryOrders`: the header counts the orders found. */
  method QueryOrders(outcome: Result<seq<OrderRow>>, formatTime: int -> string) returns (reply: string)
    ensures outcome.Ok? ==>
      reply == ListReply(outcome, QueryFailedPrefix, NoMatchText, QueryHeader(|outcome.value|), formatTime)
    ensures outcome.Err? ==> reply == QueryFailedPrefix + outcome.message
  {
    if outcome.Err? {
      return QueryFailedPrefix + outcome.message;
    }
    if outcome.value == [] {
      return NoMatchText;
    }
    reply := AppendLines(QueryHeader(|outcome.value|), outcome.value, LineOf(formatTime));
  }

  /** A list tool with no orders gives its fixed text, never a header. */
  lemma EmptyListFacts(failPrefix: string, emptyText: string, header: string, formatTime: int -> string)
    ensures ListReply(Ok([]), failPrefix, emptyText, header, formatTime) == emptyText
  {
  }
}
