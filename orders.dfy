/**
 * The order entity of the tea-shop order server: the sweetness and ice-level tables that turn
 * the customer's words into the codes 1..5 and back, the validation constraints declared on
 * the entity, and the entity object with its constructor and lifecycle callbacks. Amounts are
 * BigDecimal prices of scale 2, held as cents; instants come from a clock passed in.
 */
module Orders {
  import opened Wrappers
  import opened Text

  /** The text of a code outside 1..5, or of a missing code. */
  const Unknown: string := "未知"

  /** The words for codes 1..5, in code order. */
  const SweetnessWords: seq<string> := ["无糖", "微糖", "半糖", "少糖", "标准糖"]
  const IceLevelWords: seq<string> := ["热", "温", "去冰", "少冰", "正常冰"]

  /** `convertSweetnessToNumber`: a missing or unknown word is the standard sweetness 5.
      Lower-casing leaves the Chinese words as they are, so the model compares the word itself. */
  function SweetnessCode(word: Option<string>): (code: int)
    ensures 1 <= code <= 5
  {
    if word.None? then 5
    else match word.value
      case "无糖" => 1
      case "微糖" => 2
      case "半糖" => 3
      case "少糖" => 4
      case "标准糖" => 5
      case _ => 5
  }

  /** `convertIceLevelToNumber`: a missing or unknown word is the normal ice level 5. */
  function IceLevelCode(word: Option<string>): (code: int)
    ensures 1 <= code <= 5
  {
    if word.None? then 5
    else match word.value
      case "热" => 1
      case "温" => 2
      case "去冰" => 3
      case "少冰" => 4
      case "正常冰" => 5
      case _ => 5
  }

  /** `getSweetnessText`: the word of a code in 1..5, "未知" for anything else. */
  function SweetnessText(code: Option<int>): (text: string)
    ensures text == Unknown <==> code.None? || !(1 <= code.value <= 5)
    ensures text != Unknown ==> text == SweetnessWords[code.value - 1]
  {
    if code.None? then Unknown
    else match code.value
      case 1 => "无糖"
      case 2 => "微糖"
      case 3 => "半糖"
      case 4 => "少糖"
      case 5 => "标准糖"
      case _ => Unknown
  }

  /** `getIceLevelText`: the word of a code in 1..5, "未知" for anything else. */
  function IceLevelText(code: Option<int>): (text: string)
    ensures text == Unknown <==> code.None? || !(1 <= code.value <= 5)
    ensures text != Unknown ==> text == IceLevelWords[code.value - 1]
  {
    if code.None? then Unknown
    else match code.value
      case 1 => "热"
      case 2 => "温"
      case 3 => "去冰"
      case 4 => "少冰"
      case 5 => "正常冰"
      case _ => Unknown
  }

  /** Reading a code's word back gives the code, for every code in 1..5. */
  lemma CodeTextRoundTrip(code: int)
    requires 1 <= code <= 5
    ensures SweetnessCode(Some(SweetnessText(Some(code)))) == code
    ensures IceLevelCode(Some(IceLevelText(Some(code)))) == code
  {
  }

  /** Each word of a table is read as its position plus one, and its code's text is the word. */
  lemma TextCodeRoundTrip(i: int)
    requires 0 <= i < 5
    ensures SweetnessCode(Some(SweetnessWords[i])) == i + 1
    ensures SweetnessText(Some(SweetnessCode(Some(SweetnessWords[i])))) == SweetnessWords[i]
    ensures IceLevelCode(Some(IceLevelWords[i])) == i + 1
    ensures IceLevelText(Some(IceLevelCode(Some(IceLevelWords[i])))) == IceLevelWords[i]
  {
  }

  /** A word outside the table, like a missing word, reads as the default 5, whose text is the
      standard word: the unknown text itself does not round-trip. */
  lemma UnknownWordsDefault(word: string)
    requires word !in SweetnessWords && word !in IceLevelWords
    ensures SweetnessCode(Some(word)) == 5 && SweetnessText(Some(SweetnessCode(Some(word)))) == "标准糖"
    ensures IceLevelCode(Some(word)) == 5 && IceLevelText(Some(IceLevelCode(Some(word)))) == "正常冰"
    ensures SweetnessCode(None) == 5 && IceLevelCode(None) == 5
  {
    assert SweetnessWords == ["无糖", "微糖", "半糖", "少糖", "标准糖"];
    assert IceLevelWords == ["热", "温", "去冰", "少冰", "正常冰"];
  }

  /** One row of the orders table, the fields of the entity; a `None` is a null column. */
  datatype OrderRow = OrderRow(
    id: Option<int>,
    orderId: Option<string>,
    userId: Option<int>,
    productId: Option<int>,
    productName: Option<string>,
    sweetness: Option<int>,
    iceLevel: Option<int>,
    quantity: Option<int>,
    unitPrice: Option<int>,
    totalPrice: Option<int>,
    remark: Option<string>,
    createdAt: int,
    updatedAt: int)

  /** A constraint that, as in bean validation, a null value passes. */
  predicate InRangeOrNull(v: Option<int>, lo: int, hi: int) {
    v.Some? ==> lo <= v.value <= hi
  }

  /** The declared constraints: an order id and product name that are not blank once trimmed, a product id, codes in
      1..5 and a quantity of at least 1 when present, and both prices present and at least 0.01. */
  predicate IsValid(o: OrderRow) {
    && NotBlank(o.orderId)
    && o.productId.Some?
    && NotBlank(o.productName)
    && InRangeOrNull(o.sweetness, 1, 5)
    && InRangeOrNull(o.iceLevel, 1, 5)
    && (o.quantity.Some? ==> o.quantity.value >= 1)
    && o.unitPrice.Some? && o.unitPrice.value >= 1
    && o.totalPrice.Some? && o.totalPrice.value >= 1
  }

  /** A valid order always has a known sweetness and ice-level text, when it has a code. */
  lemma ValidOrderTexts(o: OrderRow)
    requires IsValid(o)
    ensures o.sweetness.Some? ==> SweetnessText(o.sweetness) in SweetnessWords
    ensures o.iceLevel.Some? ==> IceLevelText(o.iceLevel) in IceLevelWords
  {
  }

  /** The order entity object. */
  class Order {
    var id: Option<int>
    var orderId: Option<string>
    var userId: Option<int>
    var productId: Option<int>
    var productName: Option<string>
    var sweetness: Option<int>
    var iceLevel: Option<int>
    var quantity: Option<int>
    var unitPrice: Option<int>
    var totalPrice: Option<int>
    var remark: Option<string>
    var createdAt: int
    var updatedAt: int

    /** The entity's fields as a row. */
    function Row(): OrderRow
      reads this
    {
      OrderRow(id, orderId, userId, productId, productName, sweetness, iceLevel, quantity,
        unitPrice, totalPrice, remark, createdAt, updatedAt)
    }

    /** The ten-argument constructor: the given fields, no id, and both instants set to now. */
    constructor(orderId: Option<string>, userId: Option<int>, productId: Option<int>,
      productName: Option<string>, sweetness: Option<int>, iceLevel: Option<int>,
      quantity: Option<int>, unitPrice: Option<int>, totalPrice: Option<int>,
      remark: Option<string>, now: int)
      ensures Row() == OrderRow(None, orderId, userId, productId, productName, sweetness,
        iceLevel, quantity, unitPrice, totalPrice, remark, now, now)
    {
      id := None;
      createdAt := now;
      updatedAt := now;
      this.orderId := orderId;
      this.userId := userId;
      this.productId := productId;
      this.productName := productName;
      this.sweetness := sweetness;
      this.iceLevel := iceLevel;
      this.quantity := quantity;
      this.unitPrice := unitPrice;
      this.totalPrice := totalPrice;
      this.remark := remark;
    }

    /** `onCreate`: both instants become now. */
    method OnCreate(now: int)
      modifies this
      ensures Row() == old(Row()).(createdAt := now, updatedAt := now)
    {
      createdAt := now;
      updatedAt := now;
    }

    /** `onUpdate`: only the update instant changes. */
    method OnUpdate(now: int)
      modifies this
      ensures Row() == old(Row()).(updatedAt := now)
    {
      updatedAt := now;
    }

    method SetRemark(remark: Option<string>)
      modifies this
      ensures Row() == old(Row()).(remark := remark)
    {
      this.remark := remark;
    }

    /** The key the database generates on insert. */
    method SetId(id: Option<int>)
      modifies this
      ensures Row() == old(Row()).(id := id)
    {
      this.id := id;
    }
  }
}
