/**
 * The feedback entity of the feedback server: its texts for the feedback type and the rating,
 * its declared validation constraints, and the entity object with its constructors and
 * lifecycle callbacks. Instants come from a clock passed in.
 */
module Feedback {
  import opened Wrappers
  import opened Text

  const UnknownType: string := "未知"
  const Unrated: string := "未评分"
  const Star: string := "星"

  /** The words for feedback types 1..4, in type order. */
  const TypeWords: seq<string> := ["产品反馈", "服务反馈", "投诉", "建议"]

  /** `getFeedbackTypeText`: the word of a type in 1..4, "未知" for anything else. */
  function TypeText(feedbackType: Option<int>): (text: string)
    ensures text == UnknownType <==> feedbackType.None? || !(1 <= feedbackType.value <= 4)
    ensures text != UnknownType ==> text == TypeWords[feedbackType.value - 1]
  {
    if feedbackType.None? then UnknownType
    else match feedbackType.value
      case 1 => "产品反馈"
      case 2 => "服务反馈"
      case 3 => "投诉"
      case 4 => "建议"
      case _ => UnknownType
  }

  /** `getRatingText`: "未评分" without a rating, else the rating followed by "星". */
  function RatingText(rating: Option<int>): (text: string)
    ensures rating.None? ==> text == Unrated
    ensures rating.Some? ==>
      |text| == |IntToString(rating.value)| + 1
      && text[..|text| - 1] == IntToString(rating.value) && text[|text| - 1..] == Star
  {
    if rating.None? then Unrated else IntToString(rating.value) + Star
  }

  /** Distinct types in 1..4 have distinct texts, so the text names the type. */
  lemma TypeTextsDistinct(a: int, b: int)
    requires 1 <= a <= 4 && 1 <= b <= 4
    ensures TypeText(Some(a)) == TypeText(Some(b)) <==> a == b
  {
  }

  /** A rating's text is never the unrated text, and different ratings read differently. */
  lemma {:induction false} RatingTextsDistinct(a: Option<int>, b: Option<int>)
    ensures RatingText(a) == RatingText(b) <==> a == b
  {
    if a.Some? && b.Some? && RatingText(a) == RatingText(b) {
      var ta := RatingText(a);
      assert ta[..|ta| - 1] == IntToString(a.value);
      assert IntToString(a.value) == IntToString(b.value);
      IntToStringInjective(a.value, b.value);
    }
    if a.Some? && b.None? {
      assert RatingText(a)[|RatingText(a)| - 1] == '星' != '分' == Unrated[2];
    }
    if a.None? && b.Some? {
      assert RatingText(b)[|RatingText(b)| - 1] == '星' != '分' == Unrated[2];
    }
  }

  /** The decimal rendering of an integer tells the integer. */
  lemma {:induction false} IntToStringInjective(m: int, n: int)
    requires IntToString(m) == IntToString(n)
    ensures m == n
  {
    SignShown(m);
    SignShown(n);
    if m < 0 && n < 0 {
      assert NatToString(-m) == IntToString(m)[1..];
      NatToStringInjective(-m, -n);
    } else if m >= 0 && n >= 0 {
      NatToStringInjective(m, n);
    }
  }

  /** The rendering starts with a minus sign exactly for a negative integer. */
  lemma SignShown(n: int)
    ensures IntToString(n)[0] == '-' <==> n < 0
  {
    if n >= 0 {
      assert IsDigit(NatToString(n)[0]);
    }
  }

  /** One row of the feedback table; a `None` is a null column. */
  datatype FeedbackRow = FeedbackRow(
    id: Option<int>,
    orderId: Option<string>,
    userId: Option<int>,
    feedbackType: Option<int>,
    rating: Option<int>,
    content: Option<string>,
    solution: Option<string>,
    createdAt: int,
    updatedAt: int)

  /** The declared constraints: a user id, a type in 1..4, a rating in 1..5 when given, and
      content that is not blank once trimmed. The order id and the solution are free. */
  predicate IsValid(f: FeedbackRow) {
    && f.userId.Some?
    && f.feedbackType.Some? && 1 <= f.feedbackType.value <= 4
    && (f.rating.Some? ==> 1 <= f.rating.value <= 5)
    && NotBlank(f.content)
  }

  /** A valid feedback always has a known type text. */
  lemma ValidTypeIsKnown(f: FeedbackRow)
    requires IsValid(f)
    ensures TypeText(f.feedbackType) in TypeWords
  {
  }

  /** The feedback entity object. */
  class FeedbackEntity {
    var id: Option<int>
    var orderId: Option<string>
    var userId: Option<int>
    var feedbackType: Option<int>
    var rating: Option<int>
    var content: Option<string>
    var solution: Option<string>
    var createdAt: int
    var updatedAt: int

    function Row(): FeedbackRow
      reads this
    {
      FeedbackRow(id, orderId, userId, feedbackType, rating, content, solution, createdAt, updatedAt)
    }

    /** The no-argument constructor: nothing but the two instants, both now. */
    constructor Empty(now: int)
      ensures Row() == FeedbackRow(None, None, None, None, None, None, None, now, now)
    {
      id, orderId, userId, feedbackType, rating, content, solution := None, None, None, None, None, None, None;
      createdAt, updatedAt := now, now;
    }

    /** The three-argument constructor: a user, a type and content, with no order and no rating. */
    constructor WithContent(userId: Option<int>, feedbackType: Option<int>, content: Option<string>, now: int)
      ensures Row() == FeedbackRow(None, None, userId, feedbackType, None, content, None, now, now)
    {
      id, orderId, rating, solution := None, None, None, None;
      this.userId, this.feedbackType, this.content := userId, feedbackType, content;
      createdAt, updatedAt := now, now;
    }

    /** The five-argument constructor: feedback on an order, with a rating. */
    constructor ForOrder(orderId: Option<string>, userId: Option<int>, feedbackType: Option<int>,
      rating: Option<int>, content: Option<string>, now: int)
      ensures Row() == FeedbackRow(None, orderId, userId, feedbackType, rating, content, None, now, now)
    {
      id, solution := None, None;
      this.orderId, this.userId, this.feedbackType, this.rating, this.content :=
        orderId, userId, feedbackType, rating, content;
      createdAt, updatedAt := now, now;
    }

    /** `onCreate`: both instants become now. */
    method OnCreate(now: int)
      modifies this
      ensures Row() == old(Row()).(createdAt := now, updatedAt := now)
    {
      createdAt, updatedAt := now, now;
    }

    /** `onUpdate`: only the update instant changes. */
    method OnUpdate(now: int)
      modifies this
      ensures Row() == old(Row()).(updatedAt := now)
    {
      updatedAt := now;
    }
  }
}
