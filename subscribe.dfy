/** The subscription page: the three plan cards derived from the course's prices, and the checkout flow
    that creates an order, opens the payment widget and verifies the payment. */
module Subscribe {
  import opened Wrappers
  import Courses
  import Payments

  const Currency := "INR"
  const InitFailedMessage := "Failed to initialize payment"
  const VerifiedMessage := "Subscription successful!"
  const VerifyFailedMessage := "Payment verification failed"

  /** The plan id sent to the server. */
  function PlanParam(k: Payments.PlanKind): string {
    match k
    case Monthly => "monthly"
    case Quarterly => "quarterly"
    case Annual => "annual"
  }

  datatype Plan = Plan(kind: Payments.PlanKind, name: string, price: int, period: string, savings: int, popular: bool)

  /** The annual card's price: the annual price, or ten months' worth when the annual price is 0. */
  function AnnualPrice(p: Courses.Price): (r: int)
    ensures p.annual != 0 ==> r == p.annual
    ensures p.annual == 0 ==> r == 10 * p.monthly
  {
    if p.annual != 0 then p.annual else p.monthly * 10
  }

  /** The three plan cards, in display order. */
  function Plans(p: Courses.Price): (plans: seq<Plan>)
    ensures |plans| == 3
    ensures plans[0].kind == Payments.Monthly && plans[1].kind == Payments.Quarterly && plans[2].kind == Payments.Annual
    ensures plans[0].price == p.monthly && plans[1].price == p.quarterly && plans[2].price == AnnualPrice(p)
    ensures plans[0].savings == 0 && plans[1].savings == 10 && plans[2].savings == 20
    ensures forall i :: 0 <= i < 3 ==> (plans[i].popular <==> i == 1)
  {
    [ Plan(Payments.Monthly, "Monthly", p.monthly, "month", 0, false),
      Plan(Payments.Quarterly, "Quarterly", p.quarterly, "3 months", 10, true),
      Plan(Payments.Annual, "Annual", AnnualPrice(p), "year", 20, false) ]
  }

  /** Each plan appears exactly once, so the card keys are distinct. */
  lemma PlanKindsAreDistinct(p: Courses.Price)
    ensures forall i, j :: 0 <= i < j < |Plans(p)| ==> Plans(p)[i].kind != Plans(p)[j].kind
  {
  }

  /** A "Save n%" line is shown exactly for the two longer plans. */
  lemma SavingsShownForLongerPlans(p: Courses.Price)
    ensures forall i :: 0 <= i < |Plans(p)| ==> (Plans(p)[i].savings > 0 <==> Plans(p)[i].kind != Payments.Monthly)
  {
  }

  const BaseFeatures := ["Full course access", "All modules & lessons", "Assignments & projects",
                         "Certificate on completion", "Mentor support"]
  const PriorityFeature := "Priority internship consideration"

  /** The feature list of a card. */
  function Features(k: Payments.PlanKind): (fs: seq<string>)
    ensures |fs| == if k == Payments.Monthly then 5 else 6
    ensures fs[..5] == BaseFeatures
    ensures k != Payments.Monthly ==> fs[5] == PriorityFeature
    ensures PriorityFeature in fs <==> k != Payments.Monthly
  {
    assert PriorityFeature !in BaseFeatures by {
      forall i | 0 <= i < |BaseFeatures| ensures BaseFeatures[i] != PriorityFeature {
        assert |BaseFeatures[i]| < |PriorityFeature|;
      }
    }
    match k
    case Monthly => BaseFeatures
    case _ => BaseFeatures + [PriorityFeature]
  }

  datatype Order = Order(orderId: string, amount: int)

  /** What the payment widget is opened with. */
  datatype CheckoutOptions = CheckoutOptions(amount: int, currency: string, description: string, orderId: string)

  datatype SubscribeStep =
    | NotReady               // no course loaded or no route id: nothing happens
    | InitFailed             // the order could not be created
    | Checkout(options: CheckoutOptions)

  /** `handleSubscribe` up to opening the widget. */
  function StartCheckout(
    course: Option<Courses.Course>, routeId: Option<string>, k: Payments.PlanKind,
    createOrder: (string, string) -> Option<Order>): (step: SubscribeStep)
    ensures step == NotReady <==> course.None? || routeId.None? || routeId.value == ""
    ensures step.Checkout? ==>
      var order := createOrder("/courses/" + routeId.value + "/subscribe", PlanParam(k));
      order.Some?
      && step.options == CheckoutOptions(order.value.amount, Currency, "Subscription for " + course.value.title, order.value.orderId)
    ensures !(course.None? || routeId.None? || routeId.value == "") ==>
      (step == InitFailed <==> createOrder("/courses/" + routeId.value + "/subscribe", PlanParam(k)).None?)
    ensures !(course.None? || routeId.None? || routeId.value == "") ==>
      (step.Checkout? <==> createOrder("/courses/" + routeId.value + "/subscribe", PlanParam(k)).Some?)
  {
    if course.None? || routeId.None? || routeId.value == "" then NotReady
    else match createOrder("/courses/" + routeId.value + "/subscribe", PlanParam(k))
      case None => InitFailed
      case Some(order) =>
        Checkout(CheckoutOptions(order.amount, Currency, "Subscription for " + course.value.title, order.orderId))
  }

  /** The widget charges the amount the server put on the order, whatever the price on the card: two
      courses with the same title and route open the same widget, however they are priced. */
  lemma ChargedAmountIsTheOrders(
    c1: Courses.Course, c2: Courses.Course, routeId: Option<string>, k: Payments.PlanKind,
    createOrder: (string, string) -> Option<Order>)
    requires c1.title == c2.title
    ensures StartCheckout(Some(c1), routeId, k, createOrder) == StartCheckout(Some(c2), routeId, k, createOrder)
    ensures var step := StartCheckout(Some(c1), routeId, k, createOrder);
            step.Checkout? ==>
              step.options.amount == createOrder("/courses/" + routeId.value + "/subscribe", PlanParam(k)).value.amount
  {
  }

  /** The page the payment handler leads to: the success page for the course when the server confirms
      the payment, the failure page otherwise. */
  function AfterPayment(routeId: string, verified: bool): (route: string)
    ensures verified ==> route == "/payment/success?courseId=" + routeId
    ensures !verified ==> route == "/payment/failure"
  {
    if verified then "/payment/success?courseId=" + routeId else "/payment/failure"
  }

  /** What became of the payment widget opened with the options: `new window.Razorpay` threw, the user
      closed it without paying, or the payment went through and the widget called its handler. */
  datatype WidgetOutcome =
    | ConstructorThrew
    | Dismissed
    | Completed(paymentId: string, signature: string)

  /** Checkout and its verification in one: the route reached, if any, and the toast shown. The widget's
      outcome is the parameter `widget`, and `verify` is the server's answer to `/payment/verify` for the
      order, payment id and signature. Neither path records the subscription in the payment store. */
  method HandleSubscribe(
    store: Courses.CourseStore, routeId: Option<string>, k: Payments.PlanKind,
    createOrder: (string, string) -> Option<Order>,
    widget: CheckoutOptions -> WidgetOutcome,
    verify: (string, string, string) -> bool) returns (route: Option<string>, message: Option<string>)
    ensures var step := StartCheckout(store.currentCourse, routeId, k, createOrder);
            (step == NotReady ==> route == None && message == None)
            && (step == InitFailed ==> route == None && message == Some(InitFailedMessage))
            && (step.Checkout? && widget(step.options).ConstructorThrew? ==>
                  route == None && message == Some(InitFailedMessage))
            && (step.Checkout? && widget(step.options).Dismissed? ==> route == None && message == None)
            && (step.Checkout? && widget(step.options).Completed? ==>
                  var paid := widget(step.options);
                  var ok := verify(step.options.orderId, paid.paymentId, paid.signature);
                  route == Some(AfterPayment(routeId.value, ok))
                  && message == Some(if ok then VerifiedMessage else VerifyFailedMessage))
  {
    var step := StartCheckout(store.currentCourse, routeId, k, createOrder);
    match step
    case NotReady =>
      route, message := None, None;
    case InitFailed =>
      route, message := None, Some(InitFailedMessage);
    case Checkout(options) =>
      match widget(options)
      case ConstructorThrew =>
        route, message := None, Some(InitFailedMessage);
      case Dismissed =>
        route, message := None, None;
      case Completed(paymentId, signature) =>
        var ok := verify(options.orderId, paymentId, signature);
        route := Some(AfterPayment(routeId.value, ok));
        message := Some(if ok then VerifiedMessage else VerifyFailedMessage);
  }
}
