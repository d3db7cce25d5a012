/** The payment store: subscriptions, payment history, and a lookup of subscriptions by course id
    that has to be kept in step with the subscription list by hand. */
module Payments {
  import opened Wrappers
  import Lists

  datatype PlanKind = Monthly | Quarterly | Annual
  datatype SubscriptionStatus = Active | Expired | Cancelled
  datatype PaymentStatus = Success | Pending | Failed

  datatype Subscription = Subscription(
    id: string,
    courseId: string,
    plan: PlanKind,
    status: SubscriptionStatus,
    startDate: string,
    endDate: string,
    amount: int)

  datatype Payment = Payment(
    id: string,
    amount: int,
    status: PaymentStatus,
    courseId: string,
    createdAt: string)

  /** A value of the `subscriptionStatus` record: a whole subscription, or the bare `{ status }`
      object that results from spreading `undefined` when the course had no entry. */
  datatype StatusEntry = Full(sub: Subscription) | StatusOnly(onlyStatus: SubscriptionStatus) {

    function Status(): SubscriptionStatus {
      if Full? then sub.status else onlyStatus
    }

    /** `{ ...this, status }`. */
    function WithStatus(s: SubscriptionStatus): (e: StatusEntry)
      ensures e.Status() == s
      ensures e.Full? <==> Full?
      ensures Full? ==> e.sub == sub.(status := s)
    {
      if Full? then Full(sub.(status := s)) else StatusOnly(s)
    }
  }

  /** The last subscription in the list for course `c`: the one a left-to-right fold keeps. */
  function LastFor(subs: seq<Subscription>, c: string): (r: Option<Subscription>)
    ensures r.Some? <==> exists i :: 0 <= i < |subs| && subs[i].courseId == c
    ensures r.Some? ==> r.value.courseId == c && r.value in subs
  {
    if subs == [] then None
    else if subs[|subs| - 1].courseId == c then Some(subs[|subs| - 1])
    else
      var r := LastFor(subs[..|subs| - 1], c);
      assert forall i :: 0 <= i < |subs| - 1 ==> subs[..|subs| - 1][i] == subs[i];
      r
  }

  /** `subs.reduce((acc, sub) => ({ ...acc, [sub.courseId]: sub }), {})`, written as the fold's last step. */
  function StatusMap(subs: seq<Subscription>): map<string, StatusEntry>
  {
    if subs == [] then map[]
    else StatusMap(subs[..|subs| - 1])[subs[|subs| - 1].courseId := Full(subs[|subs| - 1])]
  }

  /** `subs.map(sub => sub.courseId === c ? { ...sub, status: s } : sub)`. */
  function SetStatus(subs: seq<Subscription>, c: string, s: SubscriptionStatus): (r: seq<Subscription>)
    ensures |r| == |subs|
    ensures forall i :: 0 <= i < |subs| ==> r[i].courseId == subs[i].courseId
    ensures forall i :: 0 <= i < |subs| && subs[i].courseId == c ==> r[i] == subs[i].(status := s)
    ensures forall i :: 0 <= i < |subs| && subs[i].courseId != c ==> r[i] == subs[i]
  {
    Lists.Patch(subs, (x: Subscription) => x.courseId == c, (x: Subscription) => x.(status := s))
  }

  /** `{ ...m, [c]: { ...m[c], status: s } }`. */
  function UpdatedMap(m: map<string, StatusEntry>, c: string, s: SubscriptionStatus): (r: map<string, StatusEntry>)
    ensures c in r && r[c].Status() == s
    ensures c in m ==> r[c] == m[c].WithStatus(s)
    ensures c !in m ==> r[c] == StatusOnly(s)
    ensures forall d :: d != c ==> (d in r <==> d in m)
    ensures forall d :: d != c && d in m ==> r[d] == m[d]
  {
    m[c := if c in m then m[c].WithStatus(s) else StatusOnly(s)]
  }

  /** For every course in the list, the lookup holds the last subscription the list has for it. */
  ghost predicate Mirrors(subs: seq<Subscription>, m: map<string, StatusEntry>) {
    forall c :: LastFor(subs, c).Some? ==> c in m && m[c] == Full(LastFor(subs, c).value)
  }

  /** The lookup has a key exactly for the courses the list mentions. */
  ghost predicate KeysMatch(subs: seq<Subscription>, m: map<string, StatusEntry>) {
    forall c :: c in m <==> LastFor(subs, c).Some?
  }

  /** The fold `setSubscriptions` runs builds a lookup that mirrors the list and has no other keys;
      when course ids repeat, the later subscription wins. */
  lemma {:induction false} StatusMapMirrors(subs: seq<Subscription>)
    ensures Mirrors(subs, StatusMap(subs))
    ensures KeysMatch(subs, StatusMap(subs))
  {
    if subs != [] {
      var init := subs[..|subs| - 1];
      StatusMapMirrors(init);
      AppendKeepsMirror(init, StatusMap(init), subs[|subs| - 1]);
      assert init + [subs[|subs| - 1]] == subs;
    }
  }

  /** Appending a subscription moves its course's "last" to it and leaves every other course alone. */
  lemma LastForAppend(subs: seq<Subscription>, x: Subscription, c: string)
    ensures LastFor(subs + [x], c) == if x.courseId == c then Some(x) else LastFor(subs, c)
  {
  }

  /** `addSubscription` keeps the lookup mirroring the list and keeps its key set equal to the list's courses. */
  lemma AppendKeepsMirror(subs: seq<Subscription>, m: map<string, StatusEntry>, x: Subscription)
    ensures Mirrors(subs, m) ==> Mirrors(subs + [x], m[x.courseId := Full(x)])
    ensures KeysMatch(subs, m) ==> KeysMatch(subs + [x], m[x.courseId := Full(x)])
  {
  }

  /** Rewriting the status of course `c` rewrites the status of its last subscription and touches no other course. */
  lemma {:induction false} LastForSetStatus(subs: seq<Subscription>, c: string, s: SubscriptionStatus, d: string)
    ensures LastFor(SetStatus(subs, c, s), d)
         == if d == c && LastFor(subs, c).Some? then Some(LastFor(subs, c).value.(status := s))
            else LastFor(subs, d)
  {
    if subs != [] {
      var n := |subs|;
      var init := subs[..n - 1];
      var r := SetStatus(subs, c, s);
      assert r[..n - 1] == SetStatus(init, c, s);
      assert LastFor(r, d) == if r[n - 1].courseId == d then Some(r[n - 1]) else LastFor(SetStatus(init, c, s), d);
      assert LastFor(subs, d) == if subs[n - 1].courseId == d then Some(subs[n - 1]) else LastFor(init, d);
      assert LastFor(subs, c) == if subs[n - 1].courseId == c then Some(subs[n - 1]) else LastFor(init, c);
      if subs[n - 1].courseId != d {
        LastForSetStatus(init, c, s, d);
      } else if d != c {
        assert r[n - 1] == subs[n - 1];
      }
    }
  }

  /** `updateSubscriptionStatus` keeps the lookup mirroring the list, whether or not `c` is in it. */
  lemma UpdateKeepsMirror(subs: seq<Subscription>, m: map<string, StatusEntry>, c: string, s: SubscriptionStatus)
    requires Mirrors(subs, m)
    ensures Mirrors(SetStatus(subs, c, s), UpdatedMap(m, c, s))
  {
    forall d {
      LastForSetStatus(subs, c, s, d);
    }
  }

  /** `updateSubscriptionStatus` keeps "one key per listed course" exactly when the course is listed:
      for an unknown course it adds a key the list does not have. */
  lemma UpdateKeysMatchIffListed(subs: seq<Subscription>, m: map<string, StatusEntry>, c: string, s: SubscriptionStatus)
    requires KeysMatch(subs, m)
    ensures KeysMatch(SetStatus(subs, c, s), UpdatedMap(m, c, s)) <==> LastFor(subs, c).Some?
  {
  }

  /** After `updateSubscriptionStatus(c, s)` the list and the lookup agree on the status of course `c`. */
  lemma UpdateAgreesOnStatus(subs: seq<Subscription>, m: map<string, StatusEntry>, c: string, s: SubscriptionStatus)
    requires Mirrors(subs, m)
    requires LastFor(subs, c).Some?
    ensures LastFor(SetStatus(subs, c, s), c).Some?
    ensures UpdatedMap(m, c, s)[c] == Full(LastFor(SetStatus(subs, c, s), c).value)
    ensures LastFor(SetStatus(subs, c, s), c).value.status == s
  {
    LastForSetStatus(subs, c, s, c);
  }

  class PaymentStore {
    var subscriptions: seq<Subscription>
    var paymentHistory: seq<Payment>
    var subscriptionStatus: map<string, StatusEntry>

    constructor ()
      ensures subscriptions == [] && paymentHistory == [] && subscriptionStatus == map[]
      ensures Mirrors(subscriptions, subscriptionStatus) && KeysMatch(subscriptions, subscriptionStatus)
    {
      subscriptions := [];
      paymentHistory := [];
      subscriptionStatus := map[];
    }

    method SetSubscriptions(subs: seq<Subscription>)
      modifies this`subscriptions, this`subscriptionStatus
      ensures subscriptions == subs
      ensures subscriptionStatus == StatusMap(subs)
      ensures Mirrors(subscriptions, subscriptionStatus) && KeysMatch(subscriptions, subscriptionStatus)
    {
      StatusMapMirrors(subs);
      subscriptions := subs;
      subscriptionStatus := StatusMap(subs);
    }

    method AddSubscription(sub: Subscription)
      modifies this`subscriptions, this`subscriptionStatus
      ensures subscriptions == old(subscriptions) + [sub]
      ensures subscriptionStatus == old(subscriptionStatus)[sub.courseId := Full(sub)]
      ensures old(Mirrors(subscriptions, subscriptionStatus)) ==> Mirrors(subscriptions, subscriptionStatus)
      ensures old(KeysMatch(subscriptions, subscriptionStatus)) ==> KeysMatch(subscriptions, subscriptionStatus)
    {
      AppendKeepsMirror(subscriptions, subscriptionStatus, sub);
      subscriptions := subscriptions + [sub];
      subscriptionStatus := subscriptionStatus[sub.courseId := Full(sub)];
    }

    /** Newest first. */
    method AddPayment(payment: Payment)
      modifies this`paymentHistory
      ensures paymentHistory == [payment] + old(paymentHistory)
    {
      paymentHistory := [payment] + paymentHistory;
    }

    method UpdateSubscriptionStatus(c: string, s: SubscriptionStatus)
      modifies this`subscriptions, this`subscriptionStatus
      ensures subscriptions == SetStatus(old(subscriptions), c, s)
      ensures subscriptionStatus == UpdatedMap(old(subscriptionStatus), c, s)
      ensures old(Mirrors(subscriptions, subscriptionStatus)) ==> Mirrors(subscriptions, subscriptionStatus)
      ensures old(KeysMatch(subscriptions, subscriptionStatus))
          ==> (KeysMatch(subscriptions, subscriptionStatus) <==> old(LastFor(subscriptions, c)).Some?)
    {
      if Mirrors(subscriptions, subscriptionStatus) {
        UpdateKeepsMirror(subscriptions, subscriptionStatus, c, s);
      }
      if KeysMatch(subscriptions, subscriptionStatus) {
        UpdateKeysMatchIffListed(subscriptions, subscriptionStatus, c, s);
      }
      subscriptions := SetStatus(subscriptions, c, s);
      subscriptionStatus := UpdatedMap(subscriptionStatus, c, s);
    }
  }
}
