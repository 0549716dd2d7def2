/** Billing: signed webhook events of the payment provider, and the state they are reduced to. */
module Billing {
  import opened Wrappers
  import opened Bytes
  import opened Ids

  // --------------------------------------------------------------------------- events

  /** The parts of an event's object that are looked at; a part is absent if it is missing or of another type. */
  datatype EventObject = EventObject(
    organizationId: Option<string>,
    planId: Option<string>,
    customer: Option<string>,
    subscription: Option<string>,
    id: Option<string>,
    status: Option<string>,
    priceId: Option<string>,
    currentPeriodEnd: Option<u64>
  )

  datatype Event = Event(id: Option<string>, kind: Option<string>, item: Option<EventObject>)

  datatype EventRecord = EventRecord(eventId: string, kind: string, processedAt: u64, organizationId: Option<string>,
                                     applied: bool, reason: string)

  datatype Customer = Customer(organizationId: string, customerId: string, updatedAt: u64)

  datatype Subscription = Subscription(
    organizationId: string,
    customerId: string,
    subscriptionId: string,
    status: string,
    planId: Option<string>,
    priceId: Option<string>,
    currentPeriodEnd: Option<u64>,
    entitlementActive: bool,
    updatedAt: u64
  )

  datatype BillingState = BillingState(
    events: map<string, EventRecord>,
    customers: map<string, Customer>,
    subscriptions: map<string, Subscription>
  )

  datatype BillingError = InvalidRequest(what: string) | StripeResponse | InvalidSignature | Io

  datatype Outcome = Outcome(eventId: string, kind: string, duplicate: bool, applied: bool, organizationId: Option<string>,
                             reason: string)

  const EMPTY := BillingState(map[], map[], map[])

  // ------------------------------------------------------------------------ the reducer

  function TrimStart(s: string): string {
    if s != "" && IsWhitespace(s[0]) then TrimStart(s[1..]) else s
  }

  function TrimEnd(s: string): string {
    if s != "" && IsWhitespace(s[|s| - 1]) then TrimEnd(s[..|s| - 1]) else s
  }

  function Trim(s: string): string {
    TrimEnd(TrimStart(s))
  }

  lemma {:induction false} TrimStartShape(s: string) returns (left: string)
    ensures s == left + TrimStart(s) && Blank(left) && (TrimStart(s) != "" ==> !IsWhitespace(TrimStart(s)[0]))
  {
    left := "";
    if s != "" && IsWhitespace(s[0]) {
      var more := TrimStartShape(s[1..]);
      left := [s[0]] + more;
    }
  }

  lemma {:induction false} TrimEndShape(s: string) returns (right: string)
    ensures s == TrimEnd(s) + right && Blank(right)
    ensures TrimEnd(s) != "" ==> TrimEnd(s)[0] == s[0] && !IsWhitespace(TrimEnd(s)[|TrimEnd(s)| - 1])
  {
    right := "";
    if s != "" && IsWhitespace(s[|s| - 1]) {
      var more := TrimEndShape(s[..|s| - 1]);
      right := more + [s[|s| - 1]];
    }
  }

  lemma {:induction false} TrimStartSkips(left: string, rest: string)
    requires Blank(left)
    ensures TrimStart(left + rest) == TrimStart(rest)
  {
    if left == "" {
      assert left + rest == rest;
    } else {
      assert left[0] in left && (left + rest)[1..] == left[1..] + rest;
      TrimStartSkips(left[1..], rest);
    }
  }

  lemma {:induction false} TrimEndSkips(t: string, right: string)
    requires Blank(right) && t != "" && !IsWhitespace(t[|t| - 1])
    ensures TrimEnd(t + right) == t
  {
    if right == "" {
      assert t + right == t;
    } else {
      var n := |right| - 1;
      assert right[n] in right && (t + right)[..|t + right| - 1] == t + right[..n];
      TrimEndSkips(t, right[..n]);
    }
  }

  /** Trimming takes the white space off both ends and nothing else. */
  lemma TrimExactly(s: string, t: string)
    ensures Trim(s) == t <==> exists left, right ::
              && s == left + t + right && Blank(left) && Blank(right)
              && (t != "" ==> !IsWhitespace(t[0]) && !IsWhitespace(t[|t| - 1]))
  {
    if Trim(s) == t {
      var left := TrimStartShape(s);
      var right := TrimEndShape(TrimStart(s));
      assert s == left + t + right;
    }
    if left, right :| s == left + t + right && Blank(left) && Blank(right)
                      && (t != "" ==> !IsWhitespace(t[0]) && !IsWhitespace(t[|t| - 1]))
    {
      assert s == left + (t + right);
      TrimStartSkips(left, t + right);
      if t == "" {
        assert t + right == right && right == right + "";
        TrimStartSkips(right, "");
      } else {
        TrimEndSkips(t, right);
      }
    }
  }

  predicate IdChar(c: char) {
    'a' <= c <= 'z' || 'A' <= c <= 'Z' || '0' <= c <= '9' || c == '_' || c == '-' || c == '.' || c == ':'
  }

  predicate CleanText(s: string) {
    s != "" && ByteLen(s) <= 128 && forall c | c in s :: IdChar(c)
  }

  function CleanId(value: string, name: string): Result<string, BillingError> {
    if CleanText(Trim(value)) then Ok(Trim(value)) else Err(InvalidRequest(name))
  }

  predicate IsCustomer(id: string) {
    "cus_" <= id
  }

  predicate IsSubscription(id: string) {
    "sub_" <= id
  }

  predicate Entitles(status: string) {
    status == "active" || status == "trialing"
  }

  type Reduced = Result<(BillingState, Outcome), BillingError>

  function WithCustomer(s: BillingState, organization: string, customer: string, now: u64)
    : Result<BillingState, BillingError>
  {
    if customer in s.customers && s.customers[customer].organizationId != organization then
      Err(InvalidRequest("stripe customer is already mapped to another organization"))
    else Ok(s.(customers := s.customers[customer := Customer(organization, customer, now)]))
  }

  function CheckoutCompleted(s: BillingState, id: string, kind: string, item: EventObject, now: u64): Reduced {
    if item.organizationId.None? then Err(InvalidRequest("missing organization_id metadata"))
    else
      match CleanId(item.organizationId.value, "organization_id")
      case Err(e) => Err(e)
      case Ok(organization) =>
        var customer, subscription := item.customer.UnwrapOr(""), item.subscription.UnwrapOr("");
        if !IsCustomer(customer) || !IsSubscription(subscription) then
          Err(InvalidRequest("checkout session missing Stripe customer or subscription"))
        else
          match WithCustomer(s, organization, customer, now)
          case Err(e) => Err(e)
          case Ok(t) =>
            var record := if subscription in t.subscriptions then t.subscriptions[subscription]
                          else Subscription(organization, customer, subscription, "checkout_completed", item.planId,
                                            None, None, false, now);
            Ok((t.(subscriptions := t.subscriptions[subscription := record]),
                Outcome(id, kind, false, true, Some(organization), "checkout_customer_subscription_recorded")))
  }

  function SubscriptionEvent(s: BillingState, id: string, kind: string, item: EventObject, now: u64): Reduced {
    var subscription, customer := item.id.UnwrapOr(""), item.customer.UnwrapOr("");
    if !IsSubscription(subscription) || !IsCustomer(customer) then
      Err(InvalidRequest("subscription event missing Stripe customer or subscription"))
    else if customer !in s.customers then
      Ok((s, Outcome(id, kind, false, false, None, "unknown_customer_fail_closed")))
    else
      var organization := s.customers[customer].organizationId;
      var status := item.status.UnwrapOr("unknown");
      var plan := if subscription in s.subscriptions then s.subscriptions[subscription].planId else None;
      var record := Subscription(organization, customer, subscription, status, plan, item.priceId,
                                 item.currentPeriodEnd, Entitles(status), now);
      Ok((s.(subscriptions := s.subscriptions[subscription := record]),
          Outcome(id, kind, false, true, Some(organization), "subscription_state_recorded")))
  }

  predicate AboutSubscription(kind: string) {
    || kind == "customer.subscription.created"
    || kind == "customer.subscription.updated"
    || kind == "customer.subscription.deleted"
  }

  function ApplyEvent(s: BillingState, id: string, kind: string, event: Event, now: u64): Reduced {
    if kind == "checkout.session.completed" || AboutSubscription(kind) then
      if event.item.None? then Err(InvalidRequest("missing Stripe event object"))
      else if AboutSubscription(kind) then SubscriptionEvent(s, id, kind, event.item.value, now)
      else CheckoutCompleted(s, id, kind, event.item.value, now)
    else Ok((s, Outcome(id, kind, false, false, None, "event_type_recorded_only")))
  }

  /** One delivery: the state after it, and the answer, provided it can be stored. */
  function Delivered(s: BillingState, event: Event, now: u64): (BillingState, Result<Outcome, BillingError>) {
    if event.id.None? || event.kind.None? then (s, Err(StripeResponse))
    else
      var id, kind := event.id.value, event.kind.value;
      if id in s.events then (s, Ok(Outcome(id, kind, true, false, None, "already_processed")))
      else
        match ApplyEvent(s, id, kind, event, now)
        case Err(e) => (s, Err(e))
        case Ok((t, outcome)) =>
          var record := EventRecord(id, kind, now, outcome.organizationId, outcome.applied, outcome.reason);
          (t.(events := t.events[id := record]), Ok(outcome))
  }

  datatype Delivery = Delivery(event: Event, now: u64)

  function After(s: BillingState, deliveries: seq<Delivery>): BillingState {
    if deliveries == [] then s
    else
      var n := |deliveries| - 1;
      Delivered(After(s, deliveries[..n]), deliveries[n].event, deliveries[n].now).0
  }

  // ----------------------------------------------------------------- what always holds

  /** Customers and subscriptions are filed under their ids; a subscription is its customer's, and entitles by its status. */
  ghost predicate Consistent(s: BillingState) {
    && (forall c | c in s.customers :: IsCustomer(c) && s.customers[c].customerId == c
            && CleanText(s.customers[c].organizationId))
    && (forall b | b in s.subscriptions ::
          var r := s.subscriptions[b];
          && r.subscriptionId == b && IsSubscription(b)
          && r.customerId in s.customers && r.organizationId == s.customers[r.customerId].organizationId
          && (r.entitlementActive <==> r.status == "active" || r.status == "trialing"))
  }

  /** A customer once known stays with its organisation, and an event once recorded stays as recorded. */
  ghost predicate Faithful(s: BillingState, n: BillingState) {
    && (forall c | c in s.customers :: c in n.customers && n.customers[c].organizationId == s.customers[c].organizationId)
    && (forall e | e in s.events :: e in n.events && n.events[e] == s.events[e])
  }

  predicate BelongsTo(s: BillingState, organization: string, customer: string) {
    customer in s.customers && s.customers[customer].organizationId == organization
  }

  lemma CustomerFiled(s: BillingState, organization: string, customer: string, now: u64)
    requires Consistent(s) && IsCustomer(customer) && CleanText(organization)
    requires WithCustomer(s, organization, customer, now).Ok?
    ensures var n := WithCustomer(s, organization, customer, now).value;
            Consistent(n) && Faithful(s, n) && BelongsTo(n, organization, customer) && n.events == s.events
  {}

  lemma SubscriptionFiled(s: BillingState, subscription: string, r: Subscription)
    requires Consistent(s) && IsSubscription(subscription) && r.subscriptionId == subscription
    requires BelongsTo(s, r.organizationId, r.customerId) && (r.entitlementActive <==> Entitles(r.status))
    ensures var n := s.(subscriptions := s.subscriptions[subscription := r]); Consistent(n) && Faithful(s, n)
  {}

  lemma CheckoutKeeps(s: BillingState, id: string, kind: string, item: EventObject, now: u64)
    requires Consistent(s) && CheckoutCompleted(s, id, kind, item, now).Ok?
    ensures var n := CheckoutCompleted(s, id, kind, item, now).value.0; Consistent(n) && Faithful(s, n)
  {
    var n := CheckoutCompleted(s, id, kind, item, now).value.0;
    var organization := CleanId(item.organizationId.value, "organization_id").value;
    var customer, subscription := item.customer.UnwrapOr(""), item.subscription.UnwrapOr("");
    CustomerFiled(s, organization, customer, now);
    var t := WithCustomer(s, organization, customer, now).value;
    assert !Entitles("checkout_completed");
    SubscriptionFiled(t, subscription, n.subscriptions[subscription]);
  }

  lemma SubscriptionKeeps(s: BillingState, id: string, kind: string, item: EventObject, now: u64)
    requires Consistent(s) && SubscriptionEvent(s, id, kind, item, now).Ok?
    ensures var n := SubscriptionEvent(s, id, kind, item, now).value.0; Consistent(n) && Faithful(s, n)
  {}

  lemma ApplyKeeps(s: BillingState, id: string, kind: string, event: Event, now: u64)
    requires Consistent(s) && ApplyEvent(s, id, kind, event, now).Ok?
    ensures var n := ApplyEvent(s, id, kind, event, now).value.0; Consistent(n) && Faithful(s, n)
  {
    if AboutSubscription(kind) {
      SubscriptionKeeps(s, id, kind, event.item.value, now);
    } else if kind == "checkout.session.completed" {
      CheckoutKeeps(s, id, kind, event.item.value, now);
    }
  }

  lemma AppliedIsNew(s: BillingState, id: string, kind: string, event: Event, now: u64)
    ensures ApplyEvent(s, id, kind, event, now).Ok? ==> !ApplyEvent(s, id, kind, event, now).value.1.duplicate
  {
    if AboutSubscription(kind) {
    } else if kind == "checkout.session.completed" {
    }
  }

  lemma ApplyLeavesEvents(s: BillingState, id: string, kind: string, event: Event, now: u64)
    ensures ApplyEvent(s, id, kind, event, now).Ok? ==> ApplyEvent(s, id, kind, event, now).value.0.events == s.events
  {
    if AboutSubscription(kind) {
    } else if kind == "checkout.session.completed" {
    }
  }

  /** A delivery leaves the state alone, or applies an event that was not recorded and records it. */
  lemma AppliesOrLeaves(s: BillingState, event: Event, now: u64)
    ensures var n := Delivered(s, event, now).0;
            || n == s
            || (&& event.id.Some? && event.kind.Some? && event.id.value !in s.events && event.id.value in n.events
                && ApplyEvent(s, event.id.value, event.kind.value, event, now).Ok?
                && var t := ApplyEvent(s, event.id.value, event.kind.value, event, now).value.0;
                   n == t.(events := t.events[event.id.value := n.events[event.id.value]]))
  {}

  lemma DeliveredKeeps(s: BillingState, event: Event, now: u64)
    requires Consistent(s)
    ensures Consistent(Delivered(s, event, now).0) && Faithful(s, Delivered(s, event, now).0)
  {
    AppliesOrLeaves(s, event, now);
    if Delivered(s, event, now).0 != s {
      ApplyKeeps(s, event.id.value, event.kind.value, event, now);
    }
  }

  /**
   * Over any deliveries, in any order and as often repeated: every subscription is its customer's
   * organisation's, entitlement is on exactly for the statuses that earn it, and no customer ever changes
   * organisation.
   */
  lemma {:induction false} BillingAlways(s: BillingState, deliveries: seq<Delivery>)
    requires Consistent(s)
    ensures Consistent(After(s, deliveries)) && Faithful(s, After(s, deliveries))
  {
    if deliveries == [] {
    } else {
      var n := |deliveries| - 1;
      BillingAlways(s, deliveries[..n]);
      DeliveredKeeps(After(s, deliveries[..n]), deliveries[n].event, deliveries[n].now);
    }
  }

  lemma AfterStep(s: BillingState, deliveries: seq<Delivery>, last: Delivery)
    ensures After(s, deliveries + [last]) == Delivered(After(s, deliveries), last.event, last.now).0
  {
    assert (deliveries + [last])[..|deliveries|] == deliveries;
  }

  lemma {:induction false} AfterConcat(s: BillingState, first: seq<Delivery>, second: seq<Delivery>)
    ensures After(s, first + second) == After(After(s, first), second)
  {
    if second == [] {
      assert first + second == first;
    } else {
      var n := |second| - 1;
      AfterConcat(s, first, second[..n]);
      assert first + second == (first + second[..n]) + [second[n]];
      AfterStep(s, first + second[..n], second[n]);
    }
  }

  /** Deliveries with the redeliveries gone: those whose event was recorded by an earlier one. */
  function Firsts(s: BillingState, deliveries: seq<Delivery>): seq<Delivery> {
    if deliveries == [] then []
    else
      var n := |deliveries| - 1;
      var id := deliveries[n].event.id;
      Firsts(s, deliveries[..n])
      + if id.Some? && id.value in After(s, deliveries[..n]).events then [] else [deliveries[n]]
  }

  /** Redeliveries of recorded events, wherever they come and whatever they hold, make no difference. */
  lemma {:induction false} RedeliveriesDoNotMatter(s: BillingState, deliveries: seq<Delivery>)
    ensures After(s, Firsts(s, deliveries)) == After(s, deliveries)
  {
    if deliveries != [] {
      var n := |deliveries| - 1;
      RedeliveriesDoNotMatter(s, deliveries[..n]);
      var firsts, last := Firsts(s, deliveries[..n]), deliveries[n];
      if last.event.id.Some? && last.event.id.value in After(s, deliveries[..n]).events {
        AppliesOrLeaves(After(s, deliveries[..n]), last.event, last.now);
        assert Firsts(s, deliveries) == firsts;
      } else {
        AfterStep(s, firsts, last);
      }
    }
  }

  /** The deliveries that were answered without an error. */
  function Accepted(s: BillingState, deliveries: seq<Delivery>): seq<Delivery> {
    if deliveries == [] then []
    else
      var n := |deliveries| - 1;
      var last := deliveries[n];
      Accepted(s, deliveries[..n])
      + if Delivered(After(s, deliveries[..n]), last.event, last.now).1.Ok? then [last] else []
  }

  /**
   * A rejected event leaves no trace: everything after it comes out as if it had never been delivered, so that
   * a corrected delivery of it is judged afresh.
   */
  lemma {:induction false} RejectionsLeaveNoTrace(s: BillingState, deliveries: seq<Delivery>)
    ensures After(s, Accepted(s, deliveries)) == After(s, deliveries)
  {
    if deliveries != [] {
      var n := |deliveries| - 1;
      var accepted, last := Accepted(s, deliveries[..n]), deliveries[n];
      RejectionsLeaveNoTrace(s, deliveries[..n]);
      if Delivered(After(s, deliveries[..n]), last.event, last.now).1.Ok? {
        AfterStep(s, accepted, last);
      } else {
        assert Accepted(s, deliveries) == accepted;
      }
    }
  }

  // ------------------------------------------------------------ whose customer it is

  /** The delivery is a checkout of this customer that is taken up. */
  predicate Maps(s: BillingState, d: Delivery, customer: string) {
    && d.event.kind == Some("checkout.session.completed") && d.event.item.Some?
    && d.event.item.value.customer == Some(customer)
    && Delivered(s, d.event, d.now).1.Ok? && !Delivered(s, d.event, d.now).1.value.duplicate
  }

  function NamedOrganization(d: Delivery): string {
    if d.event.item.Some? then Trim(d.event.item.value.organizationId.UnwrapOr("")) else ""
  }

  lemma CheckoutMaps(s: BillingState, id: string, kind: string, item: EventObject, now: u64)
    requires CheckoutCompleted(s, id, kind, item, now).Ok?
    ensures item.customer.Some? && item.organizationId.Some?
    ensures var n := CheckoutCompleted(s, id, kind, item, now).value.0;
            n.customers == s.customers[item.customer.value := Customer(Trim(item.organizationId.value), item.customer.value, now)]
    ensures !CheckoutCompleted(s, id, kind, item, now).value.1.duplicate
  {
    assert !IsCustomer("");
  }

  lemma OnlyCheckoutsMap(s: BillingState, d: Delivery, customer: string)
    ensures var n := Delivered(s, d.event, d.now).0;
            && (customer in n.customers <==> customer in s.customers || Maps(s, d, customer))
            && (customer in n.customers && customer !in s.customers ==>
                  n.customers[customer].organizationId == NamedOrganization(d))
  {
    var e := d.event;
    AppliesOrLeaves(s, e, d.now);
    if e.id.Some? && e.kind == Some("checkout.session.completed") && e.item.Some? && e.id.value !in s.events {
      assert !AboutSubscription("checkout.session.completed");
      if CheckoutCompleted(s, e.id.value, e.kind.value, e.item.value, d.now).Ok? {
        CheckoutMaps(s, e.id.value, e.kind.value, e.item.value, d.now);
      }
    }
  }

  /** The first of the deliveries that is a checkout of this customer and taken up. */
  ghost predicate FirstToMap(deliveries: seq<Delivery>, i: int, customer: string) {
    && 0 <= i < |deliveries| && Maps(After(EMPTY, deliveries[..i]), deliveries[i], customer)
    && forall j | 0 <= j < i :: !Maps(After(EMPTY, deliveries[..j]), deliveries[j], customer)
  }

  lemma {:induction false} UnmappedIsUnknown(deliveries: seq<Delivery>, customer: string)
    requires forall j | 0 <= j < |deliveries| :: !Maps(After(EMPTY, deliveries[..j]), deliveries[j], customer)
    ensures customer !in After(EMPTY, deliveries).customers
  {
    if deliveries != [] {
      var n := |deliveries| - 1;
      forall j | 0 <= j < n
        ensures !Maps(After(EMPTY, deliveries[..n][..j]), deliveries[..n][j], customer)
      {
        assert deliveries[..n][..j] == deliveries[..j];
      }
      UnmappedIsUnknown(deliveries[..n], customer);
      OnlyCheckoutsMap(After(EMPTY, deliveries[..n]), deliveries[n], customer);
    }
  }

  lemma UnknownBeforeFirst(deliveries: seq<Delivery>, i: int, customer: string)
    requires FirstToMap(deliveries, i, customer)
    ensures customer !in After(EMPTY, deliveries[..i]).customers
  {
    forall j | 0 <= j < i
      ensures !Maps(After(EMPTY, deliveries[..i][..j]), deliveries[..i][j], customer)
    {
      assert deliveries[..i][..j] == deliveries[..j];
    }
    UnmappedIsUnknown(deliveries[..i], customer);
  }

  lemma MappingBelongs(s: BillingState, d: Delivery, customer: string)
    requires customer !in s.customers && Maps(s, d, customer)
    ensures BelongsTo(Delivered(s, d.event, d.now).0, NamedOrganization(d), customer)
  {
    OnlyCheckoutsMap(s, d, customer);
  }

  lemma FirstMappingNow(deliveries: seq<Delivery>, i: int, customer: string)
    requires FirstToMap(deliveries, i, customer)
    ensures BelongsTo(After(EMPTY, deliveries[..i + 1]), NamedOrganization(deliveries[i]), customer)
  {
    UnknownBeforeFirst(deliveries, i, customer);
    MappingBelongs(After(EMPTY, deliveries[..i]), deliveries[i], customer);
    assert deliveries[..i + 1] == deliveries[..i] + [deliveries[i]];
    AfterStep(EMPTY, deliveries[..i], deliveries[i]);
  }

  lemma AfterSplit(s: BillingState, deliveries: seq<Delivery>, k: nat)
    requires k <= |deliveries|
    ensures After(s, deliveries) == After(After(s, deliveries[..k]), deliveries[k..])
  {
    AfterConcat(s, deliveries[..k], deliveries[k..]);
    assert deliveries == deliveries[..k] + deliveries[k..];
  }

  lemma AlwaysConsistent(deliveries: seq<Delivery>)
    ensures Consistent(After(EMPTY, deliveries))
  {
    BillingAlways(EMPTY, deliveries);
  }

  lemma BelongsForever(s: BillingState, deliveries: seq<Delivery>, organization: string, customer: string)
    requires Consistent(s) && BelongsTo(s, organization, customer)
    ensures BelongsTo(After(s, deliveries), organization, customer)
  {
    BillingAlways(s, deliveries);
  }

  lemma FirstMappingStays(deliveries: seq<Delivery>, i: int, customer: string)
    requires FirstToMap(deliveries, i, customer)
    ensures BelongsTo(After(EMPTY, deliveries), NamedOrganization(deliveries[i]), customer)
  {
    FirstMappingNow(deliveries, i, customer);
    AlwaysConsistent(deliveries[..i + 1]);
    BelongsForever(After(EMPTY, deliveries[..i + 1]), deliveries[i + 1..], NamedOrganization(deliveries[i]), customer);
    AfterSplit(EMPTY, deliveries, i + 1);
  }

  lemma {:induction false} SomeMappingIsFirst(deliveries: seq<Delivery>, i: int, customer: string) returns (first: int)
    requires 0 <= i < |deliveries| && Maps(After(EMPTY, deliveries[..i]), deliveries[i], customer)
    ensures FirstToMap(deliveries, first, customer)
    decreases i
  {
    if j :| 0 <= j < i && Maps(After(EMPTY, deliveries[..j]), deliveries[j], customer) {
      first := SomeMappingIsFirst(deliveries, j, customer);
    } else {
      first := i;
    }
  }

  /**
   * Whose customer it is: over any deliveries a customer belongs to an organisation exactly if the first checkout
   * of that customer that was taken up named it, whatever is delivered afterwards.
   */
  lemma CustomerKeepsFirstOrganization(deliveries: seq<Delivery>, organization: string, customer: string)
    ensures BelongsTo(After(EMPTY, deliveries), organization, customer)
       <==> exists i :: FirstToMap(deliveries, i, customer) && NamedOrganization(deliveries[i]) == organization
  {
    if i :| 0 <= i < |deliveries| && Maps(After(EMPTY, deliveries[..i]), deliveries[i], customer) {
      var first := SomeMappingIsFirst(deliveries, i, customer);
      FirstMappingStays(deliveries, first, customer);
      forall k | FirstToMap(deliveries, k, customer)
        ensures k == first
      {
      }
    } else {
      UnmappedIsUnknown(deliveries, customer);
    }
  }

  // ------------------------------------------------------------ what becomes of an event

  /** What may name an organisation: one to 128 letters, digits, underscores, hyphens, periods or colons. */
  predicate NamesOrganization(s: string) {
    && 1 <= |s| <= 128
    && forall i | 0 <= i < |s| ::
         || 'a' <= s[i] <= 'z' || 'A' <= s[i] <= 'Z' || '0' <= s[i] <= '9'
         || s[i] == '_' || s[i] == '-' || s[i] == '.' || s[i] == ':'
  }

  lemma CleanTextNames(s: string)
    ensures CleanText(s) <==> NamesOrganization(s)
  {
    if CleanText(s) || NamesOrganization(s) {
      assert forall i | 0 <= i < |s| :: s[i] in s && IdChar(s[i]);
      AsciiLength(s);
    }
  }

  /** The event is of one of the three kinds about a subscription. */
  predicate IsUpdate(kind: string) {
    || kind == "customer.subscription.created" || kind == "customer.subscription.updated"
    || kind == "customer.subscription.deleted"
  }

  /** A checkout that names an organisation, a customer and a subscription, the customer of nobody else's. */
  predicate GoodCheckout(s: BillingState, item: EventObject) {
    && item.organizationId.Some? && NamesOrganization(Trim(item.organizationId.value))
    && item.customer.Some? && "cus_" <= item.customer.value && item.subscription.Some? && "sub_" <= item.subscription.value
    && (item.customer.value in s.customers ==>
          s.customers[item.customer.value].organizationId == Trim(item.organizationId.value))
  }

  predicate GoodUpdate(item: EventObject) {
    item.id.Some? && "sub_" <= item.id.value && item.customer.Some? && "cus_" <= item.customer.value
  }

  /** An event is rejected exactly if it lacks what its kind needs, or claims a customer for another organisation. */
  predicate Lacks(s: BillingState, kind: string, item: Option<EventObject>) {
    if kind == "checkout.session.completed" then item.None? || !GoodCheckout(s, item.value)
    else IsUpdate(kind) && (item.None? || !GoodUpdate(item.value))
  }

  lemma CheckoutTaken(s: BillingState, id: string, kind: string, item: EventObject, now: u64)
    ensures CheckoutCompleted(s, id, kind, item, now).Ok? <==> GoodCheckout(s, item)
    ensures CheckoutCompleted(s, id, kind, item, now).Err? ==> CheckoutCompleted(s, id, kind, item, now).error.InvalidRequest?
    ensures CheckoutCompleted(s, id, kind, item, now).Ok? ==> CheckoutCompleted(s, id, kind, item, now).value.1.applied
  {
    if item.organizationId.Some? {
      CleanTextNames(Trim(item.organizationId.value));
    }
    assert !IsCustomer("") && !IsSubscription("");
  }

  lemma UpdateTaken(s: BillingState, id: string, kind: string, item: EventObject, now: u64)
    ensures var r := SubscriptionEvent(s, id, kind, item, now);
            && (r.Ok? <==> GoodUpdate(item)) && (r.Err? ==> r.error.InvalidRequest?)
            && (r.Ok? ==> (r.value.1.applied <==> item.customer.value in s.customers))
            && (r.Ok? && !r.value.1.applied ==> r.value.0 == s)
  {
    assert !IsCustomer("") && !IsSubscription("");
  }

  lemma KindsApart(kind: string)
    requires kind == "checkout.session.completed"
    ensures !IsUpdate(kind)
  {
    assert kind[0] == 'c' && kind[1] == 'h';
  }

  lemma AppliedExactly(s: BillingState, id: string, kind: string, event: Event, now: u64)
    ensures var r := ApplyEvent(s, id, kind, event, now);
            && (r.Err? <==> Lacks(s, kind, event.item))
            && (r.Err? ==> r.error.InvalidRequest?)
            && (r.Ok? ==>
                 && (r.value.1.applied <==>
                       || kind == "checkout.session.completed"
                       || (IsUpdate(kind) && event.item.value.customer.value in s.customers))
                 && (!r.value.1.applied ==> r.value.0 == s))
  {
    assert AboutSubscription(kind) <==> IsUpdate(kind);
    if kind == "checkout.session.completed" {
      KindsApart(kind);
      if event.item.Some? {
        CheckoutTaken(s, id, kind, event.item.value, now);
      }
    } else if IsUpdate(kind) && event.item.Some? {
      UpdateTaken(s, id, kind, event.item.value, now);
    }
  }

  /**
   * What becomes of any delivery: without an id or a kind, or lacking what its kind needs, it is rejected; one that
   * was recorded before is answered as a duplicate; a new one is recorded, and changes customers and subscriptions
   * only if it is a checkout, or an update about a customer who is known: everything else fails closed.
   */
  lemma DeliveryExactly(s: BillingState, event: Event, now: u64)
    ensures var (n, r) := Delivered(s, event, now);
            && (r == Err(StripeResponse) <==> event.id.None? || event.kind.None?)
            && (r.Err? <==>
                  || event.id.None? || event.kind.None?
                  || (event.id.value !in s.events && Lacks(s, event.kind.value, event.item)))
            && (r.Err? ==> n == s)
            && (r.Ok? ==>
                 && (r.value.duplicate <==> event.id.value in s.events)
                 && (r.value.duplicate ==> n == s && !r.value.applied)
                 && n.events.Keys == s.events.Keys + {event.id.value}
                 && (r.value.applied <==>
                       && !r.value.duplicate
                       && (|| event.kind == Some("checkout.session.completed")
                           || (IsUpdate(event.kind.value) && event.item.value.customer.value in s.customers)))
                 && (!r.value.applied ==> n.customers == s.customers && n.subscriptions == s.subscriptions))
  {
    if event.id.Some? && event.kind.Some? {
      AppliedExactly(s, event.id.value, event.kind.value, event, now);
      ApplyLeavesEvents(s, event.id.value, event.kind.value, event, now);
      AppliedIsNew(s, event.id.value, event.kind.value, event, now);
    }
  }

  /** What an event that is not a duplicate comes to: the organisation it is about, whether it applies, and why. */
  function Fate(s: BillingState, kind: string, item: Option<EventObject>): (Option<string>, bool, string)
    requires !Lacks(s, kind, item)
  {
    if kind == "checkout.session.completed" then
      (Some(Trim(item.value.organizationId.value)), true, "checkout_customer_subscription_recorded")
    else if !IsUpdate(kind) then (None, false, "event_type_recorded_only")
    else if item.value.customer.value !in s.customers then (None, false, "unknown_customer_fail_closed")
    else (Some(s.customers[item.value.customer.value].organizationId), true, "subscription_state_recorded")
  }

  lemma FateOfCheckout(s: BillingState, id: string, kind: string, item: EventObject, now: u64)
    requires kind == "checkout.session.completed" && GoodCheckout(s, item)
    ensures var r := CheckoutCompleted(s, id, kind, item, now);
            var fate := Fate(s, kind, Some(item));
            r.Ok? && r.value.1 == Outcome(id, kind, false, fate.1, fate.0, fate.2)
  {
    CheckoutTaken(s, id, kind, item, now);
  }

  lemma FateOfUpdate(s: BillingState, id: string, kind: string, item: EventObject, now: u64)
    requires IsUpdate(kind) && kind != "checkout.session.completed" && GoodUpdate(item)
    ensures var r := SubscriptionEvent(s, id, kind, item, now);
            var fate := Fate(s, kind, Some(item));
            r.Ok? && r.value.1 == Outcome(id, kind, false, fate.1, fate.0, fate.2)
  {
    UpdateTaken(s, id, kind, item, now);
  }

  lemma FateExactly(s: BillingState, id: string, kind: string, event: Event, now: u64)
    requires !Lacks(s, kind, event.item)
    ensures var r := ApplyEvent(s, id, kind, event, now);
            var fate := Fate(s, kind, event.item);
            r.Ok? && r.value.1 == Outcome(id, kind, false, fate.1, fate.0, fate.2)
  {
    assert AboutSubscription(kind) <==> IsUpdate(kind);
    if kind == "checkout.session.completed" {
      KindsApart(kind);
      FateOfCheckout(s, id, kind, event.item.value, now);
    } else if IsUpdate(kind) {
      FateOfUpdate(s, id, kind, event.item.value, now);
    }
  }

  /** What is answered to a delivery and what is recorded of it, word for word. */
  lemma AnswerExactly(s: BillingState, event: Event, now: u64)
    requires event.id.Some? && event.kind.Some?
    requires event.id.value in s.events || !Lacks(s, event.kind.value, event.item)
    ensures var id, kind := event.id.value, event.kind.value;
            var (n, r) := Delivered(s, event, now);
            if id in s.events then r == Ok(Outcome(id, kind, true, false, None, "already_processed"))
            else
              var fate := Fate(s, kind, event.item);
              && r == Ok(Outcome(id, kind, false, fate.1, fate.0, fate.2))
              && n.events == s.events[id := EventRecord(id, kind, now, fate.0, fate.1, fate.2)]
  {
    if event.id.value !in s.events {
      FateExactly(s, event.id.value, event.kind.value, event, now);
      ApplyLeavesEvents(s, event.id.value, event.kind.value, event, now);
    }
  }

  /** An event about this subscription of this customer, with this status. */
  predicate SubscriptionUpdate(event: Event, customer: string, subscription: string, status: string) {
    && event.id.Some? && event.item.Some?
    && (|| event.kind == Some("customer.subscription.created") || event.kind == Some("customer.subscription.updated")
        || event.kind == Some("customer.subscription.deleted"))
    && event.item.value.customer == Some(customer) && event.item.value.id == Some(subscription)
    && event.item.value.status == Some(status)
  }

  predicate Checkout(event: Event, organization: string, customer: string, subscription: string) {
    && event.id.Some? && event.kind == Some("checkout.session.completed") && event.item.Some?
    && event.item.value.organizationId == Some(organization) && CleanText(Trim(organization))
    && event.item.value.customer == Some(customer) && "cus_" <= customer
    && event.item.value.subscription == Some(subscription) && "sub_" <= subscription
  }

  lemma CheckoutRecords(s: BillingState, event: Event, organization: string, customer: string, subscription: string, now: u64)
    requires Checkout(event, organization, customer, subscription) && event.id.value !in s.events
    requires customer !in s.customers && subscription !in s.subscriptions
    ensures var (n, r) := Delivered(s, event, now);
            && r.Ok? && r.value.applied && event.id.value in n.events
            && n.customers == s.customers[customer := Customer(Trim(organization), customer, now)]
            && subscription in n.subscriptions
            && n.subscriptions[subscription]
               == Subscription(Trim(organization), customer, subscription, "checkout_completed", event.item.value.planId,
                               None, None, false, now)
            && n.events.Keys == s.events.Keys + {event.id.value}
  {
    assert !AboutSubscription("checkout.session.completed");
    var applied := CheckoutCompleted(s, event.id.value, "checkout.session.completed", event.item.value, now);
    assert ApplyEvent(s, event.id.value, "checkout.session.completed", event, now) == applied;
  }

  lemma UpdateRecords(s: BillingState, event: Event, customer: string, subscription: string, status: string, now: u64)
    requires SubscriptionUpdate(event, customer, subscription, status) && event.id.value !in s.events
    requires "cus_" <= customer && "sub_" <= subscription && customer in s.customers
    ensures var (n, r) := Delivered(s, event, now);
            && r.Ok? && r.value.applied && n.customers == s.customers
            && subscription in n.subscriptions
            && n.subscriptions[subscription].organizationId == s.customers[customer].organizationId
            && n.subscriptions[subscription].status == status
            && n.subscriptions[subscription].customerId == customer
            && n.subscriptions[subscription].planId
               == (if subscription in s.subscriptions then s.subscriptions[subscription].planId else None)
            && n.subscriptions[subscription].currentPeriodEnd == event.item.value.currentPeriodEnd
            && n.subscriptions[subscription].updatedAt == now
            && n.subscriptions[subscription].priceId == event.item.value.priceId
            && (n.subscriptions[subscription].entitlementActive <==> status == "active" || status == "trialing")
  {
    var applied := SubscriptionEvent(s, event.id.value, event.kind.value, event.item.value, now);
    assert ApplyEvent(s, event.id.value, event.kind.value, event, now) == applied;
  }

  /**
   * From checkout to entitlement: the plan bought at checkout stays with the subscription, which belongs to the
   * organisation of the checkout and entitles it exactly while its last status says so.
   */
  lemma CheckoutThenUpdate(
    s: BillingState, checkout: Event, organization: string, customer: string, subscription: string, now: u64,
    update: Event, status: string, later: u64
  )
    requires Checkout(checkout, organization, customer, subscription)
    requires SubscriptionUpdate(update, customer, subscription, status)
    requires checkout.id != update.id && checkout.id.value !in s.events && update.id.value !in s.events
    requires customer !in s.customers && subscription !in s.subscriptions
    ensures var n := Delivered(Delivered(s, checkout, now).0, update, later).0;
            && subscription in n.subscriptions
            && n.subscriptions[subscription].organizationId == Trim(organization)
            && n.subscriptions[subscription].planId == checkout.item.value.planId
            && (n.subscriptions[subscription].entitlementActive <==> status == "active" || status == "trialing")
  {
    CheckoutRecords(s, checkout, organization, customer, subscription, now);
    UpdateRecords(Delivered(s, checkout, now).0, update, customer, subscription, status, later);
  }

  /** After any deliveries, an entitlement is on exactly for a subscription whose status is active or trialing. */
  lemma EntitledExactly(deliveries: seq<Delivery>, subscription: string)
    requires subscription in After(EMPTY, deliveries).subscriptions
    ensures var r := After(EMPTY, deliveries).subscriptions[subscription];
            r.entitlementActive <==> r.status == "active" || r.status == "trialing"
  {
    AlwaysConsistent(deliveries);
  }

  /** The delivery may be about this subscription. */
  predicate Concerns(d: Delivery, subscription: string) {
    d.event.item.Some? && (d.event.item.value.id == Some(subscription) || d.event.item.value.subscription == Some(subscription))
  }

  lemma OtherUpdateLeaves(s: BillingState, id: string, kind: string, item: EventObject, now: u64, subscription: string)
    requires item.id != Some(subscription) && subscription in s.subscriptions && subscription != ""
    ensures var r := SubscriptionEvent(s, id, kind, item, now);
            r.Ok? ==> subscription in r.value.0.subscriptions
                      && r.value.0.subscriptions[subscription] == s.subscriptions[subscription]
  {}

  lemma OtherCheckoutLeaves(s: BillingState, id: string, kind: string, item: EventObject, now: u64, subscription: string)
    requires item.subscription != Some(subscription) && subscription in s.subscriptions && subscription != ""
    ensures var r := CheckoutCompleted(s, id, kind, item, now);
            r.Ok? ==> subscription in r.value.0.subscriptions
                      && r.value.0.subscriptions[subscription] == s.subscriptions[subscription]
  {}

  lemma OtherEventLeaves(s: BillingState, id: string, kind: string, event: Event, now: u64, subscription: string)
    requires event.item.Some? ==> event.item.value.id != Some(subscription) && event.item.value.subscription != Some(subscription)
    requires subscription in s.subscriptions && subscription != ""
    ensures var r := ApplyEvent(s, id, kind, event, now);
            r.Ok? ==> subscription in r.value.0.subscriptions
                      && r.value.0.subscriptions[subscription] == s.subscriptions[subscription]
  {
    if event.item.Some? {
      OtherUpdateLeaves(s, id, kind, event.item.value, now, subscription);
      OtherCheckoutLeaves(s, id, kind, event.item.value, now, subscription);
    }
  }

  lemma OtherDeliveryLeaves(s: BillingState, d: Delivery, subscription: string)
    requires !Concerns(d, subscription) && subscription in s.subscriptions && subscription != ""
    ensures var n := Delivered(s, d.event, d.now).0;
            subscription in n.subscriptions && n.subscriptions[subscription] == s.subscriptions[subscription]
  {
    if d.event.id.Some? && d.event.kind.Some? {
      OtherEventLeaves(s, d.event.id.value, d.event.kind.value, d.event, d.now, subscription);
    }
  }

  lemma {:induction false} OtherDeliveriesLeave(s: BillingState, deliveries: seq<Delivery>, subscription: string)
    requires (forall d | d in deliveries :: !Concerns(d, subscription)) && subscription in s.subscriptions && subscription != ""
    ensures var n := After(s, deliveries);
            subscription in n.subscriptions && n.subscriptions[subscription] == s.subscriptions[subscription]
  {
    if deliveries != [] {
      var k := |deliveries| - 1;
      OtherDeliveriesLeave(s, deliveries[..k], subscription);
      OtherDeliveryLeaves(After(s, deliveries[..k]), deliveries[k], subscription);
    }
  }

  /**
   * The life of an entitlement: once an update is taken up, and until something else is delivered about the
   * subscription, it is on if the update said "active" or "trialing", and off if it said "canceled" or "past_due".
   */
  lemma StatusLasts(before: seq<Delivery>, update: Delivery, after: seq<Delivery>, customer: string, subscription: string,
                    status: string)
    requires SubscriptionUpdate(update.event, customer, subscription, status)
    requires var s := After(EMPTY, before);
             update.event.id.value !in s.events && customer in s.customers && subscription in s.subscriptions
    requires forall d | d in after :: !Concerns(d, subscription)
    ensures var n := After(EMPTY, before + [update] + after);
            && subscription in n.subscriptions && n.subscriptions[subscription].status == status
            && (status == "active" || status == "trialing" ==> n.subscriptions[subscription].entitlementActive)
            && (status == "canceled" || status == "past_due" ==> !n.subscriptions[subscription].entitlementActive)
  {
    var s := After(EMPTY, before);
    AlwaysConsistent(before);
    UpdateRecords(s, update.event, customer, subscription, status, update.now);
    AfterStep(EMPTY, before, update);
    AfterConcat(EMPTY, before + [update], after);
    OtherDeliveriesLeave(After(EMPTY, before + [update]), after, subscription);
    NamedStatuses(status);
  }

  lemma NamedStatuses(status: string)
    ensures status == "canceled" || status == "past_due" ==> status != "active" && status != "trialing"
  {
    assert |"canceled"| == |"past_due"| == |"trialing"| == 8 && |"active"| == 6;
    assert "canceled"[0] != "trialing"[0] && "past_due"[0] != "trialing"[0];
  }

  // --------------------------------------------------------------------- the signature

  const TOLERANCE: u64 := 300

  function IndexOf(s: string, c: char): (i: nat)
    ensures i <= |s| && (i < |s| ==> s[i] == c) && c !in s[..i]
  {
    if s == "" || s[0] == c then 0 else
      var i := 1 + IndexOf(s[1..], c);
      assert s[..i] == [s[0]] + s[1..][..i - 1];
      i
  }

  /** The header field `key=value`, if this piece is one with this key. */
  function Field(piece: string, key: string): Option<string> {
    var i := IndexOf(piece, '=');
    if i < |piece| && piece[..i] == key then Some(piece[i + 1..]) else None
  }

  predicate IsDigit(c: char) {
    '0' <= c <= '9'
  }

  function DigitsValue(s: string): nat
    requires forall c | c in s :: IsDigit(c)
  {
    if s == "" then 0
    else
      var last := s[|s| - 1];
      assert last in s && IsDigit(last) && last as int >= 48;
      DigitsValue(s[..|s| - 1]) * 10 + (last as int - 48)
  }

  /** An unsigned 64-bit number as Rust parses one: a plus sign and leading zeros are allowed, nothing else is. */
  function ParseU64(s: string): Option<u64> {
    var digits := if s != "" && s[0] == '+' then s[1..] else s;
    if digits == "" || exists c :: c in digits && !IsDigit(c) then None
    else if DigitsValue(digits) > U64_MAX then None
    else Some(DigitsValue(digits))
  }

  lemma {:induction false} DecimalReadsBack(n: nat)
    ensures (forall c | c in Decimal(n) :: IsDigit(c)) && DigitsValue(Decimal(n)) == n
  {
    if n < 10 {
      assert DigitsValue("") == 0;
      assert [Digit(n)][..0] == "";
    } else {
      DecimalReadsBack(n / 10);
      DecimalParts(n);
    }
  }

  /** A timestamp the provider writes is read back as the number that is then signed. */
  lemma TimestampReadsBack(n: u64)
    ensures ParseU64(Decimal(n)) == Some(n)
  {
    DecimalReadsBack(n);
    assert Decimal(n)[0] in Decimal(n);
  }

  function Zeros(n: nat): string {
    if n == 0 then "" else Zeros(n - 1) + "0"
  }

  lemma DecimalSnoc(n: nat, d: nat)
    requires n > 0 && d < 10
    ensures Decimal(n * 10 + d) == Decimal(n) + [Digit(d)]
  {}

  lemma DigitAfter(before: string, last: char, zeros: nat) returns (more: nat)
    requires before != "" && forall c | c in before + [last] :: IsDigit(c)
    requires (forall c | c in before :: IsDigit(c)) && before == Zeros(zeros) + Decimal(DigitsValue(before))
    requires IsDigit(last) && last as int >= 48
    ensures before + [last] == Zeros(more) + Decimal(DigitsValue(before) * 10 + (last as int - 48))
  {
    var d := last as int - 48;
    assert Digit(d) == last;
    if DigitsValue(before) == 0 {
      more := zeros + 1;
      assert Decimal(0) == "0" && Decimal(d) == [last];
    } else {
      more := zeros;
      DecimalSnoc(DigitsValue(before), d);
    }
  }

  /** A run of digits is some zeros and the decimal form of its value. */
  lemma {:induction false} DigitsShape(s: string) returns (zeros: nat)
    requires s != "" && forall c | c in s :: IsDigit(c)
    ensures s == Zeros(zeros) + Decimal(DigitsValue(s))
  {
    var before, last := s[..|s| - 1], s[|s| - 1];
    assert last in s && s == before + [last];
    var d := last as int - 48;
    assert Digit(d) == last;
    if before == "" {
      zeros := 0;
      assert DigitsValue("") == 0;
    } else {
      var k := DigitsShape(before);
      zeros := DigitAfter(before, last, k);
    }
  }

  lemma {:induction false} ZerosAreNothing(zeros: nat, s: string)
    requires s != "" && forall c | c in s :: IsDigit(c)
    ensures (forall c | c in Zeros(zeros) + s :: IsDigit(c)) && DigitsValue(Zeros(zeros) + s) == DigitsValue(s)
  {
    if zeros == 0 {
      assert "" + s == s;
    } else {
      var more := "0" + s;
      MoreZeros(s);
      ZerosAreNothing(zeros - 1, more);
      assert Zeros(zeros) + s == Zeros(zeros - 1) + more;
    }
  }

  lemma {:induction false} MoreZeros(s: string)
    requires forall c | c in s :: IsDigit(c)
    ensures (forall c | c in "0" + s :: IsDigit(c)) && DigitsValue("0" + s) == DigitsValue(s)
  {
    var more := "0" + s;
    if s == "" {
      assert more[..0] == "" && DigitsValue("") == 0;
    } else {
      assert more[..|more| - 1] == "0" + s[..|s| - 1];
      MoreZeros(s[..|s| - 1]);
    }
  }

  /** What reads as a number: a plus sign or not, any zeros, and the number's decimal form. */
  lemma ParsedExactly(s: string, n: u64)
    ensures ParseU64(s) == Some(n) <==> exists zeros: nat :: s == Zeros(zeros) + Decimal(n) || s == "+" + (Zeros(zeros) + Decimal(n))
  {
    var digits := if s != "" && s[0] == '+' then s[1..] else s;
    if ParseU64(s) == Some(n) {
      var zeros := DigitsShape(digits);
      assert s == digits || s == "+" + digits;
    }
    if zeros: nat :| s == Zeros(zeros) + Decimal(n) || s == "+" + (Zeros(zeros) + Decimal(n)) {
      DecimalReadsBack(n);
      ZerosAreNothing(zeros, Decimal(n));
      var plain := Zeros(zeros) + Decimal(n);
      assert plain[0] in plain && IsDigit(plain[0]);
      assert digits == plain;
    }
  }

  /** The last timestamp field decides, readable or not. */
  function TimestampOf(pieces: seq<string>): Option<u64> {
    if pieces == [] then None
    else
      var n := |pieces| - 1;
      match Field(pieces[n], "t")
      case Some(v) => ParseU64(v)
      case None => TimestampOf(pieces[..n])
  }

  function SignaturesOf(pieces: seq<string>): seq<string> {
    if pieces == [] then []
    else
      var n := |pieces| - 1;
      SignaturesOf(pieces[..n]) + match Field(pieces[n], "v1") case Some(v) => [v] case None => []
  }

  /** The signed text, and its keyed digest in hexadecimal. */
  type Mac = (string, seq<byte>) -> string

  function Signed(timestamp: u64, body: seq<byte>): seq<byte> {
    Utf8(Decimal(timestamp)) + Utf8(".") + body
  }

  /** A byte loop without an early exit. */
  method ConstantTimeEq(left: seq<bv8>, right: seq<bv8>) returns (equal: bool)
    ensures equal <==> left == right
  {
    if |left| != |right| {
      return false;
    }
    var acc: bv8 := 0;
    var i := 0;
    while i < |left|
      invariant 0 <= i <= |left|
      invariant acc == 0 <==> left[..i] == right[..i]
    {
      var next := acc | (left[i] ^ right[i]);
      OrOfXor(acc, left[i], right[i]);
      assert left[..i + 1] == left[..i] + [left[i]] && right[..i + 1] == right[..i] + [right[i]];
      acc := next;
      i := i + 1;
    }
    assert left[..i] == left && right[..i] == right;
    equal := acc == 0;
  }

  lemma OrOfXor(acc: bv8, x: bv8, y: bv8)
    ensures acc | (x ^ y) == 0 <==> acc == 0 && x == y
  {}

  /**
   * A webhook is accepted exactly if its last timestamp field is a number at most 300 seconds from now either
   * way, and one of its signatures is the digest of that number, a dot and the body.
   */
  method VerifySignature(mac: Mac, secret: string, header: string, body: seq<byte>, now: u64) returns (ok: bool)
    ensures var pieces := Split(header, ',');
            var stamp := TimestampOf(pieces);
            ok <==> && stamp.Some? && -300 <= stamp.value - now <= 300
                    && mac(secret, Utf8(Decimal(stamp.value)) + [46] + body) in SignaturesOf(pieces)
  {
    var pieces := Split(header, ',');
    var timestamp: Option<u64> := None;
    var signatures: seq<string> := [];
    var i := 0;
    while i < |pieces|
      invariant 0 <= i <= |pieces|
      invariant timestamp == TimestampOf(pieces[..i]) && signatures == SignaturesOf(pieces[..i])
    {
      var at := IndexOf(pieces[i], '=');
      assert pieces[..i + 1][..i] == pieces[..i];
      if at < |pieces[i]| {
        var key, value := pieces[i][..at], pieces[i][at + 1..];
        if key == "t" {
          timestamp := ParseU64(value);
        } else if key == "v1" {
          signatures := signatures + [value];
        }
      }
      i := i + 1;
    }
    assert pieces[..i] == pieces;
    if timestamp.None? {
      return false;
    }
    if timestamp.value > SaturatingAdd(now, TOLERANCE) || SaturatingSub(now, timestamp.value) > TOLERANCE {
      return false;
    }
    assert Utf8(".") == [46];
    ok := mac(secret, Signed(timestamp.value, body)) in signatures;
  }

  // -------------------------------------------------------------------------- the store

  class BillingFile {
    var stored: BillingState

    constructor (stored: BillingState)
      ensures this.stored == stored
    {
      this.stored := stored;
    }
  }

  /** The state in memory and, if one is configured, the file it is written to; the file is read only when it is opened. */
  class BillingStore {
    const file: BillingFile?
    var state: BillingState

    constructor (file: BillingFile?)
      ensures this.file == file && state == if file == null then EMPTY else file.stored
    {
      this.file := file;
      state := if file == null then EMPTY else file.stored;
    }

    /** What is in memory is in the file. */
    ghost predicate InSync()
      reads this, file
    {
      file != null ==> file.stored == state
    }

    /** The state and the answer are what this reduction makes of the state before. */
    ghost predicate Reduces(before: BillingState, reduced: Reduced, r: Result<Outcome, BillingError>)
      reads this
    {
      match reduced
      case Err(e) => state == before && r == Err(e)
      case Ok(done) => state == done.0 && r == Ok(done.1)
    }

    method UpsertCustomer(organization: string, customer: string, now: u64) returns (r: Result<Unit, BillingError>)
      modifies this`state
      ensures r.Err? ==> state == old(state)
      ensures var mapped := WithCustomer(old(state), organization, customer, now);
              (r.Ok? ==> Ok(state) == mapped) && (r.Err? ==> Err(r.error) == mapped)
    {
      if customer in state.customers && state.customers[customer].organizationId != organization {
        return Err(InvalidRequest("stripe customer is already mapped to another organization"));
      }
      state := state.(customers := state.customers[customer := Customer(organization, customer, now)]);
      r := Ok(Unit.Unit);
    }

    /** Customer first, then subscription; an error after the first change would leave it standing, and there is none. */
    method ApplyCheckoutCompleted(id: string, kind: string, event: Event, now: u64)
      returns (r: Result<Outcome, BillingError>)
      modifies this`state
      ensures r.Err? ==> state == old(state)
      ensures Reduces(old(state), if event.item.None? then Err(InvalidRequest("missing Stripe event object"))
                                  else CheckoutCompleted(old(state), id, kind, event.item.value, now), r)
    {
      if event.item.None? {
        return Err(InvalidRequest("missing Stripe event object"));
      }
      var item := event.item.value;
      if item.organizationId.None? {
        return Err(InvalidRequest("missing organization_id metadata"));
      }
      var cleaned := CleanId(item.organizationId.value, "organization_id");
      if cleaned.Err? {
        return Err(cleaned.error);
      }
      var organization := cleaned.value;
      var customer, subscription := item.customer.UnwrapOr(""), item.subscription.UnwrapOr("");
      if !IsCustomer(customer) || !IsSubscription(subscription) {
        return Err(InvalidRequest("checkout session missing Stripe customer or subscription"));
      }
      var mapped := UpsertCustomer(organization, customer, now);
      if mapped.Err? {
        return Err(mapped.error);
      }
      if subscription !in state.subscriptions {
        var record := Subscription(organization, customer, subscription, "checkout_completed", item.planId, None, None,
                                   false, now);
        state := state.(subscriptions := state.subscriptions[subscription := record]);
      }
      assert state.subscriptions == state.subscriptions[subscription := state.subscriptions[subscription]];
      r := Ok(Outcome(id, kind, false, true, Some(organization), "checkout_customer_subscription_recorded"));
    }

    method ApplySubscriptionEvent(id: string, kind: string, event: Event, now: u64)
      returns (r: Result<Outcome, BillingError>)
      modifies this`state
      ensures r.Err? ==> state == old(state)
      ensures Reduces(old(state), if event.item.None? then Err(InvalidRequest("missing Stripe event object"))
                                  else SubscriptionEvent(old(state), id, kind, event.item.value, now), r)
      ensures r.Ok? && r.value.applied ==>
                && event.item.Some? && event.item.value.id.Some? && event.item.value.id.value in state.subscriptions
                && var record := state.subscriptions[event.item.value.id.value];
                   && Some(record.status) == (if event.item.value.status.Some? then event.item.value.status else Some("unknown"))
                   && (record.entitlementActive <==> record.status == "active" || record.status == "trialing")
    {
      if event.item.None? {
        return Err(InvalidRequest("missing Stripe event object"));
      }
      var item := event.item.value;
      var subscription, customer := item.id.UnwrapOr(""), item.customer.UnwrapOr("");
      if !IsSubscription(subscription) || !IsCustomer(customer) {
        return Err(InvalidRequest("subscription event missing Stripe customer or subscription"));
      }
      if customer !in state.customers {
        return Ok(Outcome(id, kind, false, false, None, "unknown_customer_fail_closed"));
      }
      var organization := state.customers[customer].organizationId;
      var status := item.status.UnwrapOr("unknown");
      var plan := if subscription in state.subscriptions then state.subscriptions[subscription].planId else None;
      var record := Subscription(organization, customer, subscription, status, plan, item.priceId,
                                 item.currentPeriodEnd, Entitles(status), now);
      state := state.(subscriptions := state.subscriptions[subscription := record]);
      r := Ok(Outcome(id, kind, false, true, Some(organization), "subscription_state_recorded"));
    }

    /** The event's changes, made in place: a rejected event leaves the state as it was. */
    method ApplyEventToState(id: string, kind: string, event: Event, now: u64) returns (r: Result<Outcome, BillingError>)
      modifies this`state
      ensures r.Err? ==> state == old(state)
      ensures Reduces(old(state), ApplyEvent(old(state), id, kind, event, now), r)
    {
      if kind == "checkout.session.completed" {
        assert !AboutSubscription("checkout.session.completed");
        r := ApplyCheckoutCompleted(id, kind, event, now);
      } else if AboutSubscription(kind) {
        r := ApplySubscriptionEvent(id, kind, event, now);
      } else {
        r := Ok(Outcome(id, kind, false, false, None, "event_type_recorded_only"));
      }
    }

    /**
     * The event goes into memory first; whether it can be written down is only then known. As long as every
     * write succeeds, memory and file stay the same.
     */
    method ApplyTestWebhook(event: Event, now: u64, canWrite: bool) returns (r: Result<Outcome, BillingError>)
      modifies this`state, file
      ensures var (after, answer) := Delivered(old(state), event, now);
              var recorded := answer.Ok? && !answer.value.duplicate;
              && state == after
              && (file != null ==> file.stored == if recorded && canWrite then after else old(file.stored))
              && r == (if recorded && file != null && !canWrite then Err(BillingError.Io) else answer)
      ensures canWrite && old(InSync()) ==> InSync()
    {
      if event.id.None? || event.kind.None? {
        return Err(StripeResponse);
      }
      var id, kind := event.id.value, event.kind.value;
      if id in state.events {
        return Ok(Outcome(id, kind, true, false, None, "already_processed"));
      }
      AppliedIsNew(state, id, kind, event, now);
      var applied := ApplyEventToState(id, kind, event, now);
      if applied.Err? {
        return applied;
      }
      var outcome := applied.value;
      var record := EventRecord(id, kind, now, outcome.organizationId, outcome.applied, outcome.reason);
      state := state.(events := state.events[id := record]);
      if file != null {
        if !canWrite {
          return Err(BillingError.Io);
        }
        file.stored := state;
      }
      r := Ok(outcome);
    }

    method CustomerBelongsTo(organization: string, customer: string) returns (yes: bool)
      ensures yes <==> BelongsTo(state, organization, customer)
    {
      yes := customer in state.customers && state.customers[customer].organizationId == organization;
    }
  }
}
