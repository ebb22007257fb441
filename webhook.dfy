/**
 * Webhook dispatch and delivery (src/lib/webhook.ts).
 *
 * A dashboard event is dispatched to every active webhook of the dashboard
 * whose comma-separated `events` column lists the event or the wildcard "*".
 * For each such webhook a delivery record is created in `pending`, then the
 * payload is POSTed up to three times with exponential backoff, and the
 * record ends in `success` or `failed` with the number of attempts and the
 * truncated response or error text.
 *
 * The outside world is passed in: `fetch` is a `Network` that answers
 * attempt n, HMAC-SHA-256 is a `Signer`, `JSON.stringify` is a `Serializer`,
 * and clock readings are plain parameters.  The Prisma tables are the maps
 * of a `WebhookStore`.
 */
module Webhooks {
  import opened Options
  import opened Text

  // ---------------------------------------------------------------------------
  // Events and subscriptions
  // ---------------------------------------------------------------------------

  datatype WebhookEvent =
    | LinkCreated | LinkUpdated | LinkDeleted | LinkClicked
    | DashboardUpdated | CategoryCreated | CategoryDeleted

  function EventName(e: WebhookEvent): string
  {
    match e
    case LinkCreated => "link.created"
    case LinkUpdated => "link.updated"
    case LinkDeleted => "link.deleted"
    case LinkClicked => "link.clicked"
    case DashboardUpdated => "dashboard.updated"
    case CategoryCreated => "category.created"
    case CategoryDeleted => "category.deleted"
  }

  /** The subscription entry that matches every event. */
  const Wildcard: string := "*"

  /** A row of the webhook table; its id is its key in `WebhookStore.webhooks`. */
  datatype Webhook = Webhook(
    url: string,
    events: string,              // event names joined with ","
    secret: Option<string>,
    isActive: bool,
    dashboardId: string,
    lastTriggered: Option<int>)

  /** The event names a webhook listens to: `events.split(",").map(e => e.trim())`. */
  function SubscribedEvents(events: string): seq<string>
  {
    TrimAll(Split(events, ','))
  }

  /** A webhook listens to `event` when its list names the event or the wildcard. */
  predicate Subscribes(events: string, event: WebhookEvent)
  {
    var names := SubscribedEvents(events);
    EventName(event) in names || Wildcard in names
  }

  /** The filter of `triggerWebhook`: same dashboard, active, and subscribed. */
  predicate Selected(w: Webhook, dashboardId: string, event: WebhookEvent)
  {
    w.dashboardId == dashboardId && w.isActive && Subscribes(w.events, event)
  }

  /** The ids of the webhooks that receive a delivery for `event` on `dashboardId`. */
  function Relevant(webhooks: map<string, Webhook>, dashboardId: string, event: WebhookEvent): (r: set<string>)
    ensures r <= webhooks.Keys
    ensures forall id :: id in r <==>
      && id in webhooks
      && webhooks[id].dashboardId == dashboardId
      && webhooks[id].isActive
      && Subscribes(webhooks[id].events, event)
  {
    set id | id in webhooks && Selected(webhooks[id], dashboardId, event)
  }

  /** Every name of a list, trimmed. */
  function TrimAll(names: seq<string>): (r: seq<string>)
    ensures |r| == |names|
    ensures forall i :: 0 <= i < |names| ==> r[i] == Trim(names[i])
  {
    seq(|names|, i requires 0 <= i < |names| => Trim(names[i]))
  }

  /**
   * A webhook listens to an event exactly when some comma-separated piece
   * of its column, with surrounding whitespace removed, is the event's name
   * or the wildcard.
   */
  lemma SubscribesPiece(events: string, event: WebhookEvent)
    ensures Subscribes(events, event) <==>
      exists p :: p in Split(events, ',') && (Trim(p) == EventName(event) || Trim(p) == Wildcard)
  {
    var parts := Split(events, ',');
    if Subscribes(events, event) {
      var names := SubscribedEvents(events);
      var i :| 0 <= i < |names| && (names[i] == EventName(event) || names[i] == Wildcard);
      assert parts[i] in parts;
    }
  }

  /** A column that lists the wildcard selects every event. */
  lemma WildcardSubscribesAll(events: string, event: WebhookEvent)
    requires exists p :: p in Split(events, ',') && Trim(p) == Wildcard
    ensures Subscribes(events, event)
  {
    SubscribesPiece(events, event);
  }

  /**
   * Registration stores `events.join(",")`.  For names without commas, the
   * stored column selects an event exactly when one of the names, trimmed,
   * is that event or the wildcard.
   */
  lemma SubscribesToJoined(names: seq<string>, event: WebhookEvent)
    requires |names| >= 1
    requires forall i :: 0 <= i < |names| ==> ',' !in names[i]
    ensures SubscribedEvents(Join(names, ',')) == TrimAll(names)
    ensures Subscribes(Join(names, ','), event) <==>
      EventName(event) in TrimAll(names) || Wildcard in TrimAll(names)
  {
    SplitJoin(names, ',');
  }

  /** Names without surrounding whitespace are matched exactly. */
  lemma SubscribesToTrimmedNames(names: seq<string>, event: WebhookEvent)
    requires |names| >= 1
    requires forall i :: 0 <= i < |names| ==> ',' !in names[i] && Trim(names[i]) == names[i]
    ensures Subscribes(Join(names, ','), event) <==> EventName(event) in names || Wildcard in names
  {
    SubscribesToJoined(names, event);
    assert TrimAll(names) == names;
  }

  /** The names of the example below hold no comma... */
  lemma ExampleNamesCommaFree()
    ensures ',' !in "link.created" && ',' !in "link.clicked"
  {
  }

  /** ...and need no trimming. */
  lemma ExampleNamesTrimmed()
    ensures Trim("link.created") == "link.created"
    ensures Trim("link.clicked") == "link.clicked"
  {
    TrimFixed("link.created");
    TrimFixed("link.clicked");
  }

  lemma ExampleSubscribes(names: seq<string>, event: WebhookEvent)
    requires names == ["link.created", "link.clicked"]
    ensures Subscribes(Join(names, ','), event) <==> EventName(event) in names
  {
    ExampleNamesCommaFree();
    ExampleNamesTrimmed();
    SubscribesToTrimmedNames(names, event);
  }

  /** The column "link.created,link.clicked" selects link.created but not category.created. */
  lemma SubscribesExample(events: string)
    requires events == "link.created,link.clicked"
    ensures Subscribes(events, LinkCreated)
    ensures !Subscribes(events, CategoryCreated)
  {
    var names := ["link.created", "link.clicked"];
    assert Join(names, ',') == events;
    ExampleSubscribes(names, LinkCreated);
    ExampleSubscribes(names, CategoryCreated);
  }

  /**
   * Dashboard D1 has one active webhook W1 listening to link.created and
   * link.clicked: creating a link reaches W1, creating a category reaches
   * nobody, and nothing reaches W1 once it is switched off.
   */
  lemma DispatchExample(w1: Webhook)
    requires w1.events == "link.created,link.clicked" && w1.isActive && w1.dashboardId == "D1"
    ensures Relevant(map["W1" := w1], "D1", LinkCreated) == {"W1"}
    ensures Relevant(map["W1" := w1], "D1", CategoryCreated) == {}
    ensures forall e :: Relevant(map["W1" := w1.(isActive := false)], "D1", e) == {}
    ensures forall e :: Relevant(map["W1" := w1], "D2", e) == {}
  {
    SubscribesExample(w1.events);
  }

  // ---------------------------------------------------------------------------
  // The outgoing request
  // ---------------------------------------------------------------------------

  /** `JSON.stringify` of a payload, supplied from outside. */
  type Serializer = WebhookPayload -> string

  /** Hex HMAC-SHA-256 of a payload (first argument) under a secret (second), supplied from outside. */
  type Signer = (string, string) -> string

  /** The JSON body: `data` is the already-serialized data object. */
  datatype WebhookPayload = WebhookPayload(event: WebhookEvent, timestamp: string, dashboardId: string, data: string)

  datatype Request = Request(url: string, headers: map<string, string>, body: string)

  const UserAgent: string := "PersonalLinkDashboard-Webhook/1.0"
  const SignatureHeader: string := "X-Webhook-Signature"

  /** JavaScript truthiness of `secret`: present and not the empty string. */
  predicate Truthy(secret: Option<string>)
  {
    secret.Some? && secret.value != ""
  }

  /** The headers of a delivery or test request. */
  function RequestHeaders(payload: string, secret: Option<string>, sign: Signer): (h: map<string, string>)
    ensures "Content-Type" in h && h["Content-Type"] == "application/json"
    ensures "User-Agent" in h && h["User-Agent"] == UserAgent
    ensures SignatureHeader in h <==> Truthy(secret)
    ensures Truthy(secret) ==> h[SignatureHeader] == sign(payload, secret.value)
    ensures |h| == if Truthy(secret) then 3 else 2
  {
    var base := map["Content-Type" := "application/json", "User-Agent" := UserAgent];
    if Truthy(secret) then base[SignatureHeader := sign(payload, secret.value)] else base
  }

  // ---------------------------------------------------------------------------
  // One attempt
  // ---------------------------------------------------------------------------

  /** What `fetch` does: a response with its status and text, a response whose text cannot be read, or a thrown value. */
  datatype FetchOutcome =
    | Response(status: int, body: string)
    | BodyFailed(status: int, message: Option<string>)   // headers arrived, reading the text threw
    | Thrown(message: Option<string>)                    // None: the thrown value is not an Error

  /** The answer `fetch` gives at attempt n (1-based). */
  type Network = nat -> FetchOutcome

  /** `response.ok`: a status in the range 200 to 299. */
  predicate IsOk(status: int)
  {
    200 <= status <= 299
  }

  datatype AttemptResult = Ok(body: string) | Error(message: string)

  /** The message `catch` takes from a thrown value. */
  function ThrownMessage(message: Option<string>): string
  {
    if message.Some? then message.value else "Unknown error"
  }

  /**
   * One attempt: the text is read before the status is looked at, so an ok
   * response delivers its text, a failed read is the read's error, and any
   * other status is an error naming the status and the text.
   */
  function AttemptResultOf(o: FetchOutcome): (r: AttemptResult)
    ensures r.Ok? <==> o.Response? && IsOk(o.status)
    ensures r.Ok? ==> r.body == o.body
    ensures o.Response? && !IsOk(o.status) ==> r == Error("HTTP " + IntToString(o.status) + ": " + o.body)
    ensures o.BodyFailed? || o.Thrown? ==> r == Error(ThrownMessage(o.message))
  {
    match o
    case Response(status, body) =>
      if IsOk(status) then Ok(body) else Error("HTTP " + IntToString(status) + ": " + body)
    case BodyFailed(_, message) => Error(ThrownMessage(message))
    case Thrown(message) => Error(ThrownMessage(message))
  }

  // ---------------------------------------------------------------------------
  // The retry chain
  // ---------------------------------------------------------------------------

  const MaxAttempts: nat := 3
  const ResponseLimit: nat := 1000

  function Pow2(n: nat): (r: nat)
    ensures r >= 1
  {
    if n == 0 then 1 else 2 * Pow2(n - 1)
  }

  /** Milliseconds waited after failed attempt n: `Math.pow(2, n) * 1000`. */
  function Backoff(attempt: nat): (b: nat)
    ensures attempt == 0 ==> b == 1000
    ensures attempt >= 1 ==> b == 2 * Backoff(attempt - 1)
  {
    Pow2(attempt) * 1000
  }

  datatype DeliveryStatus = Pending | Succeeded | Failed

  /** Where a delivery chain ends, and the waits between its attempts. */
  datatype Chain = Chain(status: DeliveryStatus, attempts: nat, response: string, waits: seq<nat>)

  /** The self-recursive `attemptDelivery`, from attempt `attempt` on, as a value. */
  function Retry(net: Network, attempt: nat): (c: Chain)
    requires 1 <= attempt <= MaxAttempts
    ensures c.status != Pending
    ensures attempt <= c.attempts <= MaxAttempts
    ensures |c.waits| == c.attempts - attempt
    decreases MaxAttempts - attempt
  {
    match AttemptResultOf(net(attempt))
    case Ok(body) => Chain(Succeeded, attempt, Truncate(body, ResponseLimit), [])
    case Error(message) =>
      if attempt < MaxAttempts then
        var rest := Retry(net, attempt + 1);
        rest.(waits := [Backoff(attempt)] + rest.waits)
      else
        Chain(Failed, attempt, Truncate(message, ResponseLimit), [])
  }

  /**
   * A chain started at attempt `a` ends in a terminal state after at most
   * MaxAttempts attempts, waits 2^n seconds after each failed attempt n that
   * is not the last, and stores at most ResponseLimit characters.
   */
  lemma {:induction false} RetryBounds(net: Network, a: nat)
    requires 1 <= a <= MaxAttempts
    ensures var c := Retry(net, a);
      && c.status != Pending
      && a <= c.attempts <= MaxAttempts
      && |c.waits| == c.attempts - a
      && (forall i :: 0 <= i < |c.waits| ==> c.waits[i] == Backoff(a + i))
      && |c.response| <= ResponseLimit
    decreases MaxAttempts - a
  {
    if AttemptResultOf(net(a)).Error? && a < MaxAttempts {
      RetryBounds(net, a + 1);
    }
  }

  /**
   * The chain succeeds exactly when some attempt from `a` to MaxAttempts is
   * ok; it stops at the first such attempt and keeps the first ResponseLimit
   * characters of its text.  Otherwise it fails at attempt MaxAttempts and
   * keeps the truncated message of that last error.
   */
  lemma {:induction false} RetryOutcome(net: Network, a: nat)
    requires 1 <= a <= MaxAttempts
    ensures var c := Retry(net, a);
      && a <= c.attempts <= MaxAttempts
      && (c.status == Succeeded <==> exists k :: a <= k <= MaxAttempts && AttemptResultOf(net(k)).Ok?)
      && (forall k :: a <= k < c.attempts ==> AttemptResultOf(net(k)).Error?)
      && (c.status == Succeeded ==>
            AttemptResultOf(net(c.attempts)).Ok? &&
            c.response == Truncate(AttemptResultOf(net(c.attempts)).body, ResponseLimit))
      && (c.status == Failed ==>
            c.attempts == MaxAttempts &&
            c.response == Truncate(AttemptResultOf(net(MaxAttempts)).message, ResponseLimit))
    decreases MaxAttempts - a
  {
    if AttemptResultOf(net(a)).Error? && a < MaxAttempts {
      RetryOutcome(net, a + 1);
    }
  }

  /** From the first attempt the waits are 2000 ms then 4000 ms, never 8000 ms. */
  lemma BackoffSchedule(net: Network)
    ensures var c := Retry(net, 1);
      |c.waits| == c.attempts - 1 && c.waits <= [2000, 4000]
  {
    RetryBounds(net, 1);
    var c := Retry(net, 1);
    assert Backoff(1) == 2000 && Backoff(2) == 4000;
    if |c.waits| == 1 {
      assert c.waits == [2000];
    } else if |c.waits| == 2 {
      assert c.waits == [2000, 4000];
    }
  }

  /** Failing twice and then succeeding ends in success after three attempts. */
  lemma FailTwiceThenSucceed(net: Network)
    requires AttemptResultOf(net(1)).Error? && AttemptResultOf(net(2)).Error?
    requires AttemptResultOf(net(3)).Ok?
    ensures Retry(net, 1) ==
      Chain(Succeeded, 3, Truncate(AttemptResultOf(net(3)).body, ResponseLimit), [2000, 4000])
  {
    assert Backoff(1) == 2000 && Backoff(2) == 4000;
  }

  /** Failing three times ends in failure after three attempts; no fourth is made. */
  lemma FailThrice(net: Network)
    requires forall k :: 1 <= k <= 3 ==> AttemptResultOf(net(k)).Error?
    ensures Retry(net, 1) ==
      Chain(Failed, 3, Truncate(AttemptResultOf(net(3)).message, ResponseLimit), [2000, 4000])
  {
    assert AttemptResultOf(net(1)).Error? && AttemptResultOf(net(2)).Error?;
    assert AttemptResultOf(net(3)).Error?;
    assert Backoff(1) == 2000 && Backoff(2) == 4000;
  }

  // ---------------------------------------------------------------------------
  // Delivery records
  // ---------------------------------------------------------------------------

  /** A row of the delivery table; its id is its key in `WebhookStore.deliveries`. */
  datatype Delivery = Delivery(
    webhookId: string,
    event: WebhookEvent,
    payload: string,
    status: DeliveryStatus,
    attempts: nat,
    response: Option<string>)

  /** The shape every stored record keeps. */
  predicate WellFormed(d: Delivery)
  {
    match d.status
    case Pending => d.attempts == 0 && d.response == None
    case Succeeded =>
      1 <= d.attempts <= MaxAttempts && d.response.Some? && |d.response.value| <= ResponseLimit
    case Failed =>
      d.attempts == MaxAttempts && d.response.Some? && |d.response.value| <= ResponseLimit
  }

  /** A record after the final `update` of a chain. */
  function Settled(d: Delivery, c: Chain): Delivery
  {
    d.(status := c.status, attempts := c.attempts, response := Some(c.response))
  }

  /** Whatever record a chain settles, the result is well formed and never pending. */
  lemma SettledWellFormed(d: Delivery, net: Network)
    ensures var s := Settled(d, Retry(net, 1));
      WellFormed(s) && s.status != Pending && s.payload == d.payload && s.webhookId == d.webhookId
  {
    RetryBounds(net, 1);
    RetryOutcome(net, 1);
  }

  /** A newly created record is pending, with no attempts and no response. */
  function NewDelivery(webhookId: string, event: WebhookEvent, payload: string): (d: Delivery)
    ensures WellFormed(d) && d.status == Pending && d.attempts == 0 && d.response == None
    ensures d.webhookId == webhookId && d.event == event && d.payload == payload
  {
    Delivery(webhookId, event, payload, Pending, 0, None)
  }

  /** The Prisma tables the engine reads and writes. */
  class WebhookStore {
    var webhooks: map<string, Webhook>
    var deliveries: map<nat, Delivery>
    var nextDeliveryId: nat   // stands for the database's fresh row ids

    ghost predicate Valid()
      reads this
    {
      forall id :: id in deliveries ==> id < nextDeliveryId && WellFormed(deliveries[id])
    }

    constructor (webhooks: map<string, Webhook>)
      ensures Valid()
      ensures this.webhooks == webhooks && deliveries == map[] && nextDeliveryId == 0
    {
      this.webhooks := webhooks;
      deliveries := map[];
      nextDeliveryId := 0;
    }

    /** `prisma.webhookDelivery.create`: a fresh pending record. */
    method CreateDelivery(webhookId: string, event: WebhookEvent, payload: string) returns (id: nat)
      requires Valid()
      modifies this`deliveries, this`nextDeliveryId
      ensures Valid()
      ensures id == old(nextDeliveryId) && id !in old(deliveries) && nextDeliveryId == id + 1
      ensures deliveries == old(deliveries)[id := NewDelivery(webhookId, event, payload)]
    {
      id := nextDeliveryId;
      deliveries := deliveries[id := NewDelivery(webhookId, event, payload)];
      nextDeliveryId := nextDeliveryId + 1;
    }

    /**
     * `attemptDelivery` as a loop over the attempt number.  A missing record
     * stops the chain without any change; otherwise the record ends as the
     * chain `Retry(net, 1)` says, every attempt sends the same signed request,
     * and the waits between attempts are the chain's.
     */
    method AttemptDelivery(deliveryId: nat, url: string, payload: string, secret: Option<string>,
                           net: Network, sign: Signer)
      returns (sent: seq<Request>, waits: seq<nat>)
      requires Valid()
      modifies this`deliveries
      ensures Valid()
      ensures deliveryId !in old(deliveries) ==>
        deliveries == old(deliveries) && sent == [] && waits == []
      ensures deliveryId in old(deliveries) ==>
        var c := Retry(net, 1);
        && deliveries == old(deliveries)[deliveryId := Settled(old(deliveries)[deliveryId], c)]
        && waits == c.waits
        && sent == seq(c.attempts, _ => Request(url, RequestHeaders(payload, secret, sign), payload))
    {
      sent, waits := [], [];
      var attempt := 1;
      while true
        invariant 1 <= attempt <= MaxAttempts
        invariant deliveries == old(deliveries)
        invariant deliveryId in deliveries || (attempt == 1 && waits == [])
        invariant sent == seq(attempt - 1, _ => Request(url, RequestHeaders(payload, secret, sign), payload))
        invariant Retry(net, 1) == Retry(net, attempt).(waits := waits + Retry(net, attempt).waits)
        decreases MaxAttempts - attempt
      {
        if deliveryId !in deliveries {
          return;
        }
        var delivery := deliveries[deliveryId];
        sent := sent + [Request(url, RequestHeaders(payload, secret, sign), payload)];
        match AttemptResultOf(net(attempt)) {
          case Ok(body) =>
            deliveries := deliveries[deliveryId :=
              delivery.(status := Succeeded, attempts := attempt, response := Some(Truncate(body, ResponseLimit)))];
            return;
          case Error(message) =>
            if attempt < MaxAttempts {
              waits := waits + [Backoff(attempt)];
              attempt := attempt + 1;
            } else {
              deliveries := deliveries[deliveryId :=
                delivery.(status := Failed, attempts := attempt, response := Some(Truncate(message, ResponseLimit)))];
              return;
            }
        }
      }
    }

    /**
     * `deliverWebhook`: for a webhook that still exists, create a pending
     * record with the serialized payload, run the retry chain on it, then
     * stamp the webhook's `lastTriggered`, whatever the outcome.  A missing
     * webhook changes nothing.
     */
    method DeliverWebhook(webhookId: string, event: WebhookEvent, dashboardId: string, data: string,
                          timestamp: string, now: int, net: Network, sign: Signer, json: Serializer)
      returns (sent: seq<Request>, waits: seq<nat>)
      requires Valid()
      modifies this
      ensures Valid()
      ensures webhookId !in old(webhooks) ==>
        && webhooks == old(webhooks) && deliveries == old(deliveries)
        && nextDeliveryId == old(nextDeliveryId) && sent == [] && waits == []
      ensures webhookId in old(webhooks) ==>
        var w, c := old(webhooks)[webhookId], Retry(net, 1);
        var payload := json(WebhookPayload(event, timestamp, dashboardId, data));
        && nextDeliveryId == old(nextDeliveryId) + 1
        && deliveries == old(deliveries)[old(nextDeliveryId) := Settled(NewDelivery(webhookId, event, payload), c)]
        && webhooks == old(webhooks)[webhookId := w.(lastTriggered := Some(now))]
        && waits == c.waits
        && sent == seq(c.attempts, _ => Request(w.url, RequestHeaders(payload, w.secret, sign), payload))
    {
      if webhookId !in webhooks {
        return [], [];
      }
      var webhook := webhooks[webhookId];
      var payload := json(WebhookPayload(event, timestamp, dashboardId, data));
      var id := CreateDelivery(webhookId, event, payload);
      sent, waits := AttemptDelivery(id, webhook.url, payload, webhook.secret, net, sign);
      webhooks := webhooks[webhookId := webhook.(lastTriggered := Some(now))];
    }

    /**
     * `triggerWebhook`: every relevant webhook (see `Relevant`) gets exactly
     * one new delivery record, settled by its own chain, and a new
     * `lastTriggered`; other webhooks and existing records are untouched.
     * The deliveries run one after another in an arbitrary order.
     */
    method Trigger(dashboardId: string, event: WebhookEvent, data: string, timestamp: string, now: int,
                   net: string -> Network, sign: Signer, json: Serializer)
      requires Valid()
      modifies this
      ensures Valid()
      ensures var relevant := Relevant(old(webhooks), dashboardId, event);
        && Stamped(old(webhooks), webhooks, relevant, now)
        && nextDeliveryId == old(nextDeliveryId) + |relevant|
        && Recorded(old(deliveries), old(nextDeliveryId), deliveries, nextDeliveryId, relevant,
                    event, json(WebhookPayload(event, timestamp, dashboardId, data)), net)
    {
      var relevant := Relevant(webhooks, dashboardId, event);
      ghost var payload := json(WebhookPayload(event, timestamp, dashboardId, data));
      var todo := relevant;
      while todo != {}
        invariant Valid()
        invariant todo <= relevant
        invariant Stamped(old(webhooks), webhooks, relevant - todo, now)
        invariant nextDeliveryId + |todo| == old(nextDeliveryId) + |relevant|
        invariant Recorded(old(deliveries), old(nextDeliveryId), deliveries, nextDeliveryId, relevant - todo,
                           event, payload, net)
        decreases todo
      {
        var id :| id in todo;
        DeliverNext(id, event, dashboardId, data, timestamp, now, net, sign, json,
                    old(webhooks), old(deliveries), old(nextDeliveryId), relevant, todo);
        todo := todo - {id};
      }
    }

    /**
     * One step of `Trigger`: deliver to webhook `id`, one of the relevant
     * webhooks still to do.
     */
    method DeliverNext(id: string, event: WebhookEvent, dashboardId: string, data: string, timestamp: string,
                       now: int, net: string -> Network, sign: Signer, json: Serializer,
                       ghost before: map<string, Webhook>, ghost records: map<nat, Delivery>, ghost first: nat,
                       ghost relevant: set<string>, ghost todo: set<string>)
      requires Valid()
      requires id in todo && todo <= relevant && relevant <= before.Keys
      requires forall k :: k in records ==> k < first
      requires nextDeliveryId + |todo| == first + |relevant|
      requires Stamped(before, webhooks, relevant - todo, now)
      requires Recorded(records, first, deliveries, nextDeliveryId, relevant - todo, event,
                        json(WebhookPayload(event, timestamp, dashboardId, data)), net)
      modifies this
      ensures Valid()
      ensures nextDeliveryId + |todo - {id}| == first + |relevant|
      ensures Stamped(before, webhooks, relevant - (todo - {id}), now)
      ensures Recorded(records, first, deliveries, nextDeliveryId, relevant - (todo - {id}), event,
                       json(WebhookPayload(event, timestamp, dashboardId, data)), net)
    {
      ghost var d, k, w := deliveries, nextDeliveryId, webhooks;
      ghost var done := relevant - todo;
      assert relevant - (todo - {id}) == done + {id};
      assert first <= k by {
        assert |done| + |todo| == |relevant|;
      }
      var _, _ := DeliverWebhook(id, event, dashboardId, data, timestamp, now, net(id), sign, json);
      StampedStep(before, w, done, id, now);
      RecordedStep(records, first, d, k, done, id, event, json(WebhookPayload(event, timestamp, dashboardId, data)), net);
    }
  }

  /** Exactly the webhooks in `done` have been stamped with `now`; the rest are as they were. */
  ghost predicate Stamped(before: map<string, Webhook>, after: map<string, Webhook>, done: set<string>, now: int)
  {
    && after.Keys == before.Keys
    && forall id :: id in after ==>
         after[id] == if id in done then before[id].(lastTriggered := Some(now)) else before[id]
  }

  /**
   * The records in `before` are kept, and the ids from `first` to `next`
   * hold one settled record per webhook in `done`.
   */
  ghost predicate Recorded(before: map<nat, Delivery>, first: nat, after: map<nat, Delivery>, next: nat,
                           done: set<string>, event: WebhookEvent, payload: string, net: string -> Network)
  {
    && (forall k :: k in after <==> k in before || first <= k < next)
    && (forall k :: k in before ==> k in after && after[k] == before[k])
    && (forall k :: first <= k < next ==>
          && k in after && after[k].webhookId in done
          && after[k] == Settled(NewDelivery(after[k].webhookId, event, payload), Retry(net(after[k].webhookId), 1)))
    && (forall id :: id in done ==> exists k :: first <= k < next && k in after && after[k].webhookId == id)
  }

  lemma StampedStep(before: map<string, Webhook>, w: map<string, Webhook>, done: set<string>, id: string, now: int)
    requires Stamped(before, w, done, now) && id in w && id !in done
    ensures Stamped(before, w[id := w[id].(lastTriggered := Some(now))], done + {id}, now)
  {
  }

  lemma RecordedStep(before: map<nat, Delivery>, first: nat, d: map<nat, Delivery>, next: nat,
                     done: set<string>, id: string, event: WebhookEvent, payload: string, net: string -> Network)
    requires Recorded(before, first, d, next, done, event, payload, net)
    requires forall k :: k in before ==> k < first
    requires first <= next && id !in done
    ensures Recorded(before, first, d[next := Settled(NewDelivery(id, event, payload), Retry(net(id), 1))], next + 1,
                     done + {id}, event, payload, net)
  {
    var d' := d[next := Settled(NewDelivery(id, event, payload), Retry(net(id), 1))];
    forall x | x in done + {id} ensures exists k :: first <= k < next + 1 && k in d' && d'[k].webhookId == x {
      if x == id {
        assert d'[next].webhookId == id;
      } else {
        var k :| first <= k < next && k in d && d[k].webhookId == x;
        assert d'[k] == d[k];
      }
    }
  }

  // ---------------------------------------------------------------------------
  // The registration-time tester
  // ---------------------------------------------------------------------------

  datatype TestResult = TestResult(success: bool, message: string, statusCode: Option<int>)

  /** The data object of the test payload, serialized. */
  const TestData: string := "{\"test\":true,\"message\":\"This is a test webhook delivery\"}"

  /** The request `testWebhook` sends: a link.clicked event for dashboard "test". */
  function TestRequest(url: string, secret: Option<string>, timestamp: string, sign: Signer, json: Serializer): (r: Request)
    ensures r.url == url
    ensures r.body == json(WebhookPayload(LinkClicked, timestamp, "test", TestData))
    ensures r.headers == RequestHeaders(r.body, secret, sign)
  {
    var body := json(WebhookPayload(LinkClicked, timestamp, "test", TestData));
    Request(url, RequestHeaders(body, secret, sign), body)
  }

  /** A response arrived and its status is ok, whether or not its text could be read. */
  predicate StatusOk(reply: FetchOutcome)
  {
    !reply.Thrown? && IsOk(reply.status)
  }

  /**
   * `testWebhook`'s result for the single answer `fetch` gave.  An ok status
   * passes without the text being read; for any other status the text is
   * read into the message, and a failed read ends in `catch`, which reports
   * no status code.
   */
  function TestWebhook(reply: FetchOutcome): (r: TestResult)
    ensures r.success <==> StatusOk(reply)
    ensures r.statusCode.Some? <==> reply.Response? || StatusOk(reply)
    ensures r.statusCode.Some? ==> r.statusCode.value == reply.status
    ensures r.success ==> r.message == "Webhook test successful"
    ensures !r.success ==> r.message == AttemptResultOf(reply).message
  {
    match reply
    case Response(status, body) =>
      if IsOk(status) then TestResult(true, "Webhook test successful", Some(status))
      else TestResult(false, "HTTP " + IntToString(status) + ": " + body, Some(status))
    case BodyFailed(status, message) =>
      if IsOk(status) then TestResult(true, "Webhook test successful", Some(status))
      else TestResult(false, ThrownMessage(message), None)
    case Thrown(message) =>
      TestResult(false, ThrownMessage(message), None)
  }

  /**
   * Unless the text of the first answer cannot be read, the tester passes
   * exactly when a delivery chain given the same answer first succeeds at
   * its first attempt.  When the tester fails, that chain's first attempt
   * fails with the same message, and the chain goes on to retry.
   */
  lemma TestAgreesWithFirstAttempt(net: Network)
    ensures !net(1).BodyFailed? ==>
      (TestWebhook(net(1)).success <==> Retry(net, 1).status == Succeeded && Retry(net, 1).attempts == 1)
    ensures !TestWebhook(net(1)).success ==>
      AttemptResultOf(net(1)) == Error(TestWebhook(net(1)).message) && Retry(net, 1).attempts > 1
  {
    RetryOutcome(net, 1);
  }

  /**
   * An ok status whose text cannot be read passes the tester, yet the first
   * attempt of a delivery given that answer fails and is retried.
   */
  lemma TestPassesWhereAttemptFails(net: Network)
    requires net(1).BodyFailed? && IsOk(net(1).status)
    ensures TestWebhook(net(1)).success
    ensures AttemptResultOf(net(1)).Error? && Retry(net, 1).attempts > 1
  {
    RetryOutcome(net, 1);
  }
}
