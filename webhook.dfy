/**
 * `handle_webhook` of backend/payments/webhook.py: a payment notification names a payment;
 * the payment's reference names its owner, whose plan follows the payment's status.
 */
module Webhook {
  import opened Wrappers
  import opened PyValues
  import opened PaymentRecords
  import opened Decimals

  datatype WebhookError =
    | MissingTopicOrResource
    | UnsupportedTopic
    | PaymentNotFound
    | MissingExternalReference

  /**
   * The payment a notification refers to: `topic` and `resource_id` must be truthy, only the
   * topic "payment" is looked up, and the provider knows the payments in `payments`.
   */
  function PaymentFor(payload: map<string, Value>, payments: map<Value, PaymentInfo>): (r: Result<PaymentInfo, WebhookError>)
    ensures r == Err(MissingTopicOrResource) <==> !Truthy(Get(payload, "topic")) || !Truthy(Get(payload, "resource_id"))
    ensures r == Err(UnsupportedTopic) <==>
      Truthy(Get(payload, "topic")) && Truthy(Get(payload, "resource_id")) && Get(payload, "topic") != Str("payment")
    ensures r.Ok? <==>
      Get(payload, "topic") == Str("payment") && Truthy(Get(payload, "resource_id")) && Get(payload, "resource_id") in payments
    ensures r.Ok? ==> r.value == payments[Get(payload, "resource_id")]
  {
    var topic, resource := Get(payload, "topic"), Get(payload, "resource_id");
    if !Truthy(topic) || !Truthy(resource) then Err(MissingTopicOrResource)
    else if topic != Str("payment") then Err(UnsupportedTopic)
    else if resource !in payments then Err(PaymentNotFound)
    else Ok(payments[resource])
  }

  /** The if/elif/else plan rule: premium for an approved payment, free for every other status. */
  function WebhookPlan(status: string): (r: string)
    ensures r == PREMIUM <==> status == APPROVED
    ensures r == PREMIUM || r == FREE
  {
    if status == APPROVED then PREMIUM
    else if status in ["cancelled", "refunded", "charged_back"] then FREE
    else FREE
  }

  /** A truthy reference: present and non-empty. */
  predicate HasReference(info: PaymentInfo) {
    info.externalReference.Some? && info.externalReference.value != ""
  }

  /** The columns the webhook writes for a payment. */
  function WebhookProfile(info: PaymentInfo): (p: Profile)
    ensures p.pagamentoStatus == StatusOf(info) && p.pagamentoId == IdText(info.id)
    ensures p.plano == PREMIUM <==> StatusOf(info) == APPROVED
  {
    Profile(WebhookPlan(StatusOf(info)), StatusOf(info), IdText(info.id))
  }

  /**
   * The table after a payment: without a reference nothing is written; otherwise the row of
   * the reference's owner, if there is one, takes the payment's columns, and no row is added.
   */
  function WebhookRows(rows: map<string, Profile>, info: PaymentInfo): (r: Result<map<string, Profile>, WebhookError>)
    ensures r.Err? <==> !HasReference(info)
    ensures r.Err? ==> r.error == MissingExternalReference
    ensures r.Ok? ==> var owner := OwnerOf(info.externalReference.value);
      && r.value.Keys == rows.Keys
      && (forall u :: u in rows && u != owner ==> r.value[u] == rows[u])
      && (owner in rows ==> r.value[owner] == WebhookProfile(info))
  {
    if !HasReference(info) then Err(MissingExternalReference)
    else Ok(WithPayment(rows, OwnerOf(info.externalReference.value), WebhookProfile(info)))
  }

  /** Delivering the same notification twice leaves the table as after once. */
  lemma WebhookIdempotent(rows: map<string, Profile>, info: PaymentInfo)
    requires HasReference(info)
    ensures WebhookRows(WebhookRows(rows, info).value, info) == WebhookRows(rows, info)
  {
    var once := WebhookRows(rows, info).value;
    var twice := WebhookRows(once, info).value;
    assert twice.Keys == once.Keys;
    assert forall u :: u in once ==> twice[u] == once[u];
    assert twice == once;
  }

  /** Of two payments of the same owner, the later one alone decides the owner's row. */
  lemma WebhookLatestWins(rows: map<string, Profile>, first: PaymentInfo, second: PaymentInfo)
    requires HasReference(first) && HasReference(second)
    requires OwnerOf(first.externalReference.value) == OwnerOf(second.externalReference.value)
    ensures WebhookRows(WebhookRows(rows, first).value, second) == WebhookRows(rows, second)
  {
    var mid := WebhookRows(rows, first).value;
    var l, r := WebhookRows(mid, second).value, WebhookRows(rows, second).value;
    assert l.Keys == r.Keys;
    assert forall u :: u in l ==> l[u] == r[u];
    assert l == r;
  }

  /**
   * An approved payment with reference "U1-ref1" makes user U1 premium; a later report of the
   * same payment as refunded makes U1 free again.
   */
  lemma ApprovedThenRefunded(rows: map<string, Profile>)
    requires "U1" in rows
    ensures var approved := PaymentInfo(Some("PAY1"), Some("approved"), Some("U1-ref1"));
      var refunded := PaymentInfo(Some("PAY1"), Some("refunded"), Some("U1-ref1"));
      && WebhookRows(rows, approved).Ok?
      && WebhookRows(rows, approved).value["U1"] == Profile(PREMIUM, "approved", "PAY1")
      && WebhookRows(WebhookRows(rows, approved).value, refunded).value["U1"] == Profile(FREE, "refunded", "PAY1")
  {
    assert "U1-ref1" == "U1" + ['-'] + "ref1";
    assert '-' !in "U1";
    SplitAtFirst("U1", '-', "ref1");
  }

  /** `handle_webhook`: the payment of the notification, then the update of its owner's row. */
  method HandleWebhook(store: ProfileStore, payload: map<string, Value>, payments: map<Value, PaymentInfo>)
    returns (r: Result<(), WebhookError>)
    modifies store
    ensures PaymentFor(payload, payments).Err? ==>
      r == Err(PaymentFor(payload, payments).error) && store.rows == old(store.rows)
    ensures PaymentFor(payload, payments).Ok? ==> var info := PaymentFor(payload, payments).value;
      && (r.Ok? <==> HasReference(info))
      && (r.Err? ==> r.error == MissingExternalReference && store.rows == old(store.rows))
      && (r.Ok? ==> store.rows == WebhookRows(old(store.rows), info).value)
  {
    var found := PaymentFor(payload, payments);
    if found.Err? {
      return Err(found.error);
    }
    var info := found.value;
    if !HasReference(info) {
      return Err(MissingExternalReference);
    }
    var userId := OwnerOf(info.externalReference.value);
    var status := StatusOf(info);
    var plan := WebhookPlan(status);
    store.SetPayment(userId, Profile(plan, status, IdText(info.id)));
    r := Ok(());
  }
}
