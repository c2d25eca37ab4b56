/**
 * The payment routes of backend/routes/pagamentos.py: starting a payment for the signed-in
 * user, and polling a payment's status, which is allowed only to the payment's owner.
 */
module Pagamentos {
  import opened Wrappers
  import opened PyValues
  import opened PaymentRecords
  import opened Webhook

  /** The request body (backend/payments/payment_models.py). */
  datatype PaymentRequest = PaymentRequest(
    title: string, unitPrice: real, quantity: int, email: string,
    successUrl: string, failureUrl: string, pendingUrl: string, externalReference: string)

  datatype PaymentResponse = PaymentResponse(id: string, initPoint: string, externalReference: string, status: string)

  /** The authenticated user: its `id` and, when known, its `email`. */
  datatype CurrentUser = CurrentUser(id: string, email: Option<string>)

  /** The preference the provider returns; `id` and `init_point` may be absent. */
  datatype Preference = Preference(id: Option<string>, initPoint: Option<string>)

  /** The status report `get_payment_status` returns. */
  datatype StatusReport = StatusReport(paymentId: string, status: string, plan: string, externalReference: string)

  datatype PaymentError =
    | EmailMismatch
    | PreferenceFailed
    | MissingKey(key: string)
    | LookupFailed
    | Forbidden

  const INITIATED: string := "initiated"

  /** The row written when a payment starts: never premium. */
  function InitiatedProfile(preference: Preference): (p: Profile)
    ensures p.plano == FREE && p.pagamentoStatus == INITIATED
    ensures p.pagamentoId == if preference.id.Some? then preference.id.value else ""
  {
    Profile(FREE, INITIATED, if preference.id.Some? then preference.id.value else "")
  }

  /**
   * `criar_pagamento`. A request email that is not the user's is refused before anything else.
   * The provider is asked for a preference with reference `<user id>-<request reference>`
   * (`created` is its answer, None when it raised); then the user's row is upserted as free and
   * initiated, and only then are the preference's `id` and `init_point` read for the response.
   */
  method CriarPagamento(store: ProfileStore, request: PaymentRequest, user: CurrentUser, created: Option<Preference>)
    returns (r: Result<PaymentResponse, PaymentError>)
    modifies store
    ensures user.email != Some(request.email) ==> r == Err(EmailMismatch) && store.rows == old(store.rows)
    ensures user.email == Some(request.email) && created.None? ==> r == Err(PreferenceFailed) && store.rows == old(store.rows)
    ensures user.email == Some(request.email) && created.Some? ==>
      && store.rows == old(store.rows)[user.id := InitiatedProfile(created.value)]
      && (r.Ok? <==> created.value.id.Some? && created.value.initPoint.Some?)
      && (r.Ok? ==> r.value == PaymentResponse(created.value.id.value, created.value.initPoint.value,
                                               BuildReference(user.id, request.externalReference), INITIATED))
    ensures forall u :: u in store.rows && store.rows[u].plano == PREMIUM ==>
      u in old(store.rows) && store.rows[u] == old(store.rows)[u]
  {
    if Some(request.email) != user.email {
      return Err(EmailMismatch);
    }
    var externalReference := BuildReference(user.id, request.externalReference);
    if created.None? {
      return Err(PreferenceFailed);
    }
    var preference := created.value;
    store.Upsert(user.id, InitiatedProfile(preference));
    if preference.id.None? {
      return Err(MissingKey("id"));
    }
    if preference.initPoint.None? {
      return Err(MissingKey("init_point"));
    }
    r := Ok(PaymentResponse(preference.id.value, preference.initPoint.value, externalReference, INITIATED));
  }

  /** `payment_info.get('external_reference', '')` */
  function ReferenceOf(info: PaymentInfo): string {
    if info.externalReference.Some? then info.externalReference.value else ""
  }

  /** The ownership test: the owner read from the payment's reference is the user. */
  predicate Owns(user: CurrentUser, info: PaymentInfo) {
    OwnerOf(ReferenceOf(info)) == user.id
  }

  /**
   * A payment started by `criar_pagamento` passes the ownership test for its own user exactly
   * when the user's id holds no dash.
   */
  lemma StartedPaymentOwned(user: CurrentUser, info: PaymentInfo, reference: string)
    requires info.externalReference == Some(BuildReference(user.id, reference))
    ensures Owns(user, info) <==> '-' !in user.id
  {
    OwnerRoundTrip(user.id, reference);
  }

  /** `'premium' if payment_status == 'approved' else 'free'` */
  function PolledPlan(status: string): (r: string)
    ensures r == PREMIUM <==> status == APPROVED
    ensures r == PREMIUM || r == FREE
  {
    if status == APPROVED then PREMIUM else FREE
  }

  /** Polling and the webhook give every status the same plan. */
  lemma PlansAgree(status: string)
    ensures PolledPlan(status) == WebhookPlan(status)
  {
  }

  /**
   * `get_payment_status`: the provider's record of the payment (`payments`, failing on an
   * unknown id), the ownership test, then `plano` and `pagamento_status` of the user's row.
   */
  method GetPaymentStatus(store: ProfileStore, paymentId: string, user: CurrentUser, payments: map<Value, PaymentInfo>)
    returns (r: Result<StatusReport, PaymentError>)
    modifies store
    ensures Str(paymentId) !in payments ==> r == Err(LookupFailed) && store.rows == old(store.rows)
    ensures Str(paymentId) in payments ==> var info := payments[Str(paymentId)];
      && (!Owns(user, info) ==> r == Err(Forbidden) && store.rows == old(store.rows))
      && (Owns(user, info) ==>
            && r == Ok(StatusReport(paymentId, StatusOf(info), PolledPlan(StatusOf(info)), ReferenceOf(info)))
            && store.rows == WithPlan(old(store.rows), user.id, PolledPlan(StatusOf(info)), StatusOf(info)))
  {
    if Str(paymentId) !in payments {
      return Err(LookupFailed);
    }
    var info := payments[Str(paymentId)];
    var externalReference := ReferenceOf(info);
    var userIdFromRef := OwnerOf(externalReference);
    if userIdFromRef != user.id {
      return Err(Forbidden);
    }
    var status := StatusOf(info);
    var plan := PolledPlan(status);
    store.SetPlan(user.id, plan, status);
    r := Ok(StatusReport(paymentId, status, plan, externalReference));
  }
}
