/**
 * What the payment code shares: the `user_profiles` table keyed by user id, the owner encoded
 * in a payment's `external_reference`, and the payment records the payment provider returns.
 */
module PaymentRecords {
  import opened Wrappers
  import opened Text
  import opened Decimals

  /** The payment columns of a `user_profiles` row. */
  datatype Profile = Profile(plano: string, pagamentoStatus: string, pagamentoId: string)

  /** A payment as the provider reports it; each field may be absent. */
  datatype PaymentInfo = PaymentInfo(id: Option<string>, status: Option<string>, externalReference: Option<string>)

  const PREMIUM: string := "premium"
  const FREE: string := "free"
  const APPROVED: string := "approved"

  /** `payment_info.get('status', 'pending')` */
  function StatusOf(info: PaymentInfo): string {
    if info.status.Some? then info.status.value else "pending"
  }

  /** `str(payment_info.get('id'))`: the id's text, or "None" when absent. */
  function IdText(id: Option<string>): string {
    if id.Some? then id.value else "None"
  }

  /**
   * `ref.split('-')[0] if '-' in ref else ref`: the longest prefix without a dash, which is the
   * whole reference when it has none.
   */
  function OwnerOf(reference: string): (r: string)
    ensures '-' !in r
    ensures |r| <= |reference| && r == reference[..|r|]
    ensures |r| < |reference| ==> reference[|r|] == '-'
    ensures '-' !in reference <==> r == reference
  {
    BeforeFirst(reference, '-')
  }

  /** `f"{user_id}-{reference}"` */
  function BuildReference(userId: string, reference: string): string {
    userId + "-" + reference
  }

  /**
   * The owner read back from a built reference is the caller exactly when the caller's id
   * holds no dash; an id with a dash (a UUID, say) is cut at its first dash.
   */
  lemma OwnerRoundTrip(userId: string, reference: string)
    ensures OwnerOf(BuildReference(userId, reference)) == userId <==> '-' !in userId
    ensures '-' in userId ==> OwnerOf(BuildReference(userId, reference)) == OwnerOf(userId)
  {
    if '-' !in userId {
      assert BuildReference(userId, reference) == userId + ['-'] + reference;
      SplitAtFirst(userId, '-', reference);
    } else {
      var o := OwnerOf(userId);
      var built := BuildReference(userId, reference);
      assert |o| < |userId|;
      assert built[..|userId|] == userId;
      assert built[|o|] == '-';
      assert built[..|o|] == o;
    }
  }

  /** A UUID-shaped id does not survive the round trip. */
  lemma DashedIdExample()
    ensures OwnerOf(BuildReference("3f2a-9c1e", "pedido")) != "3f2a-9c1e"
  {
    assert "3f2a-9c1e"[4] == '-';
    OwnerRoundTrip("3f2a-9c1e", "pedido");
  }

  /** `update(...).eq('user_id', userId)` of all three columns: only the matching row, if any. */
  function WithPayment(rows: map<string, Profile>, userId: string, profile: Profile): (r: map<string, Profile>)
    ensures r.Keys == rows.Keys
    ensures forall u :: u in rows && u != userId ==> r[u] == rows[u]
    ensures userId in rows ==> r[userId] == profile
  {
    if userId in rows then rows[userId := profile] else rows
  }

  /** `update(...).eq('user_id', userId)` of `plano` and `pagamento_status`: `pagamento_id` is kept. */
  function WithPlan(rows: map<string, Profile>, userId: string, plano: string, status: string): (r: map<string, Profile>)
    ensures r.Keys == rows.Keys
    ensures forall u :: u in rows && u != userId ==> r[u] == rows[u]
    ensures userId in rows ==>
      r[userId] == Profile(plano, status, rows[userId].pagamentoId)
  {
    if userId in rows then rows[userId := rows[userId].(plano := plano, pagamentoStatus := status)] else rows
  }

  /** The `user_profiles` table. */
  class ProfileStore {
    var rows: map<string, Profile>

    constructor (initial: map<string, Profile>)
      ensures rows == initial
    {
      rows := initial;
    }

    method SetPayment(userId: string, profile: Profile)
      modifies this
      ensures rows == WithPayment(old(rows), userId, profile)
    {
      if userId in rows {
        rows := rows[userId := profile];
      }
    }

    method SetPlan(userId: string, plano: string, status: string)
      modifies this
      ensures rows == WithPlan(old(rows), userId, plano, status)
    {
      if userId in rows {
        rows := rows[userId := rows[userId].(plano := plano, pagamentoStatus := status)];
      }
    }

    /** `upsert` keyed by `user_id`: the row is replaced or created. */
    method Upsert(userId: string, profile: Profile)
      modifies this
      ensures rows == old(rows)[userId := profile]
    {
      rows := rows[userId := profile];
    }
  }
}
