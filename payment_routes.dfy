// `POST /create` of routes/payment.js: records a payment and, when it is paid, moves the
// subscription's expiration 30 days past the later of the current expiration and now.

module PaymentRoutes {
  import opened Common
  import opened UserModel
  import opened Accounts

  /** The extension a paid payment buys: 30 days. */
  const RenewalLength: int := 30 * Day

  datatype Response = Recorded(payment: Payment) | ServerError

  /** `status || 'paid'`. */
  function StatusOr(status: Option<string>): (r: string)
    ensures status.None? || status.value == "" ==> r == "paid"
    ensures status.Some? && status.value != "" ==> r == status.value
  {
    if status.None? || status.value == "" then "paid" else status.value
  }

  /**
   * The new expiration: 30 days after the current one when it exists and has not passed,
   * 30 days after `now` otherwise.
   */
  function Renewal(current: Option<int>, now: int): (r: int)
    ensures r >= now + RenewalLength
    ensures current.Some? && current.value >= now ==> r == current.value + RenewalLength
    ensures current.None? || current.value < now ==> r == now + RenewalLength
  {
    var base := if current.None? || current.value < now then now else current.value;
    base + RenewalLength
  }

  /** The subscription a paid payment stores, after the user's pre-save hook. */
  function RenewedOutcome(s: Suscripcion, now: int): Suscripcion
  {
    PlanRule(s.(fechaExpiracion := Some(Renewal(s.fechaExpiracion, now))), 0)
  }

  /** `POST /create` by the user `userId` at time `now`. */
  method Create(
    dir: Directory, userId: Id, invoiceId: Option<string>, amount: Option<int>, status: Option<string>,
    now: int) returns (resp: Response)
    requires dir.Valid()
    modifies dir
    ensures dir.Valid()
    ensures var p := Payment(userId, invoiceId, amount, StatusOr(status), now);
      && (PaymentValidates(p) <==> resp == Recorded(p))
      && (!PaymentValidates(p) ==> resp == ServerError && dir.payments == old(dir.payments))
      && (PaymentValidates(p) ==> dir.payments == old(dir.payments) + [p])
      // Only a paid payment of a user with a subscription touches the user.
      && (if PaymentValidates(p) && p.status == "paid" && userId in old(dir.users)
             && old(dir.users)[userId].suscripcion.Some?
          then
            var u := old(dir.users)[userId];
            dir.users == old(dir.users)[userId := u.(suscripcion := Some(RenewedOutcome(u.suscripcion.value, now)))]
          else dir.users == old(dir.users))
    ensures dir.tiendas == old(dir.tiendas) && dir.employees == old(dir.employees)
    ensures dir.resetTokens == old(dir.resetTokens)
  {
    var p := Payment(userId, invoiceId, amount, StatusOr(status), now);
    var saved := dir.SavePayment(p);
    if !saved {
      return ServerError;
    }
    if p.status == "paid" && userId in dir.users && dir.users[userId].suscripcion.Some? {
      var u := dir.users[userId];
      var s := u.suscripcion.value;
      var current := s.fechaExpiracion;
      if current.None? || current.value < now {
        current := Some(now);
      }
      var expiration := current.value + RenewalLength;
      var ok := dir.SaveUser(userId, u.(suscripcion := Some(s.(fechaExpiracion := Some(expiration)))), 0);
      if !ok {
        assert false;
        return ServerError;
      }
    }
    resp := Recorded(p);
  }

  /**
   * The extension survives the save for a used trial and for plans the hook has no branch for;
   * on 'basico' the hook clears the expiration, and on an unused trial it puts back the three-day end.
   */
  lemma RenewalByPlan(s: Suscripcion, now: int)
    ensures (s.plan == Some("prueba") && s.trialUsed) || s.plan.None? || s.plan == Some("medio") || s.plan == Some("superior") ==>
      && RenewedOutcome(s, now).fechaExpiracion.Some?
      && RenewedOutcome(s, now).fechaExpiracion.value >= now + RenewalLength
      && (s.fechaExpiracion.Some? && s.fechaExpiracion.value >= now ==>
            RenewedOutcome(s, now).fechaExpiracion == Some(s.fechaExpiracion.value + RenewalLength))
    ensures s.plan == Some("basico") ==> RenewedOutcome(s, now).fechaExpiracion.None?
    ensures s.plan == Some("prueba") && !s.trialUsed ==>
      RenewedOutcome(s, now).fechaExpiracion == Some(s.fechaInicio + TrialLength)
  {
  }

  /** Two payments in a row extend a live subscription by 60 days. */
  lemma TwoRenewals(e: int, now: int, later: int)
    requires e >= now && now <= later <= e + RenewalLength
    ensures Renewal(Some(Renewal(Some(e), now)), later) == e + 2 * RenewalLength
  {
  }
}
