/** ProfileView.tsx: the subscription's end date and the renewal warning.
    Times are milliseconds since the epoch; the end date arrives already
    converted from its stored text. */
module Profile {
  import opened Types

  /** Five days, `5 * 24 * 60 * 60 * 1000` milliseconds. */
  const RENEWAL_WINDOW_MS: int := 5 * 24 * 60 * 60 * 1000

  /** What the "Próximo Vencimento" field shows: `'N/A'`, or the end date
      (formatted by the browser's locale). */
  datatype DateLabel = NotAvailable | EndsOn(ms: int)

  datatype Summary = Summary(dateLabel: DateLabel, renewalSoon: bool, showPhone: bool)

  /** The profile page for `profile` at time `nowMs`; None when there is no
      profile (the component renders nothing). */
  function SummaryOf(profile: Option<UserProfile>, nowMs: int): (r: Option<Summary>)
    ensures r.None? <==> profile.None?
    ensures r.Some? ==> (r.value.dateLabel == NotAvailable <==> profile.value.subscriptionEnd.None?)
    ensures r.Some? && profile.value.subscriptionEnd.Some? ==> r.value.dateLabel == EndsOn(profile.value.subscriptionEnd.value)
    ensures r.Some? ==> (r.value.renewalSoon <==>
      profile.value.subscriptionEnd.Some? && profile.value.subscriptionEnd.value - nowMs < 432000000)
    ensures r.Some? ==> (r.value.showPhone <==> profile.value.phone.Some? && profile.value.phone.value != "")
  {
    match profile
    case None => None
    case Some(p) =>
      var shown := if p.subscriptionEnd.None? then NotAvailable else EndsOn(p.subscriptionEnd.value);
      var soon := p.subscriptionEnd.Some? && p.subscriptionEnd.value - nowMs < RENEWAL_WINDOW_MS;
      Some(Summary(shown, soon, p.phone.Some? && p.phone.value != ""))
  }

  /** Without an end date there is never a warning. */
  lemma NoEndNoWarning(p: UserProfile, nowMs: int)
    requires p.subscriptionEnd.None?
    ensures SummaryOf(Some(p), nowMs).value == Summary(NotAvailable, false, SummaryOf(Some(p), nowMs).value.showPhone)
  {
  }

  /** An expired subscription warns too: its difference is negative. */
  lemma ExpiredWarns(p: UserProfile, nowMs: int)
    requires p.subscriptionEnd.Some? && p.subscriptionEnd.value <= nowMs
    ensures SummaryOf(Some(p), nowMs).value.renewalSoon
  {
  }

  /** An end five days away or more shows no warning. */
  lemma FarEndNoWarning(p: UserProfile, nowMs: int)
    requires p.subscriptionEnd.Some? && p.subscriptionEnd.value >= nowMs + RENEWAL_WINDOW_MS
    ensures !SummaryOf(Some(p), nowMs).value.renewalSoon
  {
  }

  /** Once the warning shows it keeps showing as time passes. */
  lemma WarningPersists(p: UserProfile, nowMs: int, laterMs: int)
    requires nowMs <= laterMs && SummaryOf(Some(p), nowMs).value.renewalSoon
    ensures SummaryOf(Some(p), laterMs).value.renewalSoon
  {
  }
}
