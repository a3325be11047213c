/** The Subscription entity: a row of the subscriptions table, updated in place
    through its setters, and the per-record due-ness policy. Time is in whole seconds. */
module SubscriptionModel {
  import opened Wrappers

  const Hourly := "hourly"
  const Daily := "daily"

  /** The two cadences, as fixed second counts (no calendar or DST arithmetic). */
  const HourSeconds := 3600
  const DaySeconds := 86400

  class Subscription {
    var email: string
    var city: string
    var frequency: string
    var confirmed: bool
    /** Generated once at construction; the entity has no setter for it. */
    const token: string
    var lastSentAt: Option<int>
    /** Set once at construction; the entity has no setter for it. */
    const createdAt: int

    /** `token` is the freshly generated identifier and `now` the clock reading
        at construction. */
    constructor (token: string, now: int)
      ensures this.token == token && createdAt == now
      ensures !confirmed && lastSentAt == None
      ensures email == "" && city == "" && frequency == ""
    {
      this.token := token;
      createdAt := now;
      confirmed := false;
      lastSentAt := None;
      email, city, frequency := "", "", "";
    }

    method SetEmail(email: string)
      modifies this`email
      ensures this.email == email
    {
      this.email := email;
    }

    method SetCity(city: string)
      modifies this`city
      ensures this.city == city
    {
      this.city := city;
    }

    method SetFrequency(frequency: string)
      modifies this`frequency
      ensures this.frequency == frequency
    {
      this.frequency := frequency;
    }

    method SetConfirmed(confirmed: bool)
      modifies this`confirmed
      ensures this.confirmed == confirmed
    {
      this.confirmed := confirmed;
    }

    method SetLastSentAt(lastSentAt: Option<int>)
      modifies this`lastSentAt
      ensures this.lastSentAt == lastSentAt
    {
      this.lastSentAt := lastSentAt;
    }

    /** Whether an update is due at time `now`. */
    predicate ShouldSendUpdate(now: int)
      reads this
      ensures ShouldSendUpdate(now) ==> confirmed
      ensures ShouldSendUpdate(now) && lastSentAt.Some? ==> lastSentAt.value + HourSeconds < now
    {
      if !confirmed then false
      else if lastSentAt.None? then true
      else if frequency == Hourly then lastSentAt.value + HourSeconds < now
      else if frequency == Daily then lastSentAt.value + DaySeconds < now
      else false
    }
  }

  /** An unconfirmed subscription is never due. */
  lemma UnconfirmedIsNeverDue(s: Subscription, now: int)
    requires !s.confirmed
    ensures !s.ShouldSendUpdate(now)
  {
  }

  /** A confirmed subscription that was never sent is due, whatever its frequency. */
  lemma NeverSentIsDue(s: Subscription, now: int)
    requires s.confirmed && s.lastSentAt.None?
    ensures s.ShouldSendUpdate(now)
  {
  }

  /** The hourly and daily cadences: strictly more than one hour (one day) has passed. */
  lemma CadenceIsStrict(s: Subscription, now: int)
    requires s.confirmed && s.lastSentAt.Some?
    ensures s.frequency == Hourly ==> (s.ShouldSendUpdate(now) <==> s.lastSentAt.value + 3600 < now)
    ensures s.frequency == Daily ==> (s.ShouldSendUpdate(now) <==> s.lastSentAt.value + 86400 < now)
    ensures s.frequency != Hourly && s.frequency != Daily ==> !s.ShouldSendUpdate(now)
  {
  }

  /** Hourly: sent 61 minutes ago is due, 30 minutes ago is not, exactly one hour ago is not.
      Daily: sent 25 hours ago is due, 2 hours ago is not. */
  lemma CadenceExamples(s: Subscription, now: int)
    requires s.confirmed
    ensures s.frequency == Hourly && s.lastSentAt == Some(now - 61 * 60) ==> s.ShouldSendUpdate(now)
    ensures s.frequency == Hourly && s.lastSentAt == Some(now - 30 * 60) ==> !s.ShouldSendUpdate(now)
    ensures s.frequency == Hourly && s.lastSentAt == Some(now - 3600) ==> !s.ShouldSendUpdate(now)
    ensures s.frequency == Daily && s.lastSentAt == Some(now - 25 * 3600) ==> s.ShouldSendUpdate(now)
    ensures s.frequency == Daily && s.lastSentAt == Some(now - 2 * 3600) ==> !s.ShouldSendUpdate(now)
  {
  }

  /** Due-ness only grows with time while the record is unchanged. */
  lemma DueIsMonotoneInTime(s: Subscription, now: int, later: int)
    requires now <= later
    requires s.ShouldSendUpdate(now)
    ensures s.ShouldSendUpdate(later)
  {
  }
}
