/** The subscriptions table seen as a sequence of entities, and the repository's
    read-only queries over it: lookup by token, lookup by (email, city), and the
    due-subscriptions query. */
module SubscriptionQueries {
  import opened Wrappers
  import opened SubscriptionModel

  /** The unique index on (email, city). */
  predicate IdentitiesUnique(rows: seq<Subscription>)
    reads rows`email, rows`city
  {
    forall i, j :: 0 <= i < j < |rows| ==> rows[i].email != rows[j].email || rows[i].city != rows[j].city
  }

  /** The unique index on token. */
  predicate TokensUnique(rows: seq<Subscription>)
  {
    forall i, j :: 0 <= i < j < |rows| ==> rows[i].token != rows[j].token
  }

  /** The record whose token equals `token`, if any. */
  function FindByToken(rows: seq<Subscription>, token: string): (r: Option<Subscription>)
    ensures r.Some? ==> r.value in rows && r.value.token == token
    ensures r.None? <==> forall s :: s in rows ==> s.token != token
  {
    if rows == [] then None
    else if rows[0].token == token then Some(rows[0])
    else FindByToken(rows[1..], token)
  }

  /** Under the unique token index, the lookup finds exactly the record holding the token. */
  lemma FindByTokenIsExact(rows: seq<Subscription>, s: Subscription)
    requires TokensUnique(rows)
    requires s in rows
    ensures FindByToken(rows, s.token) == Some(s)
  {
  }

  /** The record with the given (email, city), if any. */
  function FindOneByIdentity(rows: seq<Subscription>, email: string, city: string): (r: Option<Subscription>)
    reads rows`email, rows`city
    ensures r.Some? ==> r.value in rows && r.value.email == email && r.value.city == city
    ensures r.None? <==> forall s :: s in rows ==> s.email != email || s.city != city
  {
    if rows == [] then None
    else if rows[0].email == email && rows[0].city == city then Some(rows[0])
    else FindOneByIdentity(rows[1..], email, city)
  }

  /** The condition the due-subscriptions query puts on one row: confirmed, and
      unless `forceAll`, never sent or last sent before the cadence's cut-off. */
  predicate Selected(s: Subscription, forceAll: bool, now: int)
    reads s
    ensures Selected(s, forceAll, now) ==> s.confirmed
    ensures !forceAll && Selected(s, forceAll, now) && s.lastSentAt.Some? ==> s.lastSentAt.value < now - HourSeconds
  {
    s.confirmed &&
    (forceAll ||
     s.lastSentAt.None? ||
     (s.frequency == Hourly && s.lastSentAt.value < now - HourSeconds) ||
     (s.frequency == Daily && s.lastSentAt.value < now - DaySeconds))
  }

  /** The due-subscriptions query: the selected rows, in table order. */
  function FindSubscriptionsForUpdates(rows: seq<Subscription>, forceAll: bool, now: int): (r: seq<Subscription>)
    reads rows
    ensures |r| <= |rows|
    ensures forall s :: s in r ==> s in rows && Selected(s, forceAll, now)
    ensures forall s :: s in rows && Selected(s, forceAll, now) ==> s in r
  {
    if rows == [] then []
    else
      var rest := FindSubscriptionsForUpdates(rows[1..], forceAll, now);
      if Selected(rows[0], forceAll, now) then [rows[0]] + rest else rest
  }

  /** Every returned record is confirmed, in both modes. */
  lemma ResultIsConfirmed(rows: seq<Subscription>, forceAll: bool, now: int)
    ensures forall s :: s in FindSubscriptionsForUpdates(rows, forceAll, now) ==> s.confirmed
  {
  }

  /** With `forceAll`, the result is exactly the confirmed records of the table. */
  lemma ForceAllSelectsConfirmed(rows: seq<Subscription>, now: int)
    ensures forall s :: s in FindSubscriptionsForUpdates(rows, true, now) ==> s in rows && s.confirmed
    ensures forall s :: s in rows && s.confirmed ==> s in FindSubscriptionsForUpdates(rows, true, now)
  {
  }

  /** The query and the entity's own predicate agree record by record (integer time). */
  lemma SelectedAgreesWithShouldSendUpdate(s: Subscription, now: int)
    ensures Selected(s, false, now) <==> s.ShouldSendUpdate(now)
  {
  }

  /** The due list is exactly the records of the table for which `ShouldSendUpdate` holds,
      and it is contained in the forced list, which is contained in the table. */
  lemma DueListAgreesWithShouldSendUpdate(rows: seq<Subscription>, now: int)
    ensures forall s :: s in FindSubscriptionsForUpdates(rows, false, now) ==> s in rows && s.ShouldSendUpdate(now)
    ensures forall s :: s in rows && s.ShouldSendUpdate(now) ==> s in FindSubscriptionsForUpdates(rows, false, now)
    ensures forall s :: s in FindSubscriptionsForUpdates(rows, false, now) ==> s in FindSubscriptionsForUpdates(rows, true, now)
    ensures forall s :: s in FindSubscriptionsForUpdates(rows, true, now) ==> s in rows
  {
    forall s | s in rows {
      SelectedAgreesWithShouldSendUpdate(s, now);
    }
  }

  /** The query keeps table order, and the due list is the forced list filtered
      once more by the cadence condition. */
  lemma {:induction false} DueListFiltersForcedList(rows: seq<Subscription>, now: int)
    ensures FindSubscriptionsForUpdates(FindSubscriptionsForUpdates(rows, true, now), false, now)
         == FindSubscriptionsForUpdates(rows, false, now)
  {
    if rows != [] {
      DueListFiltersForcedList(rows[1..], now);
      if Selected(rows[0], true, now) {
        var forced := FindSubscriptionsForUpdates(rows, true, now);
        assert forced[0] == rows[0] && forced[1..] == FindSubscriptionsForUpdates(rows[1..], true, now);
      }
    }
  }

  /** Deleting one row keeps both unique indexes, and no remaining row holds its token. */
  lemma RemoveAtKeepsIndexes(rows: seq<Subscription>, i: nat)
    requires i < |rows|
    requires IdentitiesUnique(rows) && TokensUnique(rows)
    ensures IdentitiesUnique(rows[..i] + rows[i + 1..]) && TokensUnique(rows[..i] + rows[i + 1..])
    ensures FindByToken(rows[..i] + rows[i + 1..], rows[i].token).None?
  {
  }
}
