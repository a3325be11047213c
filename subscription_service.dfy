/** The subscription lifecycle (create, confirm, unsubscribe) and the batched
    dispatch of weather updates, over the subscriptions table, the entity
    manager's flushes and the mail notifier. */
module SubscriptionLifecycle {
  import opened Wrappers
  import opened SubscriptionModel
  import opened SubscriptionQueries

  /** What the notifier was asked to send. The notifier never fails towards its caller:
      every send logs its own errors. */
  datatype Mail =
    | Confirmation(subscription: Subscription)
    | Welcome(subscription: Subscription)
    | WeatherUpdate(subscription: Subscription)
    | Goodbye(email: string, city: string)

  /** How the store answers the insert of a new subscription: it accepts it, it
      raises a unique-constraint violation because a concurrent request inserted the
      same (email, city) first, or it fails for another reason. */
  datatype StoreCondition = Available | RacedByDuplicate | Unavailable(message: string)

  /** Outcome of creating a subscription; `Failed` is the store error that is rethrown. */
  datatype CreateOutcome = Created(subscription: Subscription) | AlreadyExists | Failed(message: string)

  /** The update mails of one dispatch run: one per due subscription, in order. */
  function UpdateMails(due: seq<Subscription>): (m: seq<Mail>)
  {
    seq(|due|, i requires 0 <= i < |due| => WeatherUpdate(due[i]))
  }

  /** How many subscriptions of a run are counted: those whose persist did not fail. */
  function CountPersisted(due: seq<Subscription>, persistFails: set<Subscription>): (n: nat)
    ensures n <= |due|
  {
    if due == [] then 0
    else CountPersisted(due[..|due| - 1], persistFails) + (if due[|due| - 1] in persistFails then 0 else 1)
  }

  /** The count equals the length of the due list when no persist fails, and is zero
      when every persist fails. */
  lemma {:induction false} CountPersistedExtremes(due: seq<Subscription>, persistFails: set<Subscription>)
    ensures (forall s :: s in due ==> s !in persistFails) ==> CountPersisted(due, persistFails) == |due|
    ensures (forall s :: s in due ==> s in persistFails) ==> CountPersisted(due, persistFails) == 0
  {
    if due != [] {
      var init := due[..|due| - 1];
      assert forall s :: s in init ==> s in due;
      CountPersistedExtremes(init, persistFails);
    }
  }

  /** The number of flushes of a run that counted `count` subscriptions: the ceiling of count / 10. */
  function FlushCalls(count: nat): (n: nat)
  {
    (count + 9) / 10
  }

  lemma FlushCallsIsCeiling(count: nat)
    ensures 10 * FlushCalls(count) >= count
    ensures count > 0 ==> 10 * (FlushCalls(count) - 1) < count
    ensures FlushCalls(0) == 0 && FlushCalls(10) == 1 && FlushCalls(20) == 2 && FlushCalls(23) == 3
  {
  }

  class SubscriptionService {
    /** The subscriptions as the entity manager holds them in memory, in table order;
        they equal the stored table as long as every flush succeeds. */
    var rows: seq<Subscription>
    /** How many flushes this service issued. */
    var flushes: nat
    /** Everything handed to the notifier, in order. */
    var mails: seq<Mail>

    /** The table's unique indexes. */
    ghost predicate Valid()
      reads this, rows`email, rows`city
    {
      IdentitiesUnique(rows) && TokensUnique(rows)
    }

    constructor ()
      ensures Valid() && rows == [] && flushes == 0 && mails == []
    {
      rows, flushes, mails := [], 0, [];
    }

    /** Creates an unconfirmed subscription with the freshly generated `token`, at time `now`. */
    method CreateSubscription(email: string, city: string, frequency: string, token: string, now: int,
                              store: StoreCondition) returns (r: CreateOutcome)
      requires Valid()
      modifies this
      ensures Valid()
      ensures old(FindOneByIdentity(rows, email, city)).Some? ==>
                r == AlreadyExists && rows == old(rows) && flushes == old(flushes) && mails == old(mails)
      ensures old(FindOneByIdentity(rows, email, city)).None? ==> flushes == old(flushes) + 1
      ensures r.Failed? <==> old(FindOneByIdentity(rows, email, city)).None? && store.Unavailable?
      ensures r.Failed? ==> r.message == store.message
      ensures r.Created? <==>
                old(FindOneByIdentity(rows, email, city)).None? && store.Available? && old(FindByToken(rows, token)).None?
      ensures r.Created? ==>
                var s := r.subscription;
                fresh(s) && rows == old(rows) + [s] && mails == old(mails) + [Confirmation(s)] &&
                s.email == email && s.city == city && s.frequency == frequency && s.token == token &&
                !s.confirmed && s.lastSentAt == None && s.createdAt == now
      ensures !r.Created? ==> rows == old(rows) && mails == old(mails)
    {
      if FindOneByIdentity(rows, email, city).Some? {
        return AlreadyExists;
      }
      var s := new Subscription(token, now);
      s.SetEmail(email);
      s.SetCity(city);
      s.SetFrequency(frequency);
      // persist and flush
      flushes := flushes + 1;
      match store {
        case Unavailable(message) =>
          return Failed(message);
        case RacedByDuplicate =>
          return AlreadyExists;
        case Available =>
          if FindByToken(rows, token).Some? {
            // the unique index on token rejects the insert
            return AlreadyExists;
          }
          rows := rows + [s];
          mails := mails + [Confirmation(s)];
          return Created(s);
      }
    }

    /** Confirms the subscription holding `token`. */
    method ConfirmSubscription(token: string) returns (ok: bool)
      requires Valid()
      modifies this`flushes, this`mails, rows
      ensures Valid()
      ensures ok == old(FindByToken(rows, token)).Some?
      ensures ok ==> var s := old(FindByToken(rows, token)).value;
                     s.confirmed && flushes == old(flushes) + 1 && mails == old(mails) + [Welcome(s)]
      ensures !ok ==> flushes == old(flushes) && mails == old(mails)
      ensures forall k :: 0 <= k < |rows| && rows[k].token != token ==> rows[k].confirmed == old(rows[k].confirmed)
      ensures forall k :: 0 <= k < |rows| ==>
                rows[k].email == old(rows[k].email) && rows[k].city == old(rows[k].city) &&
                rows[k].frequency == old(rows[k].frequency) && rows[k].lastSentAt == old(rows[k].lastSentAt)
    {
      var found := FindByToken(rows, token);
      if found.None? {
        return false;
      }
      found.value.SetConfirmed(true);
      flushes := flushes + 1;
      mails := mails + [Welcome(found.value)];
      return true;
    }

    /** Deletes the subscription holding `token`; the goodbye mail uses the email and
        city read before the deletion. */
    method Unsubscribe(token: string) returns (ok: bool)
      requires Valid()
      modifies this
      ensures Valid()
      ensures ok == old(FindByToken(rows, token)).Some?
      ensures ok ==> exists i :: 0 <= i < |old(rows)| && old(rows)[i].token == token &&
                                 rows == old(rows)[..i] + old(rows)[i + 1..] &&
                                 mails == old(mails) + [Goodbye(old(rows)[i].email, old(rows)[i].city)]
      ensures ok ==> flushes == old(flushes) + 1
      ensures ok ==> FindByToken(rows, token).None?
      ensures !ok ==> rows == old(rows) && flushes == old(flushes) && mails == old(mails)
    {
      var found := FindByToken(rows, token);
      if found.None? {
        return false;
      }
      var s := found.value;
      var email, city := s.email, s.city;
      var i :| 0 <= i < |rows| && rows[i] == s;
      RemoveAtKeepsIndexes(rows, i);
      rows := rows[..i] + rows[i + 1..];
      flushes := flushes + 1;
      mails := mails + [Goodbye(email, city)];
      return true;
    }

    /** One dispatch run at time `now`: every due subscription (every confirmed one
        when `forceAll`) is handed to the notifier and stamped with `now`; those whose
        persist does not fail are counted, and the entity manager is flushed at every
        tenth counted subscription and once more for a remainder. */
    method SendWeatherUpdates(forceAll: bool, now: int, persistFails: set<Subscription>) returns (count: nat)
      requires Valid()
      modifies this`flushes, this`mails, rows`lastSentAt
      ensures Valid()
      ensures count == CountPersisted(old(FindSubscriptionsForUpdates(rows, forceAll, now)), persistFails)
      ensures count <= |old(FindSubscriptionsForUpdates(rows, forceAll, now))|
      ensures persistFails == {} ==> count == |old(FindSubscriptionsForUpdates(rows, forceAll, now))|
      ensures flushes == old(flushes) + FlushCalls(count)
      ensures mails == old(mails) + UpdateMails(old(FindSubscriptionsForUpdates(rows, forceAll, now)))
      ensures forall x :: x in rows ==>
                x.lastSentAt == (if old(Selected(x, forceAll, now)) then Some(now) else old(x.lastSentAt))
    {
      var due := FindSubscriptionsForUpdates(rows, forceAll, now);
      assert forall i :: 0 <= i < |due| ==> due[i] in rows;
      count := SendToEach(due, now, persistFails);
      CountPersistedExtremes(due, persistFails);
    }

    /** The loop of a dispatch run over the due list `due`. */
    method SendToEach(due: seq<Subscription>, now: int, persistFails: set<Subscription>) returns (count: nat)
      modifies this`flushes, this`mails, due`lastSentAt
      ensures count == CountPersisted(due, persistFails)
      ensures flushes == old(flushes) + FlushCalls(count)
      ensures mails == old(mails) + UpdateMails(due)
      ensures forall x :: x in due ==> x.lastSentAt == Some(now)
    {
      count := 0;
      var i := 0;
      while i < |due|
        invariant 0 <= i <= |due|
        invariant count == CountPersisted(due[..i], persistFails)
        invariant flushes == old(flushes) + count / 10
        invariant mails == old(mails) + UpdateMails(due[..i])
        invariant forall j :: 0 <= j < i ==> due[j].lastSentAt == Some(now)
      {
        var s := due[i];
        assert due[..i + 1] == due[..i] + [s];
        mails := mails + [WeatherUpdate(s)];
        s.SetLastSentAt(Some(now));
        if s !in persistFails {
          count := count + 1;
          if count % 10 == 0 {
            flushes := flushes + 1;
          }
        }
        i := i + 1;
      }
      if count % 10 != 0 {
        flushes := flushes + 1;
      }
      assert due[..|due|] == due;
    }
  }

  /** A second request for the same (email, city) is refused and leaves the table as the
      first one left it. */
  method DuplicateCreateIsRefused(svc: SubscriptionService, email: string, city: string, frequency: string,
                                  token1: string, token2: string, now: int) returns (first: CreateOutcome, second: CreateOutcome)
    requires svc.Valid()
    modifies svc
    ensures svc.Valid()
    ensures first.Created? ==> second == AlreadyExists && svc.rows == old(svc.rows) + [first.subscription]
  {
    first := svc.CreateSubscription(email, city, frequency, token1, now, Available);
    ghost var afterFirst := svc.rows;
    second := svc.CreateSubscription(email, city, frequency, token2, now, Available);
    assert first.Created? ==> second == AlreadyExists && svc.rows == afterFirst;
  }

  /** Confirming twice gives the same answer both times; afterwards exactly the record
      holding the token is confirmed in addition to those confirmed before, and no other
      field of any row has changed. */
  method ConfirmIsIdempotent(svc: SubscriptionService, token: string) returns (first: bool, second: bool)
    requires svc.Valid()
    modifies svc`flushes, svc`mails, svc.rows
    ensures first == second == old(FindByToken(svc.rows, token)).Some?
    ensures first ==> old(FindByToken(svc.rows, token)).value.confirmed
    ensures svc.rows == old(svc.rows)
    ensures forall k :: 0 <= k < |svc.rows| ==>
              svc.rows[k].confirmed == (old(svc.rows[k].confirmed) || svc.rows[k].token == token)
    ensures forall k :: 0 <= k < |svc.rows| ==>
              svc.rows[k].email == old(svc.rows[k].email) && svc.rows[k].city == old(svc.rows[k].city) &&
              svc.rows[k].frequency == old(svc.rows[k].frequency) &&
              svc.rows[k].lastSentAt == old(svc.rows[k].lastSentAt)
  {
    first := svc.ConfirmSubscription(token);
    second := svc.ConfirmSubscription(token);
  }

  /** After an unsubscribe, the token is unknown to both confirm and unsubscribe. */
  method UnsubscribeForgetsToken(svc: SubscriptionService, token: string) returns (gone: bool, confirmed: bool, again: bool)
    requires svc.Valid()
    modifies svc, svc.rows
    ensures gone ==> !confirmed && !again
  {
    gone := svc.Unsubscribe(token);
    assert forall j :: 0 <= j < |svc.rows| ==> svc.rows[j] in old(svc.rows);
    confirmed := svc.ConfirmSubscription(token);
    again := svc.Unsubscribe(token);
  }
}
