# Weather subscription engine — a Dafny model

This project models the core of a Symfony application that mails weather updates
to subscribers:

- the **Subscription** entity, its setters and its per-record due-ness policy
  (`shouldSendUpdate`);
- the **subscription repository**: lookup by token, lookup by (email, city), and
  the due-subscriptions query (`findSubscriptionsForUpdates`);
- the **subscription service**:
  - `createSubscription`, `confirmSubscription` and `unsubscribe`;
  - the dispatch run `sendWeatherUpdates`, which stamps `lastSentAt`, counts, and
    flushes after every tenth counted subscription and once more for a remainder;
- the **weather lookup** (`getWeatherForCity`), which goes through three stages:
  - a cache keyed by the normalised city name, with a 30-minute lifetime;
  - then the latest stored snapshot younger than one hour (`findLatestForCity`);
  - then the external provider, whose failures become `null`;
- the **API exception listener**: which requests get a JSON error, and with which
  status, label and message.

Time is whole seconds on one UTC scale, and every clock reading is a `now` parameter. The
subscriptions table is a sequence of `Subscription` objects. Its two unique indexes,
on (email, city) and on token, are the service's `Valid()` invariant. Every
operation keeps that invariant.

The mail notifier catches every exception of its own, so it is modelled as an
append-only list of requested mails that never raises an exception. The weather provider is a
parameter `reply`: the answer it would give if asked. A counter records whether it
was asked.

Modules, one per source file:

| module | file | source |
|---|---|---|
| `Wrappers` | wrappers.dfy | Option / Result helpers |
| `SubscriptionModel` | subscription_entity.dfy | src/Entity/Subscription.php |
| `SubscriptionQueries` | subscription_repository.dfy | src/Repository/SubscriptionRepository.php |
| `SubscriptionLifecycle` | subscription_service.dfy | src/Service/SubscriptionService.php |
| `WeatherStorage` | weather_data_repository.dfy | src/Repository/WeatherDataRepository.php |
| `WeatherLookup` | weather_service.dfy | src/Service/WeatherService.php |
| `ApiErrors` | exception_listener.dfy | src/EventListener/ExceptionListener.php |

Three behaviours of the code are worth stating outright, because the model keeps them:

- **A failed weather lookup during dispatch does not skip the subscription.**
  `sendWeatherUpdate` logs that failure and returns normally
  (src/Service/EmailService.php:98-101), so the dispatch loop still stamps that
  subscription and counts it (src/Service/SubscriptionService.php:127-131).
- **Re-confirming is not silent.** A second confirm flushes again and asks for
  another welcome mail (src/Service/SubscriptionService.php:78-83).
- **A token collision is refused as a duplicate.** A new token that collides with a
  stored one is rejected by the unique index on token. The store reports a
  unique-constraint violation, and `createSubscription` maps it to `already_exists`,
  exactly as it does for an (email, city) race. So the model needs no "the token is
  fresh" precondition.

## Model

| member | source | states |
|---|---|---|
| `SubscriptionModel.Subscription.constructor` | src/Entity/Subscription.php:39-58 | a new subscription is unconfirmed, never sent, and has its token and creation time set |
| `SubscriptionModel.Subscription.SetEmail` | src/Entity/Subscription.php:70-74 | sets the email; the frame allows no other field to change |
| `SubscriptionModel.Subscription.SetCity` | src/Entity/Subscription.php:81-85 | sets the city and nothing else |
| `SubscriptionModel.Subscription.SetFrequency` | src/Entity/Subscription.php:92-96 | sets the frequency and nothing else |
| `SubscriptionModel.Subscription.SetConfirmed` | src/Entity/Subscription.php:103-107 | sets the confirmed flag and nothing else |
| `SubscriptionModel.Subscription.SetLastSentAt` | src/Entity/Subscription.php:119-124 | sets the last-sent time and nothing else; token and creation time are constants with no setter |
| `SubscriptionModel.Subscription.ShouldSendUpdate` | src/Entity/Subscription.php:145-160 | its body is the due-ness policy; its contract states that a due record is confirmed and, once sent, was sent more than an hour ago; the lemmas below state the policy case by case |
| `SubscriptionModel.UnconfirmedIsNeverDue` | src/Entity/Subscription.php:147-149 | an unconfirmed subscription is never due |
| `SubscriptionModel.NeverSentIsDue` | src/Entity/Subscription.php:151-153 | a confirmed subscription never sent is due, whatever its frequency |
| `SubscriptionModel.CadenceIsStrict` | src/Entity/Subscription.php:155-158 | hourly is due iff lastSentAt + 3600 < now, daily iff lastSentAt + 86400 < now; any other frequency with a last-sent time is never due |
| `SubscriptionModel.CadenceExamples` | src/Entity/Subscription.php:155-157 | hourly sent 61 min ago is due, 30 min or exactly 60 min ago is not; daily sent 25 h ago is due, 2 h ago is not |
| `SubscriptionModel.DueIsMonotoneInTime` | src/Entity/Subscription.php:156-157 | an unchanged record due at `now` is due at every later time |
| `SubscriptionQueries.FindByToken` | src/Repository/SubscriptionRepository.php:22-25 | the result holds the token and belongs to the table; None iff no record holds it |
| `SubscriptionQueries.FindByTokenIsExact` | src/Repository/SubscriptionRepository.php:22-25 | under the unique token index, the lookup returns exactly the record holding the token |
| `SubscriptionQueries.FindOneByIdentity` | src/Service/SubscriptionService.php:32-35 | the result has the given email and city; None iff no record has both |
| `SubscriptionQueries.RemoveAtKeepsIndexes` | migrations/Version20250513145242.php:36-37 | deleting one row keeps both unique indexes and leaves no row with its token |
| `SubscriptionQueries.Selected` | src/Repository/SubscriptionRepository.php:35-63 | its body is the query's WHERE condition; its contract states that a selected record is confirmed and, in due mode, was last sent before now − 3600; `SelectedAgreesWithShouldSendUpdate` relates it to the entity policy |
| `SubscriptionQueries.FindSubscriptionsForUpdates` | src/Repository/SubscriptionRepository.php:33-67 | a record is returned iff it is in the table and meets the query's condition (confirmed, and in due mode never sent or past the hourly/daily cut-off) |
| `SubscriptionQueries.ResultIsConfirmed` | src/Repository/SubscriptionRepository.php:35-37 | every returned record is confirmed, in both modes |
| `SubscriptionQueries.ForceAllSelectsConfirmed` | src/Repository/SubscriptionRepository.php:33-39 | with forceAll the result is exactly the confirmed records |
| `SubscriptionQueries.SelectedAgreesWithShouldSendUpdate` | src/Repository/SubscriptionRepository.php:44-58 | the query's condition in due mode holds of a record iff its shouldSendUpdate does |
| `SubscriptionQueries.DueListAgreesWithShouldSendUpdate` | src/Repository/SubscriptionRepository.php:35-66 | the due list is exactly the table's records for which shouldSendUpdate holds; due list ⊆ forced list ⊆ table |
| `SubscriptionQueries.DueListFiltersForcedList` | src/Repository/SubscriptionRepository.php:39-63 | the due list is the forced list filtered by the cadence condition, order kept |
| `SubscriptionLifecycle.CountPersisted` | src/Service/SubscriptionService.php:125-131 | the count of a run never exceeds the length of its due list |
| `SubscriptionLifecycle.CountPersistedExtremes` | src/Service/SubscriptionService.php:125-131 | the count equals the due list's length when no persist fails, and is 0 when every persist fails |
| `SubscriptionLifecycle.FlushCallsIsCeiling` | src/Service/SubscriptionService.php:134-144 | the number of flushes is ceil(count / 10): 0 gives 0, 10 gives 1, 23 gives 3 |
| `SubscriptionLifecycle.SubscriptionService.constructor` | src/Service/SubscriptionService.php:13-18 | the service starts over an empty table with no flushes and no mails, its invariant holding |
| `SubscriptionLifecycle.SubscriptionService.CreateSubscription` | src/Service/SubscriptionService.php:28-62 | existing (email, city) gives already_exists and changes nothing; a store failure is rethrown; a unique violation (race or token clash) gives already_exists with the table unchanged; otherwise exactly one unconfirmed, never-sent record with the given fields and token is appended and a confirmation is requested |
| `SubscriptionLifecycle.SubscriptionService.ConfirmSubscription` | src/Service/SubscriptionService.php:70-86 | an unknown token gives false and changes nothing; a known one gives true, confirms exactly that record, flushes once and requests a welcome mail |
| `SubscriptionLifecycle.SubscriptionService.Unsubscribe` | src/Service/SubscriptionService.php:94-112 | an unknown token gives false and changes nothing; a known one removes exactly that record, after which the token is unknown, and the goodbye carries its email and city |
| `SubscriptionLifecycle.SubscriptionService.SendWeatherUpdates` | src/Service/SubscriptionService.php:120-147 | every listed subscription gets an update request and lastSentAt = now, all others keep theirs; the count is those whose persist did not fail (≤ list length, = list length with no failure); flushes = ceil(count / 10) |
| `SubscriptionLifecycle.SubscriptionService.SendToEach` | src/Service/SubscriptionService.php:125-144 | the loop over a due list: stamps each, requests one update per entry in order, counts the persisted ones, flushes at multiples of ten and for a remainder |
| `SubscriptionLifecycle.DuplicateCreateIsRefused` | src/Service/SubscriptionService.php:32-39 | after a successful create, a second create for the same (email, city) is refused and the table keeps one new row |
| `SubscriptionLifecycle.ConfirmIsIdempotent` | src/Service/SubscriptionService.php:72-85 | confirming twice answers the same both times; afterwards the table holds the same rows, a row is confirmed iff it was before or holds the token, and no row's email, city, frequency or last-sent time changed |
| `SubscriptionLifecycle.UnsubscribeForgetsToken` | src/Service/SubscriptionService.php:96-111 | after a successful unsubscribe, confirm and unsubscribe with the token both answer false |
| `WeatherStorage.FindLatestForCity` | src/Repository/WeatherDataRepository.php:22-35 | the result is a stored snapshot of the same city with forecastTime > now − 3600, maximal among those; None iff there is none |
| `WeatherLookup.ReplaceSpaces` | src/Service/WeatherService.php:38 | same length, each space becomes an underscore, every other character is kept |
| `WeatherLookup.ToLower` | src/Service/WeatherService.php:38 | same length, each character ASCII-lower-cased |
| `WeatherLookup.CacheKey` | src/Service/WeatherService.php:38 | the key is "weather_" followed by one character per character of the city, each space made an underscore and lower-cased; `CacheKeyIdentifiesCity` and `NormalisationIsIdempotent` state its properties |
| `WeatherLookup.CacheKeyIdentifiesCity` | src/Service/WeatherService.php:38 | two cities share a cache key iff they differ only in ASCII letter case and in spaces versus underscores |
| `WeatherLookup.NormalisationIsIdempotent` | src/Service/WeatherService.php:38 | normalising the key suffix twice equals normalising it once |
| `WeatherLookup.NewYorkSharesOneKey` | src/Service/WeatherService.php:38 | "New York", "new york" and "New_York" all map to "weather_new_york" |
| `WeatherLookup.NewYorkSpellingKey` | src/Service/WeatherService.php:38 | the key of each spelling of New York is "weather_new_york" |
| `WeatherLookup.DecodeReply` | src/Service/WeatherService.php:74-91 | a snapshot results iff the reply arrived, its error message is empty in PHP's sense (missing, "" or "0"), both current and location are present, and current carries an observation time (a missing one is the time-parsing failure); the snapshot has the requested city and the provider's observation time; a non-empty error message is the failure |
| `WeatherLookup.WeatherService.constructor` | src/Service/WeatherService.php:17-30 | empty cache, empty table, no provider call |
| `WeatherLookup.WeatherService.FetchWeatherFromApi` | src/Service/WeatherService.php:62-101 | asks the provider once; on success the snapshot is appended to the table, on failure nothing is stored |
| `WeatherLookup.WeatherService.GetWeatherForCity` | src/Service/WeatherService.php:35-57 | a live cache entry (younger than 1800 s) is returned with nothing else consulted; otherwise a recent stored snapshot is returned and cached for 1800 s without a provider call; otherwise the provider's snapshot is stored, cached and returned, and a provider failure gives None with nothing stored or cached; any returned snapshot's city has the requested city's key |
| `ApiErrors.ErrorTypeFromStatusCode` | src/EventListener/ExceptionListener.php:58-72 | its body is the status-to-label table; its contract states that statuses from 500 get "Server Error" and the nine named statuses get neither class label; `ErrorTypeIsTotal` and `ErrorTypeExamples` state the rest |
| `ApiErrors.ErrorTypeIsTotal` | src/EventListener/ExceptionListener.php:58-72 | the label is one of eleven; "Server Error" iff status ≥ 500; "Client Error" iff status < 500 and not one of the nine named statuses |
| `ApiErrors.ErrorTypeExamples` | src/EventListener/ExceptionListener.php:60-70 | 404 and 429 get their own labels; 503 gives "Server Error", 418 gives "Client Error" |
| `ApiErrors.ResponseStatusAndLabel` | src/EventListener/ExceptionListener.php:37-48 | a non-HTTP throwable always gives (500, "Server Error", "Internal Server Error"); an HTTP exception keeps its own status; the label is "Server Error" iff the status is 500 or above |
| `ApiErrors.ResponseMessage` | src/EventListener/ExceptionListener.php:43-53 | a 500 in "prod" never shows the exception's own message, only "Internal Server Error"; in every other case an HTTP exception shows its own message |
| `ApiErrors.CreateJsonResponse` | src/EventListener/ExceptionListener.php:35-56 | its body is the response builder; its contract states that the status is 500 or the HTTP exception's own, the label is the status's label, and a non-HTTP throwable shows the generic message; `ResponseStatusAndLabel` and `ResponseMessage` state the rest |
| `ApiErrors.IsApiPath` | src/EventListener/ExceptionListener.php:23 | a path is an API path iff its first four characters are "/api" |
| `ApiErrors.OnKernelException` | src/EventListener/ExceptionListener.php:17-33 | a path starting with "/api" gets the JSON response when its status lies in 100-599; outside that range building the response raises an error and the event keeps its response; any other event is left unchanged |

## Left out

- Mail rendering, the mailer, URL generation and logging are left out: they are I/O. The notifier is a list of requested mails and never raises an exception, because every send method catches its own `\Exception`s. A PHP TypeError is not an `\Exception` and is not caught there; that case is left out, as described under `GetWeatherForCity` below.
- The weather lookup inside `sendWeatherUpdate` is left out of the dispatch model. It never decides whether the subscription is stamped. When it reaches the provider it also persists the fetched snapshot and flushes the same entity manager (src/Service/WeatherService.php:93-94). The dispatch model records neither that snapshot nor that flush. The lookup can stop the subscription from being counted only by closing the entity manager: a failed flush there closes it, `getWeatherForCity` turns the failure into null (53-56), and the loop's persist of the subscription (src/Service/SubscriptionService.php:130) then throws. The oracle set `persistFails` stands for this case.
- Controllers, the request DTO and its validator, the console command and the SQL migration are left out: they are HTTP, CLI and DDL plumbing. The migration's two unique indexes are the `Valid()` invariant.
- Randomness is abstracted. The UUID v4 token is a `token` parameter. The clocks are `now` parameters.
- SubscriptionLifecycle.SubscriptionService.SendWeatherUpdates: uses one `now` for the whole run, although the source reads the clock again for each subscription.
- SubscriptionLifecycle.SubscriptionService.SendWeatherUpdates: persist failures are an oracle set `persistFails`. A failed flush is not modelled. Inside the loop such a failure is caught and logged, like a failed persist. The final flush (src/Service/SubscriptionService.php:142-144) lies outside the loop's try block, so its failure ends the run with an exception, no count is returned, and the console command reports failure (src/Command/SendWeatherUpdatesCommand.php:57-59). The model always returns `count` and drops that error path. A persist on a managed entity fails only when the entity manager is closed, and a closed entity manager cannot flush. So for a subscription in `persistFails` the stamp lands only in the entity manager's in-memory copy (src/Service/SubscriptionService.php:129-130), which is what `rows` holds. Neither that stamp nor any later one reaches the table, so the record stays due on the next run, whereas the model's `rows` keep `lastSentAt = now` and a later `SendWeatherUpdates` treats it as sent. With a non-empty `persistFails`, the source returns the model's count only when that count is a multiple of 10; otherwise the final flush throws. A TypeError from a malformed provider reply during the weather lookup is not caught by the loop either (src/Service/SubscriptionService.php:137), so it ends the run with no count; the model leaves that case out. The order of the due list is the table order, where the database gives no order.
- SubscriptionLifecycle.SubscriptionService.ConfirmSubscription: store failures are not modelled, here and in `Unsubscribe`. The source does not catch them, so they reach the caller as exceptions.
- SubscriptionLifecycle.SubscriptionService.CreateSubscription: only a failure of the insert is modelled. A failure of the existence query is not.
- SubscriptionModel.Subscription.constructor: email, city and frequency start as the empty string where the source has null. Every caller sets all three before the record is stored.
- The `updatedAt` column and its pre-update hook are left out: they are persistence-layer bookkeeping.
- Calendar arithmetic is fixed. "+1 day" and "-1 day" are exactly 86400 s, with no DST shift. Sub-second clock precision is dropped, so the entity predicate and the query compare the same integers.
- WeatherLookup.WeatherService.FetchWeatherFromApi: a failure while storing the fetched snapshot is not modelled. A `current` block without `last_updated_epoch` is modelled: the bare "@" time string makes the time constructor throw an exception (src/Service/WeatherService.php:91), which the fetch rethrows (97-100) and `getWeatherForCity` turns into null (53-56). A `current` block that lacks `temp_c`, `humidity` or `condition.text` is not modelled (88-90). Its outcome depends on whether Symfony's error handler turns PHP warnings into exceptions (`framework.php_errors.throw`, on by default in debug mode): if it does, the "Undefined array key" warning becomes an `\ErrorException`, which the fetch rethrows and `getWeatherForCity` turns into null; if it does not, the missing value ends in a PHP TypeError, which is not an exception. The HTTP request, the query string and JSON decoding are foreign calls, represented by the `ApiReply` value.
- WeatherLookup.WeatherService.GetWeatherForCity: the cache's stampede protection and early recomputation are library internals and are left out. An expired entry stays in the map, but it is never served. The TypeError from a `current` block lacking `temp_c`, `humidity` or `condition.text`, raised when PHP warnings are not turned into exceptions, is not modelled. It passes the catch blocks of `getWeatherForCity` (src/Service/WeatherService.php:53), `sendWeatherUpdate` (src/Service/EmailService.php:128) and the dispatch loop (src/Service/SubscriptionService.php:137), so it ends a dispatch run with no count returned; the model always answers None or a snapshot.
- Snapshot temperature is a `real`. Humidity and description are carried along but not constrained.
- `getRandomWeatherDescription` is left out: it is random and never called.
- Concurrency is left out. The race between the existence check and the insert appears only as its outcome, a unique-constraint violation reported by the store.
- ApiErrors.OnKernelException: the error log entry is not modelled, and `APP_ENV` is the `appEnv` parameter. The invalid-argument error raised for a status outside 100-599 appears only as the `raised` result; what the kernel does with it afterwards is not modelled.
- WeatherStorage.FindLatestForCity: assumes PHP's default time zone is UTC. The observation time is built from a Unix epoch and so is in UTC, and it is stored as wall-clock text without a zone (migrations/Version20250513145242.php:46), while the cut-off `-1 hour` (src/Repository/WeatherDataRepository.php:24) is taken in the default time zone. Under another default zone the one-hour window shifts by the zone's offset; the model compares both on one time scale.
