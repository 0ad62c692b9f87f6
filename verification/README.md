# Trip planner client core, modelled in Dafny

This project models the state-keeping core of the browser client of an AI trip
planner:

- the **trip store** (`Trips.TripStore`): an ordered list of trips, one focused
  trip (`currentTrip`) and a `loading` flag;
- the **session store** (`Users.UserStore`): the access token, the current user
  and the persisted copy of the token;
- the **speech recognition adapter** (`Speech.SpeechRecognitionService`): a
  two-state machine on `isListening` over the browser's recognition object;
- the **route guard** (`Router.BeforeEach`): the decision taken before every
  navigation, over a constant route table.

Every remote call is an input of the operation that awaits it: a `Result` that is
either the resolved value or the rejection. Each store operation is atomic. Each
store keeps a ghost log of the requests it sent. For the trip store the log also
records the value of `loading` when the request went out. For the session store a
`/auth/me` request records the bearer token it carried. The speech adapter records
the callbacks it invokes and the calls it makes on the platform object. The
platform object is a capability: whether it exists (`Window`) and whether a given
`start()` throws (`startThrows`). Its events are the methods `OnResult`, `OnError`
and `OnEnd`.

The trip store's central property is coherence (`Trips.Coherent`). Ids in the list
are unique, and the focused trip equals the list element that has its id. Removal
always preserves coherence. Prepending preserves it when the server hands out an
unused id. Updating preserves it when the returned trip keeps the requested id.

The model follows the code, including where it behaves in ways one might not expect:

- The result event does not end listening. Only the end event, an error event,
  `stop` or a failed start clear `isListening`.
- `register` sets `user` from the registration response before it logs in. If that
  login is then rejected, `user` stays set while the token is unchanged, possibly
  absent. `Users.UserStore.Register` states this case.
- `fetchTrip` replaces the focus but never the list, and `fetchTrips` replaces the
  list but never the focus. Both can therefore leave the focus different from the
  list element with its id, when the server's copy has changed. Neither operation
  is claimed to preserve coherence (`Trips.FetchTripDiverges`).
- The route matcher ignores case and accepts one trailing slash, so `/login/`
  and `/LOGIN` reach the public login page. The guard compares the raw path with
  `/login` and `/register`, so a logged-in user on such a variant proceeds
  instead of being sent to `/trips` (`Router.LoginVariantsProceed`).
- A single `start` can reach both callbacks, and the result callback more than
  once: the result handler leaves the handlers installed and the service
  listening (`Speech.ResultThenError`).
- An empty access token is falsy. After a login that returns `""`, the user profile
  is not fetched and the store does not count as logged in.

## Model

| member | source | states |
|---|---|---|
| `Trips.TripStore.constructor` | src/stores/trip.ts:7-9 | the store starts with an empty list, no focus, `loading` false and no request sent |
| `Trips.FindIndex` | src/stores/trip.ts:62 | the result is -1 exactly when no trip has the id; otherwise it is the first index holding the id |
| `Trips.Without` | src/stores/trip.ts:80 | every trip the filter keeps comes from the list and has another id, so no trip with the id remains; the list does not grow |
| `Trips.WithoutKeepsOthers` | src/stores/trip.ts:80 | every trip with another id is kept exactly as many times as it occurred; a trip is kept iff it was in the list with another id |
| `Trips.WithoutConcat` | src/stores/trip.ts:80 | filtering distributes over concatenation, so kept trips keep their relative order |
| `Trips.WithoutAbsent` | src/stores/trip.ts:80 | removing an id no trip has leaves the list unchanged |
| `Trips.WithoutKeepsUnique` | src/stores/trip.ts:80 | filtering a list with unique ids leaves the ids unique |
| `Trips.PrependKeepsCoherent` | src/stores/trip.ts:37-38 | prepending a trip with an unused id keeps list and focus coherent, whether the new trip is focused or the focus is kept |
| `Trips.ReplaceKeepsCoherent` | src/stores/trip.ts:62-68 | replacing the first match, and the focus when it has the id, by a trip with that id keeps list and focus coherent |
| `Trips.WithoutKeepsCoherent` | src/stores/trip.ts:80-83 | removing an id, and dropping the focus when it has it, keeps list and focus coherent |
| `Trips.TripStore.FetchTrips` | src/stores/trip.ts:12-19 | one list request is sent while `loading` is true; on success the list is exactly the server's list in its order; on failure the list is unchanged and the error propagates; the focus is never touched; `loading` ends false |
| `Trips.TripStore.FetchTrip` | src/stores/trip.ts:22-30 | on success the focus is the returned trip, which is also the result; on failure the focus is unchanged and the error propagates; the list is never touched; `loading` ends false |
| `Trips.TripStore.AiGenerateTrip` | src/stores/trip.ts:33-43 | on success the list is the new trip followed by the old list and the focus is the new trip, which is returned; on failure nothing changes; coherence kept for an unused id; `loading` ends false |
| `Trips.TripStore.AddTrip` | src/stores/trip.ts:46-55 | on success the list is the new trip followed by the old list; the focus never changes; on failure nothing changes; coherence kept for an unused id; `loading` ends false |
| `Trips.TripStore.ModifyTrip` | src/stores/trip.ts:58-73 | on success only the first trip with the requested id is replaced, so length and other positions are kept, and there is no change without a match; the focus is replaced iff its id is the requested id; on failure nothing changes; coherence kept when the returned id is the requested one |
| `Trips.TripStore.RemoveTrip` | src/stores/trip.ts:76-87 | on success the list is the old list without that id and the focus is cleared iff it had the id; on failure nothing changes; coherence is always kept; `loading` ends false |
| `Users.UserStore.constructor` | src/stores/user.ts:7-8 | the token is seeded from the persisted entry and equals it; there is no user |
| `Users.UserStore.IsLoggedIn` | src/stores/user.ts:54-56 | logged in iff the token is present and non-empty; the user plays no part |
| `Users.UserStore.Logout` | src/stores/user.ts:47-51 | user and token cleared, persisted entry removed, so not logged in |
| `Users.UserStore.FetchUserInfo` | src/stores/user.ts:34-44 | without a token nothing changes and nothing is sent; otherwise `/auth/me` is asked with the held token; success sets the user and keeps the token; any failure leaves user, token and stored entry cleared and is not propagated |
| `Users.UserStore.Login` | src/stores/user.ts:11-18 | a rejected login propagates and changes nothing; on success the token is committed and persisted, and the profile request is sent with that very token; the profile outcome then decides user and login state |
| `Users.UserStore.Register` | src/stores/user.ts:21-31 | a rejected registration propagates and no login is sent; on success the registered user is set and login runs with the same credentials, with the whole new state given for each login outcome: a rejected login propagates and keeps the registered user and the old token; an empty token leaves the registered user and token `""`; otherwise the profile request carries the new token, and its outcome sets the user or ends the session; the full request sequence is stated |
| `Users.FailClosed` | src/stores/user.ts:34-43 | from any state, a failed profile request leaves the store logged out; it holds no user unless no profile was asked for, in which case the user is as before |
| `Users.LogoutIdempotent` | src/stores/user.ts:47-51 | from any state, logging out a second time changes nothing |
| `Speech.IsSupported` | src/utils/speech.ts:58-60 | recognition is supported iff either browser constructor exists |
| `Speech.SpeechRecognitionService.constructor` | src/utils/speech.ts:40-53 | a recognizer exists iff the browser supports recognition; the service starts idle |
| `Speech.SpeechRecognitionService.Start` | src/utils/speech.ts:67-116 | without a recognizer, the unsupported message goes to the error callback and listening stays off; while listening, nothing changes; otherwise this caller's handlers are installed and the platform is started once; a throwing start ends listening and reports the start-failure message |
| `Speech.SpeechRecognitionService.OnResult` | src/utils/speech.ts:79-82 | the first alternative of the first result goes to the installed result callback; `isListening` is unchanged |
| `Speech.SpeechRecognitionService.OnError` | src/utils/speech.ts:84-104 | listening ends and the mapped message goes to the installed error callback once |
| `Speech.ErrorMessage` | src/utils/speech.ts:86-101 | the four known codes map to their fixed messages; any other code gives the generic message |
| `Speech.ErrorMessagesDistinguish` | src/utils/speech.ts:86-101 | the generic message is returned iff the code is unknown; distinct known codes give distinct messages; no error-event message equals the unsupported or start-failure message |
| `Speech.SpeechRecognitionService.OnEnd` | src/utils/speech.ts:106-108 | listening ends, no callback is called |
| `Speech.SpeechRecognitionService.Stop` | src/utils/speech.ts:121-126 | while listening, the platform is stopped once and listening ends; otherwise nothing happens |
| `Speech.SpeechRecognitionService.GetIsListening` | src/utils/speech.ts:131-133 | returns the listening flag |
| `Speech.UnsupportedStart` | src/utils/speech.ts:68-71 | from any state without a recognizer, start reports the unsupported message and never listens |
| `Speech.StartWhileListening` | src/utils/speech.ts:73-82 | from any idle supported state, a second start while listening does not start the platform again or replace the first caller's handlers; after a result the service still listens; only the end event stops it |
| `Speech.ResultThenError` | src/utils/speech.ts:79-104 | one start can deliver the result callback twice and then the error callback: callbacks are not exclusive |
| `Router.BeforeEach` | src/router/index.ts:54-65 | exactly one decision per navigation: redirect to `/login` iff auth is required and not logged in; redirect to `/trips` iff that does not apply, the path is `/login` or `/register`, and logged in; otherwise proceed |
| `Router.Guard` | src/router/index.ts:55-58 | the login state is read from the session store's token alone |
| `Trips.FetchTripDiverges` | src/stores/trip.ts:22-30 | after fetching a list and then a changed copy of one of its trips, the store is no longer coherent |
| `Router.Normalize` | src/router/index.ts:48-51 | the path is compared with the table case-folded and with one trailing slash dropped, as the default non-strict, case-insensitive matcher does |
| `Router.NormalizeCanonical` | src/router/index.ts:48-51 | a lower-case path with no trailing slash is already in normal form |
| `Router.TargetFor` | src/router/index.ts:48-56 | the guard sees the raw path and the meta of the record matching the normalized path, or an empty meta when none matches |
| `Router.FindRoute` | src/router/index.ts:5-46 | the record found is declared for the path; none is found iff no record is declared for it |
| `Router.OnlyLoginAndRegisterArePublic` | src/router/index.ts:5-46 | in the table, a record is public iff its path is `/login` or `/register`; `/`, `/trips`, `/trips/new`, `/trips/:id` and `/expenses` require auth |
| `Router.PublicPathsExactly` | src/router/index.ts:56 | for every path, declared or not, auth is not required iff its normal form is `/login` or `/register` |
| `Router.RedirectConverges` | src/router/index.ts:58-63 | the guard applied to its own redirect target, under the same login state, proceeds, so redirects never loop |
| `Router.LoginVariantsProceed` | src/router/index.ts:56-64 | a case or trailing-slash variant of `/login` or `/register` proceeds whether or not the user is logged in |
| `Router.LoginVariantsExist` | src/router/index.ts:48-51 | `/login/` and `/LOGIN` normalize to `/login` |

## Left out

- HTTP transport, bearer headers and the expense and budget endpoints: not part of this model. Only request and response shapes are kept, and each call's outcome is an input.
- Trip fields `preferences`, `ai_generated` and the nested `days`/activities structure: opaque server data that the client never inspects. JavaScript numbers in `budget` are `real`, and ids are `int`.
- Interleaving of concurrent operations on one store, including last-response-wins races: every operation is atomic here. For the same reason `loading` is observed only at the moment a request is sent (the ghost log) and after the operation settles. A request that never settles is not modelled.
- Framework reactivity (`defineStore`, `ref`) and router construction (`createRouter`, history, lazy view imports): the state is plain class fields and the guard is a plain function.
- The router's parameter matching, percent-encoding and its record-level redirect from `/` to `/trips`: a record is looked up by its normalized path (case folded, one trailing slash dropped), so `/trips/7` finds no record. An unmatched path has empty meta and therefore requires auth, just like the `/trips/:id` record and `/trips`, so the guard's decision is unaffected.
- Browser storage: a single optional-string field, not the storage API.
- Speech platform settings (language, non-continuous mode, final results only) and the console warning: browser calls with no effect on the adapter's state. Platform events that arrive before any `start` find no handler and do nothing.
- Speech.SpeechRecognitionService.OnResult: an event with no result or no alternative makes the source handler throw inside the browser's event dispatch. The model records no callback in that case and does not model the thrown exception.
- Trips.TripStore.FetchTrip: does not keep list and focus coherent, because the source replaces only the focus; `Trips.FetchTripDiverges` shows the divergence, and `Trips.TripStore.FetchTrips` has the same gap for the list.
- Speech.SpeechRecognitionService.OnResult: does not make the two callbacks exclusive, because the source's result handler neither ends listening nor removes the handlers; `Speech.ResultThenError` shows both callbacks reached from one start.
