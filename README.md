# Swift Track mobile hub — state logic in Dafny

Swift Track is a React front end for a delivery-logistics dashboard and a driver
app. Its data is mocked, but beneath the rendering it holds discrete state logic.
This project models that logic and proves what it promises.

- **Event bus** (`EventBus`, from `src/services/websocket.ts`).
  - A registry maps each event kind to a list of listener callbacks.
  - `subscribe` appends to a kind's list; `unsubscribe` removes the first match, as `indexOf` plus `splice` do.
  - `handleMessage` calls one kind's list in order.
  - `send` transmits only on an open socket.
  - `disconnect` forgets the socket.
  - A reconnect counter allows at most 5 attempts, waiting 1000·n ms before attempt n; a successful open resets it.
  - Callbacks are opaque ids, because the source compares them by reference.
  - The browser socket is reduced to its presence and ready state. Its `onopen` and `onclose` events are methods of the service.
- **Demo authentication** (`Auth`, from `src/providers/AuthProvider.tsx`).
  - A fixed table of four accounts shares the password `demo123`, and the email is looked up in lower case.
  - `login` sets the current user and the stored session on success. On failure it throws `Invalid credentials` and changes neither.
  - `logout` clears both.
  - The startup effect restores the stored session.
  - `localStorage` is a `SessionStore` object that outlives each provider.
- **Driver app** (`DriverApp`, from `src/pages/DriverApp.tsx`).
  - The shift machine has three states (available, on route, break). The buttons each state renders decide the moves.
  - The delivery queue marks an entry arrived or delivered by id. The buttons a queue entry offers only move it forward.
- **Route optimization** (`RouteOptimization`, from `src/pages/RouteOptimization.tsx`).
  - Assign and reset change routes by id. The assign and reset buttons are guarded by status.
  - Optimization rebuilds every route from random draws, which are parameters in `[0, 1)`. The score is capped at 100.
  - The selected route falls back to the first route.
  - The selected route's points become map markers.
- **Delivery management** (`DeliveryManagement`, from `src/pages/DeliveryManagement.tsx`).
  - A filter keeps a delivery when the search term matches (case-insensitive, on customer, id or address) and the status tab matches.
  - "Assign Driver" is offered only on pending deliveries.
- **Map component** (`GoogleMap`, from `src/components/GoogleMap.tsx`).
  - The zoom level is clamped to [1, 18].
  - The marker list is the supplied markers, or four built-in defaults when none are supplied.
  - A location update is merged into the list by driver id.
  - `getMarkerColor` decides each marker's colour.
  - The component subscribes two handlers to the bus on mount and unsubscribes the same two on unmount.

Shared helpers:
- `Text` holds ASCII `toLowerCase` and `includes`.
- `Records` holds the "update the records whose id matches" list rebuild that every by-id handler uses.
- `Wrappers` holds `Option`.

A state-changing handler is a method of a class that holds the component's state, for example `EventBus.WebSocketService` or `DriverApp.DriverAppView`. Its `ensures` ties the new state to a pure function of the old state. The lemmas then prove the promised properties about that function.

## Model

| member | source | states |
|---|---|---|
| `EventBus.Listeners` | src/services/websocket.ts:57 | `listeners.get(kind)` with an empty-list fallback: the kind's list, read as empty when the kind was never subscribed (used by every registry contract; `AbsentKindLikeEmpty` states the consequence) |
| `EventBus.RemoveFirst` | src/services/websocket.ts:69-73 | the reference meaning of `unsubscribe`'s splice: a list without the callback comes back unchanged, and one with it loses exactly one element (`SpliceIsRemoveFirst` ties it to `indexOf` plus `splice`) |
| `EventBus.IndexOf` | src/services/websocket.ts:70 | `indexOf`: -1 exactly when the callback is absent; otherwise the index of its first occurrence |
| `EventBus.Subscribed` | src/services/websocket.ts:61-66 | the kind's list gains the callback at its end, even when the callback is already in it; an absent kind gets a list; every other kind's list is unchanged |
| `EventBus.Unsubscribed` | src/services/websocket.ts:68-74 | the kind's list loses exactly the first occurrence of the callback, keeping the rest in order; other kinds are unchanged; an absent callback or kind changes nothing |
| `EventBus.SpliceIsRemoveFirst` | src/services/websocket.ts:69-73 | splicing at the index `indexOf` found is removing the first occurrence, and a -1 leaves the list as it is |
| `EventBus.RemoveFirstMultiset` | src/services/websocket.ts:72 | the splice takes out one copy of the callback and nothing else |
| `EventBus.RemoveFirstAfterAppend` | src/services/websocket.ts:61-74 | removing the first occurrence of a callback just appended to a list that did not hold it gives back the list |
| `EventBus.SubscribeUnsubscribeRestores` | src/services/websocket.ts:61-74 | subscribe then unsubscribe of a callback not yet registered for the kind leaves every kind's list as it was |
| `EventBus.Dispatch` | src/services/websocket.ts:56-59 | one invocation per listener of the message's kind (as many as the kind's list holds, an absent kind giving none); `DispatchCallsListeners` gives their order and argument |
| `EventBus.Callbacks` | src/services/websocket.ts:58 | the callbacks of a dispatch, position by position in call order |
| `EventBus.DispatchCallsListeners` | src/services/websocket.ts:56-59 | the dispatch calls exactly the kind's listeners in registration order, each with the message data |
| `EventBus.DispatchMultiplicity` | src/services/websocket.ts:56-59 | a callback registered n times for a kind runs n times per message of that kind |
| `EventBus.AbsentKindLikeEmpty` | src/services/websocket.ts:57 | a kind with no list and a kind with an empty list both call nothing |
| `EventBus.SameRegistrationsSameDispatch` | src/services/websocket.ts:57-58 | registries that agree on every kind's list dispatch every message identically |
| `EventBus.UnsubscribedReceivesNothing` | src/services/websocket.ts:56-74 | after unsubscribing a callback registered once for a kind, no message of that kind reaches it |
| `EventBus.NextReconnect` | src/services/websocket.ts:49-54 | below 5 attempts, the counter goes up by one and a reconnect is scheduled after 1000 times the new count; at 5 nothing happens; the counter never passes 5 |
| `EventBus.BoundedLinearBackoff` | src/services/websocket.ts:10-12 | consecutive failures schedule at most 5 minus the current count reconnects; the i-th waits 1000·(count+i+1) ms, which is linear |
| `EventBus.BackoffFromReset` | src/services/websocket.ts:49-54 | from a reset counter, the delays are exactly 1000, 2000, 3000, 4000 and 5000 ms, and then nothing |
| `EventBus.WebSocketService.constructor` | src/services/websocket.ts:8-13 | no socket, counter 0, no listeners, nothing sent |
| `EventBus.WebSocketService.Connect` | src/services/websocket.ts:15-47 | a new connecting socket, or when construction throws, the old socket stays and one reconnect step runs; listeners untouched |
| `EventBus.WebSocketService.OnOpen` | src/services/websocket.ts:20-23 | a successful open resets the reconnect counter to 0 |
| `EventBus.WebSocketService.OnClose` | src/services/websocket.ts:35-38 | a close marks the socket closed and takes one reconnect step, keeping the counter at most 5 |
| `EventBus.WebSocketService.Reconnect` | src/services/websocket.ts:49-54 | the counter and the scheduled delay follow `NextReconnect` and the counter stays at most 5 |
| `EventBus.WebSocketService.HandleMessage` | src/services/websocket.ts:56-59 | the loop makes exactly the calls of `Dispatch`: the registered callbacks of the message's kind, one by one in order, each with the message data |
| `EventBus.WebSocketService.Subscribe` | src/services/websocket.ts:61-66 | the registry becomes `Subscribed` of the old registry |
| `EventBus.WebSocketService.Unsubscribe` | src/services/websocket.ts:68-74 | the registry becomes `Unsubscribed` of the old registry |
| `EventBus.WebSocketService.Send` | src/services/websocket.ts:76-80 | the message is transmitted exactly when a socket exists and is open; otherwise nothing is sent |
| `EventBus.WebSocketService.Disconnect` | src/services/websocket.ts:132-137 | the socket is gone; listeners, counter and sent messages are untouched |
| `Auth.DemoUsers` | src/providers/AuthProvider.tsx:26-55 | the four demo accounts with their ids, names, roles and avatars; `DemoTableKeyedByEmail` states that each is filed under its own lower-case email |
| `Auth.Authenticate` | src/providers/AuthProvider.tsx:74-78 | the intended check: success exactly when the lower-cased email is one of the four demo accounts and the password is exactly `demo123`; the user is that account's entry (the lookup as written also passes two inherited names, see Findings) |
| `Auth.LookupAsWritten` | src/providers/AuthProvider.tsx:74 | `demoUsers[key]` on the object literal: an own entry exactly for the four emails, an inherited member exactly for `constructor` and `__proto__`, otherwise nothing |
| `Auth.AcceptsAsWritten` | src/providers/AuthProvider.tsx:74-77 | the guard as written passes exactly when the lower-cased email is one of the four accounts or an inherited name and the password is `demo123`; on the four accounts it agrees with `Authenticate` |
| `Auth.InheritedKeyPassesGuard` | src/providers/AuthProvider.tsx:74-77 | `Constructor` with `demo123` passes the guard as written, finding the inherited `constructor`, while `Authenticate` rejects it |
| `Auth.AsWrittenAgreesOffInherited` | src/providers/AuthProvider.tsx:74-77 | away from the two inherited names, the guard as written and `Authenticate` accept exactly the same logins |
| `Auth.DemoTableKeyedByEmail` | src/providers/AuthProvider.tsx:26-55 | the table has exactly the four demo emails as keys, and each entry carries its own key as email |
| `Auth.RoleFollowsAccount` | src/providers/AuthProvider.tsx:26-55 | a successful login as admin@, dispatcher@, driver@ or customer@ has role admin, dispatcher, driver or customer respectively |
| `Auth.EmailIgnoresCase` | src/providers/AuthProvider.tsx:74 | emails that differ only in letter case give the same outcome |
| `Auth.CaseExamples` | src/providers/AuthProvider.tsx:74-77 | `ADMIN@CIGO.IO` logs in as the admin; `DEMO123` and `wrong` are rejected, so the password keeps its case |
| `Auth.SessionStore.constructor` | src/providers/AuthProvider.tsx:63 | the stored `user` slot as found at startup |
| `Auth.AuthProvider.constructor` | src/providers/AuthProvider.tsx:58-59 | user null, loading |
| `Auth.AuthProvider.RestoreSession` | src/providers/AuthProvider.tsx:61-68 | a stored session becomes the user; loading ends |
| `Auth.AuthProvider.Login` | src/providers/AuthProvider.tsx:70-87 | on success, the user and the stored record both become the account's entry; on failure, `Invalid credentials` is thrown and neither changes; loading is false on both paths (corrected check; see Findings) |
| `Auth.AuthProvider.Logout` | src/providers/AuthProvider.tsx:89-92 | user and stored record are both cleared, so a second call changes nothing further |
| `Auth.RestartAfterLogout` | src/providers/AuthProvider.tsx:58-92 | after logout, the next start restores no one and stops loading |
| `DriverApp.ShiftActions` | src/pages/DriverApp.tsx:172-195 | the shift buttons rendered for each driver status; `ShiftButtonGuards` and `ShiftButtonsAreTheMoves` state what they allow |
| `DriverApp.ShiftTarget` | src/pages/DriverApp.tsx:90-108 | the status each shift handler sets, with no check of the current status |
| `DriverApp.ShiftButtonsAreTheMoves` | src/pages/DriverApp.tsx:172-195 | the rendered shift buttons lead exactly along available→on-route, on-route→break, break→on-route and on-route→available |
| `DriverApp.ShiftButtonGuards` | src/pages/DriverApp.tsx:178-194 | End Shift and Take Break are offered only on route; break offers only Back to Work |
| `DriverApp.DeliveryActions` | src/pages/DriverApp.tsx:337-358 | the status buttons rendered on a queue entry for each delivery status; `DeliveryButtonsMoveForward` states that each moves it forward |
| `DriverApp.DeliveryButtonsMoveForward` | src/pages/DriverApp.tsx:337-358 | Mark Arrived is offered only on pending, Mark Delivered only on in-progress or arrived; each moves the status strictly forward, and delivered offers nothing |
| `DriverApp.WithStatus` | src/pages/DriverApp.tsx:123-129 | entries with the id get the new status and keep every other field; all other entries, the length and the order are unchanged |
| `DriverApp.WithStatusKeepsUniqueIds` | src/pages/DriverApp.tsx:123-129 | the by-id rebuild keeps every id in place, so a queue with unique ids keeps them |
| `DriverApp.UnknownIdLeavesQueue` | src/pages/DriverApp.tsx:134-140 | an id not in the queue leaves the queue as it is |
| `DriverApp.PressOnlyAdvancesThatEntry` | src/pages/DriverApp.tsx:337-358 | with unique ids, pressing an entry's offered button advances only that entry, and ids stay unique |
| `DriverApp.DriverAppView.constructor` | src/pages/DriverApp.tsx:35-69 | shift available, the three mock deliveries, whose ids are unique |
| `DriverApp.DriverAppView.PressShift` | src/pages/DriverApp.tsx:90-108 | each handler sets its target status; an offered button makes one of the four moves |
| `DriverApp.DriverAppView.MarkDeliveredById` | src/pages/DriverApp.tsx:122-131 | the queue becomes `WithStatus(queue, id, delivered)` and its ids stay unique |
| `DriverApp.DriverAppView.MarkArrivedById` | src/pages/DriverApp.tsx:133-142 | the queue becomes `WithStatus(queue, id, arrived)` and its ids stay unique |
| `RouteOptimization.OptimizedScore` | src/pages/RouteOptimization.tsx:95 | `Math.min(score + random * 10, 100)`: never above 100 nor above the raised score, and equal to one of the two |
| `RouteOptimization.OptimizeOne` | src/pages/RouteOptimization.tsx:93-98 | one route after optimization: status `optimized`; only score, distance, duration and status change, every other field is kept |
| `RouteOptimization.ScoreCapped` | src/pages/RouteOptimization.tsx:95 | for a draw in [0, 1), the new score is at most 100, less than the old score plus 10, and not lower than an old score that was at most 100 |
| `RouteOptimization.DistanceFactor` | src/pages/RouteOptimization.tsx:96 | the distance multiplier lies in [0.9, 1) |
| `RouteOptimization.DurationFactor` | src/pages/RouteOptimization.tsx:97 | the duration multiplier lies in [0.85, 1) |
| `RouteOptimization.DistanceShrinks` | src/pages/RouteOptimization.tsx:96 | optimization never lengthens a route and keeps its distance non-negative |
| `RouteOptimization.DurationShrinks` | src/pages/RouteOptimization.tsx:97 | after rounding down, the optimized duration lies between 0 and the old duration |
| `RouteOptimization.OptimizeAll` | src/pages/RouteOptimization.tsx:93-99 | one optimized route per route, same length and order, each built from its own draw |
| `RouteOptimization.OptimizeAllEffects` | src/pages/RouteOptimization.tsx:93-99 | after optimization, every route is optimized, with id, driver and points unchanged and score at most 100; a score that was at most 100 is not lowered |
| `RouteOptimization.AssignRoute` | src/pages/RouteOptimization.tsx:106-113 | routes with the id become assigned with every other field kept; all other routes, the length and the order are unchanged |
| `RouteOptimization.ResetRoute` | src/pages/RouteOptimization.tsx:115-122 | routes with the id become draft with score 75; all other routes are unchanged |
| `RouteOptimization.ResetKeepsPlan` | src/pages/RouteOptimization.tsx:115-122 | a reset keeps the points, distance, duration and driver of every route |
| `RouteOptimization.RouteActions` | src/pages/RouteOptimization.tsx:348-359 | the Assign and Reset buttons a route card renders for its status; `RouteButtonGuards` states their guards |
| `RouteOptimization.RouteButtonGuards` | src/pages/RouteOptimization.tsx:348-359 | Assign is rendered exactly for optimized routes, Reset exactly for routes that are not draft |
| `RouteOptimization.FindRoute` | src/pages/RouteOptimization.tsx:153 | `find`: a route with the id exists exactly when one is returned, and the one returned is the first with that id |
| `RouteOptimization.SelectedRouteData` | src/pages/RouteOptimization.tsx:153 | a non-empty selection finds its route; no selection (or an empty one) gives the first route, or nothing when there are no routes |
| `RouteOptimization.PointMarker` | src/pages/RouteOptimization.tsx:155-161 | one point as a marker: same id, position and address as title, a warehouse marker exactly for warehouse points and a delivery marker otherwise, and the priority as status |
| `RouteOptimization.MapMarkers` | src/pages/RouteOptimization.tsx:154-162 | one marker per point of the shown route, in point order, with the point's id, position and address; warehouse points are warehouse markers, all others delivery markers; none without a route |
| `RouteOptimization.RouteMarkersAreBlue` | src/pages/RouteOptimization.tsx:154-162 | a route marker's status is a priority, never `pending`, so under the map's colour rule every route marker is blue |
| `RouteOptimization.RouteOptimizationView.constructor` | src/pages/RouteOptimization.tsx:46-89 | the two mock routes, nothing selected, not optimizing |
| `RouteOptimization.RouteOptimizationView.StartOptimization` | src/pages/RouteOptimization.tsx:87-88 | the view is marked as optimizing |
| `RouteOptimization.RouteOptimizationView.FinishOptimization` | src/pages/RouteOptimization.tsx:94-102 | routes become `OptimizeAll` of the old routes and optimizing ends |
| `RouteOptimization.RouteOptimizationView.AssignRouteById` | src/pages/RouteOptimization.tsx:106-113 | routes become `AssignRoute` of the old routes |
| `RouteOptimization.RouteOptimizationView.ResetRouteById` | src/pages/RouteOptimization.tsx:115-122 | routes become `ResetRoute` of the old routes |
| `RouteOptimization.RouteOptimizationView.SelectRoute` | src/pages/RouteOptimization.tsx:320 | clicking a route card selects that route's id |
| `DeliveryManagement.MatchesSearch` | src/pages/DeliveryManagement.tsx:99-101 | the lower-cased term occurs in the lower-cased customer, id or address |
| `DeliveryManagement.MatchesStatus` | src/pages/DeliveryManagement.tsx:102 | the `all` tab, or the delivery's status named by the tab |
| `DeliveryManagement.Shown` | src/pages/DeliveryManagement.tsx:98-104 | the filter callback: both tests pass; `ShownIffMatches` states it over a whole list |
| `DeliveryManagement.Filtered` | src/pages/DeliveryManagement.tsx:98-104 | every listed delivery passes both tests; each delivery that passes keeps its multiplicity and one that fails is dropped; the result is a subsequence of the list |
| `DeliveryManagement.ShownIffMatches` | src/pages/DeliveryManagement.tsx:98-104 | a delivery is listed iff its customer, id or address contains the term (both lower-cased) and the tab is `all` or its status; on a status tab, every listed delivery has exactly that status |
| `DeliveryManagement.FilterKeepsAllShown` | src/pages/DeliveryManagement.tsx:98 | a list whose every delivery passes the filter comes back whole and in order |
| `DeliveryManagement.FilteredIdempotent` | src/pages/DeliveryManagement.tsx:98-104 | filtering the filtered list again with the same term and tab gives the same list |
| `DeliveryManagement.EmptySearchShowsAll` | src/pages/DeliveryManagement.tsx:98-104 | an empty search on the `all` tab lists every delivery in order |
| `DeliveryManagement.EmptySearchMatchesAll` | src/pages/DeliveryManagement.tsx:99-101 | an empty search term is contained in every customer, so every delivery matches it |
| `DeliveryManagement.PendingTabOfMockList` | src/pages/DeliveryManagement.tsx:27-75 | on the page's four deliveries, an empty search on the pending tab lists only DEL-001, which offers Assign Driver |
| `DeliveryManagement.OffersAssignDriver` | src/pages/DeliveryManagement.tsx:260 | the Assign Driver button is rendered on a card exactly when its delivery is pending |
| `DeliveryManagement.AssignDriverOnPendingTab` | src/pages/DeliveryManagement.tsx:260-268 | on the pending tab every listed card offers Assign Driver; on any other status tab none does |
| `GoogleMap.ZoomedIn` | src/components/GoogleMap.tsx:134-138 | zoom in is `min(z+1, 18)`: one level up below 18, unchanged at 18, within [1, 18] |
| `GoogleMap.ZoomedOut` | src/components/GoogleMap.tsx:140-144 | zoom out is `max(z-1, 1)`: one level down above 1, unchanged at 1, within [1, 18] |
| `GoogleMap.ZoomStaysInRange` | src/components/GoogleMap.tsx:41 | starting from a level in [1, 18] such as the initial 12, any sequence of zoom clicks stays in [1, 18] |
| `GoogleMap.DefaultMarkers` | src/components/GoogleMap.tsx:46-87 | the four built-in markers: drivers DRV-001 and DRV-002, one pending delivery and the main warehouse |
| `GoogleMap.DisplayedMarkers` | src/components/GoogleMap.tsx:46-89 | the supplied markers when there are any, otherwise the four built-in defaults; never empty |
| `GoogleMap.ApplyLocationUpdate` | src/components/GoogleMap.tsx:97-111 | markers with the driver id take the new position, speed and heading and keep id, kind, title, status and info; other markers, the length and the order are unchanged |
| `GoogleMap.UnknownDriverIgnored` | src/components/GoogleMap.tsx:98-110 | an update for an id that has no marker changes nothing |
| `GoogleMap.MarkerColor` | src/components/GoogleMap.tsx:155-163 | a driver is green iff active, otherwise gray; a delivery is yellow iff pending, otherwise blue; a warehouse is blue |
| `GoogleMap.Mounted` | src/components/GoogleMap.tsx:117-118 | the location handler appended to `location_update`'s list, the delivery handler to `delivery_status`'s, every other kind unchanged |
| `GoogleMap.Unmounted` | src/components/GoogleMap.tsx:121-122 | the first occurrence of each handler removed from its kind's list, every other kind unchanged |
| `GoogleMap.MountUnmountRestores` | src/components/GoogleMap.tsx:117-123 | when neither handler was registered, mount then unmount leaves every listener list of the bus as it was |
| `GoogleMap.MapView.constructor` | src/components/GoogleMap.tsx:39-42 | no markers, nothing selected, zoom 12, loading |
| `GoogleMap.MapView.InstallMarkers` | src/components/GoogleMap.tsx:89-90 | the markers become `DisplayedMarkers` of the supplied list and loading ends |
| `GoogleMap.MapView.Mount` | src/components/GoogleMap.tsx:93-118 | the bus connects (a new connecting socket with the counter kept, or, when construction throws, the old socket and one reconnect step), nothing is sent, and its registry becomes `Mounted`: both handlers appended to their kinds |
| `GoogleMap.MapView.Unmount` | src/components/GoogleMap.tsx:120-123 | the bus registry becomes `Unmounted`: the same two handlers removed; the method may change only the registry, so the socket, counter and sent messages are untouched |
| `GoogleMap.MapView.OnLocationUpdate` | src/components/GoogleMap.tsx:97-111 | the markers become `ApplyLocationUpdate` of the old markers |
| `GoogleMap.MapView.ZoomIn` | src/components/GoogleMap.tsx:134-138 | the level becomes `ZoomedIn` of the old one and stays within [1, 18] |
| `GoogleMap.MapView.ZoomOut` | src/components/GoogleMap.tsx:140-144 | the level becomes `ZoomedOut` of the old one and stays within [1, 18] |
| `GoogleMap.MapView.SelectMarker` | src/components/GoogleMap.tsx:126-127 | the clicked marker becomes the selected one |
| `Text.LowerChar` | src/providers/AuthProvider.tsx:74 | an upper-case ASCII letter maps to its lower-case letter; every other character is kept |
| `Text.Lower` | src/pages/DeliveryManagement.tsx:99 | `toLowerCase` keeps the length and lower-cases each character in place |
| `Text.LowerIdempotent` | src/pages/DeliveryManagement.tsx:99-101 | lower-casing twice is lower-casing once |
| `Text.LowerOfLower` | src/providers/AuthProvider.tsx:26-55 | text with no upper-case letter, like the table's keys, is its own lower-case form |
| `Text.Contains` | src/pages/DeliveryManagement.tsx:99-101 | `includes` holds iff the needle occurs as a contiguous slice at some index |
| `Text.ContainsEmpty` | src/pages/DeliveryManagement.tsx:99 | every string includes the empty string |
| `Records.MapWhere` | src/pages/DriverApp.tsx:124-128 | `map` with a per-record test: hit records are replaced by their update, others are kept, the length is unchanged |
| `Records.MapWhereNoHit` | src/pages/DriverApp.tsx:124-128 | when no record is hit, the list comes back unchanged |

## Left out

- The browser `WebSocket` object is reduced to `Option<ReadyState>`. `JSON.stringify` of sent frames, `JSON.parse` in `onmessage` and its parse-error path (src/services/websocket.ts:26-33) are not modelled: a message enters the model already parsed, through `HandleMessage`. A sent message is recorded as a value.
- `onerror` only logs, so it is not modelled.
- The mock data stream (src/services/websocket.ts:82-130) is not modelled. It consists of `setInterval` timers, random float drift of driver positions, and random speeds, headings and delivery ids. Only the shape of its payloads is kept. A location payload's nested `location.lat/lng` is flattened into `LocationUpdate.lat/lng`.
- `setTimeout` scheduling is not modelled. `Reconnect` returns the delay it would schedule, and does not call `Connect` again later.
- `WebSocketService.Disconnect`: the source also calls `close()`, whose `onclose` later runs `reconnect()`. The model has no event queue, so that later close is the separate `OnClose` event.
- `connect()` creates a new socket on every call, and each mount of the map calls it. No idempotence is claimed.
- `EventBus.WebSocketService.HandleMessage`: callbacks are opaque, so their effects, including a callback that unsubscribes itself mid-dispatch while the source iterates the live array, are not modelled. The dispatch is the list as it stands when the message arrives.
- `localStorage` and the JSON round trip of the session are reduced to a `SessionStore` holding `Option<User>`. Nothing is claimed about a malformed stored value: `JSON.parse` there is unguarded.
- `Auth.Authenticate`: states the intended four-account check. The lookup as written also passes the inherited names `constructor` and `__proto__` (see Findings), and `Login` and the stored session use the intended check. The model does not represent the non-`User` value that the lookup then returns, nor what `JSON.stringify` stores for it.
- `Auth.AuthProvider.Login`: follows the corrected check. With an email that lower-cases to `constructor` or `__proto__` and the password `demo123`, the source resolves. It sets the inherited member (the `Object` function or `Object.prototype`) as the user and stores what `JSON.stringify` makes of it. The model instead throws `Invalid credentials` on these inputs and changes neither the user nor the stored record.
- `EventBus.WebSocketService.OnOpen` and `EventBus.WebSocketService.OnClose` stand for events of the current socket only. Each `connect()` attaches fresh `onopen`/`onclose` closures to the socket it creates, and an earlier socket is not closed when a new one replaces it. That earlier socket's `onopen` still resets the counter, and its `onclose` still runs `reconnect()`, without touching `ws`. The model has one socket slot, so it does not capture these superseded sockets' events.
- `toLowerCase` is modelled on ASCII letters only. Unicode case mapping is out of scope.
- Real numbers are exact in the model. JavaScript doubles round, so `totalDistance`, the score sum and the product before `Math.floor` may differ in the last bits.
- The route averages, `toFixed` displays and hard-coded "improvement" texts (src/pages/RouteOptimization.tsx:206-250) are float display arithmetic and are not modelled.
- The optimization settings state (src/pages/RouteOptimization.tsx:48-53) is never read and is not modelled.
- `RouteOptimization.RouteOptimizationView.StartOptimization`: the "Optimize All" button is disabled while optimizing. The model places no guard on the method, and this is not stated as a precondition.
- JSX, toasts, icons, Tailwind class strings and the status and priority colour helpers of the pages are not modelled. The exception is the map's `getMarkerColor`, kept as an enum.
- Navigation, call and photo handlers of the driver app only raise toasts, and are not modelled.
- The caller's `onMarkerClick` callback in the map is foreign code and is not modelled.
- `handleCreateDelivery` and `handleAssignDriver` in the delivery page only raise toasts, and are not modelled. The search term and status tab are parameters of `Filtered`, not state.
- src/pages/Analytics.tsx, src/pages/Dashboard.tsx, src/pages/LiveTracking.tsx, src/pages/CustomerTracking.tsx, src/pages/Login.tsx, src/App.tsx, capacitor.config.ts and src/components/InteractiveMap.tsx are not part of this model. They hold static mock data, display-only drift, form glue, routing and packaging.

## Findings

| source | as written | input that shows it | evidently intended | confidence | as-written member | corrected member |
|---|---|---|---|---|---|---|
| src/providers/AuthProvider.tsx:74-76 | `demoUsers[email.toLowerCase()]` reads a plain object literal, so inherited members count as found, and the guard only tests truthiness | `login("Constructor", "demo123")`: the lookup yields the inherited `Object` constructor and the login succeeds with a non-user value | only the four demo accounts log in (an own-property lookup) | high; not executed | `Auth.InheritedKeyPassesGuard` | `Auth.Authenticate` |
