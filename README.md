# android-network-monitor, modelled in Dafny

This project models the core of the `android-network-monitor` library.

- **`NetworkMonitor`** keeps four pieces of state:
  - the current network type;
  - a "no-internet toast already shown" flag;
  - a "broadcast receiver registered" flag;
  - a listener table keyed by listener id.
- It reclassifies the network on every connectivity-change broadcast, then calls every registered listener back. It also answers the connected / Wi-Fi / mobile-data queries and shows a de-duplicated "No internet connection!!!" toast.
- Its companion object holds the single `INSTANCE`. Every public query, registration and toast call throws `IllegalStateException` while there is no instance; `init` is the call that creates it.
- **`NetworkStateListener`** carries a unique id and two optional callbacks. It also has a one-way "destroyed" latch, set by the lifecycle owner it observes.

Files:

- `wrappers.dfy`: `Option` (a nullable value), `Result` and `Outcome` (a call that returns or throws).
- `classification.dfy`: module `Classification`, the pure part of `NetworkMonitor.kt`:
  - the `NETWORK_TYPE` enum and the three queries;
  - the legacy type-code table (below API level 23, `M`);
  - the transport priority chain (API level 23 and up), stated a second time as a priority table;
  - `Classify`, the type `refreshNetworkType` stores for a platform snapshot.
- `listener_ids.dfy`: module `ListenerIds`. Ids drawn from a counter and written in decimal stand in for random UUIDs. A parse round trip proves them distinct.
- `network_state_listener.dfy`: module `StateListener`:
  - the listener class with its latch and its guarded `run*` methods;
  - the id supply;
  - `getInstance`.
- `network_monitor.dfy`: module `Monitor`:
  - the monitor class;
  - the broadcast filter;
  - the dispatch loop and what it promises;
  - the companion class (`INSTANCE` and the guarded entry points);
  - the `LifecycleOwner` extension functions;
  - scenario methods a caller can prove from the contracts.

How platform inputs and outputs are represented:

- **Connectivity queries.** What the platform's `ConnectivityManager` reports is passed in as a `NetworkSnapshot`. It holds:
  - the nullable active `NetworkInfo`: whether it is connected, and its legacy type code;
  - `SDK_INT`;
  - the nullable set of transports of the active network's capabilities.
- **Effects.** Toasts and listener callbacks are not performed. Each is appended as an `Event` to the monitor's ghost `log`.
- **Listener callbacks.** `run*` returns the callbacks it would invoke.
- **Exceptions.** Calls that throw return `Failure`/`Fail` carrying the source's message.

### Two places where the source does not line up

- **Dispatch bypasses the destroyed latch.**
  - `invokeNetworkStateListeners` calls `doOnConnected` / `doOnDisConnected` on each listener directly (`NetworkMonitor.kt:281-283`).
  - It does not go through `runOnConnected` / `runOnDisConnected`, which check `isDestroyed`.
  - So a destroyed listener that is still in the table is called back anyway.
  - `Monitor.DestroyedListenerIsStillCalledBack` shows it: a listener whose latch is set is called back once by a dispatch.
  - `Monitor.DispatchCallbacks` models the dispatch as written: its result depends only on which callbacks each listener supplied.
  - The guarded `run*` methods are modelled separately on the listener class.
- **The listener's callback fields are private.**
  - `doOnConnected` and `doOnDisConnected` are declared `private` in the listener (`NetworkStateListener.kt:21-22`).
  - So the monitor's direct access would not compile against this revision of the listener.
  - The model gives the monitor read access to whether each callback is present.

## Model

| member | source | states |
|---|---|---|
| Classification.IsConnected | android-network-monitor/src/main/java/com/dasbikash/android_network_monitor/NetworkMonitor.kt:210-212 | connected exactly for MOBILE, WIFI, WIMAX, ETHERNET, BLUETOOTH and OTHER, that is, for every type but DC and UN_INITIALIZED |
| Classification.IsOnWify | android-network-monitor/src/main/java/com/dasbikash/android_network_monitor/NetworkMonitor.kt:203 | being on Wi-Fi implies being connected and excludes being on mobile data |
| Classification.IsOnMobileDataNetwork | android-network-monitor/src/main/java/com/dasbikash/android_network_monitor/NetworkMonitor.kt:195-196 | being on mobile data implies being connected |
| Classification.InitialTypeAnswersNo | android-network-monitor/src/main/java/com/dasbikash/android_network_monitor/NetworkMonitor.kt:195-212 | on the initial type `UN_INITIALIZED` (line 119), `isConnected`, `isOnWify` and `isOnMobileDataNetwork` are all false |
| Classification.LegacyNetworkType | android-network-monitor/src/main/java/com/dasbikash/android_network_monitor/NetworkMonitor.kt:143-155 | below API level M, each type is produced exactly by its codes: the five MOBILE* codes give mobile; WIFI, BLUETOOTH, ETHERNET and WIMAX give their namesakes; every other code gives OTHER; the result is always a connected type |
| Classification.TransportNetworkType | android-network-monitor/src/main/java/com/dasbikash/android_network_monitor/NetworkMonitor.kt:157-175 | from API level M on, the result is one of WIFI, MOBILE, BLUETOOTH, ETHERNET and OTHER, so it is connected; absent capabilities give OTHER |
| Classification.TransportNetworkTypeIsFirstMatch | android-network-monitor/src/main/java/com/dasbikash/android_network_monitor/NetworkMonitor.kt:159-175 | the if-chain equals a priority table read top to bottom: WIFI or WIFI_AWARE, then CELLULAR, then BLUETOOTH, then ETHERNET, else OTHER; absent capabilities count as no transports |
| Classification.RanksFollowTransportPriority | android-network-monitor/src/main/java/com/dasbikash/android_network_monitor/NetworkMonitor.kt:159-175 | the priority ranks used below are the rows of the priority table: each row's transports and type carry that row's index, and OTHER ranks below every row |
| Classification.AddingTransportBelowWinnerKeepsType | android-network-monitor/src/main/java/com/dasbikash/android_network_monitor/NetworkMonitor.kt:159-162 | adding a transport whose row is not above the row that decided the type leaves the type unchanged; in particular, once Wi-Fi is present nothing changes it |
| Classification.Classify | android-network-monitor/src/main/java/com/dasbikash/android_network_monitor/NetworkMonitor.kt:142-181 | the stored type is DC exactly when there is no active network or it is not connected; it is never UN_INITIALIZED; it is connected exactly when the network is; it uses the legacy table below M and the transport priority table from M on |
| ListenerIds.IdOf | android-network-monitor/src/main/java/com/dasbikash/android_network_monitor/NetworkStateListener.kt:20 | an issued id is a non-empty string of decimal digits without a leading zero |
| ListenerIds.ParseIdOf | android-network-monitor/src/main/java/com/dasbikash/android_network_monitor/NetworkStateListener.kt:20 | reading an issued id gives back the draw it came from (a round trip) |
| ListenerIds.IdOfInjective | android-network-monitor/src/main/java/com/dasbikash/android_network_monitor/NetworkStateListener.kt:20 | distinct draws give distinct ids |
| StateListener.IdSupply.Draw | android-network-monitor/src/main/java/com/dasbikash/android_network_monitor/NetworkStateListener.kt:20 | each draw yields an id never issued before and records it as issued |
| StateListener.NetworkStateListener.constructor | android-network-monitor/src/main/java/com/dasbikash/android_network_monitor/NetworkStateListener.kt:19-24 | a new listener holds the given id and callbacks and is not destroyed |
| StateListener.NetworkStateListener.OnDestroy | android-network-monitor/src/main/java/com/dasbikash/android_network_monitor/NetworkStateListener.kt:25-27 | sets the latch; only a listener observed by a lifecycle owner can receive it, and no member clears the latch |
| StateListener.NetworkStateListener.RunOnConnected | android-network-monitor/src/main/java/com/dasbikash/android_network_monitor/NetworkStateListener.kt:29-33 | invokes the connected callback exactly once when not destroyed and the callback is present, and nothing otherwise; never the disconnected callback |
| StateListener.NetworkStateListener.RunOnDisConnected | android-network-monitor/src/main/java/com/dasbikash/android_network_monitor/NetworkStateListener.kt:35-39 | invokes the disconnected callback exactly once when not destroyed and the callback is present, and nothing otherwise; never the connected callback |
| StateListener.GetInstance | android-network-monitor/src/main/java/com/dasbikash/android_network_monitor/NetworkStateListener.kt:42-51 | returns a fresh, not-destroyed listener with a never-used id and the given callbacks; it is observed exactly when a lifecycle owner was given, so a listener without an owner can never be destroyed |
| Monitor.IsConnectivityChange | android-network-monitor/src/main/java/com/dasbikash/android_network_monitor/NetworkMonitor.kt:127-128 | accepts exactly a non-null intent whose non-null action, lower-cased, is `android.net.conn.connectivity_change`: every case variant of the filter is accepted and every other action rejected |
| Monitor.CaseVariantIsConnectivityChange | android-network-monitor/src/main/java/com/dasbikash/android_network_monitor/NetworkMonitor.kt:128 | the comparison ignores case: the filter with any mixture of upper- and lower-case letters is accepted |
| Monitor.MisspeltActionIsNotConnectivityChange | android-network-monitor/src/main/java/com/dasbikash/android_network_monitor/NetworkMonitor.kt:128 | an action that differs from the filter, ignoring case, at any one position is rejected |
| Monitor.DispatchCallbacks | android-network-monitor/src/main/java/com/dasbikash/android_network_monitor/NetworkMonitor.kt:276-288 | the loop invokes, without repeats, exactly the matching callback of every listener in the table that supplied it: the connected one when connected, the disconnected one otherwise |
| Monitor.DispatchCallsEachListenerOnce | android-network-monitor/src/main/java/com/dasbikash/android_network_monitor/NetworkMonitor.kt:278-285 | after a dispatch, each registered listener was called back exactly once if it had the callback and never otherwise; every callback is of the matching kind and for a registered id |
| Monitor.DispatchToNobody | android-network-monitor/src/main/java/com/dasbikash/android_network_monitor/NetworkMonitor.kt:278 | with an empty table a dispatch invokes nothing |
| Monitor.NetworkMonitor.constructor | android-network-monitor/src/main/java/com/dasbikash/android_network_monitor/NetworkMonitor.kt:117-119 | a new monitor is UN_INITIALIZED with both flags clear, an empty table and no receiver |
| Monitor.NetworkMonitor.RefreshNetworkType | android-network-monitor/src/main/java/com/dasbikash/android_network_monitor/NetworkMonitor.kt:137-184 | the new type is `Classify` of the snapshot; the toast flag is cleared exactly when a connected network was found and is otherwise kept; the table and receiver are untouched; one dispatch is appended to the log |
| Monitor.NetworkMonitor.InvokeNetworkStateListeners | android-network-monitor/src/main/java/com/dasbikash/android_network_monitor/NetworkMonitor.kt:276-288 | appends to the log one dispatch of the callback matching the current connectivity, changing nothing else |
| Monitor.NetworkMonitor.OnReceive | android-network-monitor/src/main/java/com/dasbikash/android_network_monitor/NetworkMonitor.kt:125-133 | a connectivity-change intent that comes with a context refreshes against that context's snapshot; any other broadcast leaves the monitor unchanged |
| Monitor.NetworkMonitor.ResisterBroadcastReceiver | android-network-monitor/src/main/java/com/dasbikash/android_network_monitor/NetworkMonitor.kt:219-228 | returns true and subscribes exactly when not yet registered; afterwards the flag is set, so later calls return false |
| Monitor.NetworkMonitor.ShowNoInternetToast | android-network-monitor/src/main/java/com/dasbikash/android_network_monitor/NetworkMonitor.kt:244-249 | emits the toast exactly when disconnected and the flag is clear, then sets the flag; it emits nothing while connected and changes nothing else |
| Monitor.NetworkMonitor.ShowNoInternetToastAnyWay | android-network-monitor/src/main/java/com/dasbikash/android_network_monitor/NetworkMonitor.kt:256-261 | emits the toast whenever disconnected and sets the flag; it emits nothing while connected and changes nothing else |
| Monitor.NetworkMonitor.RegisterNetworkStateListener | android-network-monitor/src/main/java/com/dasbikash/android_network_monitor/NetworkMonitor.kt:266-269 | the table afterwards is the old one with the listener's id mapped to it, so a prior entry with that id is replaced and no other entry changes |
| Monitor.NetworkMonitor.UnRegisterNetworkStateListener | android-network-monitor/src/main/java/com/dasbikash/android_network_monitor/NetworkMonitor.kt:271-272 | removes only the listener's id and returns the removed entry, or nothing when the id was absent (the table is then unchanged) |
| Monitor.NetworkMonitor.OnDestroy | android-network-monitor/src/main/java/com/dasbikash/android_network_monitor/NetworkMonitor.kt:290-292 | empties the table and unsubscribes the receiver; `mReceiverRegistered` stays set |
| Monitor.Companion.CheckInitStatus | android-network-monitor/src/main/java/com/dasbikash/android_network_monitor/NetworkMonitor.kt:46-50 | fails with the not-initialised `IllegalStateException` exactly when there is no instance |
| Monitor.Companion.Init | android-network-monitor/src/main/java/com/dasbikash/android_network_monitor/NetworkMonitor.kt:53-64 | creates a fresh, UN_INITIALIZED, registered monitor and returns true exactly when there was no instance; otherwise it keeps the instance and returns false |
| Monitor.Companion.InitFromFragment | android-network-monitor/src/main/java/com/dasbikash/android_network_monitor/NetworkMonitor.kt:67-74 | initialises only when the fragment's activity is an `AppCompatActivity` and there is no instance |
| Monitor.Companion.IsConnected | android-network-monitor/src/main/java/com/dasbikash/android_network_monitor/NetworkMonitor.kt:77-80 | fails when there is no instance, otherwise answers `checkIfConnected` on the stored type |
| Monitor.Companion.IsOnWify | android-network-monitor/src/main/java/com/dasbikash/android_network_monitor/NetworkMonitor.kt:83-86 | fails when there is no instance, otherwise answers `checkIfOnWify` on the stored type |
| Monitor.Companion.IsOnMobileDataNetwork | android-network-monitor/src/main/java/com/dasbikash/android_network_monitor/NetworkMonitor.kt:89-92 | fails when there is no instance, otherwise answers `checkIfOnMobileDataNetwork` on the stored type |
| Monitor.Companion.AddNetworkStateListener | android-network-monitor/src/main/java/com/dasbikash/android_network_monitor/NetworkMonitor.kt:95-98 | fails when there is no instance, otherwise registers the listener, replacing its id's entry, and leaves the type, both flags, the subscription and the log unchanged |
| Monitor.Companion.RemoveNetworkStateListener | android-network-monitor/src/main/java/com/dasbikash/android_network_monitor/NetworkMonitor.kt:101-104 | fails when there is no instance, otherwise removes the listener's id, and leaves the type, both flags, the subscription and the log unchanged |
| Monitor.Companion.ShowNoInternetToast | android-network-monitor/src/main/java/com/dasbikash/android_network_monitor/NetworkMonitor.kt:106-109 | fails when there is no instance, otherwise shows the de-duplicated toast |
| Monitor.Companion.ShowNoInternetToastAnyWay | android-network-monitor/src/main/java/com/dasbikash/android_network_monitor/NetworkMonitor.kt:111-114 | fails when there is no instance, otherwise shows the toast whenever disconnected |
| Monitor.Companion.OnDestroy | android-network-monitor/src/main/java/com/dasbikash/android_network_monitor/NetworkMonitor.kt:290-294 | empties the monitor's table, unsubscribes it and clears `INSTANCE`; `mReceiverRegistered`, the type, the toast flag and the log stay as they were |
| Monitor.InitNetworkMonitor | android-network-monitor/src/main/java/com/dasbikash/android_network_monitor/NetworkMonitor.kt:306-314 | an activity owner, or a fragment owner whose activity is an `AppCompatActivity`, creates a fresh UN_INITIALIZED, registered monitor with an empty table when there is none; in every other case `INSTANCE` is unchanged; any owner other than an activity or fragment fails with the caller-context `IllegalStateException` |
| Monitor.HaveNetworkConnection | android-network-monitor/src/main/java/com/dasbikash/android_network_monitor/NetworkMonitor.kt:316-324 | a non-activity, non-fragment owner fails with the caller-context error; otherwise the result is that of `isConnected` |
| Monitor.OwnerIsOnWify | android-network-monitor/src/main/java/com/dasbikash/android_network_monitor/NetworkMonitor.kt:326-334 | a non-activity, non-fragment owner fails with the caller-context error; otherwise the result is that of `isOnWify` |
| Monitor.OwnerIsOnMobileDataNetwork | android-network-monitor/src/main/java/com/dasbikash/android_network_monitor/NetworkMonitor.kt:336-344 | a non-activity, non-fragment owner fails with the caller-context error; otherwise the result is that of `isOnMobileDataNetwork` |

## Left out

- Platform calls are left out: `ConnectivityManager`, `NetworkCapabilities`, `BroadcastReceiver` registration, `Toast` and `Log`.
  - Their inputs are the `NetworkSnapshot` parameter.
  - Their outputs are the ghost event log.
  - Receiver registration with the platform is the ghost `subscribed` flag. Broadcasts are delivered only while it is set.
- Concurrency is left out: `GlobalScope.launch`, `Dispatchers.IO`, `Handler(...).post` and `@Volatile`.
  - `init` assigns `INSTANCE` inside a coroutine and returns `true` at once, so two racing `init` calls could both create a monitor. The model runs `init` synchronously.
  - Dispatch is synchronous. The source reads `checkIfConnected()` inside each posted task, so a later refresh could change what an earlier task sees. The model reads the type once, right after it is stored.
  - Each task posted at `NetworkMonitor.kt:279-285` holds the listener it was posted for. A listener removed after its task was posted, or a table emptied by `onDestroy` after that, is still called back by the task. In the model removal takes effect at once, so that late callback is not captured.
- Lifecycle-observer wiring is left out: `activity.lifecycle.addObserver` and `lifecycleOwner?.lifecycle?.addObserver`.
  - The owner's destruction is an explicit call to `Monitor.Companion.OnDestroy` or `StateListener.NetworkStateListener.OnDestroy`.
  - Consequently `initialize` reduces to `resisterBroadcastReceiver`.
  - The `activity` and `context` arguments carry nothing else the model needs and are dropped.
- Monitor.DispatchCallbacks: the order in which listeners are called back is not modelled. The source iterates a `LinkedHashMap` in insertion order; the contract gives the set of callbacks and says there are no repeats.
- Monitor.IsConnectivityChange: case is folded on ASCII letters only. Kotlin's `equals(ignoreCase = true)` also matches some non-ASCII letters whose upper or lower case is ASCII, such as the dotless ı.
- The callbacks' own code is left out. Callbacks are opaque closures, so only their presence and their invocation are modelled.
- StateListener.NetworkStateListener.OnDestroy: requires `observed`, because the only caller of `onDestroy` is the lifecycle owner the listener was added to. Application code calling it directly is not modelled.
- StateListener.IdSupply.Draw: ids come from a counter written in decimal instead of `UUID.randomUUID()`. The model proves distinctness where the source relies on randomness.
- Classification.TransportNetworkType: transports are limited to the eight Android transports listed in `Transport`. The rule only inspects five of them.
- `app/src/main/java/com/dasbikash/android_network_monitor/NetworkStateListener.kt` is not part of this model. It is a plain holder of an id and two callbacks, superseded by the library version.
- No debounce is modelled, because the code has none.
