/** NetworkMonitor.kt: the monitor instance (current network type, toast
    flag, receiver flag, listener table), the companion object that holds
    the single `INSTANCE` and guards every public entry point, and the
    `LifecycleOwner` extension functions.

    Toasts and listener callbacks are not performed; each is appended to
    the monitor's ghost `log` as an `Event`. The platform's connectivity
    queries are a `NetworkSnapshot` passed in by the caller. */
module Monitor {
  import opened Wrappers
  import opened Classification
  import opened StateListener

  const NoInternetToastMessage: string := "No internet connection!!!"
  const NotInitializedMessage: string :=
    "\"NetworkMonitor\" is not initialized!! Please call \"init\" first."
  const ConnectivityChangeFilter: string := "android.net.conn.CONNECTIVITY_CHANGE"
  const NotAppCompatActivityOrFragmentMessage: string :=
    "Should be called only from AppCompatActivity/Fragment!!"

  /** The only exception the source throws. */
  datatype Error = IllegalStateException(message: string)

  /** What the monitor makes happen outside itself. */
  datatype Event =
    | Toast(message: string)
    | Fired(listenerId: string, callback: Callback)

  /** A broadcast intent: only its (nullable) action is looked at. */
  datatype Intent = Intent(action: Option<string>)

  /** A broadcast's context: all the monitor uses it for is to ask the
      connectivity manager for the current snapshot. */
  datatype Context = Context(connectivity: NetworkSnapshot)

  // ---------------------------------------------------------------------
  // Recognising the connectivity broadcast.

  function LowerAscii(c: char): (l: char)
    ensures !('A' <= l <= 'Z')
  {
    if 'A' <= c <= 'Z' then (c as int - 'A' as int + 'a' as int) as char else c
  }

  /** `String.equals(other, ignoreCase = true)`, with case folded on ASCII
      letters only. */
  predicate EqualsIgnoreCase(a: string, b: string) {
    |a| == |b| && forall i :: 0 <= i < |a| ==> LowerAscii(a[i]) == LowerAscii(b[i])
  }

  /** `s` with every ASCII capital replaced by its small letter. */
  function LowerString(s: string): (l: string)
    ensures |l| == |s| && forall i :: 0 <= i < |s| ==> l[i] == LowerAscii(s[i])
  {
    seq(|s|, i requires 0 <= i < |s| => LowerAscii(s[i]))
  }

  /** Two strings are equal ignoring case exactly when their lower-cased
      forms are equal. */
  lemma EqualsIgnoreCaseIsLowerEqual(a: string, b: string)
    ensures EqualsIgnoreCase(a, b) <==> LowerString(a) == LowerString(b)
  {
    if LowerString(a) == LowerString(b) {
      forall i | 0 <= i < |a|
        ensures LowerAscii(a[i]) == LowerAscii(b[i])
      {
        assert LowerString(a)[i] == LowerString(b)[i];
      }
    }
  }

  /** The filter, lower-cased, spelled out. */
  lemma LowerFilter()
    ensures LowerString(ConnectivityChangeFilter) == "android.net.conn.connectivity_change"
  {
    var l := "android.net.conn.connectivity_change";
    forall i | 0 <= i < |l|
      ensures LowerString(ConnectivityChangeFilter)[i] == l[i]
    {
    }
  }

  /** The receiver's test on the intent: non-null, with a non-null action
      equal to `CONNECTIVITY_CHANGE` ignoring case. Every case variant of
      the action is accepted and every other action is rejected. */
  function IsConnectivityChange(intent: Option<Intent>): (b: bool)
    ensures b <==> intent.Some? && intent.value.action.Some?
                   && LowerString(intent.value.action.value) == "android.net.conn.connectivity_change"
  {
    if intent.Some? && intent.value.action.Some? then
      EqualsIgnoreCaseIsLowerEqual(intent.value.action.value, ConnectivityChangeFilter);
      LowerFilter();
      EqualsIgnoreCase(intent.value.action.value, ConnectivityChangeFilter)
    else false
  }

  function UpperAscii(c: char): (u: char)
    ensures LowerAscii(u) == LowerAscii(c)
  {
    if 'a' <= c <= 'z' then (c as int - 'a' as int + 'A' as int) as char else c
  }

  /** The action is compared ignoring case: the filter with any of its
      letters upper- or lower-cased is recognised. */
  lemma CaseVariantIsConnectivityChange(action: string)
    requires |action| == |ConnectivityChangeFilter|
    requires forall i :: 0 <= i < |action| ==>
               action[i] == UpperAscii(ConnectivityChangeFilter[i])
               || action[i] == LowerAscii(ConnectivityChangeFilter[i])
    ensures IsConnectivityChange(Some(Intent(Some(action))))
  {
    assert EqualsIgnoreCase(action, ConnectivityChangeFilter);
  }

  /** An action differing from the filter, ignoring case, in any one
      position is not recognised. */
  lemma MisspeltActionIsNotConnectivityChange(action: string, k: nat)
    requires k < |action| && k < |ConnectivityChangeFilter|
    requires LowerAscii(action[k]) != LowerAscii(ConnectivityChangeFilter[k])
    ensures !IsConnectivityChange(Some(Intent(Some(action))))
  {
  }

  // ---------------------------------------------------------------------
  // Listener dispatch.

  /** The callback every listener gets after a refresh. */
  function CallbackFor(connected: bool): Callback {
    if connected then OnConnected else OnDisConnected
  }

  ghost predicate NoDuplicates<T>(s: seq<T>) {
    forall i, j :: 0 <= i < j < |s| ==> s[i] != s[j]
  }

  /** One `c` callback for each listener that supplied one, and nothing else. */
  ghost function Expected(listeners: map<string, NetworkStateListener>, c: Callback): set<Event> {
    ExpectedAmong(listeners, listeners.Keys, c)
  }

  /** `Expected`, restricted to the listeners whose ids are in `ids`. */
  ghost function ExpectedAmong(listeners: map<string, NetworkStateListener>, ids: set<string>, c: Callback)
    : set<Event>
  {
    set id | id in ids && id in listeners && listeners[id].Has(c) :: Fired(id, c)
  }

  /** Visiting one more listener adds its callback, if it has one. */
  lemma ExpectedAmongStep(listeners: map<string, NetworkStateListener>, ids: set<string>, id: string,
                          c: Callback)
    requires id in listeners
    ensures ExpectedAmong(listeners, ids + {id}, c) ==
            ExpectedAmong(listeners, ids, c) + (if listeners[id].Has(c) then {Fired(id, c)} else {})
    ensures id !in ids ==> Fired(id, c) !in ExpectedAmong(listeners, ids, c)
  {
  }

  /** `fired` is a dispatch of `c` to the listeners whose ids are in `ids`. */
  ghost predicate DispatchedAmong(fired: seq<Event>, listeners: map<string, NetworkStateListener>,
                                  ids: set<string>, c: Callback)
  {
    && NoDuplicates(fired)
    && (forall e :: e in fired ==> e.Fired? && e.listenerId in ids)
    && (set e | e in fired) == ExpectedAmong(listeners, ids, c)
    && |fired| == |ExpectedAmong(listeners, ids, c)|
  }

  /** Dispatching to one more listener extends a partial dispatch. */
  lemma DispatchedAmongStep(fired: seq<Event>, listeners: map<string, NetworkStateListener>,
                            ids: set<string>, id: string, c: Callback)
    requires DispatchedAmong(fired, listeners, ids, c)
    requires id in listeners && id !in ids
    ensures DispatchedAmong(fired + (if listeners[id].Has(c) then [Fired(id, c)] else []),
                            listeners, ids + {id}, c)
  {
    ExpectedAmongStep(listeners, ids, id, c);
    if listeners[id].Has(c) {
      DispatchedAmongAdd(fired, listeners, ids, id, c);
    } else {
      assert fired + [] == fired;
    }
  }

  /** The step of `DispatchedAmongStep` for a listener that has the callback. */
  lemma DispatchedAmongAdd(fired: seq<Event>, listeners: map<string, NetworkStateListener>,
                           ids: set<string>, id: string, c: Callback)
    requires DispatchedAmong(fired, listeners, ids, c)
    requires id in listeners && id !in ids && listeners[id].Has(c)
    ensures DispatchedAmong(fired + [Fired(id, c)], listeners, ids + {id}, c)
  {
    ExpectedAmongStep(listeners, ids, id, c);
    var x := Fired(id, c);
    var next := fired + [x];
    assert x !in fired;
    assert NoDuplicates(next) by {
      forall i, j | 0 <= i < j < |next| ensures next[i] != next[j] {
        if j == |fired| {
          assert next[i] in fired;
        } else {
          assert next[i] == fired[i] && next[j] == fired[j];
        }
      }
    }
    assert (set e | e in next) == (set e | e in fired) + {x};
    var before := ExpectedAmong(listeners, ids, c);
    assert x !in before;
    assert |before + {x}| == |before| + 1;
  }

  /** `fired` is a dispatch of `c` to `listeners`, in some order. */
  ghost predicate IsDispatch(fired: seq<Event>, listeners: map<string, NetworkStateListener>, c: Callback) {
    && NoDuplicates(fired)
    && (set e | e in fired) == Expected(listeners, c)
    && |fired| == |Expected(listeners, c)|
  }

  /** The loop of `invokeNetworkStateListeners` over the table's values:
      each listener's connected callback if the monitor is connected, its
      disconnected callback otherwise, invoked directly (the listener's
      destroyed latch is not consulted). */
  method DispatchCallbacks(listeners: map<string, NetworkStateListener>, connected: bool)
    returns (fired: seq<Event>)
    ensures IsDispatch(fired, listeners, CallbackFor(connected))
  {
    var c := CallbackFor(connected);
    var remaining := listeners.Keys;
    ghost var visited: set<string> := {};
    fired := [];
    while remaining != {}
      invariant remaining <= listeners.Keys
      invariant visited == listeners.Keys - remaining
      invariant DispatchedAmong(fired, listeners, visited, c)
      decreases remaining
    {
      var id :| id in remaining;
      DispatchedAmongStep(fired, listeners, visited, id, c);
      if listeners[id].Has(c) {
        fired := fired + [Fired(id, c)];
      }
      remaining := remaining - {id};
      visited := visited + {id};
    }
  }

  /** With no listener registered a dispatch invokes nothing. */
  lemma DispatchToNobody(fired: seq<Event>, listeners: map<string, NetworkStateListener>, c: Callback)
    requires IsDispatch(fired, listeners, c)
    requires listeners == map[]
    ensures fired == []
  {
    assert Expected(listeners, c) == {};
  }

  lemma {:induction false} OccursOnce<T>(s: seq<T>, x: T)
    requires NoDuplicates(s) && x in s
    ensures multiset(s)[x] == 1
  {
    assert s == [s[0]] + s[1..];
    if s[0] == x {
      assert x !in s[1..];
    } else {
      OccursOnce(s[1..], x);
    }
  }

  /** After a dispatch, each registered listener has been called back
      exactly once if it supplied the callback and never otherwise, and no
      callback of the other kind was invoked. */
  lemma DispatchCallsEachListenerOnce(fired: seq<Event>, listeners: map<string, NetworkStateListener>,
                                      c: Callback, id: string)
    requires IsDispatch(fired, listeners, c)
    requires id in listeners
    ensures multiset(fired)[Fired(id, c)] == (if listeners[id].Has(c) then 1 else 0)
    ensures forall e :: e in fired ==> e.Fired? && e.callback == c && e.listenerId in listeners
  {
    var e := Fired(id, c);
    if listeners[id].Has(c) {
      assert e in Expected(listeners, c);
      assert e in (set e | e in fired);
      OccursOnce(fired, e);
    } else {
      assert e !in Expected(listeners, c);
      assert e !in fired;
    }
    forall e | e in fired
      ensures e.Fired? && e.callback == c && e.listenerId in listeners
    {
      assert e in (set e | e in fired);
      assert e in ExpectedAmong(listeners, listeners.Keys, c);
      var k :| k in listeners.Keys && k in listeners && listeners[k].Has(c) && e == Fired(k, c);
    }
  }

  // ---------------------------------------------------------------------
  // The monitor instance.

  class NetworkMonitor {
    /** `mNoInternetToastShown`. */
    var noInternetToastShown: bool
    /** `mReceiverRegistered`. */
    var receiverRegistered: bool
    /** `mCurrentNetworkType`. */
    var currentNetworkType: NetworkType
    /** `mNetworkStateListenerMap`, keyed by listener id. */
    var listeners: map<string, NetworkStateListener>
    /** The platform currently delivers connectivity broadcasts to this
        monitor's receiver. */
    ghost var subscribed: bool
    /** Toasts shown and callbacks invoked, oldest first. */
    ghost var log: seq<Event>

    ghost predicate Valid()
      reads this
    {
      && (forall id :: id in listeners ==> listeners[id].id == id)
      && (subscribed ==> receiverRegistered)
    }

    constructor ()
      ensures Valid()
      ensures currentNetworkType == Uninitialized
      ensures !noInternetToastShown && !receiverRegistered && !subscribed
      ensures listeners == map[] && log == []
    {
      noInternetToastShown := false;
      receiverRegistered := false;
      currentNetworkType := Uninitialized;
      listeners := map[];
      subscribed := false;
      log := [];
    }

    /** The state after a refresh against snapshot `s`: the classified
        type, the toast flag cleared exactly when a connected network was
        found, the table and the receiver untouched, and one dispatch
        appended to the log. */
    twostate predicate RefreshedBy(s: NetworkSnapshot)
      reads this
    {
      && currentNetworkType == Classify(s)
      && noInternetToastShown == (if HasConnectedNetwork(s) then false else old(noInternetToastShown))
      && listeners == old(listeners)
      && receiverRegistered == old(receiverRegistered)
      && subscribed == old(subscribed)
      && |old(log)| <= |log| && log[..|old(log)|] == old(log)
      && IsDispatch(log[|old(log)|..], listeners, CallbackFor(Classification.IsConnected(currentNetworkType)))
    }

    /** `refreshNetworkType`. */
    method RefreshNetworkType(s: NetworkSnapshot)
      requires Valid()
      modifies this
      ensures Valid() && RefreshedBy(s)
    {
      if HasConnectedNetwork(s) {
        if s.sdkInt < VersionCodeM {
          currentNetworkType := LegacyNetworkType(s.activeNetworkInfo.value.code);
        } else {
          currentNetworkType := TransportNetworkType(s.capabilities);
        }
        noInternetToastShown := false;
      } else {
        currentNetworkType := Disconnected;
      }
      InvokeNetworkStateListeners();
    }

    /** `invokeNetworkStateListeners`, run synchronously. */
    method InvokeNetworkStateListeners()
      modifies this`log
      ensures |old(log)| <= |log| && log[..|old(log)|] == old(log)
      ensures IsDispatch(log[|old(log)|..], listeners, CallbackFor(Classification.IsConnected(currentNetworkType)))
    {
      var fired := DispatchCallbacks(listeners, Classification.IsConnected(currentNetworkType));
      log := log + fired;
      assert log[|old(log)|..] == fired;
    }

    /** The broadcast receiver's `onReceive`: refreshes only for a
        connectivity-change intent that comes with a context. */
    method OnReceive(context: Option<Context>, intent: Option<Intent>)
      requires Valid() && subscribed
      modifies this
      ensures Valid()
      ensures IsConnectivityChange(intent) && context.Some? ==> RefreshedBy(context.value.connectivity)
      ensures !(IsConnectivityChange(intent) && context.Some?) ==> unchanged(this)
    {
      if IsConnectivityChange(intent) && context.Some? {
        RefreshNetworkType(context.value.connectivity);
      }
    }

    /** `resisterBroadcastReceiver`: subscribes on the first call only. */
    method ResisterBroadcastReceiver() returns (registered: bool)
      requires Valid()
      modifies this
      ensures Valid()
      ensures registered == !old(receiverRegistered)
      ensures receiverRegistered && subscribed == (old(subscribed) || registered)
      ensures currentNetworkType == old(currentNetworkType)
      ensures noInternetToastShown == old(noInternetToastShown)
      ensures listeners == old(listeners) && log == old(log)
    {
      if !receiverRegistered {
        subscribed := true;
        receiverRegistered := true;
        return true;
      }
      return false;
    }

    /** `showNoInternetToast`: shows the toast when disconnected and not
        already shown since the last connected refresh. */
    method ShowNoInternetToast()
      modifies this
      ensures var shows := !Classification.IsConnected(currentNetworkType) && !old(noInternetToastShown);
              && log == old(log) + (if shows then [Toast(NoInternetToastMessage)] else [])
              && noInternetToastShown == (old(noInternetToastShown) || shows)
      ensures currentNetworkType == old(currentNetworkType) && receiverRegistered == old(receiverRegistered)
      ensures listeners == old(listeners) && subscribed == old(subscribed)
    {
      if !Classification.IsConnected(currentNetworkType) && !noInternetToastShown {
        noInternetToastShown := true;
        log := log + [Toast(NoInternetToastMessage)];
      }
    }

    /** `showNoInternetToastAnyWay`: shows the toast whenever disconnected. */
    method ShowNoInternetToastAnyWay()
      modifies this
      ensures var shows := !Classification.IsConnected(currentNetworkType);
              && log == old(log) + (if shows then [Toast(NoInternetToastMessage)] else [])
              && noInternetToastShown == (old(noInternetToastShown) || shows)
      ensures currentNetworkType == old(currentNetworkType) && receiverRegistered == old(receiverRegistered)
      ensures listeners == old(listeners) && subscribed == old(subscribed)
    {
      if !Classification.IsConnected(currentNetworkType) {
        noInternetToastShown := true;
        log := log + [Toast(NoInternetToastMessage)];
      }
    }

    /** `registerNetworkStateListener`: drops any entry under the same id,
        then stores the listener. */
    method RegisterNetworkStateListener(listener: NetworkStateListener)
      requires Valid()
      modifies this
      ensures Valid()
      ensures listeners == old(listeners)[listener.id := listener]
      ensures currentNetworkType == old(currentNetworkType) && receiverRegistered == old(receiverRegistered)
      ensures noInternetToastShown == old(noInternetToastShown)
      ensures subscribed == old(subscribed) && log == old(log)
    {
      var _ := UnRegisterNetworkStateListener(listener);
      listeners := listeners[listener.id := listener];
    }

    /** `unRegisterNetworkStateListener`: removes the entry under the
        listener's id, returning what was there. */
    method UnRegisterNetworkStateListener(listener: NetworkStateListener)
      returns (removed: Option<NetworkStateListener>)
      requires Valid()
      modifies this
      ensures Valid()
      ensures listeners == old(listeners) - {listener.id}
      ensures removed == if listener.id in old(listeners) then Some(old(listeners)[listener.id]) else None
      ensures currentNetworkType == old(currentNetworkType) && receiverRegistered == old(receiverRegistered)
      ensures noInternetToastShown == old(noInternetToastShown)
      ensures subscribed == old(subscribed) && log == old(log)
    {
      removed := if listener.id in listeners then Some(listeners[listener.id]) else None;
      listeners := listeners - {listener.id};
    }

    /** The monitor's part of `onDestroy`: empties the table and
        unsubscribes the receiver. `mReceiverRegistered` is left set. */
    method OnDestroy()
      requires Valid()
      modifies this
      ensures Valid()
      ensures listeners == map[] && !subscribed
      ensures receiverRegistered == old(receiverRegistered)
      ensures currentNetworkType == old(currentNetworkType)
      ensures noInternetToastShown == old(noInternetToastShown) && log == old(log)
    {
      listeners := map[];
      subscribed := false;
    }
  }

  // ---------------------------------------------------------------------
  // The companion object.

  /** What `fragment.activity` turned out to be. */
  datatype ActivityKind = AppCompatActivity | OtherActivity

  class Companion {
    /** `INSTANCE`. */
    var instance: NetworkMonitor?

    ghost predicate Valid()
      reads this, instance
    {
      instance != null ==> instance.Valid()
    }

    constructor ()
      ensures Valid() && instance == null
    {
      instance := null;
    }

    /** `checkInitStatus`. */
    function CheckInitStatus(): (r: Outcome<Error>)
      reads this
      ensures r.Fail? <==> instance == null
      ensures r.Fail? ==> r.error == IllegalStateException(NotInitializedMessage)
    {
      if instance == null then Fail(IllegalStateException(NotInitializedMessage)) else Pass
    }

    /** `INSTANCE` is a monitor created by this call, UN_INITIALIZED, with
        its receiver registered, the toast flag clear, no listener and
        nothing shown or invoked yet. */
    twostate predicate CreatedInstance()
      reads this, instance
    {
      && instance != null && fresh(instance)
      && instance.currentNetworkType == Uninitialized
      && instance.receiverRegistered && instance.subscribed
      && !instance.noInternetToastShown
      && instance.listeners == map[] && instance.log == []
    }

    /** `init(activity)`: creates and initialises the instance when there
        is none. */
    method Init() returns (created: bool)
      requires Valid()
      modifies this
      ensures Valid()
      ensures created == (old(instance) == null)
      ensures !created ==> instance == old(instance)
      ensures created ==> CreatedInstance()
    {
      if instance == null {
        var monitor := new NetworkMonitor();
        var _ := monitor.ResisterBroadcastReceiver();
        instance := monitor;
        return true;
      }
      return false;
    }

    /** `init(fragment)`: initialises only through an `AppCompatActivity`. */
    method InitFromFragment(activity: Option<ActivityKind>) returns (created: bool)
      requires Valid()
      modifies this
      ensures Valid()
      ensures created == (activity == Some(AppCompatActivity) && old(instance) == null)
      ensures !created ==> instance == old(instance)
      ensures created ==> CreatedInstance()
    {
      if activity == Some(AppCompatActivity) {
        created := Init();
      } else {
        created := false;
      }
    }

    /** `isConnected`. */
    method IsConnected() returns (r: Result<bool, Error>)
      ensures instance == null ==> r == Failure(IllegalStateException(NotInitializedMessage))
      ensures instance != null ==> r == Success(Classification.IsConnected(instance.currentNetworkType))
    {
      if instance == null {
        return Failure(IllegalStateException(NotInitializedMessage));
      }
      return Success(Classification.IsConnected(instance.currentNetworkType));
    }

    /** `isOnWify`. */
    method IsOnWify() returns (r: Result<bool, Error>)
      ensures instance == null ==> r == Failure(IllegalStateException(NotInitializedMessage))
      ensures instance != null ==> r == Success(Classification.IsOnWify(instance.currentNetworkType))
    {
      if instance == null {
        return Failure(IllegalStateException(NotInitializedMessage));
      }
      return Success(Classification.IsOnWify(instance.currentNetworkType));
    }

    /** `isOnMobileDataNetwork`. */
    method IsOnMobileDataNetwork() returns (r: Result<bool, Error>)
      ensures instance == null ==> r == Failure(IllegalStateException(NotInitializedMessage))
      ensures instance != null ==>
                r == Success(Classification.IsOnMobileDataNetwork(instance.currentNetworkType))
    {
      if instance == null {
        return Failure(IllegalStateException(NotInitializedMessage));
      }
      return Success(Classification.IsOnMobileDataNetwork(instance.currentNetworkType));
    }

    /** `addNetworkStateListener`. */
    method AddNetworkStateListener(listener: NetworkStateListener) returns (r: Outcome<Error>)
      requires Valid()
      modifies instance
      ensures Valid()
      ensures r == CheckInitStatus()
      ensures instance != null ==> instance.listeners == old(instance.listeners)[listener.id := listener]
      ensures instance != null ==> UnchangedButTable(instance)
    {
      r := CheckInitStatus();
      if instance != null {
        instance.RegisterNetworkStateListener(listener);
      }
    }

    /** `removeNetworkStateListener`. */
    method RemoveNetworkStateListener(listener: NetworkStateListener) returns (r: Outcome<Error>)
      requires Valid()
      modifies instance
      ensures Valid()
      ensures r == CheckInitStatus()
      ensures instance != null ==> instance.listeners == old(instance.listeners) - {listener.id}
      ensures instance != null ==> UnchangedButTable(instance)
    {
      r := CheckInitStatus();
      if instance != null {
        var _ := instance.UnRegisterNetworkStateListener(listener);
      }
    }

    /** `showNoInternetToast` (the context only serves to show the toast). */
    method ShowNoInternetToast() returns (r: Outcome<Error>)
      requires Valid()
      modifies instance
      ensures Valid()
      ensures r == CheckInitStatus()
      ensures instance != null ==>
                var shows := !Classification.IsConnected(instance.currentNetworkType)
                             && !old(instance.noInternetToastShown);
                && instance.log == old(instance.log) + (if shows then [Toast(NoInternetToastMessage)] else [])
                && instance.noInternetToastShown == (old(instance.noInternetToastShown) || shows)
      ensures instance != null ==> UnchangedButToast(instance)
    {
      r := CheckInitStatus();
      if instance != null {
        instance.ShowNoInternetToast();
      }
    }

    /** `showNoInternetToastAnyWay`. */
    method ShowNoInternetToastAnyWay() returns (r: Outcome<Error>)
      requires Valid()
      modifies instance
      ensures Valid()
      ensures r == CheckInitStatus()
      ensures instance != null ==>
                var shows := !Classification.IsConnected(instance.currentNetworkType);
                && instance.log == old(instance.log) + (if shows then [Toast(NoInternetToastMessage)] else [])
                && instance.noInternetToastShown == (old(instance.noInternetToastShown) || shows)
      ensures instance != null ==> UnchangedButToast(instance)
    {
      r := CheckInitStatus();
      if instance != null {
        instance.ShowNoInternetToastAnyWay();
      }
    }

    /** A toast call left everything but the toast flag and the log alone. */
    twostate predicate UnchangedButToast(monitor: NetworkMonitor)
      reads monitor
    {
      && monitor.currentNetworkType == old(monitor.currentNetworkType)
      && monitor.receiverRegistered == old(monitor.receiverRegistered)
      && monitor.listeners == old(monitor.listeners)
      && monitor.subscribed == old(monitor.subscribed)
    }

    /** A registration call left everything but the listener table alone. */
    twostate predicate UnchangedButTable(monitor: NetworkMonitor)
      reads monitor
    {
      && monitor.currentNetworkType == old(monitor.currentNetworkType)
      && monitor.noInternetToastShown == old(monitor.noInternetToastShown)
      && monitor.receiverRegistered == old(monitor.receiverRegistered)
      && monitor.subscribed == old(monitor.subscribed)
      && monitor.log == old(monitor.log)
    }

    /** `onDestroy` of the monitor observing the activity: tears the
        monitor down and clears `INSTANCE`. */
    method OnDestroy(monitor: NetworkMonitor)
      requires monitor.Valid()
      modifies this, monitor
      ensures Valid() && instance == null
      ensures monitor.Valid() && monitor.listeners == map[] && !monitor.subscribed
      ensures monitor.receiverRegistered == old(monitor.receiverRegistered)
      ensures monitor.currentNetworkType == old(monitor.currentNetworkType)
      ensures monitor.noInternetToastShown == old(monitor.noInternetToastShown)
      ensures monitor.log == old(monitor.log)
    {
      monitor.OnDestroy();
      instance := null;
    }
  }

  // ---------------------------------------------------------------------
  // The `LifecycleOwner` extension functions.

  /** What kind of `LifecycleOwner` an extension function is called on. */
  datatype LifecycleOwnerKind =
    | ActivityOwner                               // an AppCompatActivity
    | FragmentOwner(activity: Option<ActivityKind>) // a Fragment and its activity
    | OtherOwner

  const CallerError: Error := IllegalStateException(NotAppCompatActivityOrFragmentMessage)

  /** `LifecycleOwner.initNetworkMonitor`. */
  method InitNetworkMonitor(monitor: Companion, owner: LifecycleOwnerKind) returns (r: Outcome<Error>)
    requires monitor.Valid()
    modifies monitor
    ensures monitor.Valid()
    ensures r == (if owner.OtherOwner? then Fail(CallerError) else Pass)
    ensures var creates := old(monitor.instance) == null
                           && (owner.ActivityOwner? || owner == FragmentOwner(Some(AppCompatActivity)));
            && (creates ==> monitor.CreatedInstance())
            && (!creates ==> monitor.instance == old(monitor.instance))
  {
    match owner
    case ActivityOwner =>
      var _ := monitor.Init();
      r := Pass;
    case FragmentOwner(activity) =>
      var _ := monitor.InitFromFragment(activity);
      r := Pass;
    case OtherOwner =>
      r := Fail(CallerError);
  }

  /** `LifecycleOwner.haveNetworkConnection`. */
  method HaveNetworkConnection(monitor: Companion, owner: LifecycleOwnerKind) returns (r: Result<bool, Error>)
    ensures owner.OtherOwner? ==> r == Failure(CallerError)
    ensures !owner.OtherOwner? && monitor.instance == null ==>
              r == Failure(IllegalStateException(NotInitializedMessage))
    ensures !owner.OtherOwner? && monitor.instance != null ==>
              r == Success(Classification.IsConnected(monitor.instance.currentNetworkType))
  {
    if owner.OtherOwner? {
      return Failure(CallerError);
    }
    r := monitor.IsConnected();
  }

  /** `LifecycleOwner.isOnWify`. */
  method OwnerIsOnWify(monitor: Companion, owner: LifecycleOwnerKind) returns (r: Result<bool, Error>)
    ensures owner.OtherOwner? ==> r == Failure(CallerError)
    ensures !owner.OtherOwner? && monitor.instance == null ==>
              r == Failure(IllegalStateException(NotInitializedMessage))
    ensures !owner.OtherOwner? && monitor.instance != null ==>
              r == Success(Classification.IsOnWify(monitor.instance.currentNetworkType))
  {
    if owner.OtherOwner? {
      return Failure(CallerError);
    }
    r := monitor.IsOnWify();
  }

  /** `LifecycleOwner.isOnMobileDataNetwork`. */
  method OwnerIsOnMobileDataNetwork(monitor: Companion, owner: LifecycleOwnerKind)
    returns (r: Result<bool, Error>)
    ensures owner.OtherOwner? ==> r == Failure(CallerError)
    ensures !owner.OtherOwner? && monitor.instance == null ==>
              r == Failure(IllegalStateException(NotInitializedMessage))
    ensures !owner.OtherOwner? && monitor.instance != null ==>
              r == Success(Classification.IsOnMobileDataNetwork(monitor.instance.currentNetworkType))
  {
    if owner.OtherOwner? {
      return Failure(CallerError);
    }
    r := monitor.IsOnMobileDataNetwork();
  }

  // ---------------------------------------------------------------------
  // Scenarios a caller can prove from the contracts above.

  /** Dispatch does not consult the listener's latch: a destroyed listener
      still in the table is called back. */
  method DestroyedListenerIsStillCalledBack() {
    var ids := new IdSupply();
    var listener := GetInstance(ids, true, false, true);
    listener.OnDestroy();
    var fired := DispatchCallbacks(map[listener.id := listener], true);
    DispatchCallsEachListenerOnce(fired, map[listener.id := listener], OnConnected, listener.id);
    assert listener.isDestroyed && multiset(fired)[Fired(listener.id, OnConnected)] == 1;
  }

  /** Registering and removing a listener through the companion keeps the
      toast de-duplicated and the stored type as it was. */
  method RegistrationScenario(companion: Companion, ids: IdSupply)
    requires companion.Valid() && companion.instance != null
    requires !Classification.IsConnected(companion.instance.currentNetworkType)
    modifies companion.instance, ids
  {
    var monitor := companion.instance;
    var _ := companion.ShowNoInternetToast();
    var shown := monitor.log;
    var listener := GetInstance(ids, true, true, false);
    var _ := companion.AddNetworkStateListener(listener);
    var _ := companion.ShowNoInternetToast();
    var _ := companion.RemoveNetworkStateListener(listener);
    var _ := companion.ShowNoInternetToast();
    var connected := companion.IsConnected();
    assert monitor.log == shown && connected == Success(false);
  }

  /** Before any broadcast every query says no; after a Wi-Fi broadcast
      the monitor reports Wi-Fi. */
  method WifiScenario() {
    var companion := new Companion();
    var _ := companion.Init();
    var monitor := companion.instance;
    var connected := companion.IsConnected();
    assert connected == Success(false);
    var wifi := NetworkSnapshot(Some(ActiveNetworkInfo(true, TypeMobile)), 30, Some({TransportWifi}));
    monitor.OnReceive(Some(Context(wifi)), Some(Intent(Some(ConnectivityChangeFilter))));
    var onWify := companion.IsOnWify();
    connected := companion.IsConnected();
    assert onWify == Success(true) && connected == Success(true);
  }

  /** With no network the toast is shown once; the any-way variant shows
      it again; a connected refresh re-arms it. */
  method ToastScenario() {
    var companion := new Companion();
    var _ := companion.Init();
    var monitor := companion.instance;
    var none := NetworkSnapshot(None, 30, None);
    var change := Some(Intent(Some(ConnectivityChangeFilter)));
    monitor.OnReceive(Some(Context(none)), change);
    DispatchToNobody(monitor.log, monitor.listeners, OnDisConnected);
    assert monitor.log == [];
    var _ := companion.ShowNoInternetToast();
    var _ := companion.ShowNoInternetToast();
    assert monitor.log == [Toast(NoInternetToastMessage)];
    var _ := companion.ShowNoInternetToastAnyWay();
    assert monitor.log == [Toast(NoInternetToastMessage), Toast(NoInternetToastMessage)];
    var ethernet := NetworkSnapshot(Some(ActiveNetworkInfo(true, TypeEthernet)), 21, None);
    monitor.OnReceive(Some(Context(ethernet)), change);
    assert !monitor.noInternetToastShown && monitor.currentNetworkType == Ethernet;
  }
}
