/** The pure part of NetworkMonitor.kt: the network type the monitor
    stores, the three queries over it, and how a platform snapshot of the
    active network is classified into a type. */
module Classification {
  import opened Wrappers

  /** The monitor's `NETWORK_TYPE`. `Disconnected` is the source's `DC`,
      `Uninitialized` its `UN_INITIALIZED`. */
  datatype NetworkType =
    | Mobile | Wifi | Wimax | Ethernet | Bluetooth | Disconnected | Other | Uninitialized

  /** `checkIfConnected`: anything but `DC` and `UN_INITIALIZED`. */
  function IsConnected(t: NetworkType): (b: bool)
    ensures b <==> t in {Mobile, Wifi, Wimax, Ethernet, Bluetooth, Other}
  {
    t != Disconnected && t != Uninitialized
  }

  /** `checkIfOnWify`. */
  function IsOnWify(t: NetworkType): (b: bool)
    ensures b ==> IsConnected(t)
    ensures b ==> !IsOnMobileDataNetwork(t)
  {
    t == Wifi
  }

  /** `checkIfOnMobileDataNetwork`. */
  function IsOnMobileDataNetwork(t: NetworkType): (b: bool)
    ensures b ==> IsConnected(t)
  {
    t == Mobile
  }

  /** The type a freshly built monitor stores: every query is false on it. */
  lemma InitialTypeAnswersNo()
    ensures !IsConnected(Uninitialized)
    ensures !IsOnWify(Uninitialized) && !IsOnMobileDataNetwork(Uninitialized)
  {
  }

  // ---------------------------------------------------------------------
  // Below API level M: the legacy `NetworkInfo.getType()` codes.
  // The values are those of android.net.ConnectivityManager.

  const TypeMobile: int := 0
  const TypeWifi: int := 1
  const TypeMobileMms: int := 2
  const TypeMobileSupl: int := 3
  const TypeMobileDun: int := 4
  const TypeMobileHipri: int := 5
  const TypeWimax: int := 6
  const TypeBluetooth: int := 7
  const TypeEthernet: int := 9

  /** `Build.VERSION_CODES.M`. */
  const VersionCodeM: int := 23

  /** The five legacy codes that all mean a cellular data network. */
  const MobileTypes: set<int> :=
    {TypeMobile, TypeMobileDun, TypeMobileHipri, TypeMobileMms, TypeMobileSupl}

  /** Every legacy code the classification names explicitly. */
  const NamedTypes: set<int> :=
    MobileTypes + {TypeWifi, TypeBluetooth, TypeEthernet, TypeWimax}

  /** The `when` over `activeNetworkInfo.type` used below API level M. */
  function LegacyNetworkType(code: int): (r: NetworkType)
    ensures IsConnected(r)
    ensures r == Mobile <==> code in MobileTypes
    ensures r == Wifi <==> code == TypeWifi
    ensures r == Bluetooth <==> code == TypeBluetooth
    ensures r == Ethernet <==> code == TypeEthernet
    ensures r == Wimax <==> code == TypeWimax
    ensures r == Other <==> code !in NamedTypes
  {
    if code == TypeWifi then Wifi
    else if code == TypeMobile || code == TypeMobileDun || code == TypeMobileHipri
            || code == TypeMobileMms || code == TypeMobileSupl then Mobile
    else if code == TypeBluetooth then Bluetooth
    else if code == TypeEthernet then Ethernet
    else if code == TypeWimax then Wimax
    else Other
  }

  // ---------------------------------------------------------------------
  // From API level M on: the transports of the active network's
  // `NetworkCapabilities`.

  datatype Transport =
    | TransportCellular | TransportWifi | TransportBluetooth | TransportEthernet
    | TransportVpn | TransportWifiAware | TransportLowpan | TransportUsb

  /** `networkCapabilities?.hasTransport(t) ?: false`: absent capabilities
      have no transport. */
  predicate HasTransport(capabilities: Option<set<Transport>>, t: Transport) {
    capabilities.Some? && t in capabilities.value
  }

  /** The if-chain over transports used from API level M on. */
  function TransportNetworkType(capabilities: Option<set<Transport>>): (r: NetworkType)
    ensures IsConnected(r)
    ensures r in {Wifi, Mobile, Bluetooth, Ethernet, Other}
    ensures capabilities.None? ==> r == Other
  {
    if HasTransport(capabilities, TransportWifi) || HasTransport(capabilities, TransportWifiAware) then Wifi
    else if HasTransport(capabilities, TransportCellular) then Mobile
    else if HasTransport(capabilities, TransportBluetooth) then Bluetooth
    else if HasTransport(capabilities, TransportEthernet) then Ethernet
    else Other
  }

  /** The transports a snapshot reports, absent capabilities counting as none. */
  function Transports(capabilities: Option<set<Transport>>): (s: set<Transport>)
    ensures forall t :: t in s <==> HasTransport(capabilities, t)
  {
    if capabilities.Some? then capabilities.value else {}
  }

  /** An independent statement of the transport rule: a priority table,
      highest row first, and "the first row naming a present transport wins". */
  const TransportPriority: seq<(seq<Transport>, NetworkType)> := [
    ([TransportWifi, TransportWifiAware], Wifi),
    ([TransportCellular], Mobile),
    ([TransportBluetooth], Bluetooth),
    ([TransportEthernet], Ethernet)
  ]

  /** Some transport of `row` is present. */
  predicate AnyPresent(row: seq<Transport>, present: set<Transport>) {
    row != [] && (row[0] in present || AnyPresent(row[1..], present))
  }

  function FirstMatch(table: seq<(seq<Transport>, NetworkType)>, present: set<Transport>): NetworkType
  {
    if table == [] then Other
    else if AnyPresent(table[0].0, present) then table[0].1
    else FirstMatch(table[1..], present)
  }

  /** The if-chain is exactly the priority table read top to bottom. */
  lemma TransportNetworkTypeIsFirstMatch(capabilities: Option<set<Transport>>)
    ensures TransportNetworkType(capabilities) == FirstMatch(TransportPriority, Transports(capabilities))
  {
    var p := Transports(capabilities);
    var t := TransportPriority;
    AnyPresentOfPair(TransportWifi, TransportWifiAware, p);
    AnyPresentOfSingle(TransportCellular, p);
    AnyPresentOfSingle(TransportBluetooth, p);
    AnyPresentOfSingle(TransportEthernet, p);
    var t1, t2, t3 := t[1..], t[2..], t[3..];
    assert t1[1..] == t2 && t2[1..] == t3 && t3[1..] == [];
    assert FirstMatch(t3, p) == if TransportEthernet in p then Ethernet else Other;
    assert FirstMatch(t2, p) == if TransportBluetooth in p then Bluetooth else FirstMatch(t3, p);
    assert FirstMatch(t1, p) == if TransportCellular in p then Mobile else FirstMatch(t2, p);
    assert FirstMatch(t, p) ==
      if TransportWifi in p || TransportWifiAware in p then Wifi else FirstMatch(t1, p);
  }

  lemma AnyPresentOfSingle(a: Transport, p: set<Transport>)
    ensures AnyPresent([a], p) <==> a in p
  {
    assert [a][1..] == [];
  }

  lemma AnyPresentOfPair(a: Transport, b: Transport, p: set<Transport>)
    ensures AnyPresent([a, b], p) <==> a in p || b in p
  {
    assert [a, b][1..] == [b];
    AnyPresentOfSingle(b, p);
  }

  /** The row of `TransportPriority` naming `t`; 4 for a transport no row names. */
  function TransportRank(t: Transport): nat {
    match t
    case TransportWifi | TransportWifiAware => 0
    case TransportCellular => 1
    case TransportBluetooth => 2
    case TransportEthernet => 3
    case _ => 4
  }

  /** The row of `TransportPriority` producing `r`; 4 for `OTHER`. */
  function TypeRank(r: NetworkType): nat {
    match r
    case Wifi => 0
    case Mobile => 1
    case Bluetooth => 2
    case Ethernet => 3
    case _ => 4
  }

  /** The ranks are the rows of `TransportPriority`: each row's transports
      and type have that row's index, a transport ranked above the last row
      is named by its row, and `OTHER` ranks below every row. */
  lemma RanksFollowTransportPriority()
    ensures forall i :: 0 <= i < |TransportPriority| ==> TypeRank(TransportPriority[i].1) == i
    ensures forall i, t :: 0 <= i < |TransportPriority| && t in TransportPriority[i].0 ==> TransportRank(t) == i
    ensures forall t :: TransportRank(t) < |TransportPriority| ==> t in TransportPriority[TransportRank(t)].0
    ensures TypeRank(Other) == |TransportPriority|
  {
  }

  /** A transport of no higher priority than the one that decided the type
      never changes it; in particular, once Wi-Fi is present nothing does. */
  lemma AddingTransportBelowWinnerKeepsType(capabilities: set<Transport>, extra: Transport)
    requires TransportRank(extra) >= TypeRank(TransportNetworkType(Some(capabilities)))
    ensures TransportNetworkType(Some(capabilities + {extra})) == TransportNetworkType(Some(capabilities))
  {
  }

  // ---------------------------------------------------------------------
  // `refreshNetworkType`, with the platform queries as inputs.

  /** `activeNetworkInfo` when non-null: whether it is connected, and its
      legacy type code. */
  datatype ActiveNetworkInfo = ActiveNetworkInfo(isConnected: bool, code: int)

  /** What the connectivity manager reports at one moment: the active
      network's info (null when there is none), `Build.VERSION.SDK_INT`,
      and the active network's capabilities (null when unknown). */
  datatype NetworkSnapshot = NetworkSnapshot(
    activeNetworkInfo: Option<ActiveNetworkInfo>,
    sdkInt: int,
    capabilities: Option<set<Transport>>)

  /** The snapshot has an active network that is connected. */
  predicate HasConnectedNetwork(s: NetworkSnapshot) {
    s.activeNetworkInfo.Some? && s.activeNetworkInfo.value.isConnected
  }

  /** The type `refreshNetworkType` stores for a snapshot. */
  function Classify(s: NetworkSnapshot): (r: NetworkType)
    ensures r != Uninitialized
    ensures r == Disconnected <==> !HasConnectedNetwork(s)
    ensures IsConnected(r) <==> HasConnectedNetwork(s)
    ensures HasConnectedNetwork(s) && s.sdkInt < VersionCodeM ==>
              r == LegacyNetworkType(s.activeNetworkInfo.value.code)
    ensures HasConnectedNetwork(s) && s.sdkInt >= VersionCodeM ==>
              r == FirstMatch(TransportPriority, Transports(s.capabilities))
  {
    if HasConnectedNetwork(s) then
      if s.sdkInt < VersionCodeM then LegacyNetworkType(s.activeNetworkInfo.value.code)
      else
        TransportNetworkTypeIsFirstMatch(s.capabilities);
        TransportNetworkType(s.capabilities)
    else Disconnected
  }
}
