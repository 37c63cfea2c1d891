/** The platform methods that the module hooks, in the order their
    registrations appear in `handleLoadPackage`. */
module Hooks {

  /** One hooked method. The two `registerGnssStatusCallback` overloads are
      distinct hooks. */
  datatype Hook =
    | IsFromMockProvider        // Location.isFromMockProvider()
    | IsMock                    // Location.isMock()
    | GetExtras                 // Location.getExtras()
    | GetScanResults            // WifiManager.getScanResults()
    | GetCellLocation           // TelephonyManager.getCellLocation()
    | GetAllCellInfo            // TelephonyManager.getAllCellInfo()
    | GetNeighboringCellInfo    // TelephonyManager.getNeighboringCellInfo()
    | AddGpsStatusListener      // LocationManager.addGpsStatusListener(Listener)
    | RegisterGnssStatusCallback             // LocationManager.registerGnssStatusCallback(Callback)
    | RegisterGnssStatusCallbackWithHandler  // LocationManager.registerGnssStatusCallback(Callback, Handler)
    | SecureGetString           // Settings.Secure.getString(ContentResolver, String)
    | SecureGetStringForUser    // Settings.Secure.getStringForUser(ContentResolver, String, int)
    | GetProviders              // LocationManager.getProviders(boolean)
    | GetAllProviders           // LocationManager.getAllProviders()

  /** Every hook, in the order the source attempts to register them. */
  const SourceOrder: seq<Hook> := [
    IsFromMockProvider, IsMock, GetExtras, GetScanResults,
    GetCellLocation, GetAllCellInfo, GetNeighboringCellInfo,
    AddGpsStatusListener, RegisterGnssStatusCallback, RegisterGnssStatusCallbackWithHandler,
    SecureGetString, SecureGetStringForUser, GetProviders, GetAllProviders
  ]

  /** The position of a hook's registration in the source. */
  function Rank(h: Hook): (r: nat)
    ensures r < |SourceOrder|
  {
    match h
    case IsFromMockProvider => 0
    case IsMock => 1
    case GetExtras => 2
    case GetScanResults => 3
    case GetCellLocation => 4
    case GetAllCellInfo => 5
    case GetNeighboringCellInfo => 6
    case AddGpsStatusListener => 7
    case RegisterGnssStatusCallback => 8
    case RegisterGnssStatusCallbackWithHandler => 9
    case SecureGetString => 10
    case SecureGetStringForUser => 11
    case GetProviders => 12
    case GetAllProviders => 13
  }

  /** The source order holds each hook at its rank. */
  lemma SourceOrderAtRank(h: Hook)
    ensures SourceOrder[Rank(h)] == h
  {
    match h case _ =>
  }

  /** Every hook appears in the source order exactly once: `Rank` and
      indexing into `SourceOrder` are inverse to each other. */
  lemma RankOfSourceOrder(i: nat)
    requires i < |SourceOrder|
    ensures Rank(SourceOrder[i]) == i
  {
    SourceOrderAtRank(SourceOrder[i]);
  }

  /** The declared return type of a hooked method, as far as it matters to
      the caller: a primitive `boolean`, a `java.util.List`, or some other
      (nullable) object reference. */
  datatype ReturnType = Boolean | ListType | ObjectRef

  function ReturnTypeOf(h: Hook): ReturnType
  {
    match h
    case IsFromMockProvider | IsMock | AddGpsStatusListener
       | RegisterGnssStatusCallback | RegisterGnssStatusCallbackWithHandler => Boolean
    case GetScanResults | GetAllCellInfo | GetNeighboringCellInfo
       | GetProviders | GetAllProviders => ListType
    case GetExtras | GetCellLocation | SecureGetString | SecureGetStringForUser => ObjectRef
  }
}
