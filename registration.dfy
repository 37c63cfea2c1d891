/** `handleLoadPackage`: which hooks end up installed in a process, given
    its package name and what the running platform offers. */
module Registration {
  import opened JavaValues
  import opened Hooks
  import opened Whitelist

  /** The running platform as the registration sees it: its SDK level
      (`Build.VERSION.SDK_INT`), the methods `findAndHookMethod` can find,
      and the class names `Class.forName` can resolve. */
  datatype Host = Host(sdk: int, methods: set<Hook>, classes: set<string>)

  /** `Location.isMock` is only tried from SDK 31 on. */
  const IsMockMinSdk := 31
  /** The GNSS callbacks are only tried from `Build.VERSION_CODES.N` on. */
  const GnssMinSdk := 24
  /** The class the GNSS registrations look up before hooking. */
  const GnssCallbackClass := "android.location.GnssStatus$Callback"

  /** The `try` statement whose body holds a hook's registration directly,
      numbered in source order; 0 is the outer `try`, whose `catch` ends
      the whole registration. */
  function Scope(h: Hook): (scope: nat)
    ensures scope <= 7
    ensures scope == 0 <==> h == IsFromMockProvider || h == GetExtras || h == SecureGetString
  {
    match h
    case IsFromMockProvider | GetExtras | SecureGetString => 0
    case IsMock => 1
    case GetScanResults => 2
    case GetCellLocation | GetAllCellInfo | GetNeighboringCellInfo => 3
    case AddGpsStatusListener => 4
    case RegisterGnssStatusCallback | RegisterGnssStatusCallbackWithHandler => 5
    case SecureGetStringForUser => 6
    case GetProviders | GetAllProviders => 7
  }

  /** The inner `try` blocks come one after another in the source, so the
      registrations of each one form a contiguous run. */
  lemma InnerScopesInOrder(a: Hook, b: Hook)
    requires Scope(a) != 0 && Scope(b) != 0
    requires Rank(a) <= Rank(b)
    ensures Scope(a) <= Scope(b)
  {
    match a
    case _ => match b { case _ => }
  }

  /** A hook registered outside every inner `try`: its failure propagates
      to the outer `catch`. */
  predicate Unguarded(h: Hook)
  {
    Scope(h) == 0
  }

  /** The hooks whose `try` has an SDK check in front of it. */
  predicate SdkGated(h: Hook)
  {
    h == IsMock || h == RegisterGnssStatusCallback || h == RegisterGnssStatusCallbackWithHandler
  }

  /** The SDK check in front of a hook's `try`, if it has one. */
  predicate GateOpen(host: Host, h: Hook)
  {
    match h
    case IsMock => host.sdk >= IsMockMinSdk
    case RegisterGnssStatusCallback | RegisterGnssStatusCallbackWithHandler => host.sdk >= GnssMinSdk
    case _ => true
  }

  /** The class lookups a hook's registration needs before it. */
  predicate ClassesResolved(host: Host, h: Hook)
  {
    (h == RegisterGnssStatusCallback || h == RegisterGnssStatusCallbackWithHandler)
      ==> GnssCallbackClass in host.classes
  }

  /** `p` blocks `h` when a failure to hook `p` means `h` is never tried:
      `p` comes first, and either sits in the outer `try` or in `h`'s own. */
  predicate Blocks(p: Hook, h: Hook)
  {
    Rank(p) < Rank(h) && (Unguarded(p) || Scope(p) == Scope(h))
  }

  /** The hooks that block `h`, listed. */
  function Blockers(h: Hook): (blockers: set<Hook>)
    ensures h !in blockers
    ensures h != IsFromMockProvider ==> IsFromMockProvider in blockers
  {
    match h
    case IsFromMockProvider => {}
    case IsMock | GetExtras => {IsFromMockProvider}
    case GetScanResults | GetCellLocation | AddGpsStatusListener
       | RegisterGnssStatusCallback | SecureGetString => {IsFromMockProvider, GetExtras}
    case GetAllCellInfo => {IsFromMockProvider, GetExtras, GetCellLocation}
    case GetNeighboringCellInfo => {IsFromMockProvider, GetExtras, GetCellLocation, GetAllCellInfo}
    case RegisterGnssStatusCallbackWithHandler => {IsFromMockProvider, GetExtras, RegisterGnssStatusCallback}
    case SecureGetStringForUser | GetProviders => {IsFromMockProvider, GetExtras, SecureGetString}
    case GetAllProviders => {IsFromMockProvider, GetExtras, SecureGetString, GetProviders}
  }

  /** The listed blockers are exactly the hooks that block. */
  lemma BlockersIff(p: Hook, h: Hook)
    ensures p in Blockers(h) <==> Blocks(p, h)
  {
    match h
    case _ => match p { case _ => }
  }

  /** A non-exempt process ends up with `h` installed exactly when `h` is
      tried (its SDK check passes and its classes resolve), the platform has
      the method, and every hook that blocks it was hooked. */
  predicate WillInstall(host: Host, h: Hook)
  {
    GateOpen(host, h) && ClassesResolved(host, h) && h in host.methods
    && Blockers(h) <= host.methods
  }

  /** A hook is installed only if its method is present, and only if each
      of the three unguarded hooks registered before it was found. */
  lemma InstallNeedsUnguardedHooks(host: Host, h: Hook)
    requires WillInstall(host, h)
    ensures h in host.methods
    ensures Rank(IsFromMockProvider) < Rank(h) ==> IsFromMockProvider in host.methods
    ensures Rank(GetExtras) < Rank(h) ==> GetExtras in host.methods
    ensures Rank(SecureGetString) < Rank(h) ==> SecureGetString in host.methods
  {
    BlockersIff(IsFromMockProvider, h);
    BlockersIff(GetExtras, h);
    BlockersIff(SecureGetString, h);
  }

  /** The hooks among the first `k` of the source order that will be
      installed, in source order. */
  function InstalledBefore(host: Host, k: nat): (hooks: seq<Hook>)
    requires k <= |SourceOrder|
    ensures |hooks| <= k
    decreases k, host  // naming `host` keeps the verifier from unrolling calls on a constant `k`
  {
    if k == 0 then []
    else
      var h := SourceOrder[k - 1];
      InstalledBefore(host, k - 1) + if WillInstall(host, h) then [h] else []
  }

  /** The hooks among the first `k` that will be installed are exactly
      those of rank below `k` for which `WillInstall` holds. */
  lemma {:induction false} InstalledBeforeMembers(host: Host, k: nat, h: Hook)
    requires k <= |SourceOrder|
    ensures h in InstalledBefore(host, k) <==> Rank(h) < k && WillInstall(host, h)
  {
    if k > 0 {
      var g := SourceOrder[k - 1];
      InstalledBeforeMembers(host, k - 1, h);
      RankOfSourceOrder(k - 1);
      SourceOrderAtRank(h);
      assert h == g <==> Rank(h) == k - 1;
      assert InstalledBefore(host, k) == InstalledBefore(host, k - 1) + if WillInstall(host, g) then [g] else [];
    }
  }

  /** The hooks `handleLoadPackage` installs, in the order it installs them. */
  function Registered(packageName: Option<string>, host: Host): (hooks: seq<Hook>)
    ensures IsExempt(packageName) ==> hooks == []
    ensures |hooks| <= |SourceOrder|
  {
    if IsExempt(packageName) then [] else InstalledBefore(host, |SourceOrder|)
  }

  /** Once an unguarded hook `u` fails, nothing after it is installed. */
  lemma {:induction false} NothingAfterAbort(host: Host, u: Hook, k: nat)
    requires Unguarded(u) && u !in host.methods
    requires Rank(u) < k <= |SourceOrder|
    ensures InstalledBefore(host, k) == InstalledBefore(host, Rank(u) + 1)
  {
    if k > Rank(u) + 1 {
      NothingAfterAbort(host, u, k - 1);
      var h := SourceOrder[k - 1];
      InstalledBeforeMembers(host, k, h);
      RankOfSourceOrder(k - 1);
      BlockersIff(u, h);
      assert !WillInstall(host, h);
    }
  }

  /** Settling the hook at position `k` of the source order. */
  lemma Advance(host: Host, k: nat, h: Hook)
    requires Rank(h) == k
    ensures InstalledBefore(host, k + 1) ==
      InstalledBefore(host, k) + if WillInstall(host, h) then [h] else []
  {
    SourceOrderAtRank(h);
  }

  /** `XposedHelpers.findAndHookMethod`: hooks `h` when the platform has the
      method and reports whether it did (`false` stands for the thrown
      `NoSuchMethodError`). */
  method FindAndHookMethod(host: Host, installed: seq<Hook>, h: Hook)
    returns (installed': seq<Hook>, found: bool)
    ensures found <==> h in host.methods
    ensures installed' == if found then installed + [h] else installed
  {
    found := h in host.methods;
    installed' := if found then installed + [h] else installed;
  }

  /** The hooks among the first `k` are listed in strictly increasing
      source position, so each at most once. */
  lemma {:induction false} InstalledBeforeOrdered(host: Host, k: nat)
    requires k <= |SourceOrder|
    ensures forall i, j :: 0 <= i < j < |InstalledBefore(host, k)| ==>
      Rank(InstalledBefore(host, k)[i]) < Rank(InstalledBefore(host, k)[j])
  {
    if k > 0 {
      InstalledBeforeOrdered(host, k - 1);
      var prefix := InstalledBefore(host, k - 1);
      forall i | 0 <= i < |prefix| ensures Rank(prefix[i]) < k - 1 {
        InstalledBeforeMembers(host, k - 1, prefix[i]);
      }
      RankOfSourceOrder(k - 1);
    }
  }

  /** A hook is installed exactly when the package is not exempt and
      `WillInstall` holds of it. */
  lemma RegisteredMembers(packageName: Option<string>, host: Host, h: Hook)
    ensures h in Registered(packageName, host) <==> !IsExempt(packageName) && WillInstall(host, h)
  {
    InstalledBeforeMembers(host, |SourceOrder|, h);
  }

  /** The installed hooks come in source order, each once. */
  lemma RegisteredInSourceOrder(packageName: Option<string>, host: Host)
    ensures forall i, j :: 0 <= i < j < |Registered(packageName, host)| ==>
      Rank(Registered(packageName, host)[i]) < Rank(Registered(packageName, host)[j])
  {
    InstalledBeforeOrdered(host, |SourceOrder|);
  }

  /** `isMock` is installed only from SDK 31 on, the two GNSS callbacks
      only from SDK 24 on and only when their callback class resolves. */
  lemma SdkGates(packageName: Option<string>, host: Host)
    ensures IsMock in Registered(packageName, host) ==> host.sdk >= IsMockMinSdk
    ensures RegisterGnssStatusCallback in Registered(packageName, host) ==>
      host.sdk >= GnssMinSdk && GnssCallbackClass in host.classes
    ensures RegisterGnssStatusCallbackWithHandler in Registered(packageName, host) ==>
      host.sdk >= GnssMinSdk && GnssCallbackClass in host.classes
  {
    RegisteredMembers(packageName, host, IsMock);
    RegisteredMembers(packageName, host, RegisterGnssStatusCallback);
    RegisteredMembers(packageName, host, RegisterGnssStatusCallbackWithHandler);
  }

  /** The SDK level matters to no hook but the three gated ones. */
  lemma SdkGatesAreLocal(packageName: Option<string>, host: Host, sdk: int)
    ensures forall h :: !SdkGated(h) ==>
      (h in Registered(packageName, host) <==> h in Registered(packageName, host.(sdk := sdk)))
  {
    forall h | !SdkGated(h)
      ensures h in Registered(packageName, host) <==> h in Registered(packageName, host.(sdk := sdk))
    {
      RegisteredMembers(packageName, host, h);
      RegisteredMembers(packageName, host.(sdk := sdk), h);
    }
  }

  /** Within one `try`, a hook that cannot be found skips every hook after
      it in that `try`. */
  lemma FailureSkipsRestOfScope(packageName: Option<string>, host: Host, f: Hook)
    requires f !in host.methods
    ensures forall h :: Scope(h) == Scope(f) && Rank(f) < Rank(h) ==> h !in Registered(packageName, host)
  {
    forall h | Scope(h) == Scope(f) && Rank(f) < Rank(h)
      ensures h !in Registered(packageName, host)
    {
      RegisteredMembers(packageName, host, h);
      BlockersIff(f, h);
    }
  }

  /** A guarded hook that cannot be found changes nothing outside its own
      `try`: every hook of another `try` is installed or not just as if the
      platform had it. */
  lemma GuardedFailureIsLocal(packageName: Option<string>, host: Host, f: Hook)
    requires !Unguarded(f)
    ensures forall h :: Scope(h) != Scope(f) ==>
      (h in Registered(packageName, host) <==>
       h in Registered(packageName, host.(methods := host.methods - {f})))
  {
    var host' := host.(methods := host.methods - {f});
    forall h | Scope(h) != Scope(f)
      ensures h in Registered(packageName, host) <==> h in Registered(packageName, host')
    {
      RegisteredMembers(packageName, host, h);
      RegisteredMembers(packageName, host', h);
      BlockersIff(f, h);
      WillInstallWithout(host, f, h);
    }
  }

  /** Taking away a method that is neither `h` nor one of its blockers
      does not change whether `h` is installed. */
  lemma WillInstallWithout(host: Host, f: Hook, h: Hook)
    requires f != h && f !in Blockers(h)
    ensures WillInstall(host, h) <==> WillInstall(host.(methods := host.methods - {f}), h)
  {
  }

  /** An unguarded hook that cannot be found ends registration: neither it
      nor anything after it is installed. */
  lemma UnguardedFailureAborts(packageName: Option<string>, host: Host, u: Hook)
    requires Unguarded(u) && u !in host.methods
    ensures forall h :: Rank(u) <= Rank(h) ==> h !in Registered(packageName, host)
  {
    forall h | Rank(u) <= Rank(h)
      ensures h !in Registered(packageName, host)
    {
      RegisteredMembers(packageName, host, h);
      BlockersIff(u, h);
    }
  }

  /** On a platform with every method, the callback class and SDK 31 or
      later, every hook is installed. */
  lemma FullPlatformInstallsAll(packageName: Option<string>, host: Host)
    requires !IsExempt(packageName)
    requires host.sdk >= IsMockMinSdk && GnssCallbackClass in host.classes
    requires forall h :: h in host.methods
    ensures forall h :: h in Registered(packageName, host)
  {
    forall h ensures h in Registered(packageName, host) {
      RegisteredMembers(packageName, host, h);
      match h case _ =>
    }
  }

  /** Below SDK 24, with every method present, exactly the hooks without
      an SDK check are installed. */
  lemma OldPlatformSkipsGatedHooks(packageName: Option<string>, host: Host)
    requires !IsExempt(packageName)
    requires host.sdk < GnssMinSdk
    requires forall h :: h in host.methods
    ensures forall h :: h in Registered(packageName, host) <==> !SdkGated(h)
  {
    forall h ensures h in Registered(packageName, host) <==> !SdkGated(h) {
      RegisteredMembers(packageName, host, h);
      match h case _ =>
    }
  }

  /** Section 1, the `Location` object itself: `isFromMockProvider`,
      then `isMock` (the SDK 31 block inside section 1), then `getExtras`.
      `ok` is false when one of the two unguarded hooks failed, so that the
      outer `catch` ends registration. */
  method HookLocation(host: Host) returns (installed: seq<Hook>, ok: bool)
    ensures ok <==> IsFromMockProvider in host.methods && GetExtras in host.methods
    ensures ok ==> installed == InstalledBefore(host, 3)
    ensures !ok ==> installed == InstalledBefore(host, |SourceOrder|)
  {
    installed, ok := FindAndHookMethod(host, [], IsFromMockProvider);
    Advance(host, 0, IsFromMockProvider);
    if !ok { NothingAfterAbort(host, IsFromMockProvider, |SourceOrder|); return; }
    installed := HookIsMock(host, installed);
    installed, ok := FindAndHookMethod(host, installed, GetExtras);
    Advance(host, 2, GetExtras);
    if !ok { NothingAfterAbort(host, GetExtras, |SourceOrder|); }
  }

  /** The SDK 31 block inside section 1: `isMock`, in its own `try`. */
  method HookIsMock(host: Host, installed: seq<Hook>) returns (installed': seq<Hook>)
    requires IsFromMockProvider in host.methods
    requires installed == InstalledBefore(host, 1)
    ensures installed' == InstalledBefore(host, 2)
  {
    installed' := installed;
    if host.sdk >= IsMockMinSdk {
      var found;
      installed', found := FindAndHookMethod(host, installed, IsMock);
    }
    Advance(host, 1, IsMock);
  }

  /** Section 2, Wi-Fi scans: `getScanResults` in its own `try`. */
  method HookWifi(host: Host, installed: seq<Hook>) returns (installed': seq<Hook>)
    requires IsFromMockProvider in host.methods && GetExtras in host.methods
    requires installed == InstalledBefore(host, 3)
    ensures installed' == InstalledBefore(host, 4)
  {
    var ok;
    installed', ok := FindAndHookMethod(host, installed, GetScanResults);
    Advance(host, 3, GetScanResults);
  }

  /** Section 3, cell information: three hooks in one `try`, each tried
      only when the ones before it succeeded. */
  method HookCellInfo(host: Host, installed: seq<Hook>) returns (installed': seq<Hook>)
    requires IsFromMockProvider in host.methods && GetExtras in host.methods
    requires installed == InstalledBefore(host, 4)
    ensures installed' == InstalledBefore(host, 7)
  {
    var ok;
    installed', ok := FindAndHookMethod(host, installed, GetCellLocation);
    Advance(host, 4, GetCellLocation);
    if ok {
      installed', ok := FindAndHookMethod(host, installed', GetAllCellInfo);
    }
    Advance(host, 5, GetAllCellInfo);
    if ok {
      installed', ok := FindAndHookMethod(host, installed', GetNeighboringCellInfo);
    }
    Advance(host, 6, GetNeighboringCellInfo);
  }

  /** Section 4.1, the legacy satellite listener: `addGpsStatusListener`
      in its own `try`. */
  method HookGpsStatusListener(host: Host, installed: seq<Hook>) returns (installed': seq<Hook>)
    requires IsFromMockProvider in host.methods && GetExtras in host.methods
    requires installed == InstalledBefore(host, 7)
    ensures installed' == InstalledBefore(host, 8)
  {
    var ok;
    installed', ok := FindAndHookMethod(host, installed, AddGpsStatusListener);
    Advance(host, 7, AddGpsStatusListener);
  }

  /** Section 4.2, GNSS status: from SDK 24 on, the callback class lookup
      and the two `registerGnssStatusCallback` overloads in one `try`. */
  method HookGnssCallbacks(host: Host, installed: seq<Hook>) returns (installed': seq<Hook>)
    requires IsFromMockProvider in host.methods && GetExtras in host.methods
    requires installed == InstalledBefore(host, 8)
    ensures installed' == InstalledBefore(host, 10)
  {
    installed' := installed;
    var ok := host.sdk >= GnssMinSdk && GnssCallbackClass in host.classes;   // SDK check, then Class.forName
    if ok {
      installed', ok := FindAndHookMethod(host, installed', RegisterGnssStatusCallback);
    }
    Advance(host, 8, RegisterGnssStatusCallback);
    if ok {
      installed', ok := FindAndHookMethod(host, installed', RegisterGnssStatusCallbackWithHandler);
    }
    Advance(host, 9, RegisterGnssStatusCallbackWithHandler);
  }

  /** Section 5, the mock-location setting: `Settings.Secure.getString`
      unguarded, then `getStringForUser` in its own `try`. `ok` is false
      when `getString` failed, so that the outer `catch` ends registration. */
  method HookMockSetting(host: Host, installed: seq<Hook>) returns (installed': seq<Hook>, ok: bool)
    requires IsFromMockProvider in host.methods && GetExtras in host.methods
    requires installed == InstalledBefore(host, 10)
    ensures ok <==> SecureGetString in host.methods
    ensures ok ==> installed' == InstalledBefore(host, 12)
    ensures !ok ==> installed' == InstalledBefore(host, |SourceOrder|)
  {
    installed', ok := FindAndHookMethod(host, installed, SecureGetString);
    Advance(host, 10, SecureGetString);
    if !ok { NothingAfterAbort(host, SecureGetString, |SourceOrder|); return; }
    var found;
    installed', found := FindAndHookMethod(host, installed', SecureGetStringForUser);
    Advance(host, 11, SecureGetStringForUser);
  }

  /** Section 6, provider lists: the cleaner on `getProviders` and then on
      `getAllProviders`, in one `try`. */
  method HookProviderLists(host: Host, installed: seq<Hook>) returns (installed': seq<Hook>)
    requires IsFromMockProvider in host.methods && GetExtras in host.methods
    requires SecureGetString in host.methods
    requires installed == InstalledBefore(host, 12)
    ensures installed' == InstalledBefore(host, |SourceOrder|)
  {
    var ok;
    installed', ok := FindAndHookMethod(host, installed, GetProviders);
    Advance(host, 12, GetProviders);
    if ok {
      installed', ok := FindAndHookMethod(host, installed', GetAllProviders);
    }
    Advance(host, 13, GetAllProviders);
  }

  /** `handleLoadPackage`: nothing for a null or whitelisted package name,
      otherwise the six sections in order; a failure of an unguarded hook
      reaches the outer `catch` and ends registration. */
  method HandleLoadPackage(packageName: Option<string>, host: Host) returns (installed: seq<Hook>)
    ensures installed == Registered(packageName, host)
    ensures IsExempt(packageName) ==> installed == []
  {
    installed := [];
    if packageName.None? { return; }
    if packageName.value in WhitelistPackages { return; }
    var ok;
    installed, ok := HookLocation(host);
    if !ok { return; }
    installed := HookWifi(host, installed);
    installed := HookCellInfo(host, installed);
    installed := HookGpsStatusListener(host, installed);
    installed := HookGnssCallbacks(host, installed);
    installed, ok := HookMockSetting(host, installed);
    if !ok { return; }
    installed := HookProviderLists(host, installed);
  }
}
