# HideMockHook, modelled in Dafny

`HideMockHook` is an Xposed module class. When the framework loads it into
an app process, `handleLoadPackage` installs a fixed set of method hooks.
These hooks hide a mock location source from the app. Some hooks replace a
platform method outright with a constant. Others run after the real method
and rewrite its result:
- they strip the `mockLocation` extras key;
- they report the `mock_location` setting as `"0"`;
- they cut provider lists down to the four standard providers.

The model has six modules:

- `JavaValues` (java_values.dfy): nullable references (`Option`), the
  values a hooked method can return, and a subsequence relation.
- `Hooks` (hooks.dfy): the fourteen hooked methods, their textual order in
  `handleLoadPackage`, and their declared return types.
- `Whitelist` (whitelist.dfy): the four exempt package names and the
  exemption test.
- `Registration` (registration.dfy): the registration driver. The running
  platform is a `Host` value with three parts:
  - the SDK level;
  - the set of methods `findAndHookMethod` can find;
  - the class names `Class.forName` can resolve.

  `HandleLoadPackage` is the source's sequential code, one method per
  section of the source, plus `HookIsMock` for the SDK 31 block inside
  section 1; section 4 has one method for each of its two `try` blocks. It threads the list of installed hooks,
  and an unguarded failure ends it early. It is proved equal to
  `Registered`, a declarative account: the source order filtered by
  `WillInstall`. `WillInstall` holds of a hook when four things are true:
  - its SDK check passes;
  - its class lookups resolve;
  - the platform has the method;
  - every hook that blocks it was hooked. A hook blocks it if it comes
    earlier, either in the outer `try` or in the hook's own `try`.
- `Transformers` (transformers.dfy): the replacement constants, the
  settings mask, and the `getExtras` after-hook. The after-hook works on a
  `Bundle` object in place.
- `ProviderCleaner` (provider_cleaner.dfy): the provider-list after-hook.
  It is a back-to-front loop that removes entries in place from a
  `StringList` object. It is proved against the filter `Standard`.

Three registrations sit directly in the outer `try`:
- `isFromMockProvider`;
- `getExtras`;
- `Settings.Secure.getString`.

A failure of any of them reaches the outer `catch` (HideMockHook.java:244-246),
and nothing after it is installed. `UnguardedFailureAborts` states this.

## Model

| member | source | states |
|---|---|---|
| Hooks.Rank | app/src/main/java/com/cxorz/anywhere/xposed/HideMockHook.java:54-238 | each hook's position in the textual order of the registrations, inverse to indexing the source order |
| Hooks.RankOfSourceOrder | app/src/main/java/com/cxorz/anywhere/xposed/HideMockHook.java:54-238 | every hook occurs exactly once in the registration order |
| Whitelist.IsExempt | app/src/main/java/com/cxorz/anywhere/xposed/HideMockHook.java:33-46 | a package is exempt exactly when its name is null or one of the four listed names, compared exactly |
| Whitelist.NoWhitelistedPrefix | app/src/main/java/com/cxorz/anywhere/xposed/HideMockHook.java:33-38 | no whitelisted name is a proper prefix of another |
| Whitelist.ExtendedNameNotExempt | app/src/main/java/com/cxorz/anywhere/xposed/HideMockHook.java:44-46 | membership is exact string equality: a whitelisted name with anything appended is not exempt |
| Whitelist.CaseMatters | app/src/main/java/com/cxorz/anywhere/xposed/HideMockHook.java:44-46 | membership is case-sensitive |
| Registration.BlockersIff | app/src/main/java/com/cxorz/anywhere/xposed/HideMockHook.java:48-246 | the listed blockers of a hook are exactly the earlier hooks of the outer try and of the hook's own try |
| Registration.InstalledBeforeMembers | app/src/main/java/com/cxorz/anywhere/xposed/HideMockHook.java:48-246 | among the first k hooks, those installed are exactly the ones of rank below k that satisfy WillInstall |
| Registration.InstalledBeforeOrdered | app/src/main/java/com/cxorz/anywhere/xposed/HideMockHook.java:48-246 | the installed hooks come in strictly increasing source position |
| Registration.NothingAfterAbort | app/src/main/java/com/cxorz/anywhere/xposed/HideMockHook.java:244-246 | once an unguarded hook fails, no later hook is added |
| Registration.Advance | app/src/main/java/com/cxorz/anywhere/xposed/HideMockHook.java:48-246 | settling the hook of rank k appends it exactly when WillInstall holds of it |
| Registration.FindAndHookMethod | app/src/main/java/com/cxorz/anywhere/xposed/HideMockHook.java:54 | a hook is added, and reported found, exactly when the platform has the method |
| Registration.HookLocation | app/src/main/java/com/cxorz/anywhere/xposed/HideMockHook.java:53-86 | section 1 installs the right hooks among the first three, and reports failure exactly when isFromMockProvider or getExtras is missing, in which case nothing is installed after the failure |
| Registration.HookIsMock | app/src/main/java/com/cxorz/anywhere/xposed/HideMockHook.java:61-73 | isMock is tried only from SDK 31, in its own try, and is added exactly when it will be installed, extending the list to the first two hooks' share |
| Registration.HookWifi | app/src/main/java/com/cxorz/anywhere/xposed/HideMockHook.java:91-102 | section 2 extends the installed list to the first four hooks' share |
| Registration.HookCellInfo | app/src/main/java/com/cxorz/anywhere/xposed/HideMockHook.java:107-135 | section 3 tries the three telephony hooks in order and stops at the first missing one |
| Registration.HookGpsStatusListener | app/src/main/java/com/cxorz/anywhere/xposed/HideMockHook.java:146-156 | section 4.1 adds addGpsStatusListener, in its own try, exactly when it will be installed, extending the list to the first eight hooks' share |
| Registration.HookGnssCallbacks | app/src/main/java/com/cxorz/anywhere/xposed/HideMockHook.java:159-182 | section 4.2 installs the two GNSS overloads only from SDK 24 with the callback class present, in order, stopping at the first failure |
| Registration.HookMockSetting | app/src/main/java/com/cxorz/anywhere/xposed/HideMockHook.java:187-209 | section 5 reports failure exactly when getString is missing and then installs nothing more; otherwise it adds getString and, if present, getStringForUser |
| Registration.HookProviderLists | app/src/main/java/com/cxorz/anywhere/xposed/HideMockHook.java:214-242 | section 6 hooks getProviders and then getAllProviders, stopping at the first missing one |
| Registration.HandleLoadPackage | app/src/main/java/com/cxorz/anywhere/xposed/HideMockHook.java:40-247 | the installed hooks equal the declarative account Registered, and a null or whitelisted name installs nothing |
| Registration.Scope | app/src/main/java/com/cxorz/anywhere/xposed/HideMockHook.java:48-246 | each registration's innermost enclosing try; exactly isFromMockProvider, getExtras and Settings.Secure.getString sit directly in the outer try |
| Registration.InnerScopesInOrder | app/src/main/java/com/cxorz/anywhere/xposed/HideMockHook.java:48-246 | the inner try blocks follow one another in source order, so each one covers a contiguous run of registrations |
| Registration.Blockers | app/src/main/java/com/cxorz/anywhere/xposed/HideMockHook.java:48-246 | no hook blocks itself, and every hook after isFromMockProvider is blocked by it |
| Registration.WillInstall | app/src/main/java/com/cxorz/anywhere/xposed/HideMockHook.java:48-246 | a hook is installed when its SDK check passes, its class lookups resolve, its method is present and every hook that blocks it was found |
| Registration.InstallNeedsUnguardedHooks | app/src/main/java/com/cxorz/anywhere/xposed/HideMockHook.java:48-246 | an installed hook has its method present, and so do isFromMockProvider, getExtras and getString whenever it comes after them |
| Registration.Registered | app/src/main/java/com/cxorz/anywhere/xposed/HideMockHook.java:40-246 | an exempt package gets no hooks, and no more hooks are installed than there are registrations |
| Registration.RegisteredMembers | app/src/main/java/com/cxorz/anywhere/xposed/HideMockHook.java:40-247 | a hook is installed exactly when the package is not exempt and WillInstall holds |
| Registration.RegisteredInSourceOrder | app/src/main/java/com/cxorz/anywhere/xposed/HideMockHook.java:48-246 | installed hooks appear in source order, each once |
| Registration.SdkGates | app/src/main/java/com/cxorz/anywhere/xposed/HideMockHook.java:62-73 | isMock is installed only from SDK 31; both GNSS overloads only from SDK 24 and only when GnssStatus$Callback resolves |
| Registration.SdkGatesAreLocal | app/src/main/java/com/cxorz/anywhere/xposed/HideMockHook.java:62-73 | changing the SDK level does not change whether any hook other than the three gated ones is installed |
| Registration.FailureSkipsRestOfScope | app/src/main/java/com/cxorz/anywhere/xposed/HideMockHook.java:107-135 | a missing method skips every later hook of the same try |
| Registration.GuardedFailureIsLocal | app/src/main/java/com/cxorz/anywhere/xposed/HideMockHook.java:91-242 | a missing hook inside an inner try changes nothing for hooks of any other try |
| Registration.UnguardedFailureAborts | app/src/main/java/com/cxorz/anywhere/xposed/HideMockHook.java:48-246 | a missing unguarded hook (isFromMockProvider, getExtras, getString) and every hook after it are not installed |
| Registration.FullPlatformInstallsAll | app/src/main/java/com/cxorz/anywhere/xposed/HideMockHook.java:48-246 | with every method, the callback class and SDK 31 or later, all fourteen hooks are installed |
| Registration.OldPlatformSkipsGatedHooks | app/src/main/java/com/cxorz/anywhere/xposed/HideMockHook.java:62-73 | below SDK 24 with every method present, exactly the hooks without an SDK check are installed |
| Transformers.ReplacementResult | app/src/main/java/com/cxorz/anywhere/xposed/HideMockHook.java:54-177 | each replacement hook returns a value fitting its method's return type: isFromMockProvider and isMock give false; the three scan and cell lists give an empty list, never null; getCellLocation gives null; addGpsStatusListener and both registerGnssStatusCallback overloads give true |
| Transformers.MaskSetting | app/src/main/java/com/cxorz/anywhere/xposed/HideMockHook.java:187-209 | the caller sees either the real result or "0", and a null name always gets the real result |
| Transformers.MaskSettingForcedIff | app/src/main/java/com/cxorz/anywhere/xposed/HideMockHook.java:190-193 | the settings result is "0" whatever the real one exactly when the name equals "mock_location" |
| Transformers.MaskSettingPassesThrough | app/src/main/java/com/cxorz/anywhere/xposed/HideMockHook.java:201-204 | for any other name, null included, the real result is passed through unchanged |
| Transformers.MaskSettingIdempotent | app/src/main/java/com/cxorz/anywhere/xposed/HideMockHook.java:190-193 | masking twice equals masking once |
| Transformers.MaskSettingExamples | app/src/main/java/com/cxorz/anywhere/xposed/HideMockHook.java:190-193 | "mock_location" gives "0"; "other_setting", "MOCK_LOCATION" and a null name pass "1" through |
| Transformers.Bundle.Remove | app/src/main/java/com/cxorz/anywhere/xposed/HideMockHook.java:82 | Bundle.remove drops exactly the given key |
| Transformers.WithoutMockLocation | app/src/main/java/com/cxorz/anywhere/xposed/HideMockHook.java:79-84 | the marker key is gone, every other key is present exactly when it was before, with its old value |
| Transformers.StripMockLocation | app/src/main/java/com/cxorz/anywhere/xposed/HideMockHook.java:78-85 | the after-hook replaces a non-null bundle's entries by WithoutMockLocation of the old ones, in place |
| Transformers.WithoutMockLocationIdempotent | app/src/main/java/com/cxorz/anywhere/xposed/HideMockHook.java:79-84 | stripping twice equals stripping once |
| Transformers.WithoutMockLocationUnmarked | app/src/main/java/com/cxorz/anywhere/xposed/HideMockHook.java:81 | extras without the marker are unchanged |
| Transformers.WithoutMockLocationExamples | app/src/main/java/com/cxorz/anywhere/xposed/HideMockHook.java:79-84 | {mockLocation: true, other: 1} becomes {other: 1}; empty extras stay empty |
| ProviderCleaner.Standard | app/src/main/java/com/cxorz/anywhere/xposed/HideMockHook.java:216-230 | the filtered list is never longer than the input |
| ProviderCleaner.StandardMembers | app/src/main/java/com/cxorz/anywhere/xposed/HideMockHook.java:225-230 | a name is in the filtered list exactly when it is in the input and is gps, network, passive or fused |
| ProviderCleaner.StringList.RemoveAt | app/src/main/java/com/cxorz/anywhere/xposed/HideMockHook.java:228 | List.remove(int) drops the element at the index and keeps the rest in order |
| ProviderCleaner.CleanProviders | app/src/main/java/com/cxorz/anywhere/xposed/HideMockHook.java:220-231 | the back-to-front loop leaves a non-null list equal to Standard of its old contents |
| ProviderCleaner.StepKeeps | app/src/main/java/com/cxorz/anywhere/xposed/HideMockHook.java:225-230 | keeping a standard entry at i leaves the untouched prefix before i followed by the cleaned rest from i on |
| ProviderCleaner.StepRemoves | app/src/main/java/com/cxorz/anywhere/xposed/HideMockHook.java:225-230 | removing a non-standard entry at i leaves the untouched prefix before i followed by the cleaned rest from i on |
| ProviderCleaner.StandardAppend | app/src/main/java/com/cxorz/anywhere/xposed/HideMockHook.java:225-230 | cleaning a concatenation cleans each part, so retained entries keep their relative order |
| ProviderCleaner.StandardSubsequence | app/src/main/java/com/cxorz/anywhere/xposed/HideMockHook.java:225-230 | the cleaned list is a subsequence of the input |
| ProviderCleaner.StandardCounts | app/src/main/java/com/cxorz/anywhere/xposed/HideMockHook.java:225-230 | each standard name occurs as often as before, every other name not at all |
| ProviderCleaner.StandardOfStandardOnly | app/src/main/java/com/cxorz/anywhere/xposed/HideMockHook.java:225-230 | a list of standard names only is unchanged |
| ProviderCleaner.StandardIdempotent | app/src/main/java/com/cxorz/anywhere/xposed/HideMockHook.java:225-230 | cleaning twice equals cleaning once |
| ProviderCleaner.StandardExample | app/src/main/java/com/cxorz/anywhere/xposed/HideMockHook.java:216-230 | [gps, network, test, passive] becomes [gps, network, passive] |

## Left out

- The Xposed framework is not modelled: `findAndHookMethod`, the
  `XC_MethodHook`/`XC_MethodReplacement` dispatch and `MethodHookParam`.
  A hook is "found" when its method is in `Host.methods`. The transformers
  are plain functions and methods that the dispatch would call.
- Reflection and `Build.VERSION` are not read. The SDK level and the
  resolvable classes are fields of `Host`. A missing `GpsStatus.Listener`
  or `Handler` class counts as the method being unavailable.
- A failure inside the framework's own hook installation, after the method
  was found, is not modelled separately. The model treats it like a missing
  method.
- Logging (`XposedBridge.log`) is left out. It has no effect on results.
- Android runtime types appear only by shape:
  - `Location`, `WifiManager`, `TelephonyManager`, `LocationManager`
    and `ContentResolver` do not appear at all;
  - a `Bundle` is a class over a map;
  - a provider list is a class over a sequence of strings;
  - a returned list is a `Value`.
- Transformers.ReplacementResult: the model does not capture that each
  replacement returns a fresh `ArrayList`. Aliasing of those fresh lists
  is not modelled.
- ProviderCleaner.CleanProviders: `null` elements inside a provider list
  are not modelled. The source would remove them, because
  `contains(null)` is false there.
- Re-attaching is not modelled. The source does nothing to keep a second
  `handleLoadPackage` from installing a second set of hooks.
- Falling back to the real result when a transformer throws is not
  modelled. The source has no such code.
- Concurrency is left out. The source introduces none.
