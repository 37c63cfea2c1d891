/** What the installed hooks do to a call's result: the replacement hooks,
    the `getExtras` after-hook and the `Settings.Secure` after-hooks. The
    provider-list cleaner has a module of its own. */
module Transformers {
  import opened JavaValues
  import opened Hooks

  // ---------------------------------------------------------------------
  // Replacement hooks (`XC_MethodReplacement`): the platform method never
  // runs, so the value returned cannot depend on the real platform state.
  // ---------------------------------------------------------------------

  /** The hooks that replace the platform method outright. */
  predicate Replaces(h: Hook)
  {
    match h
    case GetExtras | SecureGetString | SecureGetStringForUser | GetProviders | GetAllProviders => false
    case _ => true
  }

  /** A value the caller can receive from a method of the given return
      type: a `boolean` must be a boolean (a `null` would fail to unbox),
      a `List` may be `null` or a list, any other reference may be anything. */
  predicate Conforms(v: Value, t: ReturnType)
  {
    match t
    case Boolean => v.Bool?
    case ListType => v.Null? || v.List?
    case ObjectRef => true
  }

  /** The constant a replacement hook returns. It takes no argument: the
      real method is not called and its state is never consulted. */
  function ReplacementResult(h: Hook): (r: Value)
    requires Replaces(h)
    ensures Conforms(r, ReturnTypeOf(h))
    ensures ReturnTypeOf(h) == ListType ==> r == List([])
    ensures h in {IsFromMockProvider, IsMock} ==> r == Bool(false)
    ensures h in {AddGpsStatusListener, RegisterGnssStatusCallback, RegisterGnssStatusCallbackWithHandler}
      ==> r == Bool(true)
    ensures r == Null <==> h == GetCellLocation
  {
    match h
    case IsFromMockProvider | IsMock => Bool(false)
    case GetScanResults | GetAllCellInfo | GetNeighboringCellInfo => List([])
    case GetCellLocation => Null
    case AddGpsStatusListener | RegisterGnssStatusCallback | RegisterGnssStatusCallbackWithHandler => Bool(true)
  }

  // ---------------------------------------------------------------------
  // Settings.Secure.getString / getStringForUser after-hooks.
  // ---------------------------------------------------------------------

  /** The setting whose value the hooks mask. */
  const MockLocationSetting := "mock_location"
  /** The value they report for it: "off". */
  const MaskedValue := "0"

  /** The result a caller sees from `getString(resolver, name)` or
      `getStringForUser(resolver, name, user)` whose real result was
      `result`: `"mock_location".equals(name)` decides, so a `null` name
      never matches. */
  function MaskSetting(name: Option<string>, result: Option<string>): (seen: Option<string>)
    ensures seen == result || seen == Some(MaskedValue)
    ensures name == None ==> seen == result
  {
    if name == Some(MockLocationSetting) then Some(MaskedValue) else result
  }

  /** The result is forced to "0", whatever the real one, exactly when the
      name is "mock_location". */
  lemma MaskSettingForcedIff(name: Option<string>)
    ensures (forall result :: MaskSetting(name, result) == Some(MaskedValue))
      <==> name == Some(MockLocationSetting)
  {
    if name != Some(MockLocationSetting) {
      assert MaskSetting(name, None) == None;
    }
  }

  /** Any other name, `null` included, gets the real result unchanged. */
  lemma MaskSettingPassesThrough(name: Option<string>, result: Option<string>)
    requires name != Some(MockLocationSetting)
    ensures MaskSetting(name, result) == result
  {
  }

  /** Masking twice is masking once. */
  lemma MaskSettingIdempotent(name: Option<string>, result: Option<string>)
    ensures MaskSetting(name, MaskSetting(name, result)) == MaskSetting(name, result)
  {
  }

  /** The match is exact: no case folding, no trimming. */
  lemma MaskSettingExamples()
    ensures MaskSetting(Some("mock_location"), Some("1")) == Some("0")
    ensures MaskSetting(Some("other_setting"), Some("1")) == Some("1")
    ensures MaskSetting(Some("MOCK_LOCATION"), Some("1")) == Some("1")
    ensures MaskSetting(None, Some("1")) == Some("1")
  {
  }

  // ---------------------------------------------------------------------
  // Location.getExtras after-hook.
  // ---------------------------------------------------------------------

  /** The extras key that marks a location as mocked. */
  const MockLocationKey := "mockLocation"

  /** An `android.os.Bundle`: a mutable map from keys to values, shared by
      reference with the `Location` that returned it. */
  class Bundle {
    var entries: map<string, Value>

    constructor (entries: map<string, Value>)
      ensures this.entries == entries
    {
      this.entries := entries;
    }

    /** `Bundle.containsKey`. */
    function ContainsKey(key: string): bool
      reads this
    {
      key in entries
    }

    /** `Bundle.remove`: drops the key and its value, if there. */
    method Remove(key: string)
      modifies this
      ensures entries == old(entries) - {key}
    {
      entries := entries - {key};
    }
  }

  /** The extras without the mock marker. */
  function WithoutMockLocation(m: map<string, Value>): (r: map<string, Value>)
    ensures MockLocationKey !in r
    ensures forall k :: k != MockLocationKey ==> (k in r <==> k in m)
    ensures forall k :: k in r ==> r[k] == m[k]
  {
    m - {MockLocationKey}
  }

  /** The `getExtras` after-hook: removes the marker from the returned
      bundle in place; a `null` result is left alone. */
  method StripMockLocation(extras: Bundle?)
    modifies extras
    ensures extras != null ==> extras.entries == WithoutMockLocation(old(extras.entries))
  {
    if extras != null {
      if extras.ContainsKey(MockLocationKey) {
        extras.Remove(MockLocationKey);
      }
    }
  }

  /** Stripping twice is stripping once. */
  lemma WithoutMockLocationIdempotent(m: map<string, Value>)
    ensures WithoutMockLocation(WithoutMockLocation(m)) == WithoutMockLocation(m)
  {
  }

  /** Extras without the marker are left as they are. */
  lemma WithoutMockLocationUnmarked(m: map<string, Value>)
    requires MockLocationKey !in m
    ensures WithoutMockLocation(m) == m
  {
  }

  /** `{"mockLocation": true, "other": 1}` loses only its marker, and
      empty extras stay empty. */
  lemma WithoutMockLocationExamples()
    ensures WithoutMockLocation(map["mockLocation" := Bool(true), "other" := Int(1)])
      == map["other" := Int(1)]
    ensures WithoutMockLocation(map[]) == map[]
  {
  }
}
