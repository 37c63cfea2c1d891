/** The packages that `handleLoadPackage` leaves alone: the module's own
    app and the core system processes. */
module Whitelist {
  import opened JavaValues

  /** `WHITELIST_PACKAGES`, in the source's order. */
  const WhitelistPackages: seq<string> :=
    ["com.cxorz.anywhere", "android", "com.android.systemui", "com.android.phone"]

  /** A package gets no hooks when its name is `null` or, by exact string
      equality (`List.contains`), one of the whitelisted names. */
  predicate IsExempt(packageName: Option<string>): (exempt: bool)
    ensures exempt <==>
      packageName == None
      || packageName == Some("com.cxorz.anywhere")
      || packageName == Some("android")
      || packageName == Some("com.android.systemui")
      || packageName == Some("com.android.phone")
  {
    packageName.None? || packageName.value in WhitelistPackages
  }

  /** No whitelisted name is a proper prefix of another one. */
  lemma NoWhitelistedPrefix()
    ensures forall w, w' :: w in WhitelistPackages && w' in WhitelistPackages && |w| < |w'| ==> w'[..|w|] != w
  {
    forall w, w' | w in WhitelistPackages && w' in WhitelistPackages && |w| < |w'|
      ensures w'[..|w|] != w
    {
      // the names already differ at position 0, 4 or 12
      if w == "android" {
        assert w'[..|w|][0] != w[0];
      } else if w == "com.android.phone" && w' == "com.android.systemui" {
        assert w'[..|w|][12] != w[12];
      } else {
        assert w'[..|w|][4] != w[4];
      }
    }
  }

  /** No prefix matching: a whitelisted name followed by anything at all is
      no longer whitelisted (so `android` does not exempt `android.process.media`). */
  lemma ExtendedNameNotExempt(name: string, extra: string)
    requires IsExempt(Some(name))
    requires extra != []
    ensures !IsExempt(Some(name + extra))
  {
    NoWhitelistedPrefix();
    assert (name + extra)[..|name|] == name;
  }

  /** Matching is case-sensitive. */
  lemma CaseMatters()
    ensures !IsExempt(Some("Android"))
    ensures !IsExempt(Some("com.android.Phone"))
  {
  }
}
