/**
 * The username normalisation shared by the sign-in and password-change
 * pages: a bare account name (no domain in it) is qualified with the
 * deployment's NetBIOS domain before the form is sent, so that users may
 * type their account name without a domain.
 */
module UserNames {

  /**
   * The NetBIOS domain and its separator, `REPLACENETBIOS\`. The domain part
   * is a placeholder that is substituted when the page is deployed.
   */
  const NetBiosPrefix: string := "REPLACENETBIOS\\"

  /**
   * True when `u` matches the regular expression `[@\\]`: it already names a
   * domain, as `user@domain` or as `DOMAIN\user`.
   */
  predicate NamesDomain(u: string)
  {
    '@' in u || '\\' in u
  }

  /** True when a handler qualifies `u`: it is non-empty and names no domain. */
  predicate IsBare(u: string)
  {
    u != "" && !NamesDomain(u)
  }

  /**
   * The value of the form's `UserName` field after normalisation, given the
   * typed username and the value the field held before.
   */
  function FormUserName(typed: string, field: string): (r: string)
    ensures IsBare(typed) ==>
      && |r| == |NetBiosPrefix| + |typed|
      && r[..|NetBiosPrefix|] == NetBiosPrefix
      && r[|NetBiosPrefix|..] == typed
      && NamesDomain(r)
    ensures !IsBare(typed) ==> r == field
  {
    if IsBare(typed) then
      assert (NetBiosPrefix + typed)[14] == '\\';
      NetBiosPrefix + typed
    else
      field
  }

  /**
   * The value of the username input after normalisation when the input is
   * itself the form's `UserName` field.
   */
  function Normalise(u: string): (r: string)
    ensures r == "" <==> u == ""
    ensures u != "" ==> NamesDomain(r)
    ensures |u| <= |r| && r[|r| - |u|..] == u
    ensures NamesDomain(u) ==> r == u
  {
    FormUserName(u, u)
  }

  /**
   * Normalising twice is normalising once: a qualified name contains the
   * separator `\`, so the rule does not fire again.
   */
  lemma NormaliseIdempotent(u: string)
    ensures Normalise(Normalise(u)) == Normalise(u)
  {
  }
}
