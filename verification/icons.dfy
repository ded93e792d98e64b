/** `iconUrl`: the image address of an icon code. The code is placed in the
    address unmodified, so it can be read back. */
module Icons {
  import opened Wrappers

  const IconBase: string := "https://openweathermap.org/img/wn/"
  const IconSuffix: string := "@2x.png"

  function IconUrl(icon: string): (u: string)
    ensures IconBase <= u
    ensures |u| == |IconBase| + |icon| + |IconSuffix|
    ensures u[|u| - |IconSuffix|..] == IconSuffix
  {
    IconBase + icon + IconSuffix
  }

  /** The icon code inside an icon address, if `u` is one. */
  function IconOf(u: string): Option<string> {
    if |u| >= |IconBase| + |IconSuffix| && IconBase <= u && u[|u| - |IconSuffix|..] == IconSuffix
    then Some(u[|IconBase|..|u| - |IconSuffix|])
    else None
  }

  /** The code is passed through unmodified: it can be read back. */
  lemma IconUrlRoundTrip(icon: string)
    ensures IconOf(IconUrl(icon)) == Some(icon)
  {
  }

  /** Different codes give different addresses. */
  lemma IconUrlInjective(a: string, b: string)
    requires IconUrl(a) == IconUrl(b)
    ensures a == b
  {
    IconUrlRoundTrip(a);
    IconUrlRoundTrip(b);
  }
}
