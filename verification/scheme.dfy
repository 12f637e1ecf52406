/** The scheme test `/^https?:\/\//i` shared by the API route and the chat
    client, and the `https://` defaulting both of them apply. It is a literal,
    case-insensitive prefix match; no URL is parsed. */
module Scheme {
  import opened JsString

  const HttpPrefix: string := "http://"
  const HttpsPrefix: string := "https://"

  /** `/^https?:\/\//i.test(s)` */
  predicate HasScheme(s: string) {
    StartsWithIgnoringCase(s, HttpPrefix) || StartsWithIgnoringCase(s, HttpsPrefix)
  }

  /** What passing the scheme test says about the characters of `s`: at least
      seven of them, an `h` or `H` first, and a `/` seventh. */
  lemma HasSchemeShape(s: string)
    requires HasScheme(s)
    ensures |HttpPrefix| <= |s|
    ensures s[0] == 'h' || s[0] == 'H'
    ensures s[|HttpPrefix| - 1] == '/'
  {
    if StartsWithIgnoringCase(s, HttpPrefix) {
      assert AsciiLower(s[0]) == 'h' && AsciiLower(s[6]) == '/';
    } else {
      assert AsciiLower(s[0]) == 'h' && AsciiLower(s[6]) == '/';
    }
  }

  /** `s` is nothing but a scheme prefix, such as "https://" or "HTTP://". */
  predicate IsBareScheme(s: string) {
    || (|s| == |HttpPrefix| && StartsWithIgnoringCase(s, HttpPrefix))
    || (|s| == |HttpsPrefix| && StartsWithIgnoringCase(s, HttpsPrefix))
  }

  /** Prepends `https://` unless `s` already carries an `http://` or
      `https://` prefix in any letter case: the result always has a scheme,
      and a string that had one is not prefixed a second time. */
  function WithDefaultScheme(s: string): (r: string)
    ensures HasScheme(r)
    ensures HasScheme(s) ==> r == s
    ensures !HasScheme(s) ==> r == HttpsPrefix + s
  {
    if HasScheme(s) then s else HttpsPrefix + s
  }

  /** Having a scheme survives appending anything. */
  lemma HasSchemeExtends(s: string, t: string)
    requires HasScheme(s)
    ensures HasScheme(s + t)
  {
    if StartsWithIgnoringCase(s, HttpPrefix) {
      StartsWithIgnoringCaseExtends(s, t, HttpPrefix);
    } else {
      StartsWithIgnoringCaseExtends(s, t, HttpsPrefix);
    }
  }

  /** Defaulting the scheme twice is defaulting it once. */
  lemma WithDefaultSchemeIdempotent(s: string)
    ensures WithDefaultScheme(WithDefaultScheme(s)) == WithDefaultScheme(s)
  {
  }
}
