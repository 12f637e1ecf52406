/** The `POST /api/shorten` handler: the presence check on `longUrl`, the
    choice of short ID (trimmed alias or a slice of a random base-36 string),
    the normalisation of a custom domain, and the assembly of the short URL.
    Nothing is stored and nothing is checked for collisions; the request body,
    the `host` header, `NODE_ENV` and the random string arrive as values. */
module ShortenRoute {
  import opened Optional
  import opened JsString
  import opened Scheme

  /** The fields read from the JSON body; each may be missing. */
  datatype ShortenRequest = ShortenRequest(
    longUrl: Option<string>,
    customDomain: Option<string>,
    customAlias: Option<string>)

  /** What the handler reads from outside the body: the `host` request
      header, `process.env.NODE_ENV`, and the text of
      `Math.random().toString(36)`. */
  datatype RequestContext = RequestContext(
    host: Option<string>,
    nodeEnv: Option<string>,
    randomBase36: string)

  /** The JSON the handler answers with: `{ shortUrl, id }` with status 200,
      or `{ error }` with an error status. */
  datatype Response =
    | Shortened(shortUrl: string, id: string)
    | Failed(status: nat, error: string)

  const MissingUrlStatus: nat := 400
  const MissingUrlError: string := "URL is required"
  const DevelopmentEnv: string := "development"

  /** JavaScript truthiness of a string field: present and not "". */
  predicate IsTruthy(v: Option<string>) {
    v.Some? && v.value != ""
  }

  /** `v && v.trim() !== ''` */
  predicate IsNonBlank(v: Option<string>) {
    IsTruthy(v) && Trim(v.value) != ""
  }

  /** `randomBase36.substring(2, 8)`: the characters after the leading "0."
      of the random number's base-36 text, at most six of them. */
  function RandomShortId(randomBase36: string): (id: string)
    ensures |id| <= 6
    ensures |randomBase36| >= 8 ==> |id| == 6
    ensures |id| == if |randomBase36| < 2 then 0 else Min(|randomBase36|, 8) - 2
    ensures forall i :: 0 <= i < |id| ==> id[i] == randomBase36[i + 2]
  {
    var id := Substring(randomBase36, 2, 8);
    assert |randomBase36| < 2 ==> id == [];
    assert 2 <= |randomBase36| ==> id == randomBase36[2..Min(|randomBase36|, 8)];
    id
  }

  function Min(a: int, b: int): (m: int)
    ensures m <= a && m <= b && (m == a || m == b)
  {
    if a < b then a else b
  }

  /** The short ID: the trimmed alias when one is given and not blank,
      otherwise the random slice. */
  function ShortIdFor(customAlias: Option<string>, randomBase36: string): (id: string)
    ensures IsNonBlank(customAlias) ==> id == Trim(customAlias.value) && id != ""
    ensures !IsNonBlank(customAlias) ==>
              |id| <= 6 && forall i :: 0 <= i < |id| ==> i + 2 < |randomBase36| && id[i] == randomBase36[i + 2]
    ensures !IsNonBlank(customAlias) && |randomBase36| >= 8 ==> |id| == 6
    ensures !IsNonBlank(customAlias) ==> id == RandomShortId(randomBase36)
  {
    if IsNonBlank(customAlias) then Trim(customAlias.value) else RandomShortId(randomBase36)
  }

  /** `domain.replace(/\/$/, '')`: removes one `/` at the very end, and
      only a `/`. */
  function StripTrailingSlash(s: string): (r: string)
    ensures EndsWith(s, "/") ==> r + "/" == s
    ensures !EndsWith(s, "/") ==> r == s
  {
    if |s| > 0 && s[|s| - 1] == '/' then s[..|s| - 1] else s
  }

  /** The custom domain as the handler prefixes it to the short ID: trimmed,
      given `https://` unless it already has an `http(s)://` prefix, and with
      one trailing slash removed. The result carries a scheme unless the
      trimmed domain is nothing but a scheme, whose own last slash is then the
      one removed; either way the result followed by "/" carries one. */
  function NormaliseDomain(customDomain: string): (r: string)
    requires Trim(customDomain) != ""
    ensures HasScheme(r) <==> !IsBareScheme(Trim(customDomain))
    ensures HasScheme(r + "/")
    ensures HasScheme(Trim(customDomain)) ==>
              r <= Trim(customDomain) && |Trim(customDomain)| <= |r| + 1
    ensures !HasScheme(Trim(customDomain)) ==>
              HttpsPrefix <= r && r <= HttpsPrefix + Trim(customDomain)
              && |Trim(customDomain)| + |HttpsPrefix| <= |r| + 1
    ensures var w := WithDefaultScheme(Trim(customDomain));
            if EndsWith(w, "/") then r + "/" == w else r == w
  {
    var t := Trim(customDomain);
    StripDefaultedScheme(t);
    StripTrailingSlash(WithDefaultScheme(t))
  }

  /** The scheme facts `NormaliseDomain` promises, for an already trimmed,
      non-empty domain `t`. */
  lemma StripDefaultedScheme(t: string)
    requires t != ""
    ensures var r := StripTrailingSlash(WithDefaultScheme(t));
      && (HasScheme(r) <==> !IsBareScheme(t))
      && HasScheme(r + "/")
      && (HasScheme(t) ==> r <= t && |t| <= |r| + 1)
      && (!HasScheme(t) ==>
            HttpsPrefix <= r && r <= HttpsPrefix + t && |t| + |HttpsPrefix| <= |r| + 1)
      && (if EndsWith(WithDefaultScheme(t), "/") then r + "/" == WithDefaultScheme(t)
          else r == WithDefaultScheme(t))
  {
    var domain := WithDefaultScheme(t);
    var r := StripTrailingSlash(domain);
    assert r + "/" == domain || r == domain;
    if r == domain {
      HasSchemeExtends(r, "/");
    }
    if IsBareScheme(t) {
      assert AsciiLower(t[|t| - 1]) == '/';
    }
    if HasScheme(t) {
      if r != domain {
        if StartsWithIgnoringCase(t, HttpPrefix) && |t| > |HttpPrefix| {
          StartsWithIgnoringCasePrefix(r, t, HttpPrefix);
          assert AsciiLower(t[4]) == ':';
        } else if StartsWithIgnoringCase(t, HttpsPrefix) && |t| > |HttpsPrefix| {
          StartsWithIgnoringCasePrefix(r, t, HttpsPrefix);
        } else if StartsWithIgnoringCase(t, HttpPrefix) {
          assert AsciiLower(r[5]) == '/';
        } else {
          assert AsciiLower(r[4]) == 's';
          assert AsciiLower(r[6]) == '/';
        }
      }
    } else {
      assert StartsWithIgnoringCase(r, HttpsPrefix);
    }
  }

  /** `http` exactly in development, `https` otherwise. */
  function Protocol(nodeEnv: Option<string>): (p: string)
    ensures p == "http" <==> nodeEnv == Some(DevelopmentEnv)
    ensures p == "http" || p == "https"
  {
    if nodeEnv == Some(DevelopmentEnv) then "http" else "https"
  }

  /** A missing header interpolates into a template string as "null". */
  function HostText(host: Option<string>): (text: string)
    ensures host.Some? ==> text == host.value
    ensures host.None? ==> text == "null"
  {
    host.GetOr("null")
  }

  /** The handler. It fails with 400 "URL is required" exactly when `longUrl`
      is missing or empty, and otherwise answers with the chosen short ID and a
      short URL that starts with a scheme and ends in "/" followed by that ID,
      built from the custom domain when one is given and from the request's
      own protocol and host when not. */
  function Post(req: ShortenRequest, ctx: RequestContext): (r: Response)
    ensures r.Failed? <==> !IsTruthy(req.longUrl)
    ensures r.Failed? ==> r.status == MissingUrlStatus && r.error == MissingUrlError
    ensures r.Shortened? ==> EndsWith(r.shortUrl, "/" + r.id)
    ensures r.Shortened? ==> HasScheme(r.shortUrl)
    ensures r.Shortened? && IsNonBlank(req.customAlias) ==>
              r.id == Trim(req.customAlias.value)
    ensures r.Shortened? && !IsNonBlank(req.customAlias) ==>
              r.id == RandomShortId(ctx.randomBase36)
    ensures r.Shortened? && IsNonBlank(req.customDomain) ==>
              r.shortUrl == NormaliseDomain(req.customDomain.value) + "/" + r.id
    ensures r.Shortened? && !IsNonBlank(req.customDomain) ==>
              r.shortUrl == Protocol(ctx.nodeEnv) + "://" + HostText(ctx.host) + "/" + r.id
  {
    if !IsTruthy(req.longUrl) then
      Failed(MissingUrlStatus, MissingUrlError)
    else
      var shortId := ShortIdFor(req.customAlias, ctx.randomBase36);
      var origin :=
        if IsNonBlank(req.customDomain) then NormaliseDomain(req.customDomain.value)
        else DefaultOrigin(ctx.nodeEnv, ctx.host);
      ShortUrlShape(origin, shortId);
      Shortened(origin + "/" + shortId, shortId)
  }

  /** `${protocol}://${host}`, the request's own origin. */
  function DefaultOrigin(nodeEnv: Option<string>, host: Option<string>): (o: string)
    ensures o == Protocol(nodeEnv) + "://" + HostText(host)
    ensures HasScheme(o + "/")
  {
    var prefix := Protocol(nodeEnv) + "://";
    assert StartsWithIgnoringCase(prefix, HttpPrefix) || StartsWithIgnoringCase(prefix, HttpsPrefix);
    HasSchemeExtends(prefix, HostText(host) + "/");
    assert prefix + HostText(host) + "/" == prefix + (HostText(host) + "/");
    prefix + HostText(host)
  }

  /** An origin that has a scheme once followed by "/" gives a short URL that
      starts with a scheme and ends in "/" followed by the ID. */
  lemma ShortUrlShape(origin: string, shortId: string)
    requires HasScheme(origin + "/")
    ensures EndsWith(origin + "/" + shortId, "/" + shortId)
    ensures HasScheme(origin + "/" + shortId)
  {
    var u := origin + "/" + shortId;
    assert u[|u| - |shortId| - 1..] == "/" + shortId;
    HasSchemeExtends(origin + "/", shortId);
  }

  /** Apart from the presence check, `longUrl` plays no part: two requests
      that both carry a non-empty URL and agree on domain and alias get the
      same answer. */
  lemma PostIgnoresLongUrl(a: ShortenRequest, b: ShortenRequest, ctx: RequestContext)
    requires IsTruthy(a.longUrl) && IsTruthy(b.longUrl)
    requires a.customDomain == b.customDomain && a.customAlias == b.customAlias
    ensures Post(a, ctx) == Post(b, ctx)
    ensures Post(a, ctx).Shortened?
  {
  }

  /** The short ID is the alias exactly as typed minus surrounding
      whitespace: no character is filtered out. */
  lemma AliasIsShortId(req: ShortenRequest, ctx: RequestContext)
    requires IsTruthy(req.longUrl)
    requires IsNonBlank(req.customAlias)
    ensures Post(req, ctx).id == Trim(req.customAlias.value)
    ensures Post(req, ctx).id != ""
  {
  }

  /** Without a usable alias the short ID is characters 2..7 of the random
      text, so it has at most six characters. */
  lemma RandomIdWithoutAlias(req: ShortenRequest, ctx: RequestContext)
    requires IsTruthy(req.longUrl)
    requires !IsNonBlank(req.customAlias)
    ensures |Post(req, ctx).id| <= 6
    ensures |ctx.randomBase36| >= 8 ==> Post(req, ctx).id == ctx.randomBase36[2..8]
  {
    var id := Post(req, ctx).id;
    if |ctx.randomBase36| >= 8 {
      assert id == ctx.randomBase36[2..8];
    }
  }

  /** For a domain typed without trailing whitespace, one trailing slash makes
      no difference and a second one survives, provided the slashes do not
      themselves complete a scheme prefix (as in "https:" + "//"). */
  lemma {:induction false} TrailingSlashRemovedOnce(d: string)
    requires d != "" && Trim(d) == d && d[|d| - 1] != '/'
    requires HasScheme(d + "//") == HasScheme(d)
    ensures NormaliseDomain(d + "/") == NormaliseDomain(d) == WithDefaultScheme(d)
    ensures NormaliseDomain(d + "//") == WithDefaultScheme(d) + "/"
  {
    SlashesKeepScheme(d);
    NormaliseNoSlash(d);
    NormaliseSlashes(d, "/");
    NormaliseSlashes(d, "//");
  }

  /** A trimmed domain that does not end in "/" keeps its last character. */
  lemma NormaliseNoSlash(d: string)
    requires d != "" && Trim(d) == d && d[|d| - 1] != '/'
    ensures NormaliseDomain(d) == WithDefaultScheme(d)
  {
    var w := WithDefaultScheme(d);
    assert w[|w| - 1] == d[|d| - 1];
    NormaliseTrimmed(d);
  }

  /** Slashes appended to such a domain, when they leave its scheme test
      alone, come through with one of them removed. */
  lemma NormaliseSlashes(d: string, slashes: string)
    requires d != "" && Trim(d) == d && d[|d| - 1] != '/'
    requires slashes == "/" || slashes == "//"
    requires HasScheme(d + slashes) == HasScheme(d)
    ensures NormaliseDomain(d + slashes) == WithDefaultScheme(d) + slashes[1..]
  {
    NormaliseAppended(d, slashes);
    DefaultSchemeAppend(d, slashes);
    StripAppendedSlashes(WithDefaultScheme(d), slashes);
  }

  /** A trimmed domain with slashes appended is still trimmed, so normalising
      it only defaults the scheme and strips a slash. */
  lemma NormaliseAppended(d: string, slashes: string)
    requires d != "" && Trim(d) == d
    requires slashes == "/" || slashes == "//"
    ensures NormaliseDomain(d + slashes) == StripTrailingSlash(WithDefaultScheme(d + slashes))
  {
    var x := d + slashes;
    assert x[0] == d[0];
    TrimKeepsTrimmed(x);
    NormaliseTrimmed(x);
  }

  /** Stripping a trailing slash from `w` followed by one or two slashes
      leaves `w` followed by one fewer. */
  lemma StripAppendedSlashes(w: string, slashes: string)
    requires slashes == "/" || slashes == "//"
    ensures StripTrailingSlash(w + slashes) == w + slashes[1..]
  {
    var y := w + slashes;
    assert y[..|y| - 1] == w + slashes[1..];
  }

  /** For a domain typed without surrounding whitespace, normalising it is
      defaulting its scheme and stripping one trailing slash. */
  lemma NormaliseTrimmed(x: string)
    requires x != "" && Trim(x) == x
    ensures NormaliseDomain(x) == StripTrailingSlash(WithDefaultScheme(x))
  {
  }

  /** If two appended slashes do not change whether `d` has a scheme, neither
      does one. */
  lemma SlashesKeepScheme(d: string)
    requires HasScheme(d + "//") == HasScheme(d)
    ensures HasScheme(d + "/") == HasScheme(d)
  {
    var d1 := d + "/";
    var d2 := d + "//";
    assert d1 == d2[..|d1|];
    if HasScheme(d) {
      HasSchemeExtends(d, "/");
    } else {
      if |d1| >= |HttpPrefix| {
        StartsWithIgnoringCasePrefix(d1, d2, HttpPrefix);
      }
      if |d1| >= |HttpsPrefix| {
        StartsWithIgnoringCasePrefix(d1, d2, HttpsPrefix);
      }
    }
  }

  /** Appending text that does not change whether `d` has a scheme commutes
      with defaulting the scheme. */
  lemma DefaultSchemeAppend(d: string, x: string)
    requires HasScheme(d + x) == HasScheme(d)
    ensures WithDefaultScheme(d + x) == WithDefaultScheme(d) + x
  {
    if !HasScheme(d) {
      assert HttpsPrefix + (d + x) == HttpsPrefix + d + x;
    }
  }

  /** So for a full request, "my.link" and "my.link/" as the custom domain
      produce the same short URL, whatever whitespace precedes the domain. */
  lemma TrailingSlashSameShortUrl(req: ShortenRequest, ctx: RequestContext, d: string)
    requires IsTruthy(req.longUrl)
    requires d != "" && Trim(d) != "" && !IsWhitespace(d[|d| - 1]) && d[|d| - 1] != '/'
    ensures Post(req.(customDomain := Some(d + "/")), ctx).shortUrl
         == Post(req.(customDomain := Some(d)), ctx).shortUrl
  {
    var x := d + "/";
    var id := ShortIdFor(req.customAlias, ctx.randomBase36);
    assert Post(req.(customDomain := Some(x)), ctx).shortUrl == NormaliseDomain(x) + "/" + id by {
      TrimAppendSlash(d);
      PostWithDomain(req, ctx, x);
    }
    assert Post(req.(customDomain := Some(d)), ctx).shortUrl == NormaliseDomain(d) + "/" + id by {
      PostWithDomain(req, ctx, d);
    }
    assert NormaliseDomain(x) == NormaliseDomain(d) by {
      SlashAfterUntrimmed(d);
    }
  }

  /** Normalising ignores one "/" typed after a domain that ends in neither
      whitespace nor "/". */
  lemma SlashAfterUntrimmed(d: string)
    requires d != "" && Trim(d) != "" && !IsWhitespace(d[|d| - 1]) && d[|d| - 1] != '/'
    ensures Trim(d + "/") != ""
    ensures NormaliseDomain(d + "/") == NormaliseDomain(d)
  {
    var t := Trim(d);
    TrimAppendSlash(d);
    SlashAfterTrimmed(t);
    NormaliseSeesOnlyTrimmed(d + "/", t + "/");
    NormaliseSeesOnlyTrimmed(d, t);
  }

  /** Normalisation looks only at the trimmed domain. */
  lemma NormaliseSeesOnlyTrimmed(a: string, b: string)
    requires Trim(a) != "" && Trim(a) == Trim(b)
    ensures NormaliseDomain(a) == NormaliseDomain(b)
  {
  }

  /** A slash typed after a domain whose last character is not whitespace
      survives `trim` as the last character. */
  lemma TrimAppendSlash(d: string)
    requires d != "" && Trim(d) != "" && !IsWhitespace(d[|d| - 1])
    ensures Trim(d + "/") == Trim(d) + "/"
    ensures Trim(d)[|Trim(d)| - 1] == d[|d| - 1]
  {
    var x := d + "/";
    var i := TrimFrom(d);
    assert i < |d|;
    assert TrimFrom(x) == i by {
      assert x[i] == d[i];
    }
    assert TrimTo(d) == |d|;
    assert TrimTo(x) == |x| by {
      assert x[|x| - 1] == '/';
    }
    assert x[i..|x|] == d[i..|d|] + "/";
  }

  /** For a domain `t` with no whitespace at either end that does not end
      in "/", normalising `t` and
      `t` followed by "/" gives the same text. */
  lemma SlashAfterTrimmed(t: string)
    requires t != "" && !IsWhitespace(t[0]) && !IsWhitespace(t[|t| - 1]) && t[|t| - 1] != '/'
    ensures Trim(t) == t && Trim(t + "/") == t + "/"
    ensures NormaliseDomain(t + "/") == NormaliseDomain(t)
  {
    var w := WithDefaultScheme(t);
    TrimKeepsTrimmed(t);
    OneSlashKeepsScheme(t);
    DefaultSchemeAppend(t, "/");
    assert w[|w| - 1] == t[|t| - 1];
    assert Trim(t + "/") == t + "/" by {
      assert (t + "/")[0] == t[0];
      TrimKeepsTrimmed(t + "/");
    }
    var r := NormaliseDomain(t + "/");
    assert r + "/" == w + "/";
    assert r == (r + "/")[..|r|];
  }

  /** One "/" after text that does not already end in "/" never completes a
      scheme prefix: "http://" and "https://" both end in "//". */
  lemma OneSlashKeepsScheme(t: string)
    requires t != "" && t[|t| - 1] != '/'
    ensures HasScheme(t + "/") == HasScheme(t)
  {
    var x := t + "/";
    assert t == x[..|t|];
    if HasScheme(t) {
      HasSchemeExtends(t, "/");
    } else {
      if |t| >= |HttpPrefix| {
        StartsWithIgnoringCasePrefix(t, x, HttpPrefix);
      } else if |x| == |HttpPrefix| {
        assert AsciiLower(x[5]) != '/';
      }
      if |t| >= |HttpsPrefix| {
        StartsWithIgnoringCasePrefix(t, x, HttpsPrefix);
      } else if |x| == |HttpsPrefix| {
        assert AsciiLower(x[6]) != '/';
      }
    }
  }

  /** With a non-blank custom domain the short URL is the normalised domain,
      "/", and the ID. */
  lemma PostWithDomain(req: ShortenRequest, ctx: RequestContext, d: string)
    requires IsTruthy(req.longUrl)
    requires d != "" && Trim(d) != ""
    ensures Post(req.(customDomain := Some(d)), ctx).shortUrl
         == NormaliseDomain(d) + "/" + ShortIdFor(req.customAlias, ctx.randomBase36)
  {
  }
}
