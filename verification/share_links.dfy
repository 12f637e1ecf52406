/** The share buttons under each shortened link: WhatsApp, Facebook and
    Twitter share URLs built around the encoded short URL and a fixed promo
    text. `encodeURIComponent` is passed in as `encode` and nothing is
    assumed about it. */
module ShareLinks {
  import opened Optional
  import opened JsString

  const PromoText: string := "Check out this link I shortened with Shrinkk!"

  const WhatsAppPrefix: string := "https://wa.me/?text="
  const FacebookPrefix: string := "https://www.facebook.com/sharer/sharer.php?u="
  const TwitterPrefix: string := "https://twitter.com/intent/tweet?url="
  const EncodedSpace: string := "%20"
  const TextParam: string := "&text="

  /** `shareUrl`: the encoded short URL. */
  function ShareUrl(shortUrl: string, encode: string -> string): (u: string)
  {
    encode(shortUrl)
  }

  /** `shareText`: the encoded promo text. */
  function ShareText(encode: string -> string): (t: string)
  {
    encode(PromoText)
  }

  /** The platforms `handleShare` knows. */
  predicate IsKnownPlatform(platform: string) {
    platform == "whatsapp" || platform == "facebook" || platform == "twitter"
  }

  /** The URL `handleShare(platform)` opens. Each known platform gets its
      template filled with the encoded short URL (and, for WhatsApp and
      Twitter, the encoded promo text); any other platform leaves it "". */
  function ShareTarget(shortUrl: string, platform: string, encode: string -> string)
    : (url: string)
    ensures !IsKnownPlatform(platform) <==> url == ""
    ensures platform == "whatsapp" ==>
              url == WhatsAppPrefix + ShareText(encode) + EncodedSpace + ShareUrl(shortUrl, encode)
    ensures platform == "facebook" ==>
              url == FacebookPrefix + ShareUrl(shortUrl, encode)
    ensures platform == "twitter" ==>
              url == TwitterPrefix + ShareUrl(shortUrl, encode) + TextParam + ShareText(encode)
  {
    var shareUrl := ShareUrl(shortUrl, encode);
    var shareText := ShareText(encode);
    match platform
    case "whatsapp" => WhatsAppPrefix + shareText + EncodedSpace + shareUrl
    case "facebook" => FacebookPrefix + shareUrl
    case "twitter" => TwitterPrefix + shareUrl + TextParam + shareText
    case _ => ""
  }

  /** Reads the encoded short URL back out of a share URL for `platform`,
      given the encoded promo text that surrounds it. */
  function SharedUrlOf(url: string, platform: string, shareText: string): (r: Option<string>)
    ensures r.Some? ==> IsKnownPlatform(platform)
  {
    if platform == "whatsapp" then
      var head := WhatsAppPrefix + shareText + EncodedSpace;
      if head <= url then Some(url[|head|..]) else None
    else if platform == "facebook" then
      if FacebookPrefix <= url then Some(url[|FacebookPrefix|..]) else None
    else if platform == "twitter" then
      var tail := TextParam + shareText;
      if TwitterPrefix <= url && |TwitterPrefix| + |tail| <= |url| && EndsWith(url, tail)
      then Some(url[|TwitterPrefix|..|url| - |tail|])
      else None
    else None
  }

  /** Every known platform's share URL carries the encoded short URL in a
      place it can be read back from. */
  lemma SharedUrlRoundTrip(shortUrl: string, platform: string, encode: string -> string)
    requires IsKnownPlatform(platform)
    ensures SharedUrlOf(ShareTarget(shortUrl, platform, encode), platform, ShareText(encode))
            == Some(ShareUrl(shortUrl, encode))
  {
    var url := ShareTarget(shortUrl, platform, encode);
    var u := ShareUrl(shortUrl, encode);
    var t := ShareText(encode);
    if platform == "whatsapp" {
      assert url == (WhatsAppPrefix + t + EncodedSpace) + u;
    } else if platform == "twitter" {
      assert url == TwitterPrefix + u + (TextParam + t);
      assert url[|url| - |TextParam + t|..] == TextParam + t;
    }
  }

  /** So two short URLs share to the same link on a known platform only if
      they encode alike, and never when `encode` tells them apart. */
  lemma ShareTargetDistinguishes(a: string, b: string, platform: string,
                                 encode: string -> string)
    requires IsKnownPlatform(platform)
    requires ShareTarget(a, platform, encode) == ShareTarget(b, platform, encode)
    ensures encode(a) == encode(b)
  {
    SharedUrlRoundTrip(a, platform, encode);
    SharedUrlRoundTrip(b, platform, encode);
  }
}
