/** Classification of the requesting terminal from its `User-Agent`
    header (lib/Service/DeviceDetectService.php). Every test lower-cases
    the header and looks for a keyword in it; a PHP-empty header ("" or
    "0", or no header at all) satisfies none of them. The header is the
    one input, so every operation is a function of it. */
module DeviceDetect {
  import opened Base
  import opened Php

  /** `getUserAgent`: the header, or "" when the request has none. */
  function UserAgent(header: Option<string>): (r: string)
    ensures header.None? ==> r == ""
    ensures header.Some? ==> r == header.value
  {
    header.GetOr("")
  }

  const MobileKeywords: seq<string> :=
    ["mobile", "android", "iphone", "ipad", "ipod", "blackberry",
     "windows phone", "opera mini", "iemobile"]

  /** The first keyword, in list order, found in `h`. */
  function FirstKeyword(h: string, keywords: seq<string>): (r: Option<nat>)
    ensures r.Some? ==> r.value < |keywords| && Contains(h, keywords[r.value])
    ensures r.Some? ==> forall k :: 0 <= k < r.value ==> !Contains(h, keywords[k])
    ensures r.None? <==> forall k :: 0 <= k < |keywords| ==> !Contains(h, keywords[k])
    decreases |keywords|
  {
    if keywords == [] then None
    else if Contains(h, keywords[0]) then Some(0)
    else
      match FirstKeyword(h, keywords[1..])
      case None => None
      case Some(i) => Some(i + 1)
  }

  /** The WeCom client names itself "wxwork" or "wechatwork", in any case. */
  function IsWeComApp(header: Option<string>): (b: bool)
    ensures b <==> header.Some? && !Empty(header.value) &&
                   (Contains(Lower(header.value), "wxwork") || Contains(Lower(header.value), "wechatwork"))
  {
    var ua := UserAgent(header);
    !Empty(ua) && (Contains(Lower(ua), "wxwork") || Contains(Lower(ua), "wechatwork"))
  }

  /** The keyword loop returns true at the first keyword it finds. */
  function IsMobileDevice(header: Option<string>): (b: bool)
    ensures b ==> header.Some? && !Empty(header.value)
    ensures b ==> exists k :: 0 <= k < |MobileKeywords| && Contains(Lower(header.value), MobileKeywords[k])
  {
    var ua := UserAgent(header);
    !Empty(ua) && FirstKeyword(Lower(ua), MobileKeywords).Some?
  }

  /** An iPhone, iPad or iPod, in any case. */
  function IsIOSDevice(header: Option<string>): (b: bool)
    ensures b <==> header.Some? && !Empty(header.value) &&
                   (Contains(Lower(header.value), "iphone") || Contains(Lower(header.value), "ipad") ||
                    Contains(Lower(header.value), "ipod"))
  {
    var ua := UserAgent(header);
    !Empty(ua) && (Contains(Lower(ua), "iphone") || Contains(Lower(ua), "ipad")
                   || Contains(Lower(ua), "ipod"))
  }

  /** "android", in any case. */
  function IsAndroidDevice(header: Option<string>): (b: bool)
    ensures b <==> header.Some? && !Empty(header.value) && Contains(Lower(header.value), "android")
  {
    var ua := UserAgent(header);
    !Empty(ua) && Contains(Lower(ua), "android")
  }

  /** WeChat's built-in browser names itself "micromessenger", in any case. */
  function IsWeChatBrowser(header: Option<string>): (b: bool)
    ensures b <==> header.Some? && !Empty(header.value) && Contains(Lower(header.value), "micromessenger")
  {
    var ua := UserAgent(header);
    !Empty(ua) && Contains(Lower(ua), "micromessenger")
  }

  const DeviceLabels: set<string> :=
    {"wecom_app", "wechat_browser", "mobile_ios", "mobile_android", "mobile_other", "desktop"}

  /** `getDeviceType`: the first test that holds, in priority order. */
  function DeviceType(header: Option<string>): (r: string)
    ensures r in DeviceLabels
  {
    if IsWeComApp(header) then "wecom_app"
    else if IsWeChatBrowser(header) then "wechat_browser"
    else if IsMobileDevice(header) then
      if IsIOSDevice(header) then "mobile_ios"
      else if IsAndroidDevice(header) then "mobile_android"
      else "mobile_other"
    else "desktop"
  }

  /** Inside the WeCom client or on a mobile device: every agent
      `getDeviceType` labels as the WeCom app or a mobile platform, no
      desktop one, and a WeChat browser only when it is also mobile. */
  function NeedsSpecialHandling(header: Option<string>): (b: bool)
    ensures DeviceType(header) in {"wecom_app", "mobile_ios", "mobile_android", "mobile_other"} ==> b
    ensures DeviceType(header) == "desktop" ==> !b
    ensures DeviceType(header) == "wechat_browser" ==> (b <==> IsMobileDevice(header))
  {
    IsWeComApp(header) || IsMobileDevice(header)
  }

  // ------------------------------------------------------------- properties

  /** A missing or PHP-empty header is a desktop browser and nothing else. */
  lemma EmptyAgentIsDesktop(header: Option<string>)
    requires Empty(UserAgent(header))
    ensures !IsWeComApp(header) && !IsMobileDevice(header) && !IsIOSDevice(header)
    ensures !IsAndroidDevice(header) && !IsWeChatBrowser(header)
    ensures !NeedsSpecialHandling(header)
    ensures DeviceType(header) == "desktop"
  {
  }

  /** `isMobileDevice` holds iff one of the nine keywords occurs. */
  lemma MobileIffKeyword(header: Option<string>)
    ensures IsMobileDevice(header) <==>
      !Empty(UserAgent(header)) &&
      exists k :: 0 <= k < |MobileKeywords| && Contains(Lower(UserAgent(header)), MobileKeywords[k])
  {
    var ua := UserAgent(header);
    if !Empty(ua) && FirstKeyword(Lower(ua), MobileKeywords).Some? {
      var i := FirstKeyword(Lower(ua), MobileKeywords).value;
      assert Contains(Lower(ua), MobileKeywords[i]);
    }
  }

  /** Every iOS user agent is a mobile one. */
  lemma IOSIsMobile(header: Option<string>)
    requires IsIOSDevice(header)
    ensures IsMobileDevice(header)
  {
    assert MobileKeywords[2] == "iphone" && MobileKeywords[3] == "ipad" && MobileKeywords[4] == "ipod";
  }

  /** Every Android user agent is a mobile one. */
  lemma AndroidIsMobile(header: Option<string>)
    requires IsAndroidDevice(header)
    ensures IsMobileDevice(header)
  {
    assert MobileKeywords[1] == "android";
  }

  /** The label the priority order yields, as plain conditions on the tests:
      an iOS or Android agent outside the two WeChat clients is labelled by
      its platform even though the code asks `isMobileDevice` first. */
  lemma DeviceTypePriority(header: Option<string>)
    ensures DeviceType(header) == "wecom_app" <==> IsWeComApp(header)
    ensures DeviceType(header) == "wechat_browser" <==> !IsWeComApp(header) && IsWeChatBrowser(header)
    ensures DeviceType(header) == "mobile_ios" <==>
      !IsWeComApp(header) && !IsWeChatBrowser(header) && IsIOSDevice(header)
    ensures DeviceType(header) == "mobile_android" <==>
      !IsWeComApp(header) && !IsWeChatBrowser(header) && !IsIOSDevice(header) && IsAndroidDevice(header)
    ensures DeviceType(header) == "mobile_other" <==>
      !IsWeComApp(header) && !IsWeChatBrowser(header) && !IsIOSDevice(header)
      && !IsAndroidDevice(header) && IsMobileDevice(header)
    ensures DeviceType(header) == "desktop" <==>
      !IsWeComApp(header) && !IsWeChatBrowser(header) && !IsMobileDevice(header)
  {
    if IsIOSDevice(header) { IOSIsMobile(header); }
    if IsAndroidDevice(header) { AndroidIsMobile(header); }
  }

  /** Every label but `desktop` and `wechat_browser` needs special handling;
      a desktop never does. */
  lemma SpecialHandlingByLabel(header: Option<string>)
    ensures DeviceType(header) in {"wecom_app", "mobile_ios", "mobile_android", "mobile_other"}
      ==> NeedsSpecialHandling(header)
    ensures DeviceType(header) == "desktop" ==> !NeedsSpecialHandling(header)
  {
    DeviceTypePriority(header);
  }

  /** Two headers that differ only in the case of ASCII letters are
      classified alike. */
  lemma CaseInsensitive(a: string, b: string)
    requires Lower(a) == Lower(b)
    ensures DeviceType(Some(a)) == DeviceType(Some(b))
    ensures NeedsSpecialHandling(Some(a)) == NeedsSpecialHandling(Some(b))
  {
    LowerKeepsEmpty(a);
    LowerKeepsEmpty(b);
    assert IsWeComApp(Some(a)) == IsWeComApp(Some(b));
    assert IsWeChatBrowser(Some(a)) == IsWeChatBrowser(Some(b));
    assert IsMobileDevice(Some(a)) == IsMobileDevice(Some(b));
    assert IsIOSDevice(Some(a)) == IsIOSDevice(Some(b));
    assert IsAndroidDevice(Some(a)) == IsAndroidDevice(Some(b));
  }
}
