/** The decision logic of `MainActivity`: the phone normalisation and intent
    choice of `sendWhatsAppMessage`, the manual-send handler, the label of a
    SIM entry, the list of installed WhatsApp variants, the lookup of a saved
    selection, and the two preference writes behind the buttons.

    `Uri.encode` is not modelled: it is passed in as `encode`. Whether a
    package is installed is the set `installed`. Toasts, `startActivity` and
    the spinners themselves are left out; an error result stands for the
    toast shown and the early `return`. */
module MainActivity {
  import opened Wrappers
  import opened KotlinText

  const WHATSAPP: string := "com.whatsapp"
  const WHATSAPP_BUSINESS: string := "com.whatsapp.w4b"
  /** The country code put in front of a 10-digit local number. */
  const COUNTRY_CODE: string := "57"
  const JID_SUFFIX: string := "@s.whatsapp.net"
  const WA_ME_PREFIX: string := "https://wa.me/"
  const TEXT_PARAM: string := "?text="

  // ---------------------------------------------------------------------
  // Lookups

  /** Kotlin's `indexOfFirst`: the first index whose element satisfies `p`,
      or -1 when none does. */
  function IndexOfFirst<T>(xs: seq<T>, p: T -> bool): (r: int)
    ensures -1 <= r < |xs|
    ensures r == -1 <==> forall i :: 0 <= i < |xs| ==> !p(xs[i])
    ensures r >= 0 ==> p(xs[r]) && forall i :: 0 <= i < r ==> !p(xs[i])
    decreases |xs|
  {
    if xs == [] then -1
    else if p(xs[0]) then 0
    else
      var k := IndexOfFirst(xs[1..], p);
      if k == -1 then -1 else k + 1
  }

  // ---------------------------------------------------------------------
  // Phone normalisation

  /** `phone.filter { it.isDigit() }`: exactly the digits of `phone`, each
      as often as it occurs there. */
  function FormatPhone(phone: string): (r: string)
    ensures AllDigits(r) && |r| <= |phone|
    ensures forall c :: multiset(r)[c] == (if IsDigit(c) then multiset(phone)[c] else 0)
    decreases |phone|
  {
    if phone == [] then []
    else
      var rest := FormatPhone(phone[1..]);
      assert phone == [phone[0]] + phone[1..];
      assert multiset(phone) == multiset([phone[0]]) + multiset(phone[1..]);
      if IsDigit(phone[0]) then [phone[0]] + rest else rest
  }

  /** Filtering keeps the order: the digits of a concatenation are the
      digits of each part, concatenated. */
  lemma {:induction false} FormatPhoneAppend(a: string, b: string)
    ensures FormatPhone(a + b) == FormatPhone(a) + FormatPhone(b)
    decreases |a|
  {
    if a == [] {
      assert a + b == b;
    } else {
      var ab := a + b;
      assert ab[0] == a[0] && ab[1..] == a[1..] + b;
      FormatPhoneAppend(a[1..], b);
    }
  }

  /** A string of digits is left as it is. */
  lemma {:induction false} FormatPhoneOfDigits(s: string)
    requires AllDigits(s)
    ensures FormatPhone(s) == s
    decreases |s|
  {
    if s != [] {
      FormatPhoneOfDigits(s[1..]);
    }
  }

  /** Trimming does not change the digits, since only whitespace is cut. */
  lemma FormatPhoneIgnoresTrim(s: string)
    ensures FormatPhone(Trim(s)) == FormatPhone(s)
  {
    var r := Trim(s);
    var i := SkipLeading(s, 0);
    var pre, post := s[..i], s[i + |r|..];
    assert s == (pre + r) + post;
    FormatPhoneOfBlank(pre);
    FormatPhoneOfBlank(post);
    FormatPhoneAppend(pre, r);
    FormatPhoneAppend(pre + r, post);
    assert FormatPhone(pre + r) == FormatPhone(r);
    assert FormatPhone(s) == FormatPhone(pre + r) + [];
  }

  lemma {:induction false} FormatPhoneOfBlank(s: string)
    requires IsBlank(s)
    ensures FormatPhone(s) == []
    decreases |s|
  {
    if s != [] {
      FormatPhoneOfBlank(s[1..]);
    }
  }

  /** The number sent to WhatsApp: "57" in front of a 10-digit number that
      does not already start with "57", any other digit string unchanged. */
  function FullPhone(digits: string): (r: string)
    ensures |r| >= |digits| && r[|r| - |digits|..] == digits
    ensures r != digits <==> |digits| == 10 && !StartsWith(digits, COUNTRY_CODE)
    ensures r != digits ==> r == COUNTRY_CODE + digits
    ensures AllDigits(digits) ==> AllDigits(r)
  {
    if |digits| == 10 && !StartsWith(digits, COUNTRY_CODE) then
      assert (COUNTRY_CODE + digits)[2..] == digits;
      COUNTRY_CODE + digits
    else digits
  }

  /** What normalising promises for a digit string the length check let
      through: the result is digits only, at least 10 long, ends with the
      input, differs from it exactly when "57" was put in front, and
      normalising it again changes nothing. */
  lemma FullPhoneNormalises(digits: string)
    requires AllDigits(digits) && |digits| >= 10
    ensures AllDigits(FullPhone(digits)) && |FullPhone(digits)| >= 10
    ensures FullPhone(digits)[|FullPhone(digits)| - |digits|..] == digits
    ensures FullPhone(digits) != digits <==> |digits| == 10 && !StartsWith(digits, COUNTRY_CODE)
    ensures FullPhone(digits) != digits ==> FullPhone(digits) == COUNTRY_CODE + digits
    ensures FullPhone(FormatPhone(FullPhone(digits))) == FullPhone(digits)
  {
    var full := FullPhone(digits);
    if full != digits {
      assert full == "57" + digits;
      assert full[2..] == digits;
    }
    assert AllDigits(full);
    FormatPhoneOfDigits(full);
  }

  // ---------------------------------------------------------------------
  // The two intents and their inverses

  /** The intent `sendWhatsAppMessage` starts: a direct share to the app's
      package with the chat's `jid`, or a view of a `wa.me` link. */
  datatype WhatsAppIntent =
    | DirectShare(packageName: string, text: string, jid: string)
    | ViewLink(uri: string)

  datatype SendError = InvalidNumber | EmptyMessage

  /** The packages that take the direct-share path. */
  predicate IsDirectSharePackage(packageName: string) {
    packageName == WHATSAPP || packageName == WHATSAPP_BUSINESS
  }

  /** The chat id of a number: the number, then "@s.whatsapp.net". Reading
      the user part back gives the number, as long as it holds no '@'. */
  function Jid(fullPhone: string): (jid: string)
    ensures '@' !in fullPhone ==> JidUser(jid) == Some(fullPhone)
  {
    var jid := fullPhone + JID_SUFFIX;
    if '@' in fullPhone then jid
    else
      FirstSeparator(fullPhone, JID_SUFFIX, '@');
      assert jid[|fullPhone|..] == JID_SUFFIX;
      assert jid[..|fullPhone|] == fullPhone;
      jid
  }

  /** The `https://wa.me/<number>?text=<encoded>` link. Parsing it gives the
      number and the encoded text back, as long as the number holds no '?'. */
  function WaMeUri(fullPhone: string, encodedText: string): (uri: string)
    ensures '?' !in fullPhone ==> ParseWaMe(uri) == Some((fullPhone, encodedText))
  {
    var uri := WA_ME_PREFIX + fullPhone + TEXT_PARAM + encodedText;
    if '?' in fullPhone then uri
    else
      var rest := uri[|WA_ME_PREFIX|..];
      assert uri[..|WA_ME_PREFIX|] == WA_ME_PREFIX;
      assert rest == fullPhone + (TEXT_PARAM + encodedText);
      FirstSeparator(fullPhone, TEXT_PARAM + encodedText, '?');
      assert rest[|fullPhone|..] == TEXT_PARAM + encodedText;
      assert rest[..|fullPhone|] == fullPhone;
      assert rest[|fullPhone| + |TEXT_PARAM|..] == encodedText;
      uri
  }

  /** The user part of a `jid`: what comes before its first '@', when the
      rest is the WhatsApp server suffix. */
  function JidUser(jid: string): Option<string> {
    var k := IndexOfFirst(jid, (c: char) => c == '@');
    if k >= 0 && jid[k..] == JID_SUFFIX then Some(jid[..k]) else None
  }

  /** The phone and the query text of a `wa.me` link. */
  function ParseWaMe(uri: string): Option<(string, string)> {
    if !StartsWith(uri, WA_ME_PREFIX) then None
    else
      var rest := uri[|WA_ME_PREFIX|..];
      var q := IndexOfFirst(rest, (c: char) => c == '?');
      if q >= 0 && StartsWith(rest[q..], TEXT_PARAM) then Some((rest[..q], rest[q + |TEXT_PARAM|..]))
      else None
  }

  /** The number an intent addresses. */
  function PhoneOf(intent: WhatsAppIntent): Option<string> {
    match intent
    case DirectShare(_, _, jid) => JidUser(jid)
    case ViewLink(uri) => if ParseWaMe(uri).Some? then Some(ParseWaMe(uri).value.0) else None
  }

  /** The first '@' or '?' of `p + tail` is at `|p|` when `p` has none and
      `tail` starts with one. */
  lemma FirstSeparator(p: string, tail: string, sep: char)
    requires sep !in p && |tail| > 0 && tail[0] == sep
    ensures IndexOfFirst(p + tail, (c: char) => c == sep) == |p|
  {
    var s := p + tail;
    var k := IndexOfFirst(s, (c: char) => c == sep);
    assert s[|p|] == sep;
  }

  lemma DigitsHaveNoSeparator(s: string)
    requires AllDigits(s)
    ensures '@' !in s && '?' !in s
  {
  }

  // ---------------------------------------------------------------------
  // Sending

  /** `sendWhatsAppMessage(phone, message, packageName)`. The number check
      comes first, then the message check; a direct share goes to the two
      WhatsApp packages and a `wa.me` link to any other. Either intent
      addresses the normalised number and carries the message. */
  function SendWhatsAppMessage(phone: string, message: string, packageName: string,
                               encode: string -> string): (r: Result<WhatsAppIntent, SendError>)
    ensures r == Err(InvalidNumber) <==> |FormatPhone(phone)| < 10
    ensures r == Err(EmptyMessage) <==> |FormatPhone(phone)| >= 10 && IsBlank(message)
    ensures r.Ok? ==> PhoneOf(r.value) == Some(FullPhone(FormatPhone(phone)))
    ensures r.Ok? ==> (r.value.DirectShare? <==> IsDirectSharePackage(packageName))
    ensures r.Ok? && r.value.DirectShare? ==> r.value.packageName == packageName && r.value.text == message
    ensures r.Ok? && r.value.ViewLink? ==>
            ParseWaMe(r.value.uri) == Some((FullPhone(FormatPhone(phone)), encode(message)))
  {
    var formattedPhone := FormatPhone(phone);
    if |formattedPhone| < 10 then Err(InvalidNumber)
    else if IsBlank(message) then Err(EmptyMessage)
    else
      var fullPhone := FullPhone(formattedPhone);
      FullPhoneNormalises(formattedPhone);
      DigitsHaveNoSeparator(fullPhone);
      if IsDirectSharePackage(packageName) then
        var jid := Jid(fullPhone);
        assert JidUser(jid) == Some(fullPhone);
        Ok(DirectShare(packageName, message, jid))
      else
        var uri := WaMeUri(fullPhone, encode(message));
        assert ParseWaMe(uri) == Some((fullPhone, encode(message)));
        Ok(ViewLink(uri))
  }

  /** An entry of the WhatsApp selector. */
  datatype WhatsAppAppInfo = WhatsAppAppInfo(displayName: string, packageName: string)

  const WhatsAppEntry: WhatsAppAppInfo := WhatsAppAppInfo("WhatsApp", WHATSAPP)
  const BusinessEntry: WhatsAppAppInfo := WhatsAppAppInfo("WhatsApp Business", WHATSAPP_BUSINESS)

  /** The package for a manual send: the selected entry's when the selector
      is visible and holds one, "com.whatsapp" otherwise. */
  function SelectedPackage(selectorVisible: bool, selectedItem: Option<WhatsAppAppInfo>): (r: string)
    ensures selectorVisible && selectedItem.Some? ==> r == selectedItem.value.packageName
    ensures !selectorVisible || selectedItem.None? ==> r == WHATSAPP
    ensures (selectedItem.None? || IsDirectSharePackage(selectedItem.value.packageName)) ==>
            IsDirectSharePackage(r)
  {
    if selectorVisible && selectedItem.Some? then selectedItem.value.packageName else WHATSAPP
  }

  datatype ManualError = BlankNumber | BlankMessage | SendFailed(error: SendError)

  /** The manual-send button: the trimmed number must not be blank, the
      stored message (empty when absent) must not be blank, and then
      `sendWhatsAppMessage` runs with the selected package. Its own blank
      message check can therefore never fail from here. */
  function SendManualMessage(rawNumber: string, storedMessage: Option<string>, selectorVisible: bool,
                             selectedItem: Option<WhatsAppAppInfo>, encode: string -> string)
    : (r: Result<WhatsAppIntent, ManualError>)
    ensures r == Err(BlankNumber) <==> IsBlank(rawNumber)
    ensures r == Err(BlankMessage) <==> !IsBlank(rawNumber) && IsNullOrBlank(storedMessage)
    ensures r == Err(SendFailed(InvalidNumber)) <==>
            !IsBlank(rawNumber) && !IsNullOrBlank(storedMessage) && |FormatPhone(rawNumber)| < 10
    ensures r != Err(SendFailed(EmptyMessage))
    ensures r.Ok? ==> PhoneOf(r.value) == Some(FullPhone(FormatPhone(rawNumber)))
    ensures r.Ok? ==> (r.value.DirectShare? <==> IsDirectSharePackage(SelectedPackage(selectorVisible, selectedItem)))
    ensures r.Ok? && r.value.DirectShare? ==>
            r.value.packageName == SelectedPackage(selectorVisible, selectedItem) && r.value.text == storedMessage.value
    ensures r.Ok? && r.value.ViewLink? ==>
            ParseWaMe(r.value.uri) == Some((FullPhone(FormatPhone(rawNumber)), encode(storedMessage.value)))
  {
    var number := Trim(rawNumber);
    TrimBlank(rawNumber);
    FormatPhoneIgnoresTrim(rawNumber);
    if IsBlank(number) then Err(BlankNumber)
    else
      var message := storedMessage.GetOr("");
      if IsBlank(message) then Err(BlankMessage)
      else
        match SendWhatsAppMessage(number, message, SelectedPackage(selectorVisible, selectedItem), encode)
        case Ok(intent) => Ok(intent)
        case Err(e) => Err(SendFailed(e))
  }

  // ---------------------------------------------------------------------
  // The WhatsApp selector

  /** The installed-app list of `populateWhatsAppSelector`: WhatsApp, then
      WhatsApp Business, each only when installed. */
  method InstalledApps(installed: set<string>) returns (apps: seq<WhatsAppAppInfo>)
    ensures |apps| <= 2
    ensures forall i, j :: 0 <= i < j < |apps| ==> apps[i].packageName != apps[j].packageName
    ensures forall i :: 0 <= i < |apps| ==> apps[i] == WhatsAppEntry || apps[i] == BusinessEntry
    ensures forall i :: 0 <= i < |apps| ==> apps[i].packageName in installed
    ensures WhatsAppEntry in apps <==> WHATSAPP in installed
    ensures BusinessEntry in apps <==> WHATSAPP_BUSINESS in installed
    ensures WHATSAPP in installed && WHATSAPP_BUSINESS in installed ==> apps == [WhatsAppEntry, BusinessEntry]
  {
    apps := [];
    if WHATSAPP in installed {
      apps := apps + [WhatsAppEntry];
    }
    if WHATSAPP_BUSINESS in installed {
      apps := apps + [BusinessEntry];
    }
  }

  /** The position of the saved package in the selector, -1 when it is not
      there or no package was saved. */
  function SavedAppPosition(apps: seq<WhatsAppAppInfo>, savedPackage: Option<string>): (r: int)
    ensures -1 <= r < |apps|
    ensures r == -1 <==> forall i :: 0 <= i < |apps| ==> savedPackage != Some(apps[i].packageName)
    ensures r >= 0 ==> savedPackage == Some(apps[r].packageName)
                       && forall i :: 0 <= i < r ==> savedPackage != Some(apps[i].packageName)
  {
    IndexOfFirst(apps, (a: WhatsAppAppInfo) => savedPackage == Some(a.packageName))
  }

  /** `populateWhatsAppSelector` shows the selector only when both apps are
      installed; with one or none it hides it. */
  function SelectorVisible(apps: seq<WhatsAppAppInfo>): (visible: bool)
    ensures visible <==> |apps| >= 2
    ensures (forall i :: 0 <= i < |apps| ==> apps[i] == WhatsAppEntry || apps[i] == BusinessEntry) &&
            (forall i, j :: 0 <= i < j < |apps| ==> apps[i].packageName != apps[j].packageName) ==>
            (visible <==> WhatsAppEntry in apps && BusinessEntry in apps)
  {
    if |apps| >= 2 then
      assert (forall i, j :: 0 <= i < j < |apps| ==> apps[i].packageName != apps[j].packageName) ==>
             apps[0].packageName != apps[1].packageName;
      true
    else
      false
  }

  /** A manual send on a device without "com.whatsapp" (only WhatsApp
      Business, say): the selector is hidden, so the send ignores the list
      and addresses "com.whatsapp", a package that is not installed. It
      fails only where a send fails anyway. */
  method ManualSendWithoutWhatsApp(installed: set<string>, rawNumber: string, storedMessage: Option<string>,
                                   selectedItem: Option<WhatsAppAppInfo>, encode: string -> string)
    returns (r: Result<WhatsAppIntent, ManualError>)
    requires WHATSAPP !in installed
    ensures r.Ok? <==> !IsBlank(rawNumber) && !IsNullOrBlank(storedMessage) && |FormatPhone(rawNumber)| >= 10
    ensures r.Ok? ==> r.value.DirectShare? && r.value.packageName == WHATSAPP && r.value.packageName !in installed
  {
    var apps := InstalledApps(installed);
    assert forall i :: 0 <= i < |apps| ==> apps[i] == BusinessEntry;
    assert |apps| > 1 ==> apps[0].packageName == apps[1].packageName;
    r := SendManualMessage(rawNumber, storedMessage, SelectorVisible(apps), selectedItem, encode);
  }

  /** A manual send from the selector always goes to one of the two WhatsApp
      packages, so it always takes the direct-share path. */
  lemma ManualSendIsDirect(rawNumber: string, storedMessage: Option<string>, selectorVisible: bool,
                           apps: seq<WhatsAppAppInfo>, position: nat, encode: string -> string)
    requires forall i :: 0 <= i < |apps| ==> apps[i] == WhatsAppEntry || apps[i] == BusinessEntry
    requires position < |apps|
    ensures var r := SendManualMessage(rawNumber, storedMessage, selectorVisible, Some(apps[position]), encode);
            r.Ok? ==> r.value.DirectShare?
    ensures var r := SendManualMessage(rawNumber, storedMessage, selectorVisible, None, encode);
            r.Ok? ==> r.value.DirectShare? && r.value.packageName == WHATSAPP
  {
    assert IsDirectSharePackage(SelectedPackage(selectorVisible, Some(apps[position])));
    assert IsDirectSharePackage(SelectedPackage(selectorVisible, None));
  }

  // ---------------------------------------------------------------------
  // The SIM selector

  datatype SimInfo = SimInfo(subscriptionId: int, displayName: string, phoneNumber: Option<string>,
                             carrierName: Option<string>)

  /** `SimInfo.toString`: the display name, then " - " and the number when
      there is a non-blank one, then the carrier in parentheses when it is
      non-blank and not the display name. */
  method SimLabel(sim: SimInfo) returns (shown: string)
    ensures var hasNumber := !IsNullOrBlank(sim.phoneNumber);
            var hasCarrier := !IsNullOrBlank(sim.carrierName) && sim.carrierName.value != sim.displayName;
            var numberPart := if hasNumber then 3 + |sim.phoneNumber.value| else 0;
            var carrierPart := if hasCarrier then 3 + |sim.carrierName.value| else 0;
            && |shown| == |sim.displayName| + numberPart + carrierPart
            && shown[..|sim.displayName|] == sim.displayName
            && (hasNumber ==> shown[|sim.displayName|..|sim.displayName| + numberPart] == " - " + sim.phoneNumber.value)
            && (hasCarrier ==> shown[|shown| - carrierPart..] == " (" + sim.carrierName.value + ")")
  {
    var builder := sim.displayName;
    if !IsNullOrBlank(sim.phoneNumber) {
      builder := builder + " - " + sim.phoneNumber.value;
    }
    if !IsNullOrBlank(sim.carrierName) && sim.carrierName.value != sim.displayName {
      builder := builder + " (" + sim.carrierName.value + ")";
    }
    shown := builder;
    ghost var numberText := if !IsNullOrBlank(sim.phoneNumber) then " - " + sim.phoneNumber.value else "";
    ghost var carrierText :=
      if !IsNullOrBlank(sim.carrierName) && sim.carrierName.value != sim.displayName
      then " (" + sim.carrierName.value + ")" else "";
    assert shown == sim.displayName + numberText + carrierText;
    ThreeParts(sim.displayName, numberText, carrierText);
  }

  /** The three parts of a concatenation, recovered by slicing. */
  lemma ThreeParts(a: string, b: string, c: string)
    ensures |a + b + c| == |a| + |b| + |c|
    ensures (a + b + c)[..|a|] == a
    ensures (a + b + c)[|a|..|a| + |b|] == b
    ensures (a + b + c)[|a| + |b|..] == c
  {
  }

  /** The position of the saved subscription in the SIM selector, -1 when no
      entry has that id. */
  function SavedSimPosition(sims: seq<SimInfo>, savedId: int): (r: int)
    ensures -1 <= r < |sims|
    ensures r == -1 <==> forall i :: 0 <= i < |sims| ==> sims[i].subscriptionId != savedId
    ensures r >= 0 ==> sims[r].subscriptionId == savedId
                       && forall i :: 0 <= i < r ==> sims[i].subscriptionId != savedId
  {
    IndexOfFirst(sims, (s: SimInfo) => s.subscriptionId == savedId)
  }

  /** The SIM selector's selection once the saved subscription is
      restored (`if (savedPosition != -1) setSelection(savedPosition)`): the
      first entry with the saved id, or the current selection untouched when
      no entry has it. */
  function SimSelection(current: int, sims: seq<SimInfo>, savedId: int): (r: int)
    ensures (forall i :: 0 <= i < |sims| ==> sims[i].subscriptionId != savedId) ==> r == current
    ensures (exists i :: 0 <= i < |sims| && sims[i].subscriptionId == savedId) ==>
            0 <= r < |sims| && sims[r].subscriptionId == savedId
            && forall i :: 0 <= i < r ==> sims[i].subscriptionId != savedId
  {
    var savedPosition := SavedSimPosition(sims, savedId);
    if savedPosition != -1 then savedPosition else current
  }

  /** The WhatsApp selector's selection once the saved package is restored:
      the entry with the saved package, or the current selection untouched
      when there is none or no package was saved. */
  function AppSelection(current: int, apps: seq<WhatsAppAppInfo>, savedPackage: Option<string>): (r: int)
    ensures savedPackage.None? ==> r == current
    ensures (forall i :: 0 <= i < |apps| ==> savedPackage != Some(apps[i].packageName)) ==> r == current
    ensures (exists i :: 0 <= i < |apps| && savedPackage == Some(apps[i].packageName)) ==>
            0 <= r < |apps| && savedPackage == Some(apps[r].packageName)
            && forall i :: 0 <= i < r ==> savedPackage != Some(apps[i].packageName)
  {
    var savedPosition := SavedAppPosition(apps, savedPackage);
    if savedPosition != -1 then savedPosition else current
  }

  // ---------------------------------------------------------------------
  // Preferences

  /** The two preferences the buttons write; `None` is a key never written. */
  class Preferences {
    var serviceActive: Option<bool>
    var customMessage: Option<string>

    /** `getBoolean("service_active", true)`. */
    function ServiceActive(): bool
      reads this
    {
      serviceActive.GetOr(true)
    }

    constructor ()
      ensures serviceActive == None && customMessage == None
      ensures ServiceActive()
    {
      serviceActive := None;
      customMessage := None;
    }

    /** The toggle button: writes the negation of the current flag. */
    method ToggleService() returns (isNowActive: bool)
      modifies this
      ensures isNowActive == !old(ServiceActive())
      ensures serviceActive == Some(isNowActive) && ServiceActive() == isNowActive
      ensures customMessage == old(customMessage)
    {
      isNowActive := !serviceActive.GetOr(true);
      serviceActive := Some(isNowActive);
    }

    /** The save button: stores the message unless it is blank. */
    method SaveMessage(message: string) returns (saved: bool)
      modifies this
      ensures saved == !IsBlank(message)
      ensures customMessage == (if saved then Some(message) else old(customMessage))
      ensures serviceActive == old(serviceActive)
    {
      saved := !IsBlank(message);
      if saved {
        customMessage := Some(message);
      }
    }
  }

  /** Pressing the toggle twice gives back the flag it started from. */
  method ToggleTwice(prefs: Preferences)
    modifies prefs
    ensures prefs.ServiceActive() == old(prefs.ServiceActive())
    ensures prefs.customMessage == old(prefs.customMessage)
  {
    var first := prefs.ToggleService();
    var second := prefs.ToggleService();
  }
}
