/** The `Gologin` profile manager of `src/gologin/index.ts`: the resolution
    clamp done by the constructor, the translation of a profile (and the
    optional egress record) into the browser's `gologin` preference
    namespace, and the launch-argument list. File-system writes, the
    browser process and the executable lookup are left out; the preference
    template, the bundled browser version and the profile root are
    parameters. */
module Gologin {
  import opened Wrappers
  import opened JsText
  import UserAgent
  import Proxy

  // ---------------------------------------------------------------------
  // Profile
  // ---------------------------------------------------------------------

  datatype DeviceType = Desktop | Mobile

  datatype Navigator = Navigator(
    userAgent: string,
    platform: string,
    maxTouchPoints: int,
    hardwareConcurrency: int,
    deviceMemory: real,   // gigabytes
    resolution: string)   // "<width>x<height>"

  datatype WebGLMetadata = WebGLMetadata(vendor: string, renderer: string)

  datatype Fingerprint = Fingerprint(navigator: Navigator, webGLMetadata: WebGLMetadata, webglParams: map<string, string>)

  datatype MediaDevices = MediaDevices(uid: string)

  /** The per-session noise seeds, consumed verbatim. */
  datatype NoiseValues = NoiseValues(audioContext: real, canvas: real, clientRects: real, webgl: real, mediaDevices: MediaDevices)

  datatype Profile = Profile(id: string, name: string, fingerprint: Fingerprint, value: NoiseValues)

  // ---------------------------------------------------------------------
  // The `gologin` namespace of the preference document. Field names are
  // the document's own keys, synonyms included.
  // ---------------------------------------------------------------------

  datatype NavigatorPrefs = NavigatorPrefs(platform: string, max_touch_points: int)
  datatype GpuPrefs = GpuPrefs(vendor: string, renderer: string)
  datatype WebglPrefs = WebglPrefs(metadata: GpuPrefs)
  datatype AudioContextPrefs = AudioContextPrefs(enable: bool, noiseValue: real)
  datatype MobilePrefs = MobilePrefs(enable: bool)
  /** The proxy object; `settings` stands for any further keys it holds. */
  datatype ProxyPrefs = ProxyPrefs(username: Option<string>, password: Option<string>, settings: map<string, string>)
  datatype WebRtcPrefs = WebRtcPrefs(publicIP: Option<string>, public_ip: Option<string>, local_ip_masking: bool, fill_based_on_ip: bool)
  datatype MediaDevicesPrefs = MediaDevicesPrefs(uid: string)

  datatype Preferences = Preferences(
    name: string,
    startupUrl: string,
    userAgent: string,
    navigator: NavigatorPrefs,
    hardwareConcurrency: int,
    deviceMemory: real,   // megabytes
    screenWidth: JsNumber,
    screenHeight: JsNumber,
    webGl: GpuPrefs,
    webgl: WebglPrefs,
    webglParams: map<string, string>,
    audioContext: AudioContextPrefs,
    canvasMode: string,
    canvasNoise: real,
    client_rects_noise_enable: bool,
    mobile: MobilePrefs,
    webglNoiceEnable: bool,
    webgl_noice_enable: bool,
    webgl_noise_enable: bool,
    doNotTrack: bool,
    proxy: ProxyPrefs,
    webRtc: WebRtcPrefs,
    getClientRectsNoice: real,
    get_client_rects_noise: real,
    webglNoiseValue: real,
    webgl_noise_value: real,
    mediaDevices: MediaDevicesPrefs)

  /** Keys that name one concept twice always carry one value; the WebGL
      noise toggle is off under all three spellings; the WebRTC public IP
      keys agree once egress information has been applied. */
  predicate SynonymsAgree(p: Preferences, egress: bool) {
    && p.webGl.vendor == p.webgl.metadata.vendor
    && p.webGl.renderer == p.webgl.metadata.renderer
    && p.getClientRectsNoice == p.get_client_rects_noise
    && p.webglNoiseValue == p.webgl_noise_value
    && !p.webglNoiceEnable && !p.webgl_noice_enable && !p.webgl_noise_enable
    && (egress ==> p.webRtc.publicIP == p.webRtc.public_ip)
  }

  /** The fixed defaults that do not depend on the profile. */
  predicate BaselineToggles(p: Preferences) {
    && p.audioContext.enable
    && p.canvasMode == "off"
    && !p.client_rects_noise_enable
    && !p.doNotTrack
    && p.webRtc.local_ip_masking
    && p.webRtc.fill_based_on_ip
  }

  // ---------------------------------------------------------------------
  // Resolution clamp and the constructed session
  // ---------------------------------------------------------------------

  const MaxWidth: int := 1920
  const ClampedResolution: string := "1920x1080"

  /** The width field of a resolution: the text before the first `x`. */
  function Width(resolution: string): string {
    Split(resolution, 'x')[0]
  }

  /** `Number(width) > 1920`. */
  predicate TooWide(resolution: string) {
    GreaterThan(ToNumber(Width(resolution)), MaxWidth)
  }

  /** A resolution written as two `x`-free fields splits into them. */
  lemma ResolutionFields(w: string, h: string)
    requires 'x' !in w && 'x' !in h
    ensures Split(w + "x" + h, 'x') == [w, h]
    ensures Width(w + "x" + h) == w
  {
    assert w + "x" + h == w + ['x'] + h;
    SplitFirst(w, h, 'x');
    SplitNoSeparator(h, 'x');
  }

  lemma ClampedResolutionSplit()
    ensures Split(ClampedResolution, 'x') == ["1920", "1080"]
  {
    ClampedFieldValues();
    assert ClampedResolution == "1920" + "x" + "1080";
    ResolutionFields("1920", "1080");
  }

  lemma ClampedResolutionFits()
    ensures !TooWide(ClampedResolution)
  {
    ClampedResolutionSplit();
    ClampedFieldValues();
    NumberTextRoundTrip("1920");
  }

  /** The decimal values of the clamped width and height. */
  lemma ClampedFieldValues()
    ensures Canonical("1920") && DigitsValue("1920") == 1920 && 'x' !in "1920"
    ensures Canonical("1080") && DigitsValue("1080") == 1080 && 'x' !in "1080"
  {
    DecimalText1920();
    DecimalText1080();
    DecimalValue(1920);
    DecimalValue(1080);
    assert !IsDigit('x');
  }

  lemma DecimalText1920()
    ensures Decimal(1920) == "1920"
  {
    assert Decimal(1) == "1";
    assert Decimal(19) == "19";
    assert Decimal(192) == "192";
  }

  lemma DecimalText1080()
    ensures Decimal(1080) == "1080"
  {
    assert Decimal(1) == "1";
    assert Decimal(10) == "10";
    assert Decimal(108) == "108";
  }

  /** The constructor's clamp: a too-wide resolution becomes `1920x1080`,
      anything else is kept. */
  function Clamp(resolution: string): (r: string)
    ensures !TooWide(r)
    ensures r == resolution || r == ClampedResolution
    ensures r == resolution <==> !TooWide(resolution) || resolution == ClampedResolution
  {
    ClampedResolutionFits();
    if TooWide(resolution) then ClampedResolution else resolution
  }

  /** The profile with its navigator resolution replaced. */
  function WithResolution(profile: Profile, resolution: string): Profile {
    profile.(fingerprint := profile.fingerprint.(navigator := profile.fingerprint.navigator.(resolution := resolution)))
  }

  /** `path.join(root, 'user-data-dir', id)`. */
  function ProfilePath(root: string, id: string): string {
    root + "/user-data-dir/" + id
  }

  /** The state of a constructed `Gologin` object. `deviceType` is never
      assigned by the source, so it stays `undefined` (`None`). */
  datatype Session = Session(profile: Profile, profilePath: string, resolution: string, deviceType: Option<DeviceType>, infoIp: Option<Proxy.InfoIp>)

  /** A session whose resolution was clamped and written back into its
      profile. */
  predicate Normalized(s: Session) {
    s.resolution == s.profile.fingerprint.navigator.resolution && !TooWide(s.resolution)
  }

  /** The constructor, without its file-system effects. */
  function NewSession(profile: Profile, infoIp: Option<Proxy.InfoIp>, root: string): (s: Session)
    ensures Normalized(s)
    ensures s.profile == WithResolution(profile, s.resolution)
    ensures TooWide(profile.fingerprint.navigator.resolution) ==> s.resolution == ClampedResolution
    ensures !TooWide(profile.fingerprint.navigator.resolution) ==> s.profile == profile
    ensures s.deviceType == None && s.infoIp == infoIp
    ensures s.profilePath == ProfilePath(root, profile.id)
  {
    var resolution := Clamp(profile.fingerprint.navigator.resolution);
    var clamped := if TooWide(profile.fingerprint.navigator.resolution) then WithResolution(profile, resolution) else profile;
    Session(clamped, ProfilePath(root, profile.id), resolution, None, infoIp)
  }

  // ---------------------------------------------------------------------
  // generatePreferences
  // ---------------------------------------------------------------------

  /** `generatePreferences`: the template with the profile and, when
      present, the egress record written into it. */
  function Encode(s: Session, template: Preferences, chromeVersion: string): (p: Preferences)
    ensures SynonymsAgree(p, s.infoIp.Some?)
    ensures BaselineToggles(p)
    ensures p.deviceMemory / 1024.0 == s.profile.fingerprint.navigator.deviceMemory
    ensures p.name == s.profile.name && p.startupUrl == ""
    ensures p.navigator.platform == s.profile.fingerprint.navigator.platform
    ensures p.navigator.max_touch_points == s.profile.fingerprint.navigator.maxTouchPoints
    ensures p.hardwareConcurrency == s.profile.fingerprint.navigator.hardwareConcurrency
    ensures p.webGl == GpuPrefs(s.profile.fingerprint.webGLMetadata.vendor, s.profile.fingerprint.webGLMetadata.renderer)
    ensures p.webglParams == s.profile.fingerprint.webglParams
    ensures p.audioContext.noiseValue == s.profile.value.audioContext && p.canvasNoise == s.profile.value.canvas
    ensures p.getClientRectsNoice == s.profile.value.clientRects && p.webglNoiseValue == s.profile.value.webgl
    ensures p.mediaDevices.uid == s.profile.value.mediaDevices.uid
    ensures p.mobile.enable <==> s.deviceType == Some(Mobile)
    ensures (forall k :: !UserAgent.MatchAt(s.profile.fingerprint.navigator.userAgent, k)) ==>
              p.userAgent == s.profile.fingerprint.navigator.userAgent
    ensures var ua := s.profile.fingerprint.navigator.userAgent;
      forall i :: UserAgent.MatchAt(ua, i) && UserAgent.NoMatchBefore(ua, i) ==>
        p.userAgent == ua[..i] + UserAgent.Token + chromeVersion + ua[UserAgent.RunEnd(ua, i + |UserAgent.Token|)..]
    ensures s.infoIp.Some? ==>
      && p.proxy == ProxyPrefs(s.infoIp.value.username, s.infoIp.value.password, map[])
      && p.webRtc.publicIP == Some(s.infoIp.value.query)
    ensures s.infoIp.None? ==>
      && p.proxy == template.proxy
      && p.webRtc.publicIP == template.webRtc.publicIP
      && p.webRtc.public_ip == template.webRtc.public_ip
  {
    var fp := s.profile.fingerprint;
    var nav := fp.navigator;
    var seeds := s.profile.value;
    var parts := Split(s.resolution, 'x');
    var base := template.(
      name := s.profile.name,
      startupUrl := "",
      userAgent := UserAgent.Rewrite(nav.userAgent, chromeVersion),
      navigator := template.navigator.(platform := nav.platform, max_touch_points := nav.maxTouchPoints),
      hardwareConcurrency := nav.hardwareConcurrency,
      deviceMemory := nav.deviceMemory * 1024.0,
      screenWidth := ParseIntOpt(Field(parts, 0)),
      screenHeight := ParseIntOpt(Field(parts, 1)),
      webGl := template.webGl.(vendor := fp.webGLMetadata.vendor, renderer := fp.webGLMetadata.renderer),
      webgl := template.webgl.(metadata := template.webgl.metadata.(vendor := fp.webGLMetadata.vendor, renderer := fp.webGLMetadata.renderer)),
      webglParams := fp.webglParams,
      audioContext := AudioContextPrefs(true, seeds.audioContext),
      canvasMode := "off",
      client_rects_noise_enable := false,
      mobile := template.mobile.(enable := s.deviceType == Some(Mobile)),
      webglNoiceEnable := false,
      webgl_noice_enable := false,
      webgl_noise_enable := false,
      doNotTrack := false,
      canvasNoise := seeds.canvas,
      getClientRectsNoice := seeds.clientRects,
      get_client_rects_noise := seeds.clientRects,
      webglNoiseValue := seeds.webgl,
      webgl_noise_value := seeds.webgl,
      mediaDevices := template.mediaDevices.(uid := seeds.mediaDevices.uid));
    var withEgress :=
      match s.infoIp
      case None => base
      case Some(info) =>
        base.(proxy := ProxyPrefs(info.username, info.password, map[]),
              webRtc := base.webRtc.(publicIP := Some(info.query), public_ip := Some(info.query)));
    withEgress.(webRtc := withEgress.webRtc.(local_ip_masking := true, fill_based_on_ip := true))
  }

  // ---------------------------------------------------------------------
  // launch
  // ---------------------------------------------------------------------

  const ProxyFlag: string := "--proxy-server="
  const WindowSizeFlag: string := "--window-size="

  predicate IsProxyArg(arg: string) {
    |arg| >= |ProxyFlag| && arg[..|ProxyFlag|] == ProxyFlag
  }

  /** `--window-size=<width>,<height>` from the fields of the resolution;
      a missing field renders as `undefined`. */
  function WindowSizeArg(resolution: string): (arg: string)
    ensures |arg| > |WindowSizeFlag| && arg[..|WindowSizeFlag|] == WindowSizeFlag
    ensures resolution == "" ==> arg == WindowSizeFlag + ",undefined"
  {
    var parts := Split(resolution, 'x');
    WindowSizeFlag + Render(Field(parts, 0)) + "," + Render(Field(parts, 1))
  }

  /** The argument list of `launch`: nine fixed flags, then the proxy
      server when egress information is present. */
  function BuildArgs(s: Session): (args: seq<string>)
    ensures |args| == if s.infoIp.Some? then 10 else 9
    ensures args[1] == "--user-data-dir=" + s.profilePath
    ensures args[0] == "--no-sandbox"
    ensures args[2] == WindowSizeArg(s.resolution)
    ensures args[3..9] == ["--font-masking-mode=2", "--disable-encryption", "--window-position=0,0",
                           "--restore-last-session", "--disable-background-timer-throttling",
                           "--disable-backgrounding-occluded-windows"]
    ensures forall i :: 0 <= i < 9 ==> !IsProxyArg(args[i])
    ensures s.infoIp.Some? ==> args[9] == ProxyFlag + s.infoIp.value.address
  {
    var fixed := [
      "--no-sandbox",
      "--user-data-dir=" + s.profilePath,
      WindowSizeArg(s.resolution),
      "--font-masking-mode=2",
      "--disable-encryption",
      "--window-position=0,0",
      "--restore-last-session",
      "--disable-background-timer-throttling",
      "--disable-backgrounding-occluded-windows"
    ];
    assert ProxyFlag[2] == 'p';
    assert fixed[0][2] == 'n' && fixed[1][2] == 'u' && fixed[2][2] == 'w';
    assert fixed[3][2] == 'f' && fixed[4][2] == 'd' && fixed[5][2] == 'w';
    assert fixed[6][2] == 'r' && fixed[7][2] == 'd' && fixed[8][2] == 'd';
    match s.infoIp
    case None => fixed
    case Some(info) => fixed + [ProxyFlag + info.address]
  }

  /** The number of proxy-server arguments in a list. */
  function CountProxyArgs(args: seq<string>): nat {
    if |args| == 0 then 0
    else CountProxyArgs(args[..|args| - 1]) + (if IsProxyArg(args[|args| - 1]) then 1 else 0)
  }

  // ---------------------------------------------------------------------
  // The private parseProxy copy
  // ---------------------------------------------------------------------

  /** The class's private `parseProxy`, whose argument may be `undefined`. */
  function ParseProxyPrivate(proxyString: Option<string>): (r: Option<Proxy.ParsedProxy>)
    ensures r.None? <==> proxyString.None? || proxyString.value == ""
  {
    if proxyString.None? || proxyString.value == "" then None
    else
      var fields := Split(proxyString.value, ':');
      Some(Proxy.ParsedProxy(fields[0], ToNumberOpt(Field(fields, 1)), Field(fields, 2), Field(fields, 3)))
  }

  // ---------------------------------------------------------------------
  // Lemmas
  // ---------------------------------------------------------------------

  /** Only the width field decides the clamp: for a resolution built from
      a width and any height, it is clamped exactly when `Number(width)`
      exceeds 1920, whatever the height says. */
  lemma ClampByWidth(w: string, h: string)
    requires 'x' !in w
    ensures Clamp(w + "x" + h) == if GreaterThan(ToNumber(w), MaxWidth) then ClampedResolution else w + "x" + h
  {
    assert w + "x" + h == w + ['x'] + h;
    SplitFirst(w, h, 'x');
  }

  /** Clamping an already clamped resolution changes nothing. */
  lemma ClampIdempotent(resolution: string)
    ensures Clamp(Clamp(resolution)) == Clamp(resolution)
  {
  }

  /** A constructed object never reports a mobile device. */
  lemma NewSessionIsDesktop(profile: Profile, infoIp: Option<Proxy.InfoIp>, root: string, template: Preferences, chromeVersion: string)
    ensures !Encode(NewSession(profile, infoIp, root), template, chromeVersion).mobile.enable
  {
  }

  /** When the resolution is two canonical decimal fields, the screen size
      in the preferences and the `--window-size` argument carry the same
      numbers, written the same way. */
  lemma WindowSizeMatchesScreen(s: Session, template: Preferences, chromeVersion: string, w: string, h: string)
    requires s.resolution == w + "x" + h && Canonical(w) && Canonical(h)
    ensures Encode(s, template, chromeVersion).screenWidth == Num(DigitsValue(w))
    ensures Encode(s, template, chromeVersion).screenHeight == Num(DigitsValue(h))
    ensures BuildArgs(s)[2] == "--window-size=" + w + "," + h
    ensures BuildArgs(s)[2] == "--window-size=" + ToText(Encode(s, template, chromeVersion).screenWidth)
                             + "," + ToText(Encode(s, template, chromeVersion).screenHeight)
  {
    assert 'x' !in w && 'x' !in h by {
      assert !IsDigit('x');
    }
    ResolutionFields(w, h);
    ParseIntDigits(w);
    ParseIntDigits(h);
    NumberTextRoundTrip(w);
    NumberTextRoundTrip(h);
  }

  /** The window size argument of a resolution `w x h` whose fields hold
      no `x` is `--window-size=w,h`, whatever the fields say. */
  lemma WindowSizeFields(w: string, h: string)
    requires 'x' !in w && 'x' !in h
    ensures WindowSizeArg(w + "x" + h) == "--window-size=" + w + "," + h
  {
    ResolutionFields(w, h);
  }

  /** A resolution without an `x` has no height: the argument carries the
      whole text as width and `undefined` as height, and the preferences
      carry a `NaN` height. */
  lemma MissingHeight(s: Session, template: Preferences, chromeVersion: string)
    requires 'x' !in s.resolution
    ensures BuildArgs(s)[2] == "--window-size=" + s.resolution + ",undefined"
    ensures Encode(s, template, chromeVersion).screenHeight == NaN
  {
    SplitNoSeparator(s.resolution, 'x');
    MissingHeightArg(s.resolution);
  }

  lemma MissingHeightArg(resolution: string)
    requires Split(resolution, 'x') == [resolution]
    ensures WindowSizeArg(resolution) == "--window-size=" + resolution + ",undefined"
  {
  }

  /** Outside canonical decimal the two derivations of the window size
      part ways: for a width `a.b` (say `1366.5x768`) `parseInt` reports
      the screen width `a`, while the argument passes `a.b` on verbatim,
      so the window size differs from the rendered screen size. */
  lemma FractionalWidthDiverges(s: Session, template: Preferences, chromeVersion: string, a: string, b: string, h: string)
    requires Canonical(a) && |b| > 0 && AllDigits(b) && Canonical(h)
    requires s.resolution == a + "." + b + "x" + h
    ensures Encode(s, template, chromeVersion).screenWidth == Num(DigitsValue(a))
    ensures Encode(s, template, chromeVersion).screenHeight == Num(DigitsValue(h))
    ensures BuildArgs(s)[2] == "--window-size=" + (a + "." + b) + "," + h
    ensures BuildArgs(s)[2] != "--window-size=" + ToText(Encode(s, template, chromeVersion).screenWidth)
                              + "," + ToText(Encode(s, template, chromeVersion).screenHeight)
  {
    var w := a + "." + b;
    FractionalWidth(a, b, h);
    FractionalScreen(s, template, chromeVersion, a, b, h);
    WindowSizeFields(w, h);
    assert BuildArgs(s)[2] == WindowSizeArg(w + "x" + h);
    NumberTextRoundTrip(a);
    NumberTextRoundTrip(h);
    var p := Encode(s, template, chromeVersion);
    assert ToText(p.screenWidth) == a && ToText(p.screenHeight) == h;
  }

  lemma FractionalScreen(s: Session, template: Preferences, chromeVersion: string, a: string, b: string, h: string)
    requires Canonical(a) && |b| > 0 && AllDigits(b) && Canonical(h)
    requires s.resolution == a + "." + b + "x" + h
    ensures Encode(s, template, chromeVersion).screenWidth == Num(DigitsValue(a))
    ensures Encode(s, template, chromeVersion).screenHeight == Num(DigitsValue(h))
  {
    var w := a + "." + b;
    FractionalWidth(a, b, h);
    assert 'x' !in h by {
      assert !IsDigit('x');
    }
    ResolutionFields(w, h);
    ParseIntDigits(h);
  }

  lemma FractionalWidth(a: string, b: string, h: string)
    requires Canonical(a) && |b| > 0 && AllDigits(b)
    ensures 'x' !in a + "." + b
    ensures ParseInt(a + "." + b) == Num(DigitsValue(a))
    ensures "--window-size=" + (a + "." + b) + "," + h != "--window-size=" + a + "," + h
  {
    var w := a + "." + b;
    assert forall i :: 0 <= i < |w| ==> w[i] == '.' || IsDigit(w[i]);
    assert w == a + ("." + b);
    ParseIntIgnoresTail(a, "." + b);
    var seen := "--window-size=" + w + "," + h;
    var shown := "--window-size=" + a + "," + h;
    assert seen[14 + |a|] == '.';
    assert shown[14 + |a|] == ',';
  }

  /** Constructing then encoding and launching: for a requested resolution
      of two canonical decimal fields, both the preferences and the
      `--window-size` argument report 1920 by 1080 when the width exceeds
      1920, and the requested size otherwise. */
  lemma ScreenFromRequestedResolution(profile: Profile, infoIp: Option<Proxy.InfoIp>, root: string,
                                      template: Preferences, chromeVersion: string, w: string, h: string)
    requires profile.fingerprint.navigator.resolution == w + "x" + h && Canonical(w) && Canonical(h)
    ensures var s := NewSession(profile, infoIp, root);
      var p := Encode(s, template, chromeVersion);
      var wide := DigitsValue(w) > MaxWidth;
      && p.screenWidth == Num(if wide then 1920 else DigitsValue(w))
      && p.screenHeight == Num(if wide then 1080 else DigitsValue(h))
      && BuildArgs(s)[2] == (if wide then "--window-size=1920,1080" else "--window-size=" + w + "," + h)
      && s.profile.fingerprint.navigator.resolution == (if wide then ClampedResolution else w + "x" + h)
  {
    var s := NewSession(profile, infoIp, root);
    assert 'x' !in w by { assert !IsDigit('x'); }
    ClampByWidth(w, h);
    NumberTextRoundTrip(w);
    if DigitsValue(w) > MaxWidth {
      ClampedScreen(s, template, chromeVersion);
    } else {
      WindowSizeMatchesScreen(s, template, chromeVersion, w, h);
    }
  }

  /** A session at the clamped resolution is encoded and launched at
      1920 by 1080. */
  lemma ClampedScreen(s: Session, template: Preferences, chromeVersion: string)
    requires s.resolution == ClampedResolution
    ensures Encode(s, template, chromeVersion).screenWidth == Num(1920)
    ensures Encode(s, template, chromeVersion).screenHeight == Num(1080)
    ensures BuildArgs(s)[2] == "--window-size=1920,1080"
  {
    ClampedEncoding(s, template, chromeVersion);
    ClampedWindowSize();
  }

  lemma ClampedWindowSize()
    ensures WindowSizeArg(ClampedResolution) == "--window-size=1920,1080"
  {
    var parts := Split(ClampedResolution, 'x');
    ClampedResolutionSplit();
    assert Field(parts, 0) == Some("1920") && Field(parts, 1) == Some("1080");
    assert WindowSizeArg(ClampedResolution) == "--window-size=" + "1920" + "," + "1080";
  }

  lemma ClampedEncoding(s: Session, template: Preferences, chromeVersion: string)
    requires s.resolution == "1920" + "x" + "1080"
    ensures Encode(s, template, chromeVersion).screenWidth == Num(1920)
    ensures Encode(s, template, chromeVersion).screenHeight == Num(1080)
  {
    ClampedFieldValues();
    WindowSizeMatchesScreen(s, template, chromeVersion, "1920", "1080");
  }

  /** The worked example: a 2560x1440 profile is encoded and launched at
      1920x1080, and its stored resolution is rewritten to match. */
  lemma WideProfileExample(profile: Profile, infoIp: Option<Proxy.InfoIp>, root: string, template: Preferences, chromeVersion: string)
    requires profile.fingerprint.navigator.resolution == "2560x1440"
    ensures var s := NewSession(profile, infoIp, root);
      && Encode(s, template, chromeVersion).screenWidth == Num(1920)
      && Encode(s, template, chromeVersion).screenHeight == Num(1080)
      && "--window-size=1920,1080" in BuildArgs(s)
      && s.profile.fingerprint.navigator.resolution == "1920x1080"
  {
    ExampleFieldValues();
    assert "2560x1440" == "2560" + "x" + "1440";
    ScreenFromRequestedResolution(profile, infoIp, root, template, chromeVersion, "2560", "1440");
  }

  lemma ExampleFieldValues()
    ensures Canonical("2560") && DigitsValue("2560") == 2560
    ensures Canonical("1440")
  {
    assert Decimal(2) == "2" && Decimal(25) == "25" && Decimal(256) == "256" && Decimal(2560) == "2560";
    assert Decimal(1) == "1" && Decimal(14) == "14" && Decimal(144) == "144" && Decimal(1440) == "1440";
    DecimalValue(2560);
  }

  lemma {:induction false} NoProxyArgs(args: seq<string>)
    requires forall i :: 0 <= i < |args| ==> !IsProxyArg(args[i])
    ensures CountProxyArgs(args) == 0
  {
    if |args| > 0 {
      NoProxyArgs(args[..|args| - 1]);
    }
  }

  /** The launch arguments hold exactly one proxy-server argument, the
      last one, when egress information is present, and none otherwise. */
  lemma {:induction false} ProxyArgumentOnce(s: Session)
    ensures CountProxyArgs(BuildArgs(s)) == if s.infoIp.Some? then 1 else 0
    ensures s.infoIp.Some? ==> IsProxyArg(BuildArgs(s)[|BuildArgs(s)| - 1])
  {
    var args := BuildArgs(s);
    NoProxyArgs(args[..9]);
    if s.infoIp.Some? {
      assert args[..|args| - 1] == args[..9];
      assert (ProxyFlag + s.infoIp.value.address)[..|ProxyFlag|] == ProxyFlag;
    } else {
      assert args[..9] == args;
    }
  }

  /** A proxy checked from a `host:port[:...]` string with a canonical
      port is launched through `--proxy-server=host:port`, and its observed
      IP becomes both WebRTC public-IP keys of the preferences. */
  lemma CheckedProxyLaunch(protocol: Proxy.Protocol, host: string, port: string, tail: string,
                           lookup: string -> Result<Proxy.IpLookup, string>, info: Proxy.InfoIp,
                           s: Session, template: Preferences, chromeVersion: string)
    requires ':' !in host && ':' !in port && Canonical(port)
    requires tail == "" || tail[0] == ':'
    requires Proxy.CheckProxy(protocol, host + ":" + port + tail, lookup) == Success(info)
    requires s.infoIp == Some(info)
    ensures BuildArgs(s)[9] == "--proxy-server=" + host + ":" + port
    ensures Encode(s, template, chromeVersion).webRtc.publicIP == Some(info.query)
    ensures Encode(s, template, chromeVersion).webRtc.public_ip == Some(info.query)
  {
    Proxy.CanonicalAddress(protocol, host, port, tail, lookup);
    assert info.address == host + ":" + port;
    ProxyArgIsLast(s);
    EgressPublicIp(s, template, chromeVersion);
  }

  lemma ProxyArgIsLast(s: Session)
    requires s.infoIp.Some?
    ensures BuildArgs(s)[9] == ProxyFlag + s.infoIp.value.address
  {
  }

  lemma EgressPublicIp(s: Session, template: Preferences, chromeVersion: string)
    requires s.infoIp.Some?
    ensures Encode(s, template, chromeVersion).webRtc.publicIP == Some(s.infoIp.value.query)
    ensures Encode(s, template, chromeVersion).webRtc.public_ip == Some(s.infoIp.value.query)
  {
  }

  /** The class's private copy of `parseProxy` behaves as the exported
      one, with `undefined` treated as the empty string. */
  lemma ParseProxyCopiesAgree(proxyString: Option<string>)
    ensures ParseProxyPrivate(proxyString) == Proxy.ParseProxy(proxyString.GetOr(""))
  {
  }
}
