# Gologin profile manager — a Dafny model

This project models the pure core of a small TypeScript tool that prepares
fingerprint-customised browser profiles:

- the `Gologin` class (`src/gologin/index.ts`):
  - the resolution clamp its constructor applies;
  - `generatePreferences`, which turns a profile and the optional proxy
    egress record (`InfoIpState`) into the browser's `gologin` preference
    namespace;
  - the argument list `launch` passes to the browser;
  - its private copy of `parseProxy`;
- the proxy helpers of `src/utils/proxy.ts`: `parseProxy` and the pure
  parts of `checkProxy`. Those parts are the null check, the choice of the
  agent URL, the construction of the returned egress record and the
  wrapping of errors.

Modules:

| file | module | models |
|---|---|---|
| `wrappers.dfy` | `Wrappers` | `Option` (a value that may be `null`/`undefined`) and `Result` (a call that returns or throws) |
| `js_text.dfy` | `JsText` | the JavaScript semantics the source relies on: `split` with one separator character, `Number(text)`, `parseInt(text)`, and how a number or `undefined` is rendered in a template literal |
| `user_agent.dfy` | `UserAgent` | `userAgent.replace(/Chrome\/\d+/, ...)` |
| `proxy.dfy` | `Proxy` | `parseProxy`, `checkProxy` |
| `gologin.dfy` | `Gologin` | profile and preference records, the clamp, the constructor, `generatePreferences` (`Encode`), `launch` (`BuildArgs`), the private `parseProxy` |

Inputs the source takes from outside the core are parameters:
- the preference template imported from `./preference`: `template` in `Encode`;
- the bundled browser version `CHROME_VERSION`: `chromeVersion`;
- the profile root `PATH_ROOT`: `root`;
- the network round trip of `checkProxy`: `lookup`. This is a function from the agent URL to either the response body or an error message.

JavaScript values are modelled as follows:
- A destructured array element past the end is `undefined`, modelled as `None`.
- `Number` and `parseInt` yield a `JsNumber`, which is either `NaN` or an integer.
- `deviceMemory` is a `real`, so the ×1024 conversion is exact.

## Model

| member | source | states |
|---|---|---|
| `Gologin.Clamp` | src/gologin/index.ts:23-28 | The effective resolution is never wider than 1920. It is either the requested resolution or `1920x1080`. It equals the request exactly when the request's width is not above 1920 (or the request already is `1920x1080`). |
| `Gologin.ClampByWidth` | src/gologin/index.ts:24-26 | For a resolution `w + "x" + h`, only `Number(w) > 1920` decides the clamp. The height, whatever it says, never triggers it. |
| `Gologin.ClampedResolutionFits` | src/gologin/index.ts:25-26 | `1920x1080` is not too wide itself: `Number("1920") > 1920` is false. |
| `Gologin.ClampIdempotent` | src/gologin/index.ts:23-28 | Clamping an already clamped resolution changes nothing. |
| `Gologin.NewSession` | src/gologin/index.ts:20-30 | The constructed object's resolution is the clamped one, and that value is written back into `profile.fingerprint.navigator.resolution`. No other field of the profile changes, and an unclamped profile is untouched. `deviceType` stays unassigned. The egress record is kept. The profile path is `<root>/user-data-dir/<id>` (with the POSIX separator). |
| `Gologin.Encode` | src/gologin/index.ts:92-144 | The synonym keys agree: vendor and renderer under `webGl`/`webgl.metadata`, both client-rects noise keys, both WebGL noise-value keys, all three WebGL-noise toggles `false`, and both WebRTC public-IP keys once egress info is present. The fixed toggles hold. `deviceMemory / 1024` is the profile's value. The profile's fields and noise seeds are copied verbatim. With egress info, `proxy` is replaced by exactly its username and password and the public IP is its `query`. Without it, `proxy` and both public-IP keys keep the template's values. `mobile.enable` holds exactly when `deviceType` is mobile. The user agent is the profile's, rewritten at its first `Chrome/<digits>` token. |
| `Gologin.NewSessionIsDesktop` | src/gologin/index.ts:120 | For every constructed object, `mobile.enable` is `false`, because `deviceType` is never assigned. |
| `Gologin.BuildArgs` | src/gologin/index.ts:39-53 | The list has 9 arguments, or 10 when egress info is present. The first is `--no-sandbox`, the second `--user-data-dir=<profilePath>`, the third the window size taken from the session's (clamped) resolution, and the fourth to ninth are `--font-masking-mode=2`, `--disable-encryption`, `--window-position=0,0`, `--restore-last-session`, `--disable-background-timer-throttling` and `--disable-backgrounding-occluded-windows`, in that order. None of the nine is a proxy flag. The tenth, when present, is `--proxy-server=<address>`. |
| `Gologin.WindowSizeArg` | src/gologin/index.ts:39-43 | The window-size argument always starts `--window-size=`; an empty resolution gives `--window-size=,undefined`. |
| `Gologin.WindowSizeFields` | src/gologin/index.ts:39-43 | For any resolution `w + "x" + h` whose fields hold no `x`, the argument is `--window-size=w,h`, whatever `w` and `h` say. |
| `Gologin.MissingHeight` | src/gologin/index.ts:39-110 | A resolution without an `x` launches with `--window-size=<resolution>,undefined` and is encoded with screen height `NaN`. |
| `Gologin.FractionalWidthDiverges` | src/gologin/index.ts:39-110 | For a width `a.b` (e.g. `1366.5x768`), `screenWidth` is `parseInt`'s `a` while the argument passes `a.b` on, so the window size differs from the rendered screen size. |
| `Gologin.ProxyArgumentOnce` | src/gologin/index.ts:51-53 | Exactly one `--proxy-server=` argument appears, in last position, when egress info is present, and none appears otherwise. |
| `Gologin.WindowSizeMatchesScreen` | src/gologin/index.ts:39-110 | For a resolution of two canonical decimal fields, `screenWidth`/`screenHeight` are their values. `--window-size=` is `<width>,<height>`, and that is also the rendering of `screenWidth`,`screenHeight`: both derivations agree. |
| `Gologin.ScreenFromRequestedResolution` | src/gologin/index.ts:23-110 | The profile asks for `w x h` in canonical decimal. The constructor, `generatePreferences` and `launch` report 1920×1080 (preferences, window size and stored profile resolution) when `w > 1920`, and `w`×`h` otherwise. |
| `Gologin.ClampedScreen` | src/gologin/index.ts:26-110 | A session at `1920x1080` is encoded with screen 1920×1080 and launched with `--window-size=1920,1080`. |
| `Gologin.WideProfileExample` | src/gologin/index.ts:23-110 | A `2560x1440` profile yields `screenWidth = 1920`, `screenHeight = 1080`, a `--window-size=1920,1080` argument, and a stored resolution of `1920x1080`. |
| `Gologin.CheckedProxyLaunch` | src/utils/proxy.ts:42-47 | The proxy was checked from `host:port[:...]` with a canonical port. Launching with the returned record uses `--proxy-server=host:port`, and both WebRTC public-IP keys become the observed IP. |
| `Gologin.ParseProxyPrivate` | src/gologin/index.ts:68-77 | The private copy returns `null` exactly when its argument is `undefined` or empty. |
| `Gologin.ParseProxyCopiesAgree` | src/gologin/index.ts:68-77 | The private copy equals the exported `parseProxy`, with `undefined` treated as the empty string. |
| `UserAgent.FirstMatch` | src/gologin/index.ts:102 | Finds the leftmost position where `Chrome/` followed by a digit occurs at or after `from`, or reports that there is none. |
| `UserAgent.RunEnd` | src/gologin/index.ts:102 | The greedy `\d+`: the run it delimits is all digits and is followed by a non-digit or the end. |
| `UserAgent.Rewrite` | src/gologin/index.ts:101-104 | A user agent with no `Chrome/<digits>` token is returned unchanged. Otherwise, at the leftmost match, `Chrome/<digits>` becomes `Chrome/<version>`, and the text before and after it is kept character for character. |
| `UserAgent.RewriteKeepsToken` | src/gologin/index.ts:101-104 | When the version starts with a digit, the rewritten agent still matches at the same position with its prefix unchanged. |
| `UserAgent.RewriteIdempotent` | src/gologin/index.ts:101-104 | With an all-digit version, rewriting an already rewritten user agent changes nothing. |
| `Proxy.ParseProxy` | src/utils/proxy.ts:6-15 | `null` exactly for the empty string. |
| `Proxy.ParseFields` | src/utils/proxy.ts:8-14 | For any list of colon-free fields joined by `:` into a non-empty string, the host is the first field, the port is `Number` of the second (`NaN` when missing), and the username and password are the third and fourth (`undefined` when missing). |
| `Proxy.ParseHostOnly` | src/utils/proxy.ts:8-14 | A bare host parses with port `NaN` and no credentials. |
| `Proxy.ParseThreeFields` | src/utils/proxy.ts:8-14 | `host:port:user` parses to host, `Number(port)`, username `user` and password `undefined`. |
| `Proxy.ParseFourFields` | src/utils/proxy.ts:8-14 | `host:port:user:pass` parses to host, `Number(port)`, user and pass, and any fifth and later fields change nothing. |
| `Proxy.ParseHostPort` | src/utils/proxy.ts:8-14 | `host:port` parses with username and password `undefined`. |
| `Proxy.NonNumericPortAccepted` | src/utils/proxy.ts:11 | A port beginning with a lower-case letter, which `Number` reads as `NaN`, is not rejected: parsing succeeds with port `NaN`. |
| `Proxy.ExtraFieldsIgnored` | src/utils/proxy.ts:8 | Appending `:<anything>` to a string of four or more fields does not change the parse. |
| `Proxy.AgentUrlShape` | src/utils/proxy.ts:23-45 | Whatever the credentials, the agent URL starts with `<protocol>://` and ends with the `host:port` address the egress record carries. |
| `Proxy.AgentUrlForms` | src/utils/proxy.ts:8-35 | For the text `host:port:user:pass` with a canonical port, the agent URL is `<protocol>://user:pass@host:port` when both are non-empty and `<protocol>://host:port` otherwise. For `host:port:user` and `host:port` it is always `<protocol>://host:port`. |
| `Proxy.AddressParsesBack` | src/utils/proxy.ts:8-45 | The recorded `host:port` address, `NaN` port included, parses back to the same host and port when the host holds no colon. |
| `Proxy.ParseProxyText` | src/utils/proxy.ts:8-45 | A string of two to four colon-free fields with a canonical port parses to exactly those fields, chooses the agent URL written out from them, and records the address `host:port`. |
| `Proxy.CheckProxy` | src/utils/proxy.ts:17-52 | Every failure's message starts with `An error proxy: `. The empty string fails with `An error proxy: Invalid proxy string`. A success keeps the protocol. |
| `Proxy.CheckProxySuccess` | src/utils/proxy.ts:17-48 | For `host:port[:user[:pass]]` with a canonical port, when the lookup through the URL written out from those fields succeeds, the record is its `query`, the protocol, `host:port`, and the username and password as written (`undefined` when absent). |
| `Proxy.CheckProxyAnyPort` | src/utils/proxy.ts:8-48 | For `host:port[:user[:pass]]` with any colon-free port text, a successful lookup through the chosen agent yields the record with its `query`, the protocol, the address `host:${Number(port)}`, and the credentials as written. So `h:08080` records `h:8080` and `h:abc` records `h:NaN`. |
| `Proxy.NonNumericPortRecorded` | src/utils/proxy.ts:11-45 | A port beginning with a lower-case letter is dialled as `<protocol>://host:NaN`, and on success the record's address is `host:NaN`. |
| `Proxy.AgentUrlAnyPort` | src/utils/proxy.ts:8-35 | For `host:port:user:pass` with any colon-free port text, the agent URL is `<protocol>://user:pass@host:${Number(port)}` when both credentials are non-empty and `<protocol>://host:${Number(port)}` otherwise; so `h:08080:u:p` dials `<protocol>://u:p@h:8080`. |
| `Proxy.LookupFailureAnyPort` | src/utils/proxy.ts:17-51 | For `host:port[:user[:pass]]` with any colon-free port text, when the lookup through the chosen agent fails, `checkProxy` throws `An error proxy: ` followed by that failure's message. |
| `Proxy.LookupFailureBareHost` | src/utils/proxy.ts:8-51 | A bare host is dialled as `<protocol>://host:NaN`; when that lookup fails, `checkProxy` throws `An error proxy: ` followed by its message. |
| `Proxy.ParseHostPortPrefix` | src/utils/proxy.ts:8-13 | A proxy string beginning `host:port` parses to that host and `Number(port)`. |
| `Proxy.CanonicalAddress` | src/utils/proxy.ts:8-45 | For a port written in canonical decimal, the returned `address` is the first two fields joined by `:`. |
| `Proxy.LookupFailureWrapped` | src/utils/proxy.ts:17-51 | For `host:port[:user[:pass]]` with a canonical port, when the lookup through the URL written out from those fields fails, `checkProxy` throws `An error proxy: ` followed by that failure's message. |
| `JsText.Split` | src/utils/proxy.ts:8 | `split` never yields an empty array. |
| `JsText.JoinSplit` | src/utils/proxy.ts:8 | Joining the pieces of a split with the separator gives back the original string. |
| `JsText.SplitJoin` | src/utils/proxy.ts:8 | Splitting separator-free pieces joined by the separator gives back those pieces. |
| `JsText.SplitPiecesFree` | src/utils/proxy.ts:8 | No piece of a split contains the separator. |
| `JsText.SplitAppend` | src/gologin/index.ts:24 | Splitting `a + sep + b` gives the pieces of `a` followed by the pieces of `b`. |
| `JsText.Decimal` | src/utils/proxy.ts:45 | The decimal rendering of a number is canonical: non-empty digits with no leading zero. |
| `JsText.DecimalValue` | src/utils/proxy.ts:45 | Reading back the decimal rendering of `n` gives `n`. |
| `JsText.ValueDecimal` | src/utils/proxy.ts:11 | Rendering the value of canonical decimal text gives back that text. |
| `JsText.NumberTextRoundTrip` | src/utils/proxy.ts:11 | For canonical decimal text `s`, `Number(s)` is its value, and `${Number(s)}` is `s` again. |
| `JsText.TextNumberRoundTrip` | src/utils/proxy.ts:45 | `Number` of the template rendering of any integer gives that integer back. |
| `JsText.ParseIntDigits` | src/gologin/index.ts:109-110 | On a non-empty run of digits, `parseInt` and `Number` agree on its value. |
| `JsText.ToNumber` | src/utils/proxy.ts:11 | `Number("")` is 0, text starting with a lower-case letter is `NaN`, and a negative value comes only from a leading `-`. |
| `JsText.ParseInt` | src/gologin/index.ts:109-110 | `parseInt` of text starting with a digit is a non-negative number; of empty text, or text starting with a lower-case letter, it is `NaN`. |
| `JsText.NumberAgreesWithParseInt` | src/gologin/index.ts:109-110 | Wherever `Number` reads an integer from non-empty text, `parseInt` reads the same one. |
| `JsText.ParseIntIgnoresTail` | src/gologin/index.ts:109-110 | `parseInt` stops at the first non-digit: `parseInt(a + t)` is the value of the digit run `a` when `t` does not start with a digit. |
| `JsText.ToText` | src/utils/proxy.ts:45 | `${n}` is `NaN` exactly for `NaN`; a non-negative number renders as canonical decimal, a negative one as `-` followed by canonical decimal. |

## Left out

- File-system effects are left out; they are opaque effects:
  - `rimraf.sync`, `fs.mkdirSync`, `fs.existsSync` (src/gologin/index.ts:31-32, 90-91);
  - writing `Default/Preferences` with `JSON.stringify(..., null, 2)` (src/gologin/index.ts:145-148).

  The model produces the preference record that would be written.
- `puppeteer.launch`, `getExecutablePath` and the returned browser handle (src/gologin/index.ts:54-62) are external calls. The model stops at the argument list.
- `Logger.info` is logging only.
- The asynchronous constructor and the un-awaited `generatePreferences` call in `createProfile` (src/gologin/index.ts:21, 83) are not modelled. A throw inside that call surfaces as an unhandled rejection rather than an error of the constructor.
- `{...preference}` is a shallow copy (src/gologin/index.ts:92-94), so nested objects of the module-level template are mutated in place. A second encoding in the same process without egress info would therefore keep the previous proxy credentials and public IP. The model starts every encoding from the template it is given.
- The template's own contents are not shown. Keys of it that `generatePreferences` never touches are not modelled. The model assumes that every nested object the code writes into exists. The source would throw a `TypeError` otherwise.
- `Number(text)` is modelled on a fragment: `""` is 0, an optionally signed run of decimal digits is its value, and everything else is `NaN`. JavaScript also accepts surrounding whitespace, fractions, exponents, `0x`/`0o`/`0b` prefixes and `Infinity`. Those inputs are `NaN` in the model.
- `parseInt(text)` is modelled as an optional sign followed by the longest run of decimal digits. Leading whitespace and the `0x` radix prefix are not modelled.
- Rendering a number as text is exact decimal. JavaScript's exponent form at 10^21 and above, and its loss of precision beyond 2^53, are not modelled. Neither is `JSON.stringify` writing `NaN` as `null`.
- `UserAgent.Rewrite`: the replacement string's `$` patterns are not interpreted. The bundled version is assumed to contain none.
- Gologin.NewSession: the source stores the caller's profile object and rewrites its resolution in place (src/gologin/index.ts:22, 27), so the caller sees the clamp too. The model only changes the copy held by the session, because values here have no identity.
- Gologin.WindowSizeMatchesScreen: the screen size and the window size agree only for canonical decimal fields. Elsewhere the two derivations differ: `parseInt` drops a fraction, a leading `+` or leading zeros, while the argument passes the text on unchanged (`1366.5x768` gives screen width 1366 but `--window-size=1366.5,768`; see `Gologin.FractionalWidthDiverges`). A width such as `2560.5` that JavaScript's `Number` reads as above 1920 is not clamped in the model, because `Number` is modelled only on integer text.
- `path.join` normalisation (collapsing `..` and duplicate separators) is not modelled. The profile path is the plain concatenation.
- Gologin.NewSession: the path separator is `/`. On Windows, which the tool also supports (src/utils/setup.ts:35-38), `path.join` writes `\`, so the profile path and the `--user-data-dir=` argument are `<root>\user-data-dir\<id>` there.
- `HttpsProxyAgent` and the axios GET request with its 10-second timeout (src/utils/proxy.ts:24-41) are the `lookup` parameter. A constructor or network failure is a `Failure` message from it.
- The response body is reduced to its `query` field. Its other fields are spread into the record but not modelled.
- src/utils/setup.ts (browser download, extraction, `chmod`) is I/O and not part of this model.
- src/main.ts (the entry point and the close handler that sanitises, compresses and deletes the profile directory) is orchestration around foreign code and not part of this model. Its `compress` call is not awaited before the directory is deleted, so no archive-before-delete order can be stated.
- Behaviour of the code worth noting:
  - A non-numeric port is accepted with port `NaN` rather than rejected (`Proxy.NonNumericPortAccepted`).
  - A malformed resolution is not rejected. Its missing fields render as `undefined` in `--window-size` and parse to `NaN` in the preferences.
  - `deviceType` is never an input; it is always unassigned.
