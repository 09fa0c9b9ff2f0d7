/**
 * The connection settings the transport's constructor derives from its
 * options: the transport name, the database, the host with its scheme, the
 * port, the url handed to the CouchDB client, the TLS flag and the credentials.
 */
module Config {
  import opened Wrappers
  import opened Json
  import opened Decimal

  datatype Credentials = Credentials(username: string, password: string)

  /** The options object the constructor receives; absent properties are `None`. */
  datatype Options = Options(
    name: Option<string>,
    db: Option<string>,
    database: Option<string>,   // deprecated alias of `db`
    host: Option<string>,
    port: Option<nat>,
    auth: Option<Credentials>,
    ssl: bool,                  // deprecated alias of `secure`
    secure: bool,
    user: Option<string>,       // legacy credentials
    pass: Option<string>,
    silent: bool)

  const DefaultName := "couchdb"
  const DefaultDb := "winston"
  const FallbackHost := "http://localhost"
  const DefaultPort: nat := 5984

  predicate StartsWith(s: string, prefix: string) {
    |prefix| <= |s| && s[..|prefix|] == prefix
  }

  function LowerAscii(c: char): char {
    if 'A' <= c <= 'Z' then (c as int + 32) as char else c
  }

  /** A case-insensitive prefix test, as a regular expression with the `i` flag makes it. */
  predicate StartsWithIgnoreCase(s: string, prefix: string) {
    |prefix| <= |s| && forall i :: 0 <= i < |prefix| ==> LowerAscii(s[i]) == LowerAscii(prefix[i])
  }

  /** `/^https?:/.test(options.host)`; an absent host is matched as the text "undefined". */
  predicate HasHttpScheme(host: Option<string>) {
    host.Some? && (StartsWith(host.value, "http:") || StartsWith(host.value, "https:"))
  }

  function NameOf(o: Options): string {
    Or(o.name, DefaultName)
  }

  function DbOf(o: Options): string {
    Or(o.db, Or(o.database, DefaultDb))
  }

  /** The host as configured when it carries a scheme, otherwise with `http://` put in front. */
  function HostOf(o: Options): (h: string)
    ensures StartsWith(h, "http:") || StartsWith(h, "https:")
    ensures h == o.host.GetOr("") <==> HasHttpScheme(o.host)
    ensures !HasHttpScheme(o.host) ==> h == "http://" + Or(o.host, FallbackHost)
  {
    if HasHttpScheme(o.host) then o.host.value
    else
      var h := "http://" + Or(o.host, FallbackHost);
      assert h[..5] == "http:";
      h
  }

  function PortOf(o: Options): nat {
    if o.port.Some? && o.port.value != 0 then o.port.value else DefaultPort
  }

  function UrlOf(o: Options): string {
    HostOf(o) + ":" + Show(PortOf(o))
  }

  predicate SecureOf(o: Options) {
    StartsWithIgnoreCase(HostOf(o), "https:") || o.ssl || o.secure
  }

  function AuthOf(o: Options): Option<Credentials> {
    if o.user.Some? && o.user.value != "" then Some(Credentials(o.user.value, Or(o.pass, "")))
    else o.auth
  }

  /** Each setting takes the option when it is given (truthy) and its default otherwise. */
  lemma OptionPrecedence(o: Options)
    ensures NameOf(o) == (if o.name.Some? && o.name.value != "" then o.name.value else "couchdb")
    ensures o.db.Some? && o.db.value != "" ==> DbOf(o) == o.db.value
    ensures (o.db.None? || o.db.value == "") && o.database.Some? && o.database.value != "" ==> DbOf(o) == o.database.value
    ensures (o.db.None? || o.db.value == "") && (o.database.None? || o.database.value == "") ==> DbOf(o) == "winston"
    ensures PortOf(o) == (if o.port.Some? && o.port.value != 0 then o.port.value else 5984)
    ensures o.user.Some? && o.user.value != "" ==>
      AuthOf(o) == Some(Credentials(o.user.value, if o.pass.Some? then o.pass.value else ""))
    ensures (o.user.None? || o.user.value == "") ==> AuthOf(o) == o.auth
  {
  }

  /** With no host the fallback is prefixed as well, giving a doubled scheme. */
  lemma {:induction false} MissingHostDoublesScheme(o: Options)
    requires o.host.None? || o.host == Some("")
    ensures HostOf(o) == "http://http://localhost"
    ensures o.port.None? ==> UrlOf(o) == "http://http://localhost:5984"
    ensures !o.ssl && !o.secure ==> !SecureOf(o)
  {
    assert !StartsWith("", "http:");
    if o.port.None? {
      calc {
        Show(5984);
        Show(598) + [Digit(4)];
        Show(59) + [Digit(8)] + [Digit(4)];
        Show(5) + [Digit(9)] + [Digit(8)] + [Digit(4)];
      }
    }
    assert HostOf(o)[4] == ':';
  }

  /** `secure` comes out true exactly when the given host starts with lower-case `https:` or a flag is set. */
  lemma {:induction false} SecureIff(o: Options)
    ensures SecureOf(o) <==> (o.host.Some? && StartsWith(o.host.value, "https:")) || o.ssl || o.secure
  {
    var h := HostOf(o);
    if HasHttpScheme(o.host) && StartsWith(h, "https:") {
      assert forall i :: 0 <= i < 6 ==> h[i] == "https:"[i];
    } else {
      if HasHttpScheme(o.host) {
        assert StartsWith(h, "http:");
      } else {
        assert h[..5] == "http:";
      }
      assert h[4] == ':';
      assert LowerAscii(h[4]) != LowerAscii("https:"[4]);
    }
  }

  /** The last index of `c` in `s`. */
  function LastIndexOf(s: string, c: char): (r: Option<nat>)
    ensures r.Some? ==> r.value < |s| && s[r.value] == c && forall j :: r.value < j < |s| ==> s[j] != c
    ensures r.None? ==> forall j :: 0 <= j < |s| ==> s[j] != c
    decreases |s|
  {
    if s == [] then None
    else if s[|s| - 1] == c then Some(|s| - 1)
    else LastIndexOf(s[..|s| - 1], c)
  }

  /** Reads a url back as the host before its last colon and the decimal port after it. */
  function SplitUrl(url: string): Option<(string, nat)> {
    match LastIndexOf(url, ':')
    case None => None
    case Some(i) =>
      var digits := url[i + 1..];
      if digits != [] && AllDigits(digits) then Some((url[..i], Parse(digits))) else None
  }

  /** The url is exactly `host:port`: splitting it recovers both. */
  lemma {:induction false} UrlRoundTrip(o: Options)
    ensures SplitUrl(UrlOf(o)) == Some((HostOf(o), PortOf(o)))
  {
    var h, p := HostOf(o), Show(PortOf(o));
    var url := UrlOf(o);
    assert url == h + ":" + p;
    assert url[|h|] == ':';
    forall j | |h| < j < |url| ensures url[j] != ':' {
      assert url[j] == p[j - |h| - 1];
    }
    assert LastIndexOf(url, ':') == Some(|h|);
    assert url[|h| + 1..] == p;
    assert url[..|h|] == h;
    ParseShow(PortOf(o));
  }
}
