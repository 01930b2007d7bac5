/** The text of the oauth2_proxy configuration file and a reader that gets the configuration back. */
module Config {
  import opened Types

  datatype Cookie = Cookie(
    name: string, secret: string, domain: string, expire: string, refresh: string, secure: bool, httpOnly: bool)

  datatype Config = Config(
    port: int, clientID: string, clientSecret: string, oidcIssuerURL: string, redirectURL: string,
    loginURL: string, redeemURL: string, upstream: string, forwardToken: bool, cookie: Cookie)

  // ---------- values as text ----------

  function Digit(d: nat): char
    requires d < 10
  {
    '0' + d as char
  }

  function Natural(n: nat): string {
    if n < 10 then [Digit(n)] else Natural(n / 10) + [Digit(n % 10)]
  }

  /** The decimal form `fmt` gives an integer. */
  function Decimal(n: int): string {
    if n < 0 then "-" + Natural(-n) else Natural(n)
  }

  function Bool(b: bool): string { if b then "true" else "false" }

  function ReadNatural(s: string): Option<nat> {
    if s == "" || !('0' <= s[|s| - 1] <= '9') then None
    else if |s| == 1 then Some((s[0] - '0') as nat)
    else
      var high := ReadNatural(s[..|s| - 1]);
      if high.None? then None else Some(10 * high.value + (s[|s| - 1] - '0') as nat)
  }

  function ReadDecimal(s: string): Option<int> {
    if s != "" && s[0] == '-' then
      var n := ReadNatural(s[1..]);
      if n.None? then None else Some(0 - n.value)
    else
      var n := ReadNatural(s);
      if n.None? then None else Some(n.value)
  }

  function ReadBool(s: string): Option<bool> {
    if s == "true" then Some(true) else if s == "false" then Some(false) else None
  }

  lemma {:induction false} ReadNaturalInverts(n: nat)
    ensures ReadNatural(Natural(n)) == Some(n)
    ensures '\n' !in Natural(n) && Natural(n) != "" && Natural(n)[0] != '-'
  {
    if n >= 10 {
      ReadNaturalInverts(n / 10);
      var s := Natural(n);
      assert s[..|s| - 1] == Natural(n / 10);
    }
  }

  lemma ReadDecimalInverts(n: int)
    ensures ReadDecimal(Decimal(n)) == Some(n)
    ensures '\n' !in Decimal(n)
  {
    ReadNaturalInverts(if n < 0 then -n else n);
    assert n < 0 ==> Decimal(n)[1..] == Natural(-n);
  }

  /** The ports of the proxy and of its service. */
  lemma PortsSpelled()
    ensures Decimal(4180) == "4180" && Decimal(80) == "80" && Decimal(-1) == "-1"
  {
  }

  // ---------- the template ----------

  const FIELDS := 16

  /** The substituted fields, in the order in which the template uses them. */
  function FieldAt(c: Config, i: nat): string {
    match i
    case 0 => Decimal(c.port)
    case 1 => c.redirectURL
    case 2 => c.loginURL
    case 3 => c.redeemURL
    case 4 => c.upstream
    case 5 => c.clientID
    case 6 => c.clientSecret
    case 7 => Bool(c.forwardToken)
    case 8 => c.cookie.name
    case 9 => c.cookie.secret
    case 10 => c.cookie.domain
    case 11 => c.cookie.expire
    case 12 => c.cookie.refresh
    case 13 => Bool(c.cookie.secure)
    case 14 => Bool(c.cookie.httpOnly)
    case _ => c.oidcIssuerURL
  }

  function Fields(c: Config): (fields: seq<string>)
    ensures |fields| == FIELDS
    ensures forall i :: 0 <= i < FIELDS ==> fields[i] == FieldAt(c, i)
  {
    seq(FIELDS, i requires 0 <= i < FIELDS => FieldAt(c, i))
  }

  /** Fixed text that closes the line of the field before it, adds whole lines and starts the line of the next field. */
  datatype Segment = Segment(quoted: bool, above: string, start: string) {
    function Text(): string { Close(quoted) + WholeLines(above) + start }
  }

  function Close(quoted: bool): string { if quoted then "\"\n" else "\n" }

  function WholeLines(lines: string): string { if lines == "" then "" else lines + "\n" }

  /** The fixed text before, between and after the fields (without the template's comment lines). */
  function SegmentAt(i: nat): Segment {
    match i
    case 0 => Segment(false, "", "http_address = \":")
    case 1 => Segment(true, "", "redirect_url = \"")
    case 2 => Segment(true, "", "login_url = \"")
    case 3 => Segment(true, "", "redeem_url = \"")
    case 4 => Segment(true, "upstreams = [", "    \"")
    case 5 => Segment(true, "]\nrequest_logging = true", "client_id = \"")
    case 6 => Segment(true, "", "client_secret = \"")
    case 7 => Segment(true, "pass_basic_auth = false\npass_host_header = false", "pass_access_token = ")
    case 8 => Segment(false, "email_domains = [\n     \"*\"\n ]", "cookie_name = \"")
    case 9 => Segment(true, "", "cookie_secret = \"")
    case 10 => Segment(true, "", "cookie_domain = \"")
    case 11 => Segment(true, "", "cookie_expire = \"")
    case 12 => Segment(true, "", "cookie_refresh = \"")
    case 13 => Segment(true, "", "cookie_secure = ")
    case 14 => Segment(false, "", "cookie_httponly = ")
    case 15 => Segment(false, "provider = \"oidc\"", "oidc_issuer_url = \"")
    case _ => Segment(true, "scope = \"openid email profile groups federated:id\"\nskip_provider_button = true", "")
  }

  const SEGMENTS := 17

  function Segments(): (segments: seq<Segment>)
    ensures |segments| == SEGMENTS
  {
    seq(SEGMENTS, i requires 0 <= i < SEGMENTS => SegmentAt(i))
  }

  function Weave(segments: seq<Segment>, fields: seq<string>): string
    requires |segments| == |fields| + 1
  {
    if fields == [] then segments[0].Text()
    else segments[0].Text() + fields[0] + Weave(segments[1..], fields[1..])
  }

  function Render(c: Config): string { Weave(Segments(), Fields(c)) }

  // ---------- the lines of the file ----------

  /** `line` is a line of the text. */
  ghost predicate Shows(text: string, line: string) {
    exists pre, post :: text == pre + ("\n" + line + "\n") + post
  }

  /** What a field's line shows, between the text that starts it and the text that closes it. */
  function LineOf(start: string, field: string, quoted: bool): string {
    if quoted then start + field + "\"" else start + field
  }

  lemma ShowsLater(first: string, more: string, line: string)
    requires Shows(more, line)
    ensures Shows(first + more, line)
  {
    var pre, post :| more == pre + ("\n" + line + "\n") + post;
    assert first + more == (first + pre) + ("\n" + line + "\n") + post;
  }

  lemma ShowsHere(head: string, start: string, field: string, quoted: bool, post: string)
    ensures Shows(head + "\n" + start + field + (Close(quoted) + post), LineOf(start, field, quoted))
  {
    var line := LineOf(start, field, quoted);
    assert head + "\n" + start + field + (Close(quoted) + post) == head + ("\n" + line + "\n") + post;
  }

  lemma HeadOf(segment: Segment) returns (head: string)
    ensures segment.Text() == head + "\n" + segment.start
  {
    head := if segment.quoted then "\"" else "";
    if segment.above != "" {
      head := Close(segment.quoted) + segment.above;
    }
  }

  lemma CloseOf(segments: seq<Segment>, fields: seq<string>) returns (post: string)
    requires |segments| == |fields| + 1
    ensures Weave(segments, fields) == Close(segments[0].quoted) + post
  {
    post := WholeLines(segments[0].above) + segments[0].start;
    if fields != [] {
      post := post + fields[0] + Weave(segments[1..], fields[1..]);
    }
  }

  lemma {:induction false} WeaveShows(segments: seq<Segment>, fields: seq<string>, i: nat)
    requires |segments| == |fields| + 1 && i < |fields|
    ensures Shows(Weave(segments, fields), LineOf(segments[i].start, fields[i], segments[i + 1].quoted))
  {
    if i == 0 {
      var post := CloseOf(segments[1..], fields[1..]);
      var head := HeadOf(segments[0]);
      ShowsHere(head, segments[0].start, fields[0], segments[1].quoted, post);
    } else {
      WeaveShows(segments[1..], fields[1..], i - 1);
      ShowsLater(segments[0].Text() + fields[0], Weave(segments[1..], fields[1..]),
                 LineOf(segments[i].start, fields[i], segments[i + 1].quoted));
    }
  }

  /** The settings of the file, each on its line. */
  function SettingAt(c: Config, i: nat): string {
    match i
    case 0 => LineOf("http_address = \":", Decimal(c.port), true)
    case 1 => LineOf("redirect_url = \"", c.redirectURL, true)
    case 2 => LineOf("login_url = \"", c.loginURL, true)
    case 3 => LineOf("redeem_url = \"", c.redeemURL, true)
    case 4 => LineOf("    \"", c.upstream, true)
    case 5 => LineOf("client_id = \"", c.clientID, true)
    case 6 => LineOf("client_secret = \"", c.clientSecret, true)
    case 7 => LineOf("pass_access_token = ", if c.forwardToken then "true" else "false", false)
    case 8 => LineOf("cookie_name = \"", c.cookie.name, true)
    case 9 => LineOf("cookie_secret = \"", c.cookie.secret, true)
    case 10 => LineOf("cookie_domain = \"", c.cookie.domain, true)
    case 11 => LineOf("cookie_expire = \"", c.cookie.expire, true)
    case 12 => LineOf("cookie_refresh = \"", c.cookie.refresh, true)
    case 13 => LineOf("cookie_secure = ", if c.cookie.secure then "true" else "false", false)
    case 14 => LineOf("cookie_httponly = ", if c.cookie.httpOnly then "true" else "false", false)
    case _ => LineOf("oidc_issuer_url = \"", c.oidcIssuerURL, true)
  }

  lemma SettingsTo4(c: Config, i: nat)
    requires i < 5
    ensures LineOf(SegmentAt(i).start, FieldAt(c, i), SegmentAt(i + 1).quoted) == SettingAt(c, i)
  {
  }

  lemma SettingsTo9(c: Config, i: nat)
    requires 5 <= i < 10
    ensures LineOf(SegmentAt(i).start, FieldAt(c, i), SegmentAt(i + 1).quoted) == SettingAt(c, i)
  {
  }

  lemma SettingsTo13(c: Config, i: nat)
    requires 10 <= i < 14
    ensures LineOf(SegmentAt(i).start, FieldAt(c, i), SegmentAt(i + 1).quoted) == SettingAt(c, i)
  {
  }

  lemma SettingAt14(c: Config)
    ensures LineOf(SegmentAt(14).start, FieldAt(c, 14), SegmentAt(15).quoted) == SettingAt(c, 14)
  {
  }

  lemma SettingAt15(c: Config)
    ensures LineOf(SegmentAt(15).start, FieldAt(c, 15), SegmentAt(16).quoted) == SettingAt(c, 15)
  {
  }

  lemma SettingOf(c: Config, i: nat)
    requires i < FIELDS
    ensures LineOf(SegmentAt(i).start, FieldAt(c, i), SegmentAt(i + 1).quoted) == SettingAt(c, i)
  {
    if i < 5 {
      SettingsTo4(c, i);
    } else if i < 10 {
      SettingsTo9(c, i);
    } else if i < 14 {
      SettingsTo13(c, i);
    } else if i == 14 {
      SettingAt14(c);
    } else {
      SettingAt15(c);
    }
  }

  /** The file shows every setting, under its own name. */
  lemma RenderShows(c: Config, i: nat)
    requires i < FIELDS
    ensures Shows(Render(c), SettingAt(c, i))
  {
    SettingOf(c, i);
    WeaveShows(Segments(), Fields(c), i);
  }

  lemma AboveShows(segment: Segment, more: string)
    requires segment.above != ""
    ensures Shows(segment.Text() + more, segment.above)
  {
    var pre, post := if segment.quoted then "\"" else "", segment.start + more;
    assert segment.Text() + more == pre + ("\n" + segment.above + "\n") + post;
  }

  lemma {:induction false} WeaveShowsAbove(segments: seq<Segment>, fields: seq<string>, i: nat)
    requires |segments| == |fields| + 1 && i < |segments| && segments[i].above != ""
    ensures Shows(Weave(segments, fields), segments[i].above)
  {
    if i == 0 {
      if fields == [] {
        AboveShows(segments[0], "");
        assert segments[0].Text() + "" == segments[0].Text();
      } else {
        var first, rest := segments[0].Text(), Weave(segments[1..], fields[1..]);
        AboveShows(segments[0], fields[0] + rest);
        assert first + fields[0] + rest == first + (fields[0] + rest);
      }
    } else {
      WeaveShowsAbove(segments[1..], fields[1..], i - 1);
      ShowsLater(segments[0].Text() + fields[0], Weave(segments[1..], fields[1..]), segments[i].above);
    }
  }

  /** What the file says whatever the configuration, between the fields. */
  function FixedAt(i: nat): string {
    match i
    case 4 => "upstreams = ["
    case 5 => "]\nrequest_logging = true"
    case 7 => "pass_basic_auth = false\npass_host_header = false"
    case 8 => "email_domains = [\n     \"*\"\n ]"
    case 15 => "provider = \"oidc\""
    case 16 => "scope = \"openid email profile groups federated:id\"\nskip_provider_button = true"
    case _ => ""
  }

  lemma AboveTo7(i: nat)
    requires i == 4 || i == 5 || i == 7
    ensures SegmentAt(i).above == FixedAt(i) != ""
  {
  }

  lemma AboveFrom8(i: nat)
    requires i == 8 || i == 15 || i == 16
    ensures SegmentAt(i).above == FixedAt(i) != ""
  {
  }

  /** The file shows all of that. */
  lemma RenderShowsFixed(c: Config, i: nat)
    requires i in {4, 5, 7, 8, 15, 16}
    ensures FixedAt(i) != "" && Shows(Render(c), FixedAt(i))
  {
    if i <= 7 {
      AboveTo7(i);
    } else {
      AboveFrom8(i);
    }
    WeaveShowsAbove(Segments(), Fields(c), i);
  }

  // ---------- the reader ----------

  function LineLength(s: string): (n: nat)
    ensures n <= |s|
    ensures '\n' !in s[..n]
    ensures n < |s| ==> s[n] == '\n'
  {
    if s == "" || s[0] == '\n' then 0
    else
      var n := 1 + LineLength(s[1..]);
      assert s[..n] == [s[0]] + s[1..][..n - 1];
      n
  }

  /** Reads line by line: a field is what is left of its line before the text that closes it. */
  function ReadFields(segments: seq<Segment>, text: string): (r: Option<seq<string>>)
    requires |segments| > 0
    ensures r.Some? ==> |r.value| == |segments| - 1 && forall i :: 0 <= i < |r.value| ==> '\n' !in r.value[i]
  {
    var first := segments[0].Text();
    if !(first <= text) then None
    else if |segments| == 1 then
      if text == first then Some([]) else None
    else
      var rest := text[|first|..];
      var n := LineLength(rest) - if segments[1].quoted then 1 else 0;
      if n < 0 then None
      else
        var more := ReadFields(segments[1..], rest[n..]);
        if more.None? then None
        else
          assert forall i :: 0 <= i < n ==> rest[i] == rest[..LineLength(rest)][i];
          Some([rest[..n]] + more.value)
  }

  function FromFields(f: seq<string>): Option<Config>
    requires |f| == FIELDS
  {
    var port, token := ReadDecimal(f[0]), ReadBool(f[7]);
    var secure, httpOnly := ReadBool(f[13]), ReadBool(f[14]);
    if port.None? || token.None? || secure.None? || httpOnly.None? then None
    else
      Some(Config(port.value, f[5], f[6], f[15], f[1], f[2], f[3], f[4], token.value,
                  Cookie(f[8], f[9], f[10], f[11], f[12], secure.value, httpOnly.value)))
  }

  function ReadWith(segments: seq<Segment>, text: string): Option<Config>
    requires |segments| == SEGMENTS
  {
    var r := ReadFields(segments, text);
    if r.None? then None else FromFields(r.value)
  }

  function ReadConfig(text: string): Option<Config> { ReadWith(Segments(), text) }

  /** What a caller can check beforehand: no value spans lines. Double quotes do no harm. */
  predicate SingleLine(c: Config) {
    && '\n' !in c.redirectURL && '\n' !in c.loginURL && '\n' !in c.redeemURL && '\n' !in c.upstream
    && '\n' !in c.clientID && '\n' !in c.clientSecret && '\n' !in c.oidcIssuerURL
    && '\n' !in c.cookie.name && '\n' !in c.cookie.secret && '\n' !in c.cookie.domain
    && '\n' !in c.cookie.expire && '\n' !in c.cookie.refresh
  }

  lemma {:induction false} LineLengthSkips(field: string, rest: string)
    requires '\n' !in field
    ensures LineLength(field + rest) == |field| + LineLength(rest)
  {
    if field == "" {
      assert field + rest == rest;
    } else {
      assert (field + rest)[1..] == field[1..] + rest;
      LineLengthSkips(field[1..], rest);
    }
  }

  lemma {:induction false} ReadFieldsInverts(segments: seq<Segment>, fields: seq<string>)
    requires |segments| == |fields| + 1
    requires forall i :: 0 <= i < |fields| ==> '\n' !in fields[i]
    ensures ReadFields(segments, Weave(segments, fields)) == Some(fields)
  {
    if fields != [] {
      var more := Weave(segments[1..], fields[1..]);
      WeaveCloses(segments[1..], fields[1..]);
      LineLengthSkips(fields[0], more);
      ReadFieldsInverts(segments[1..], fields[1..]);
      ReadOne(segments, fields, more);
    }
  }

  lemma WeaveCloses(segments: seq<Segment>, fields: seq<string>)
    requires |segments| == |fields| + 1
    ensures LineLength(Weave(segments, fields)) == if segments[0].quoted then 1 else 0
  {
    var text := Weave(segments, fields);
    assert text[0] == segments[0].Text()[0];
    if segments[0].quoted {
      assert text[1..][0] == segments[0].Text()[1];
    }
  }

  lemma Splits(first: string, field: string, more: string)
    ensures var text := first + field + more;
            first <= text && text[|first|..] == field + more && text[|first|..][..|field|] == field &&
            text[|first|..][|field|..] == more
  {
    var text := first + field + more;
    assert text == first + (field + more);
    assert text[|first|..] == field + more;
  }

  lemma ReadOne(segments: seq<Segment>, fields: seq<string>, more: string)
    requires |segments| == |fields| + 1 && fields != []
    requires more == Weave(segments[1..], fields[1..])
    requires ReadFields(segments[1..], more) == Some(fields[1..])
    requires LineLength(fields[0] + more) == |fields[0]| + if segments[1].quoted then 1 else 0
    ensures ReadFields(segments, Weave(segments, fields)) == Some(fields)
  {
    Splits(segments[0].Text(), fields[0], more);
    assert [fields[0]] + fields[1..] == fields;
  }

  lemma SingleLineFields(c: Config)
    requires SingleLine(c)
    ensures forall i :: 0 <= i < |Fields(c)| ==> '\n' !in Fields(c)[i]
  {
    ReadDecimalInverts(c.port);
    assert '\n' !in "true" && '\n' !in "false";
  }

  lemma FromFieldsInverts(c: Config)
    ensures FromFields(Fields(c)) == Some(c)
  {
    ReadDecimalInverts(c.port);
  }

  lemma ReadWithInverts(segments: seq<Segment>, c: Config)
    requires |segments| == SEGMENTS
    ensures ReadWith(segments, Weave(segments, Fields(c))) == Some(c) <==> SingleLine(c)
  {
    if SingleLine(c) {
      SingleLineFields(c);
      ReadFieldsInverts(segments, Fields(c));
      FromFieldsInverts(c);
    }
  }

  /** The reader recovers a rendered configuration exactly when no value spans lines. */
  lemma ReadConfigInverts(c: Config)
    ensures ReadConfig(Render(c)) == Some(c) <==> SingleLine(c)
  {
    ReadWithInverts(Segments(), c);
  }

  function Breaks(s: string): nat { if s == "" then 0 else (if s[0] == '\n' then 1 else 0) + Breaks(s[1..]) }

  function TotalBreaks(ss: seq<string>): nat { if ss == [] then 0 else Breaks(ss[0]) + TotalBreaks(ss[1..]) }

  function FixedBreaks(ss: seq<Segment>): nat { if ss == [] then 0 else Breaks(ss[0].Text()) + FixedBreaks(ss[1..]) }

  lemma {:induction false} BreaksAppend(s: string, t: string)
    ensures Breaks(s + t) == Breaks(s) + Breaks(t)
  {
    if s == "" {
      assert s + t == t;
    } else {
      assert (s + t)[1..] == s[1..] + t;
      BreaksAppend(s[1..], t);
    }
  }

  lemma {:induction false} NoBreaks(s: string)
    ensures Breaks(s) == 0 <==> '\n' !in s
  {
    if s != "" {
      NoBreaks(s[1..]);
      assert s == [s[0]] + s[1..];
    }
  }

  lemma {:induction false} NoBreaksIn(ss: seq<string>)
    ensures TotalBreaks(ss) == 0 <==> forall i :: 0 <= i < |ss| ==> '\n' !in ss[i]
  {
    if ss != [] {
      NoBreaks(ss[0]);
      NoBreaksIn(ss[1..]);
      assert forall i :: 1 <= i < |ss| ==> ss[i] == ss[1..][i - 1];
      assert forall i :: 0 <= i < |ss| - 1 ==> ss[1..][i] == ss[i + 1];
    }
  }

  lemma {:induction false} WeaveBreaks(segments: seq<Segment>, fields: seq<string>)
    requires |segments| == |fields| + 1
    ensures Breaks(Weave(segments, fields)) == FixedBreaks(segments) + TotalBreaks(fields)
  {
    if fields != [] {
      var first, more := segments[0].Text(), Weave(segments[1..], fields[1..]);
      BreaksAppend(first + fields[0], more);
      BreaksAppend(first, fields[0]);
      WeaveBreaks(segments[1..], fields[1..]);
    }
  }

  lemma FieldsSingleLine(c: Config)
    requires TotalBreaks(Fields(c)) == 0
    ensures SingleLine(c)
  {
    var f := Fields(c);
    NoBreaksIn(f);
    assert f[1] == c.redirectURL && f[2] == c.loginURL && f[3] == c.redeemURL && f[4] == c.upstream;
    assert f[5] == c.clientID && f[6] == c.clientSecret && f[15] == c.oidcIssuerURL && f[8] == c.cookie.name;
    assert f[9] == c.cookie.secret && f[10] == c.cookie.domain && f[11] == c.cookie.expire && f[12] == c.cookie.refresh;
  }

  /** So the text of such a configuration is the text of no other configuration at all. */
  lemma RenderInjective(c: Config, d: Config)
    requires SingleLine(c)
    ensures Render(c) == Render(d) <==> c == d
  {
    if Render(c) == Render(d) {
      WeaveBreaks(Segments(), Fields(c));
      WeaveBreaks(Segments(), Fields(d));
      SingleLineFields(c);
      NoBreaksIn(Fields(c));
      FieldsSingleLine(d);
      ReadConfigInverts(c);
      ReadConfigInverts(d);
    }
  }

  lemma WeaveFrom(segments: seq<Segment>, fields: seq<string>, i: nat)
    requires |segments| == |fields| + 1 && i < |fields|
    ensures Weave(segments[i..], fields[i..]) ==
            segments[i].Text() + fields[i] + Weave(segments[i + 1..], fields[i + 1..])
  {
    assert segments[i..][1..] == segments[i + 1..] && fields[i..][1..] == fields[i + 1..];
  }

  lemma WeaveThree(segments: seq<Segment>, fields: seq<string>)
    requires |segments| == |fields| + 1 && |fields| >= 3
    ensures Weave(segments, fields) ==
            segments[0].Text() + fields[0] + (segments[1].Text() + fields[1] +
            (segments[2].Text() + fields[2] + Weave(segments[3..], fields[3..])))
  {
    WeaveFrom(segments, fields, 0);
    WeaveFrom(segments, fields, 1);
    WeaveFrom(segments, fields, 2);
    assert segments[0..] == segments && fields[0..] == fields;
  }

  lemma WeaveShifts(segments: seq<Segment>, f: seq<string>, g: seq<string>, link: string, l: string)
    requires |segments| == |f| + 1 == |g| + 1 && |f| >= 3 && segments[2].Text() == link
    requires f[0] == g[0] && f[3..] == g[3..]
    requires f[1] == g[1] + link + l && g[2] == l + link + f[2]
    ensures Weave(segments, f) == Weave(segments, g)
  {
    WeaveThree(segments, f);
    WeaveThree(segments, g);
    Regroup(segments[1].Text(), g[1], link, l, f[2], Weave(segments[3..], f[3..]));
  }

  lemma Regroup(a: string, r: string, link: string, l: string, m: string, rest: string)
    ensures a + (r + link + l) + (link + m + rest) == a + r + (link + (l + link + m) + rest)
  {
  }

  lemma SegmentTwo()
    ensures Segments()[2].Text() == "\"\nlogin_url = \""
  {
    assert Segments()[2] == SegmentAt(2);
  }

  /** Without that condition it fails: a value can hold the text that ends its line and starts another. */
  lemma RenderNotInjective(c: Config, r: string, l: string, m: string)
    ensures var link := "\"\nlogin_url = \"";
            var d := c.(redirectURL := r + link + l, loginURL := m);
            var e := c.(redirectURL := r, loginURL := l + link + m);
            d != e && Render(d) == Render(e)
  {
    var link := "\"\nlogin_url = \"";
    var d := c.(redirectURL := r + link + l, loginURL := m);
    var e := c.(redirectURL := r, loginURL := l + link + m);
    assert |d.redirectURL| > |e.redirectURL|;
    SegmentTwo();
    assert Fields(d)[3..] == Fields(e)[3..];
    WeaveShifts(Segments(), Fields(d), Fields(e), link, l);
  }
}
