/**
  The nginx site configuration a virtual host is given. The text is built as
  a sequence of lines, each rendered with four spaces of indentation per
  nesting level and terminated by a newline; `Render` is the string the
  controller writes to `/etc/nginx/sites-available/{domain}`.
*/
module NginxConfig {
  import opened Common

  /** The directives a site configuration uses. */
  datatype Name =
    | Listen | SslCertificate | SslCertificateKey | SslProtocols | SslCiphers | SslPreferServerCiphers
    | ServerName | Root | Index | AddHeader | TryFiles
    | FastcgiPass | FastcgiIndex | FastcgiParam | Include | Deny | Return

  function Keyword(n: Name): string
  {
    match n
    case Listen => "listen"
    case SslCertificate => "ssl_certificate"
    case SslCertificateKey => "ssl_certificate_key"
    case SslProtocols => "ssl_protocols"
    case SslCiphers => "ssl_ciphers"
    case SslPreferServerCiphers => "ssl_prefer_server_ciphers"
    case ServerName => "server_name"
    case Root => "root"
    case Index => "index"
    case AddHeader => "add_header"
    case TryFiles => "try_files"
    case FastcgiPass => "fastcgi_pass"
    case FastcgiIndex => "fastcgi_index"
    case FastcgiParam => "fastcgi_param"
    case Include => "include"
    case Deny => "deny"
    case Return => "return"
  }

  /** One line of a configuration file, before it is turned into text. */
  datatype Line =
    | Blank
    | Open(depth: nat, header: string)
    | Close(depth: nat)
    | Directive(depth: nat, name: Name, args: string)
    | Comment(depth: nat, text: string)
    | Verbatim(depth: nat, text: string)

  function Indent(depth: nat): string
  {
    if depth == 0 then "" else "    " + Indent(depth - 1)
  }

  function Text(l: Line): string
  {
    match l
    case Blank => ""
    case Open(d, h) => Indent(d) + h + " {"
    case Close(d) => Indent(d) + "}"
    case Directive(d, n, a) => Indent(d) + Keyword(n) + " " + a + ";"
    case Comment(d, t) => Indent(d) + "# " + t
    case Verbatim(d, t) => Indent(d) + t
  }

  /** Every line followed by a newline. */
  function Join(lines: seq<Line>): string
  {
    if lines == [] then "" else Text(lines[0]) + "\n" + Join(lines[1..])
  }

  /** The PHP-FPM pool socket of one system user and PHP version. */
  function SocketPath(php: string, user: string): string
  {
    "unix:/var/run/php/php" + php + "-fpm-" + user + ".sock"
  }

  /** A file of the Let's Encrypt certificate lineage of a domain. */
  function LivePath(domain: string, file: string): string
  {
    "/etc/letsencrypt/live/" + domain + "/" + file
  }

  const Ciphers := "ECDHE-RSA-AES256-GCM-SHA512:DHE-RSA-AES256-GCM-SHA512:ECDHE-RSA-AES256-GCM-SHA384:DHE-RSA-AES256-GCM-SHA384"

  /** The listening sockets of the main server block, and its TLS settings when TLS is on. */
  function ListenLines(ssl: bool, domain: string): seq<Line>
  {
    if ssl then
      [ Directive(1, Listen, "443 ssl http2"),
        Directive(1, Listen, "[::]:443 ssl http2"),
        Directive(1, SslCertificate, LivePath(domain, "fullchain.pem")),
        Directive(1, SslCertificateKey, LivePath(domain, "privkey.pem")),
        Directive(1, SslProtocols, "TLSv1.2 TLSv1.3"),
        Directive(1, SslCiphers, Ciphers),
        Directive(1, SslPreferServerCiphers, "off") ]
    else
      [ Directive(1, Listen, "80"),
        Directive(1, Listen, "[::]:80") ]
  }

  /** Names, security headers and the three location blocks of the main server block. */
  function SiteLines(domain: string, root: string, user: string, php: string): seq<Line>
  {
    [ Directive(1, ServerName, domain),
      Directive(1, Root, root),
      Directive(1, Index, "index.php index.html index.htm"),
      Blank,
      Comment(1, "Security headers"),
      Directive(1, AddHeader, "X-Frame-Options DENY"),
      Directive(1, AddHeader, "X-Content-Type-Options nosniff"),
      Directive(1, AddHeader, "X-XSS-Protection \"1; mode=block\""),
      Blank,
      Open(1, "location /"),
      Directive(2, TryFiles, "$uri $uri/ /index.php?$query_string"),
      Close(1),
      Blank,
      Open(1, "location ~ \\.php$"),
      Directive(2, FastcgiPass, SocketPath(php, user)),
      Directive(2, FastcgiIndex, "index.php"),
      Directive(2, FastcgiParam, "SCRIPT_FILENAME $realpath_root$fastcgi_script_name"),
      Directive(2, Include, "fastcgi_params"),
      Close(1),
      Blank,
      Open(1, "location ~ /\\.ht"),
      Directive(2, Deny, "all"),
      Close(1),
      Blank ]
  }

  const CustomHeading := "Custom configuration"

  /** The operator's fragment, copied verbatim when it is PHP-truthy. */
  function CustomLines(custom: Option<string>): seq<Line>
  {
    if Truthy(custom) then [Comment(1, CustomHeading), Verbatim(1, custom.value), Blank] else []
  }

  /** The second server block of a TLS site: plain HTTP answered with a permanent redirect. */
  function RedirectLines(domain: string): seq<Line>
  {
    [ Blank,
      Open(0, "server"),
      Directive(1, Listen, "80"),
      Directive(1, Listen, "[::]:80"),
      Directive(1, ServerName, domain),
      Directive(1, Return, "301 https://$server_name$request_uri"),
      Close(0) ]
  }

  function MainBlock(domain: string, root: string, user: string, php: string, ssl: bool, custom: Option<string>): seq<Line>
  {
    [Open(0, "server")] + ListenLines(ssl, domain) + SiteLines(domain, root, user, php) + CustomLines(custom) + [Close(0)]
  }

  function ConfigLines(domain: string, root: string, user: string, php: string, ssl: bool, custom: Option<string>): seq<Line>
  {
    MainBlock(domain, root, user, php, ssl, custom) + (if ssl then RedirectLines(domain) else [])
  }

  /** The configuration text of a virtual host. */
  function Render(domain: string, root: string, user: string, php: string, ssl: bool, custom: Option<string>): string
  {
    Join(ConfigLines(domain, root, user, php, ssl, custom))
  }

  /**
    The arguments a configuration is rendered from. The registry column and
    the file in sites-available hold `Render` of one of these; the model keeps
    the arguments and obtains the text with `Text`.
  */
  datatype Site = Site(domain: string, root: string, user: string, php: string, ssl: bool, custom: Option<string>)
  {
    function Text(): string
    {
      Render(domain, root, user, php, ssl, custom)
    }
  }

  // ------------------------------------------------------------ observations

  /** The arguments of every directive called `name`. */
  function Args(lines: seq<Line>, name: Name): set<string>
  {
    set i | 0 <= i < |lines| && lines[i].Directive? && lines[i].name == name :: lines[i].args
  }

  /** How many times `x` occurs in `lines`. */
  function Count(lines: seq<Line>, x: Line): nat
  {
    if lines == [] then 0 else (if lines[0] == x then 1 else 0) + Count(lines[1..], x)
  }

  lemma {:induction false} CountAppend(a: seq<Line>, b: seq<Line>, x: Line)
    ensures Count(a + b, x) == Count(a, x) + Count(b, x)
  {
    if a == [] {
      assert a + b == b;
    } else {
      assert (a + b)[1..] == a[1..] + b;
      CountAppend(a[1..], b, x);
    }
  }

  lemma {:induction false} CountAbsent(a: seq<Line>, x: Line)
    requires x !in a
    ensures Count(a, x) == 0
  {
    if a != [] {
      CountAbsent(a[1..], x);
    }
  }

  lemma {:induction false} JoinAppend(a: seq<Line>, b: seq<Line>)
    ensures Join(a + b) == Join(a) + Join(b)
  {
    if a == [] {
      assert a + b == b;
    } else {
      assert (a + b)[1..] == a[1..] + b;
      JoinAppend(a[1..], b);
    }
  }

  lemma ArgsAppend(a: seq<Line>, b: seq<Line>, name: Name)
    ensures Args(a + b, name) == Args(a, name) + Args(b, name)
  {
    var ab := a + b;
    forall y | y in Args(ab, name)
      ensures y in Args(a, name) + Args(b, name)
    {
      var i :| 0 <= i < |ab| && ab[i].Directive? && ab[i].name == name && ab[i].args == y;
      if i >= |a| {
        assert b[i - |a|] == ab[i];
      }
    }
    forall y | y in Args(b, name)
      ensures y in Args(ab, name)
    {
      var i :| 0 <= i < |b| && b[i].Directive? && b[i].name == name && b[i].args == y;
      assert ab[|a| + i] == b[i];
    }
    forall y | y in Args(a, name)
      ensures y in Args(ab, name)
    {
      var i :| 0 <= i < |a| && a[i].Directive? && a[i].name == name && a[i].args == y;
      assert ab[i] == a[i];
    }
  }

  /**
    How the observations of a whole configuration split over its parts: the
    opening and closing lines of the main block are not directives and the
    main block opens exactly once.
  */
  lemma ObserveParts(o: Line, a: seq<Line>, b: seq<Line>, c: seq<Line>, cl: Line, r: seq<Line>, name: Name)
    requires !o.Directive? && !cl.Directive? && cl != o
    requires o !in a && o !in b && o !in c
    ensures Args([o] + a + b + c + [cl] + r, name) == Args(a, name) + Args(b, name) + Args(c, name) + Args(r, name)
    ensures Count([o] + a + b + c + [cl] + r, o) == 1 + Count(r, o)
  {
    ArgsAppend([o] + a + b + c + [cl], r, name);
    ArgsAppend([o] + a + b + c, [cl], name);
    ArgsAppend([o] + a + b, c, name);
    ArgsAppend([o] + a, b, name);
    ArgsAppend([o], a, name);
    assert Args([o], name) == {};
    assert Args([cl], name) == {};
    CountAppend([o] + a + b + c + [cl], r, o);
    CountAppend([o] + a + b + c, [cl], o);
    CountAppend([o] + a + b, c, o);
    CountAppend([o] + a, b, o);
    CountAppend([o], a, o);
    CountAbsent(a, o);
    CountAbsent(b, o);
    CountAbsent(c, o);
    assert Count([cl], o) == 0;
    assert Count([o], o) == 1;
  }

  // ------------------------------------------------------- per-part facts

  lemma ListenFacts(ssl: bool, domain: string)
    ensures Open(0, "server") !in ListenLines(ssl, domain)
    ensures Args(ListenLines(ssl, domain), Listen)
         == if ssl then {"443 ssl http2", "[::]:443 ssl http2"} else {"80", "[::]:80"}
  {
    var a := ListenLines(ssl, domain);
    assert a[0].args == if ssl then "443 ssl http2" else "80";
    assert a[1].args == if ssl then "[::]:443 ssl http2" else "[::]:80";
  }

  lemma ListenCertificates(ssl: bool, domain: string)
    ensures Args(ListenLines(ssl, domain), SslCertificate) == if ssl then {LivePath(domain, "fullchain.pem")} else {}
    ensures Args(ListenLines(ssl, domain), SslCertificateKey) == if ssl then {LivePath(domain, "privkey.pem")} else {}
    ensures Args(ListenLines(ssl, domain), Return) == {}
    ensures Args(ListenLines(ssl, domain), FastcgiPass) == {}
  {
    var a := ListenLines(ssl, domain);
    if ssl {
      assert a[2].args == LivePath(domain, "fullchain.pem");
      assert a[3].args == LivePath(domain, "privkey.pem");
    }
  }

  lemma SiteLinesHaveNoServerBlock(domain: string, root: string, user: string, php: string)
    ensures Open(0, "server") !in SiteLines(domain, root, user, php)
  {
  }

  lemma SiteLinesLackTlsAndListen(domain: string, root: string, user: string, php: string)
    ensures Args(SiteLines(domain, root, user, php), Listen) == {}
    ensures Args(SiteLines(domain, root, user, php), SslCertificate) == {}
    ensures Args(SiteLines(domain, root, user, php), SslCertificateKey) == {}
    ensures Args(SiteLines(domain, root, user, php), Return) == {}
  {
    SiteLinesLack(domain, root, user, php, Listen);
    SiteLinesLack(domain, root, user, php, SslCertificate);
    SiteLinesLack(domain, root, user, php, SslCertificateKey);
    SiteLinesLack(domain, root, user, php, Return);
  }

  /** No `listen`, certificate, key or `return` directive is among the site lines. */
  lemma SiteLinesLack(domain: string, root: string, user: string, php: string, name: Name)
    requires name in {Listen, SslCertificate, SslCertificateKey, Return}
    ensures Args(SiteLines(domain, root, user, php), name) == {}
  {
  }

  lemma SiteLinesPassToPool(domain: string, root: string, user: string, php: string)
    ensures Args(SiteLines(domain, root, user, php), FastcgiPass) == {SocketPath(php, user)}
  {
    var s := SiteLines(domain, root, user, php);
    assert s[14] == Directive(2, FastcgiPass, SocketPath(php, user));
  }

  /** The PHP location block's `fastcgi_pass` line occurs exactly once among the site lines. */
  lemma SiteLinesPassOnce(domain: string, root: string, user: string, php: string)
    ensures Count(SiteLines(domain, root, user, php), Directive(2, FastcgiPass, SocketPath(php, user))) == 1
  {
    var s, pass := SiteLines(domain, root, user, php), Directive(2, FastcgiPass, SocketPath(php, user));
    assert s[14] == pass;
    CountOnce(s, 14, pass);
  }

  /** A line found at index `i` and nowhere else is counted once. */
  lemma {:induction false} CountOnce(lines: seq<Line>, i: nat, x: Line)
    requires i < |lines| && lines[i] == x
    requires forall j | 0 <= j < |lines| && j != i :: lines[j] != x
    ensures Count(lines, x) == 1
  {
    if i == 0 {
      assert x !in lines[1..] by {
        forall j | 0 <= j < |lines[1..]|
          ensures lines[1..][j] != x
        {
          assert lines[1..][j] == lines[j + 1];
        }
      }
      CountAbsent(lines[1..], x);
    } else {
      forall j | 0 <= j < |lines[1..]| && j != i - 1
        ensures lines[1..][j] != x
      {
        assert lines[1..][j] == lines[j + 1];
      }
      CountOnce(lines[1..], i - 1, x);
    }
  }

  lemma CustomLinesFacts(custom: Option<string>, name: Name)
    ensures Open(0, "server") !in CustomLines(custom)
    ensures Args(CustomLines(custom), name) == {}
  {
  }

  lemma RedirectFacts(domain: string)
    ensures Count(RedirectLines(domain), Open(0, "server")) == 1
    ensures Args(RedirectLines(domain), Listen) == {"80", "[::]:80"}
    ensures Args(RedirectLines(domain), Return) == {"301 https://$server_name$request_uri"}
    ensures Args(RedirectLines(domain), SslCertificate) == {}
    ensures Args(RedirectLines(domain), SslCertificateKey) == {}
    ensures Args(RedirectLines(domain), FastcgiPass) == {}
  {
    RedirectArgs(domain);
    RedirectCount(domain);
  }

  lemma RedirectArgs(domain: string)
    ensures Args(RedirectLines(domain), Listen) == {"80", "[::]:80"}
    ensures Args(RedirectLines(domain), Return) == {"301 https://$server_name$request_uri"}
    ensures Args(RedirectLines(domain), SslCertificate) == {}
    ensures Args(RedirectLines(domain), SslCertificateKey) == {}
    ensures Args(RedirectLines(domain), FastcgiPass) == {}
  {
    var r := RedirectLines(domain);
    assert r[2].args == "80" && r[3].args == "[::]:80";
    assert r[5].args == "301 https://$server_name$request_uri";
  }

  lemma RedirectCount(domain: string)
    ensures Count(RedirectLines(domain), Open(0, "server")) == 1
  {
    var r := RedirectLines(domain);
    assert r[1..][1..] == r[2..];
    assert Open(0, "server") !in r[2..];
    CountAbsent(r[2..], Open(0, "server"));
  }

  // ------------------------------------------------------------- the shapes

  /** Splits one observation of a whole configuration over its parts. */
  lemma ObserveConfig(domain: string, root: string, user: string, php: string, ssl: bool, custom: Option<string>, name: Name)
    ensures Args(ConfigLines(domain, root, user, php, ssl, custom), name)
         == Args(ListenLines(ssl, domain), name) + Args(SiteLines(domain, root, user, php), name)
          + Args(if ssl then RedirectLines(domain) else [], name)
    ensures Count(ConfigLines(domain, root, user, php, ssl, custom), Open(0, "server"))
         == 1 + Count(if ssl then RedirectLines(domain) else [], Open(0, "server"))
  {
    ListenFacts(ssl, domain);
    SiteLinesHaveNoServerBlock(domain, root, user, php);
    CustomLinesFacts(custom, name);
    ObserveParts(Open(0, "server"), ListenLines(ssl, domain), SiteLines(domain, root, user, php), CustomLines(custom),
                 Close(0), if ssl then RedirectLines(domain) else [], name);
  }

  /**
    A plain-HTTP site is one server block, listening on port 80 over IPv4 and
    IPv6, naming no certificate and redirecting nowhere.
  */
  lemma PlainSiteShape(domain: string, root: string, user: string, php: string, custom: Option<string>)
    ensures Count(ConfigLines(domain, root, user, php, false, custom), Open(0, "server")) == 1
    ensures Args(ConfigLines(domain, root, user, php, false, custom), Listen) == {"80", "[::]:80"}
    ensures Args(ConfigLines(domain, root, user, php, false, custom), SslCertificate) == {}
    ensures Args(ConfigLines(domain, root, user, php, false, custom), SslCertificateKey) == {}
    ensures Args(ConfigLines(domain, root, user, php, false, custom), Return) == {}
  {
    SiteLinesLackTlsAndListen(domain, root, user, php);
    ListenFacts(false, domain);
    ListenCertificates(false, domain);
    ObserveConfig(domain, root, user, php, false, custom, Listen);
    ObserveConfig(domain, root, user, php, false, custom, SslCertificate);
    ObserveConfig(domain, root, user, php, false, custom, SslCertificateKey);
    ObserveConfig(domain, root, user, php, false, custom, Return);
    assert Args([], Listen) == {};
  }

  /**
    A TLS site is two server blocks: the main block serves the site on port 443
    with the domain's Let's Encrypt certificate and key, and the second answers
    plain HTTP on port 80 with a permanent redirect to HTTPS.
  */
  lemma TlsSiteShape(domain: string, root: string, user: string, php: string, custom: Option<string>)
    ensures ConfigLines(domain, root, user, php, true, custom)
         == MainBlock(domain, root, user, php, true, custom) + RedirectLines(domain)
    ensures Count(ConfigLines(domain, root, user, php, true, custom), Open(0, "server")) == 2
    ensures Args(ConfigLines(domain, root, user, php, true, custom), Listen)
         == {"443 ssl http2", "[::]:443 ssl http2", "80", "[::]:80"}
    ensures Args(ConfigLines(domain, root, user, php, true, custom), SslCertificate) == {LivePath(domain, "fullchain.pem")}
    ensures Args(ConfigLines(domain, root, user, php, true, custom), SslCertificateKey) == {LivePath(domain, "privkey.pem")}
    ensures Args(ConfigLines(domain, root, user, php, true, custom), Return) == {"301 https://$server_name$request_uri"}
    ensures Args(RedirectLines(domain), Listen) == {"80", "[::]:80"}
  {
    RedirectArgs(domain);
    TlsSiteListens(domain, root, user, php, custom);
    TlsSiteCertificates(domain, root, user, php, custom);
  }

  lemma TlsSiteListens(domain: string, root: string, user: string, php: string, custom: Option<string>)
    ensures Count(ConfigLines(domain, root, user, php, true, custom), Open(0, "server")) == 2
    ensures Args(ConfigLines(domain, root, user, php, true, custom), Listen)
         == {"443 ssl http2", "[::]:443 ssl http2", "80", "[::]:80"}
  {
    SiteLinesLackTlsAndListen(domain, root, user, php);
    ListenFacts(true, domain);
    RedirectArgs(domain);
    RedirectCount(domain);
    ObserveConfig(domain, root, user, php, true, custom, Listen);
  }

  lemma TlsSiteCertificates(domain: string, root: string, user: string, php: string, custom: Option<string>)
    ensures Args(ConfigLines(domain, root, user, php, true, custom), SslCertificate) == {LivePath(domain, "fullchain.pem")}
    ensures Args(ConfigLines(domain, root, user, php, true, custom), SslCertificateKey) == {LivePath(domain, "privkey.pem")}
    ensures Args(ConfigLines(domain, root, user, php, true, custom), Return) == {"301 https://$server_name$request_uri"}
  {
    SiteLinesLackTlsAndListen(domain, root, user, php);
    ListenCertificates(true, domain);
    RedirectArgs(domain);
    ObserveConfig(domain, root, user, php, true, custom, SslCertificate);
    ObserveConfig(domain, root, user, php, true, custom, SslCertificateKey);
    ObserveConfig(domain, root, user, php, true, custom, Return);
  }

  /**
    PHP requests go to exactly one FastCGI upstream, the pool socket of the
    owning system user for the chosen PHP version, in both kinds of site.
  */
  lemma PhpGoesToUserPool(domain: string, root: string, user: string, php: string, ssl: bool, custom: Option<string>)
    ensures Args(ConfigLines(domain, root, user, php, ssl, custom), FastcgiPass) == {SocketPath(php, user)}
  {
    SiteLinesPassToPool(domain, root, user, php);
    ListenCertificates(ssl, domain);
    RedirectFacts(domain);
    ObserveConfig(domain, root, user, php, ssl, custom, FastcgiPass);
    assert Args([], FastcgiPass) == {};
  }

  /** How a count splits over the six parts of a configuration. */
  lemma CountParts(o: seq<Line>, l: seq<Line>, st: seq<Line>, c: seq<Line>, cl: seq<Line>, r: seq<Line>, x: Line)
    ensures Count(o + l + st + c + cl + r, x) == Count(o, x) + Count(l, x) + Count(st, x) + Count(c, x) + Count(cl, x) + Count(r, x)
  {
    CountAppend(o + l + st + c + cl, r, x);
    CountAppend(o + l + st + c, cl, x);
    CountAppend(o + l + st, c, x);
    CountAppend(o + l, st, x);
    CountAppend(o, l, x);
  }

  /** A directive that occurs among `lines` has its arguments listed under its name. */
  lemma ArgsListDirective(lines: seq<Line>, x: Line)
    requires x.Directive?
    ensures x in lines ==> x.args in Args(lines, x.name)
  {
    if x in lines {
      var i :| 0 <= i < |lines| && lines[i] == x;
      assert lines[i].args in Args(lines, x.name);
    }
  }

  /** A directive whose name has no arguments among `lines` does not occur there. */
  lemma CountNoDirective(lines: seq<Line>, x: Line)
    requires x.Directive? && Args(lines, x.name) == {}
    ensures Count(lines, x) == 0
  {
    ArgsListDirective(lines, x);
    CountAbsent(lines, x);
  }

  /**
    A directive that occurs once in the site lines, and whose name no other
    part of a server block uses, occurs once in the whole configuration.
  */
  lemma CountOnceInSiteLines(o: Line, l: seq<Line>, st: seq<Line>, c: seq<Line>, cl: Line, r: seq<Line>, x: Line)
    requires x.Directive? && !o.Directive? && !cl.Directive?
    requires Count(st, x) == 1
    requires Args(l, x.name) == {} && Args(c, x.name) == {} && Args(r, x.name) == {}
    ensures Count([o] + l + st + c + [cl] + r, x) == 1
  {
    CountParts([o], l, st, c, [cl], r, x);
    CountNoDirective(l, x);
    CountNoDirective(c, x);
    CountNoDirective(r, x);
    assert Count([o], x) == 0 && Count([cl], x) == 0;
  }

  /**
    The whole configuration, TLS on or off, holds the owner's `fastcgi_pass`
    line exactly once.
  */
  lemma ConfigPassesOnce(domain: string, root: string, user: string, php: string, ssl: bool, custom: Option<string>)
    ensures Count(ConfigLines(domain, root, user, php, ssl, custom), Directive(2, FastcgiPass, SocketPath(php, user))) == 1
  {
    SiteLinesPassOnce(domain, root, user, php);
    ListenCertificates(ssl, domain);
    CustomLinesFacts(custom, FastcgiPass);
    RedirectArgs(domain);
    assert Args([], FastcgiPass) == {};
    CountOnceInSiteLines(Open(0, "server"), ListenLines(ssl, domain), SiteLines(domain, root, user, php), CustomLines(custom),
                         Close(0), if ssl then RedirectLines(domain) else [], Directive(2, FastcgiPass, SocketPath(php, user)));
  }

  /** The upstream line as it appears in the text. */
  lemma PoolLineText(php: string, user: string)
    ensures Text(Directive(2, FastcgiPass, SocketPath(php, user))) == "        fastcgi_pass " + SocketPath(php, user) + ";"
  {
    assert Indent(2) == "        " by {
      assert Indent(2) == "    " + Indent(1);
    }
  }

  lemma Assoc(a: string, b: string, c: string)
    ensures a + (b + c) == a + b + c
  {
  }

  /**
    The text the custom fragment contributes: the comment line
    `    # Custom configuration`, the fragment itself after four spaces, then a
    blank line.
  */
  function CustomText(custom: Option<string>): string
  {
    if Truthy(custom) then Indent(1) + "# " + CustomHeading + "\n" + Indent(1) + custom.value + "\n" + "\n" else ""
  }

  lemma CustomLinesText(custom: Option<string>)
    ensures Join(CustomLines(custom)) == CustomText(custom)
  {
    if Truthy(custom) {
      var c := CustomLines(custom);
      var heading, line := Indent(1) + "# " + CustomHeading, Indent(1) + custom.value;
      assert c[1..][1..][1..] == [];
      assert Join(c[1..][1..]) == "\n";
      assert Join(c[1..]) == line + "\n" + "\n";
      assert Join(c) == heading + "\n" + (line + "\n" + "\n");
      Assoc(heading + "\n", line + "\n", "\n");
      Assoc(heading + "\n", line, "\n");
    }
  }

  lemma JoinParts(h: seq<Line>, c: seq<Line>, t: seq<Line>, r: seq<Line>)
    ensures Join(h + c + t + r) == Join(h) + Join(c) + Join(t + r)
  {
    JoinAppend(h + c + t, r);
    JoinAppend(h + c, t);
    JoinAppend(h, c);
    JoinAppend(t, r);
    Assoc(Join(h) + Join(c), Join(t), Join(r));
  }

  /**
    The custom fragment is pasted verbatim, indented by four spaces, just
    before the main block closes; a null, empty or "0" fragment adds nothing.
  */
  lemma CustomFragmentVerbatim(domain: string, root: string, user: string, php: string, ssl: bool, custom: Option<string>)
    ensures var head := Join([Open(0, "server")] + ListenLines(ssl, domain) + SiteLines(domain, root, user, php));
            var tail := Join([Close(0)] + (if ssl then RedirectLines(domain) else []));
            && Render(domain, root, user, php, ssl, custom) == head + CustomText(custom) + tail
            && Render(domain, root, user, php, ssl, None) == head + tail
  {
    var h := [Open(0, "server")] + ListenLines(ssl, domain) + SiteLines(domain, root, user, php);
    var r := if ssl then RedirectLines(domain) else [];
    JoinParts(h, CustomLines(custom), [Close(0)], r);
    JoinParts(h, CustomLines(None), [Close(0)], r);
    CustomLinesText(custom);
    CustomLinesText(None);
    assert Join(h) + "" == Join(h);
  }

  /** Character 20 of a configuration is the first character of its first `listen` argument. */
  lemma FirstListenAt20(a: seq<Line>, b: seq<Line>, c: seq<Line>, d: seq<Line>, r: seq<Line>, port: string)
    requires |a| >= 1 && a[0] == Directive(1, Listen, port) && |port| >= 1
    ensures |Join([Open(0, "server")] + a + b + c + d + r)| > 20
    ensures Join([Open(0, "server")] + a + b + c + d + r)[20] == port[0]
  {
    var all := [Open(0, "server")] + a + b + c + d + r;
    assert all[1..] == a + b + c + d + r;
    assert (a + b + c + d + r)[1..] == a[1..] + b + c + d + r;
    assert Indent(1) == "    ";
    assert Text(all[0]) == "server {";
    assert Text(a[0]) == "    listen " + port + ";";
  }

  /**
    The text depends on the TLS flag: the first `listen` directive reads port
    80 in one rendering and 443 in the other, so a configuration rendered
    before TLS was switched on no longer matches the site's state.
  */
  lemma TlsFlagChangesText(domain: string, root: string, user: string, php: string, custom: Option<string>)
    ensures Render(domain, root, user, php, false, custom) != Render(domain, root, user, php, true, custom)
  {
    var s, c := SiteLines(domain, root, user, php), CustomLines(custom);
    FirstListenAt20(ListenLines(false, domain), s, c, [Close(0)], [], "80");
    FirstListenAt20(ListenLines(true, domain), s, c, [Close(0)], RedirectLines(domain), "443 ssl http2");
  }
}
