/**
  The virtual-host endpoints: provisioning a site (document root, registry
  row, nginx file and link, test and reload), changing it, removing it, and
  switching it to TLS with a Let's Encrypt certificate.

  Each endpoint is a method on the machine, `Host`, that performs the
  controller's steps in order, and a function on snapshots, `...Outcome`,
  that says what the request leaves behind. The functions are the
  specification: each method's `ensures` ties its effect to its function, and
  the lemmas after each pair state what the endpoint promises about that
  outcome. Every endpoint keeps `Host.Valid`, the agreement of the registry
  with the machine.
*/
module VhostController {
  import opened Common
  import opened Schema
  import opened Validators
  import opened NginxConfig
  import opened Host

  /** Ninety days, in seconds. */
  const CertificateLifetime := 90 * 86400

  const PageStart := "<!DOCTYPE html><html><head><title>Welcome to "
  const PageEnd := "</title></head><body><h1>Website Under Construction</h1><p>This site is powered by TruPanel.</p></body></html>"
  const Deleted := "Virtual host deleted successfully"
  const CertbotFailed := "SSL certificate generation failed"
  const CertificateEnabled := "SSL certificate enabled successfully"

  // ------------------------------------------------------------- the rows

  /**
    The fields `store` rejects: a domain that is missing, malformed or already
    registered, a system user that is missing or unknown, a PHP version
    outside the supported ones, and a TLS flag sent as an explicit null.
  */
  function StoreErrors(db: Db, domain: Field<string>, systemUserId: Field<nat>, phpVersion: Field<string>,
                       sslEnabled: Field<bool>): (errors: set<Input>)
    ensures Domain in errors <==> !domain.Given? || !IsValidDomain(domain.value) || db.DomainTaken(domain.value)
    ensures SystemUserId in errors <==> !systemUserId.Given? || systemUserId.value !in db.systemUsers
    ensures PhpVersion in errors <==> phpVersion.Given? && !PhpVersionAllowed(phpVersion.value)
    ensures SslEnabled in errors <==> sslEnabled.Null?
    ensures errors <= {Domain, SystemUserId, PhpVersion, SslEnabled}
  {
    (if !domain.Given? || !IsValidDomain(domain.value) || db.DomainTaken(domain.value) then {Domain} else {})
    + (if !systemUserId.Given? || systemUserId.value !in db.systemUsers then {SystemUserId} else {})
    + (if phpVersion.Given? && !PhpVersionAllowed(phpVersion.value) then {PhpVersion} else {})
    + (if sslEnabled.Null? then {SslEnabled} else {})
  }

  /**
    Every zero-padded spelling of 8.1, which the framework's loose comparison
    lets through, is turned away by both endpoints here.
  */
  lemma PaddedVersionRejected(db: Db, domain: Field<string>, systemUserId: Field<nat>, sslEnabled: Field<bool>,
                              status: Field<string>, n: nat)
    requires n > 0
    ensures PhpVersion in StoreErrors(db, domain, systemUserId, Given("8.1" + Zeros(n)), sslEnabled)
    ensures PhpVersion in UpdateErrors(Given("8.1" + Zeros(n)), sslEnabled, status)
  {
    assert |"8.1" + Zeros(n)| > 3;
  }

  /** The fields `update` rejects. */
  function UpdateErrors(phpVersion: Field<string>, sslEnabled: Field<bool>, status: Field<string>): (errors: set<Input>)
    ensures PhpVersion in errors <==> phpVersion.Given? && !PhpVersionAllowed(phpVersion.value)
    ensures SslEnabled in errors <==> sslEnabled.Null?
    ensures Status in errors <==> status.Given? && status.value !in Statuses
    ensures errors <= {PhpVersion, SslEnabled, Status}
  {
    (if phpVersion.Given? && !PhpVersionAllowed(phpVersion.value) then {PhpVersion} else {})
    + (if sslEnabled.Null? then {SslEnabled} else {})
    + (if status.Given? && status.value !in Statuses then {Status} else {})
  }

  /** The document root of a new site: the requested one when PHP-truthy, else `public_html` in the owner's home. */
  function DocumentRoot(requested: Field<string>, home: string): (root: string)
    ensures requested.Given? && Truthy(Some(requested.value)) ==> root == requested.value
    ensures !(requested.Given? && Truthy(Some(requested.value))) ==> root == home + "/public_html"
  {
    if requested.Given? && Truthy(Some(requested.value)) then requested.value else home + "/public_html"
  }

  /** The placeholder page a new document root receives. */
  function Placeholder(domain: string): string
  {
    PageStart + domain + PageEnd
  }

  /** The commands that prepare a document root that did not exist yet. */
  function DocumentRootSteps(root: string, username: string, domain: string): seq<Effect>
  {
    [ MakeDirectory(root),
      Chown(root, Owner(username)),
      Chmod(root, "755"),
      MoveInto(root + "/index.html", Placeholder(domain)),
      Chown(root + "/index.html", Owner(username)) ]
  }

  /** The arguments `generateNginxConfig` receives for a row owned by `username`. */
  function SiteOf(v: Vhost, username: string): Site
  {
    Site(v.domain, v.documentRoot, username, v.phpVersion, v.sslEnabled, v.customConfig)
  }

  /** The stored configuration is the rendering of the row's own columns. */
  predicate ConfigMatchesRow(v: Vhost, username: string)
  {
    v.nginxConfig == Some(SiteOf(v, username))
  }

  /** The row `store` inserts. */
  function NewVhost(domain: string, root: string, systemUserId: nat, username: string, phpVersion: Field<string>,
                    sslEnabled: Field<bool>, customConfig: Field<string>): (v: Vhost)
    ensures v.domain == domain && v.documentRoot == root && v.systemUserId == systemUserId
    ensures v.sslEnabled == (sslEnabled.Given? && sslEnabled.value)
    ensures v.phpVersion == (if phpVersion.Given? then phpVersion.value else DefaultPhpVersion)
    ensures v.status == DefaultStatus
    ensures v.customConfig == customConfig.ToOption()
    ensures ConfigMatchesRow(v, username)
  {
    var php, ssl, custom := phpVersion.Or(DefaultPhpVersion), sslEnabled.Or(false), customConfig.ToOption();
    VhostRow(domain, root, systemUserId, Some(ssl), Some(php), Some(DefaultStatus),
             Some(Site(domain, root, username, php, ssl, custom)), custom)
  }

  /** The columns `update` assigns, before the configuration is re-rendered. */
  function Revised(v: Vhost, documentRoot: Field<string>, phpVersion: Field<string>, sslEnabled: Field<bool>,
                   status: Field<string>, customConfig: Field<string>): (r: Vhost)
    ensures r.domain == v.domain && r.systemUserId == v.systemUserId && r.nginxConfig == v.nginxConfig
    ensures r.documentRoot == documentRoot.Assign(v.documentRoot)
    ensures r.phpVersion == phpVersion.Assign(v.phpVersion)
    ensures r.sslEnabled == sslEnabled.Assign(v.sslEnabled)
    ensures r.status == status.Assign(v.status)
    ensures r.customConfig == customConfig.AssignNullable(v.customConfig)
  {
    v.(documentRoot := documentRoot.Assign(v.documentRoot),
       phpVersion := phpVersion.Assign(v.phpVersion),
       sslEnabled := sslEnabled.Assign(v.sslEnabled),
       status := status.Assign(v.status),
       customConfig := customConfig.AssignNullable(v.customConfig))
  }

  /** A revised row with its configuration re-rendered from its columns. */
  function Rerendered(v: Vhost, username: string): (r: Vhost)
    ensures ConfigMatchesRow(r, username)
    ensures r == v.(nginxConfig := r.nginxConfig)
  {
    v.(nginxConfig := Some(SiteOf(v, username)))
  }

  /**
    The certificate row recorded once certbot has issued a certificate: it
    names the files of the domain's lineage that a TLS configuration reads.
  */
  function IssuedCertificate(vhostId: nat, domain: string, now: int): (c: SslCertificate)
    ensures c.vhostId == vhostId
    ensures c.certPath == LivePath(domain, "fullchain.pem") && c.keyPath == LivePath(domain, "privkey.pem")
    ensures c.chainPath == Some(LivePath(domain, "chain.pem"))
    ensures c.expiresAt == now + 90 * 86400 && c.autoRenew
    ensures c.lastRenewedAt.None? && c.renewalLog.None?
  {
    SslCertificateRow(vhostId, LivePath(domain, "fullchain.pem"), LivePath(domain, "privkey.pem"),
                      Some(LivePath(domain, "chain.pem")), now + CertificateLifetime, Some(true), None, None)
  }

  // ------------------------------------------- the registry and the machine

  /** Registering a site whose file and link are written keeps the registry in agreement with the machine. */
  lemma SiteAdded(db: Db, v: Vhost, accounts: set<string>, available: map<string, Site>, enabled: set<string>,
                  config: Site)
    requires InPlace(db, accounts, available, enabled) && InsertVhost(db, v).Some?
    requires IsValidDomain(v.domain) && PhpVersionAllowed(v.phpVersion) && v.status in Statuses
    ensures InPlace(InsertVhost(db, v).value, accounts, available[v.domain := config], enabled + {v.domain})
  {
    var r := InsertVhost(db, v).value;
    InsertVhostKeepsValid(db, v);
    forall k | k in r.vhosts
      ensures SiteInPlace(r.vhosts[k], available[v.domain := config], enabled + {v.domain})
    {
      assert k != db.nextVhostId ==> k in db.vhosts && r.vhosts[k] == db.vhosts[k];
    }
  }

  /**
    Taking back the file and the link of a domain nobody has registered keeps
    the registry in agreement with the machine, even with a consumed id.
  */
  lemma SiteRolledBack(db: Db, accounts: set<string>, available: map<string, Site>, enabled: set<string>,
                       domain: string)
    requires InPlace(db, accounts, available, enabled) && !db.DomainTaken(domain)
    ensures InPlace(db.(nextVhostId := db.nextVhostId + 1), accounts, available - {domain}, enabled - {domain})
  {
    forall k | k in db.vhosts
      ensures SiteInPlace(db.vhosts[k], available - {domain}, enabled - {domain})
    {
      assert db.vhosts[k].domain != domain;
    }
  }

  /**
    Changing a site's columns, its domain and owner aside, to an allowed PHP
    version and status keeps the registry in agreement with the machine.
  */
  lemma SiteRevised(db: Db, id: nat, r: Vhost, accounts: set<string>, available: map<string, Site>, enabled: set<string>)
    requires InPlace(db, accounts, available, enabled) && id in db.vhosts
    requires r.domain == db.vhosts[id].domain && r.systemUserId == db.vhosts[id].systemUserId
    requires PhpVersionAllowed(r.phpVersion) && r.status in Statuses
    ensures InPlace(UpdateVhost(db, id, r), accounts, available, enabled)
  {
    UpdateVhostKeepsValid(db, id, r);
  }

  /** Rewriting the file of a domain that has one keeps the registry in agreement with the machine. */
  lemma SiteRewritten(db: Db, accounts: set<string>, available: map<string, Site>, enabled: set<string>,
                      domain: string, config: Site)
    requires InPlace(db, accounts, available, enabled) && domain in available
    ensures InPlace(db, accounts, available[domain := config], enabled)
  {
  }

  /**
    Removing a site's row, file and link leaves every other site served: no
    other site shares its domain.
  */
  lemma SiteRemoved(db: Db, id: nat, accounts: set<string>, available: map<string, Site>, enabled: set<string>)
    requires InPlace(db, accounts, available, enabled) && id in db.vhosts
    ensures var domain := db.vhosts[id].domain;
            InPlace(DeleteVhost(db, id), accounts, available - {domain}, enabled - {domain})
  {
    var domain := db.vhosts[id].domain;
    var r := DeleteVhost(db, id);
    DeleteVhostKeepsValid(db, id);
    forall k | k in r.vhosts
      ensures SiteInPlace(r.vhosts[k], available - {domain}, enabled - {domain})
    {
      assert k != id && k in db.vhosts && r.vhosts[k] == db.vhosts[k];
    }
  }

  // ------------------------------------------------------------------ store

  /** The machine once a new site's document root exists. */
  function WithDocumentRoot(w: World, root: string, username: string, domain: string): (r: World)
    ensures r.db == w.db && r.available == w.available && r.enabled == w.enabled && r.accounts == w.accounts
  {
    if PathExists(w, root) then w
    else w.(dirs := w.dirs + {root}, files := w.files[root + "/index.html" := Placeholder(domain)],
            trace := w.trace + DocumentRootSteps(root, username, domain))
  }

  /** A root that already exists as a file is left alone: nothing is created, written or run. */
  lemma ExistingFileRootLeftAlone(w: World, root: string, username: string, domain: string)
    requires root in w.files
    ensures WithDocumentRoot(w, root, username, domain) == w
  {
    assert Within(root, root);
  }

  /**
    Once the document root is prepared, it and every directory above it
    exist, so a later store rooted at any of them prepares nothing.
  */
  lemma PreparedRootAndParentsExist(w: World, root: string, username: string, domain: string, p: string,
                                    otherUser: string, otherDomain: string)
    requires Within(root, p)
    ensures var r := WithDocumentRoot(w, root, username, domain);
            && PathExists(r, p)
            && WithDocumentRoot(r, p, otherUser, otherDomain) == r
  {
    var r := WithDocumentRoot(w, root, username, domain);
    if PathExists(w, root) {
      ParentExists(w, root, p);
    } else {
      assert root in r.dirs;
    }
  }

  /**
    Registering row `v`, writing its file and its link, and testing: kept and
    reloaded when the test passes, taken back in reverse order when it fails.
  */
  function Provisioned(w: World, v: Vhost, test: CmdResult): Outcome
    requires InsertVhost(w.db, v).Some? && v.nginxConfig.Some?
  {
    var id, name, config := w.db.nextVhostId, v.domain, v.nginxConfig.value;
    var tried := w.trace + [InsertRow(Vhosts, id)] + [InstallSite(name, config)] + [LinkSite(name)] + [NginxTest];
    if test.Succeeded() then
      Outcome(w.(db := InsertVhost(w.db, v).value,
                 available := w.available[name := config],
                 enabled := w.enabled + {name},
                 trace := tried + [NginxReload]),
              Response(201, VhostRecord(id)))
    else
      Outcome(w.(db := DeleteVhost(InsertVhost(w.db, v).value, id),
                 available := w.available - {name},
                 enabled := w.enabled - {name},
                 trace := tried + [RemoveFile(SitesAvailable + name)] + [RemoveFile(SitesEnabled + name)]
                          + [DeleteRow(Vhosts, id)]),
              Response(400, ErrorWithOutput(NginxTestFailed, test.output)))
  }

  /**
    POST /vhosts: what the request leaves behind. `test` is the outcome of
    `nginx -t`; the commands whose exit status the controller ignores are
    taken to succeed.
  */
  function StoreOutcome(w: World, domain: Field<string>, systemUserId: Field<nat>, documentRoot: Field<string>,
                        phpVersion: Field<string>, sslEnabled: Field<bool>, customConfig: Field<string>,
                        test: CmdResult): Outcome
  {
    var errors := StoreErrors(w.db, domain, systemUserId, phpVersion, sslEnabled);
    if errors != {} then Outcome(w, Response(422, ValidationErrors(errors)))
    else Created(w, domain.value, systemUserId.value, documentRoot, phpVersion, sslEnabled, customConfig, test)
  }

  /** A site for a free domain and a registered owner, once the request has passed validation. */
  function Created(w: World, domain: string, systemUserId: nat, documentRoot: Field<string>,
                   phpVersion: Field<string>, sslEnabled: Field<bool>, customConfig: Field<string>, test: CmdResult): Outcome
    requires systemUserId in w.db.systemUsers && !w.db.DomainTaken(domain)
  {
    var u := w.db.systemUsers[systemUserId];
    var root := DocumentRoot(documentRoot, u.homeDirectory);
    Provisioned(WithDocumentRoot(w, root, u.username, domain),
                NewVhost(domain, root, systemUserId, u.username, phpVersion, sslEnabled, customConfig), test)
  }

  method Create(h: Host, domain: string, systemUserId: nat, documentRoot: Field<string>,
                phpVersion: Field<string>, sslEnabled: Field<bool>, customConfig: Field<string>, test: CmdResult)
    returns (response: Response)
    requires systemUserId in h.db.systemUsers && !h.db.DomainTaken(domain)
    modifies h
    ensures Outcome(h.State(), response)
            == Created(old(h.State()), domain, systemUserId, documentRoot, phpVersion, sslEnabled, customConfig, test)
  {
    var u := h.db.systemUsers[systemUserId];
    var root := DocumentRoot(documentRoot, u.homeDirectory);
    PrepareDocumentRoot(h, root, u.username, domain);
    var v := NewVhost(domain, root, systemUserId, u.username, phpVersion, sslEnabled, customConfig);
    response := Provision(h, v, test);
  }

  /** Creates a missing document root, owned by `username`, with a placeholder page. */
  method PrepareDocumentRoot(h: Host, root: string, username: string, domain: string)
    modifies h
    ensures h.State() == WithDocumentRoot(old(h.State()), root, username, domain)
  {
    if !PathExists(h.State(), root) {
      h.dirs := h.dirs + {root};
      h.files := h.files[root + "/index.html" := Placeholder(domain)];
      h.trace := h.trace + DocumentRootSteps(root, username, domain);
    }
  }

  method Provision(h: Host, v: Vhost, test: CmdResult) returns (response: Response)
    requires InsertVhost(h.db, v).Some? && v.nginxConfig.Some?
    modifies h
    ensures Outcome(h.State(), response) == Provisioned(old(h.State()), v, test)
  {
    var id, name, config := h.db.nextVhostId, v.domain, v.nginxConfig.value;
    var available, enabled := h.available, h.enabled;
    h.db := InsertVhost(h.db, v).value;
    h.trace := h.trace + [InsertRow(Vhosts, id)];
    h.available := h.available[name := config];
    h.trace := h.trace + [InstallSite(name, config)];
    h.enabled := h.enabled + {name};
    h.trace := h.trace + [LinkSite(name)];

    h.trace := h.trace + [NginxTest];
    if !test.Succeeded() {
      h.available := h.available - {name};
      assert h.available == available - {name};
      h.trace := h.trace + [RemoveFile(SitesAvailable + name)];
      h.enabled := h.enabled - {name};
      assert h.enabled == enabled - {name};
      h.trace := h.trace + [RemoveFile(SitesEnabled + name)];
      h.db := DeleteVhost(h.db, id);
      h.trace := h.trace + [DeleteRow(Vhosts, id)];
      return Response(400, ErrorWithOutput(NginxTestFailed, test.output));
    }
    h.trace := h.trace + [NginxReload];
    response := Response(201, VhostRecord(id));
  }

  method Store(h: Host, domain: Field<string>, systemUserId: Field<nat>, documentRoot: Field<string>,
               phpVersion: Field<string>, sslEnabled: Field<bool>, customConfig: Field<string>, test: CmdResult)
    returns (response: Response)
    requires h.Valid()
    modifies h
    ensures Outcome(h.State(), response)
            == StoreOutcome(old(h.State()), domain, systemUserId, documentRoot, phpVersion, sslEnabled, customConfig, test)
    ensures h.Valid()
  {
    StoreKeepsConsistent(h.State(), domain, systemUserId, documentRoot, phpVersion, sslEnabled, customConfig, test);
    var errors := StoreErrors(h.db, domain, systemUserId, phpVersion, sslEnabled);
    if errors != {} {
      return Response(422, ValidationErrors(errors));
    }
    response := Create(h, domain.value, systemUserId.value, documentRoot, phpVersion, sslEnabled, customConfig, test);
  }

  /**
    `store` validates before it touches anything: it answers 422 exactly when
    a field is rejected, and then the machine is as it was. Otherwise it
    answers 201 when `nginx -t` passes and 400 when it fails.
  */
  lemma StoreValidatesFirst(w: World, domain: Field<string>, systemUserId: Field<nat>, documentRoot: Field<string>,
                            phpVersion: Field<string>, sslEnabled: Field<bool>, customConfig: Field<string>,
                            test: CmdResult)
    ensures var o := StoreOutcome(w, domain, systemUserId, documentRoot, phpVersion, sslEnabled, customConfig, test);
            var errors := StoreErrors(w.db, domain, systemUserId, phpVersion, sslEnabled);
            && (o.response.status == 422 <==> errors != {})
            && (errors != {} ==> o.world == w && o.response.body == ValidationErrors(errors))
            && (errors == {} ==> o.response.status == if test.Succeeded() then 201 else 400)
  {
  }

  /**
    With a passing test the new row is registered under the next id with the
    defaults of the schema; its stored configuration is the rendering of its
    own columns, sites-available holds that same configuration, the site is
    enabled, and nginx is reloaded last.
  */
  lemma StoreProvisionsSite(w: World, domain: Field<string>, systemUserId: Field<nat>, documentRoot: Field<string>,
                            phpVersion: Field<string>, sslEnabled: Field<bool>, customConfig: Field<string>,
                            test: CmdResult)
    requires StoreErrors(w.db, domain, systemUserId, phpVersion, sslEnabled) == {} && test.Succeeded()
    ensures var o := StoreOutcome(w, domain, systemUserId, documentRoot, phpVersion, sslEnabled, customConfig, test);
            var id, name, u := w.db.nextVhostId, domain.value, w.db.systemUsers[systemUserId.value];
            && o.response == Response(201, VhostRecord(id))
            && id in o.world.db.vhosts
            && o.world.db.vhosts == w.db.vhosts[id := o.world.db.vhosts[id]]
            && var v := o.world.db.vhosts[id];
               && v.domain == name && v.systemUserId == systemUserId.value
               && v.documentRoot == DocumentRoot(documentRoot, u.homeDirectory)
               && v.phpVersion == phpVersion.Or("8.3") && v.sslEnabled == sslEnabled.Or(false) && v.status == "active"
               && ConfigMatchesRow(v, u.username)
               && o.world.available == w.available[name := v.nginxConfig.value]
               && o.world.enabled == w.enabled + {name}
               && o.world.trace[|o.world.trace| - 1] == NginxReload
  {
  }

  /**
    With a failing test the row, the file and the link are taken back: the
    registry is as before save for the consumed id, no site file or link of
    the domain is left, and nginx is not reloaded.
  */
  lemma StoreUndoneOnFailedTest(w: World, domain: Field<string>, systemUserId: Field<nat>, documentRoot: Field<string>,
                                phpVersion: Field<string>, sslEnabled: Field<bool>, customConfig: Field<string>,
                                test: CmdResult)
    requires w.db.Valid()
    requires StoreErrors(w.db, domain, systemUserId, phpVersion, sslEnabled) == {} && !test.Succeeded()
    ensures var o := StoreOutcome(w, domain, systemUserId, documentRoot, phpVersion, sslEnabled, customConfig, test);
            && o.response == Response(400, ErrorWithOutput(NginxTestFailed, test.output))
            && o.world.db == w.db.(nextVhostId := w.db.nextVhostId + 1)
            && o.world.available == w.available - {domain.value}
            && o.world.enabled == w.enabled - {domain.value}
            && o.world.accounts == w.accounts
            && |w.trace| <= |o.world.trace|
            && forall i | |w.trace| <= i < |o.world.trace| :: o.world.trace[i] != NginxReload
  {
    var u := w.db.systemUsers[systemUserId.value];
    var root := DocumentRoot(documentRoot, u.homeDirectory);
    var v := NewVhost(domain.value, root, systemUserId.value, u.username, phpVersion, sslEnabled, customConfig);
    InsertThenDeleteVhost(w.db, v);
  }

  /**
    The document root is created, with its placeholder page, only when
    nothing exists at that path; then it is recorded and stays whatever the
    test says. When something exists there, be it a directory, a file or a
    parent made by an earlier `mkdir -p`, no directory, page or command is
    added.
  */
  lemma StorePreparesDocumentRoot(w: World, domain: Field<string>, systemUserId: Field<nat>, documentRoot: Field<string>,
                                  phpVersion: Field<string>, sslEnabled: Field<bool>, customConfig: Field<string>,
                                  test: CmdResult)
    requires StoreErrors(w.db, domain, systemUserId, phpVersion, sslEnabled) == {}
    ensures var o := StoreOutcome(w, domain, systemUserId, documentRoot, phpVersion, sslEnabled, customConfig, test);
            var root := DocumentRoot(documentRoot, w.db.systemUsers[systemUserId.value].homeDirectory);
            && (PathExists(w, root) ==> o.world.dirs == w.dirs && o.world.files == w.files
                                        && MakeDirectory(root) !in o.world.trace[|w.trace|..])
            && (!PathExists(w, root) ==> o.world.dirs == w.dirs + {root}
                                         && o.world.files == w.files[root + "/index.html" := Placeholder(domain.value)]
                                         && o.world.trace[|w.trace|..][..5] == DocumentRootSteps(root, w.db.systemUsers[systemUserId.value].username, domain.value))
  {
  }

  /** Provisioning an allowed row keeps the registry in agreement with the machine, whatever the test says. */
  lemma ProvisionedKeepsConsistent(w: World, v: Vhost, test: CmdResult)
    requires Consistent(w) && InsertVhost(w.db, v).Some? && v.nginxConfig.Some?
    requires IsValidDomain(v.domain) && PhpVersionAllowed(v.phpVersion) && v.status in Statuses
    ensures Consistent(Provisioned(w, v, test).world)
  {
    if test.Succeeded() {
      SiteAdded(w.db, v, w.accounts, w.available, w.enabled, v.nginxConfig.value);
    } else {
      SiteRolledBack(w.db, w.accounts, w.available, w.enabled, v.domain);
      InsertThenDeleteVhost(w.db, v);
    }
  }

  /** `store` keeps the registry in agreement with the machine, whatever its outcome. */
  lemma StoreKeepsConsistent(w: World, domain: Field<string>, systemUserId: Field<nat>, documentRoot: Field<string>,
                             phpVersion: Field<string>, sslEnabled: Field<bool>, customConfig: Field<string>,
                             test: CmdResult)
    requires Consistent(w)
    ensures Consistent(StoreOutcome(w, domain, systemUserId, documentRoot, phpVersion, sslEnabled, customConfig, test).world)
  {
    if StoreErrors(w.db, domain, systemUserId, phpVersion, sslEnabled) == {} {
      var u := w.db.systemUsers[systemUserId.value];
      var root := DocumentRoot(documentRoot, u.homeDirectory);
      var v := NewVhost(domain.value, root, systemUserId.value, u.username, phpVersion, sslEnabled, customConfig);
      ProvisionedKeepsConsistent(WithDocumentRoot(w, root, u.username, domain.value), v, test);
    }
  }

  // ----------------------------------------------------------------- update

  /** The machine once the revised row is saved and its site file rewritten, before the test. */
  function Written(w: World, id: nat, r: Vhost): World
    requires id in w.db.vhosts && r.domain == w.db.vhosts[id].domain && r.systemUserId == w.db.vhosts[id].systemUserId
    requires r.nginxConfig.Some?
  {
    w.(db := UpdateVhost(w.db, id, r),
       available := w.available[r.domain := r.nginxConfig.value],
       trace := w.trace + [UpdateRow(Vhosts, id)] + [UpdateRow(Vhosts, id)]
                + [InstallSite(r.domain, r.nginxConfig.value)] + [NginxTest])
  }

  /**
    Writing revised row `r` (the columns, then the configuration), its file,
    and testing. Nothing is taken back when the test fails.
  */
  function Rewritten(w: World, id: nat, r: Vhost, test: CmdResult): Outcome
    requires id in w.db.vhosts && r.domain == w.db.vhosts[id].domain && r.systemUserId == w.db.vhosts[id].systemUserId
    requires r.nginxConfig.Some?
  {
    var written := Written(w, id, r);
    if test.Succeeded() then Outcome(written.(trace := written.trace + [NginxReload]), Response(200, VhostRecord(id)))
    else Outcome(written, Response(400, ErrorWithOutput(NginxTestFailed, test.output)))
  }

  /**
    PUT /vhosts/{id}: what the request leaves behind. Only the document root,
    PHP version, TLS flag, status and custom fragment can change. An explicit
    null for one of the first three non-null columns makes the UPDATE fail,
    which surfaces as a 500 with nothing changed. The row's system user is
    the one its foreign key names.
  */
  function UpdateOutcome(w: World, id: nat, documentRoot: Field<string>, phpVersion: Field<string>,
                         sslEnabled: Field<bool>, status: Field<string>, customConfig: Field<string>,
                         test: CmdResult): Outcome
    requires id in w.db.vhosts ==> w.db.vhosts[id].systemUserId in w.db.systemUsers
  {
    var refusal := UpdateRefusal(w.db, id, documentRoot, phpVersion, status, sslEnabled);
    if refusal.Some? then Outcome(w, refusal.value)
    else Revision(w, id, documentRoot, phpVersion, sslEnabled, status, customConfig, test)
  }

  /**
    The answer `update` gives before it writes anything, if any: 404 for an
    unknown row, 422 for a rejected field, 500 for a null sent for a non-null
    column.
  */
  function UpdateRefusal(db: Db, id: nat, documentRoot: Field<string>, phpVersion: Field<string>, status: Field<string>,
                         sslEnabled: Field<bool>): (r: Option<Response>)
    ensures r.None? <==> id in db.vhosts && UpdateErrors(phpVersion, sslEnabled, status) == {}
                         && !(documentRoot.Null? || phpVersion.Null? || status.Null?)
    ensures r.Some? ==> r.value.status in {404, 422, 500}
  {
    if id !in db.vhosts then Some(Response(404, NotFound))
    else
      var errors := UpdateErrors(phpVersion, sslEnabled, status);
      if errors != {} then Some(Response(422, ValidationErrors(errors)))
      else if documentRoot.Null? || phpVersion.Null? || status.Null? then Some(Response(500, UncaughtException))
      else None
  }

  /** The rewrite of an existing row with the given fields, once the request has passed every check. */
  function Revision(w: World, id: nat, documentRoot: Field<string>, phpVersion: Field<string>, sslEnabled: Field<bool>,
                    status: Field<string>, customConfig: Field<string>, test: CmdResult): Outcome
    requires id in w.db.vhosts && w.db.vhosts[id].systemUserId in w.db.systemUsers
  {
    var v := w.db.vhosts[id];
    Rewritten(w, id, Rerendered(Revised(v, documentRoot, phpVersion, sslEnabled, status, customConfig),
                                w.db.systemUsers[v.systemUserId].username), test)
  }

  method Rewrite(h: Host, id: nat, revised: Vhost, r: Vhost, test: CmdResult) returns (response: Response)
    requires id in h.db.vhosts
    requires revised.domain == h.db.vhosts[id].domain && revised.systemUserId == h.db.vhosts[id].systemUserId
    requires r == revised.(nginxConfig := r.nginxConfig) && r.nginxConfig.Some?
    modifies h
    ensures Outcome(h.State(), response) == Rewritten(old(h.State()), id, r, test)
  {
    UpdateVhostTwice(h.db, id, revised, r);
    h.db := UpdateVhost(h.db, id, revised);
    h.trace := h.trace + [UpdateRow(Vhosts, id)];
    h.db := UpdateVhost(h.db, id, r);
    h.trace := h.trace + [UpdateRow(Vhosts, id)];

    h.available := h.available[r.domain := r.nginxConfig.value];
    h.trace := h.trace + [InstallSite(r.domain, r.nginxConfig.value)];

    h.trace := h.trace + [NginxTest];
    if test.Succeeded() {
      h.trace := h.trace + [NginxReload];
      response := Response(200, VhostRecord(id));
    } else {
      response := Response(400, ErrorWithOutput(NginxTestFailed, test.output));
    }
  }

  method Update(h: Host, id: nat, documentRoot: Field<string>, phpVersion: Field<string>, sslEnabled: Field<bool>,
                status: Field<string>, customConfig: Field<string>, test: CmdResult)
    returns (response: Response)
    requires h.Valid()
    modifies h
    ensures Outcome(h.State(), response)
            == UpdateOutcome(old(h.State()), id, documentRoot, phpVersion, sslEnabled, status, customConfig, test)
    ensures h.Valid()
  {
    UpdateKeepsConsistent(h.State(), id, documentRoot, phpVersion, sslEnabled, status, customConfig, test);
    var refusal := UpdateRefusal(h.db, id, documentRoot, phpVersion, status, sslEnabled);
    if refusal.Some? {
      return refusal.value;
    }
    response := Revise(h, id, documentRoot, phpVersion, sslEnabled, status, customConfig, test);
  }

  method Revise(h: Host, id: nat, documentRoot: Field<string>, phpVersion: Field<string>, sslEnabled: Field<bool>,
                status: Field<string>, customConfig: Field<string>, test: CmdResult)
    returns (response: Response)
    requires id in h.db.vhosts && h.db.vhosts[id].systemUserId in h.db.systemUsers
    modifies h
    ensures Outcome(h.State(), response)
            == Revision(old(h.State()), id, documentRoot, phpVersion, sslEnabled, status, customConfig, test)
  {
    var v := h.db.vhosts[id];
    var revised := Revised(v, documentRoot, phpVersion, sslEnabled, status, customConfig);
    response := Rewrite(h, id, revised, Rerendered(revised, h.db.systemUsers[v.systemUserId].username), test);
  }

  /**
    `update` touches nothing unless the row exists, every field passes and no
    non-null column is sent as null; it answers 404, 422 and 500 in those
    cases, in that order of precedence.
  */
  lemma UpdateValidatesFirst(w: World, id: nat, documentRoot: Field<string>, phpVersion: Field<string>,
                             sslEnabled: Field<bool>, status: Field<string>, customConfig: Field<string>, test: CmdResult)
    requires id in w.db.vhosts ==> w.db.vhosts[id].systemUserId in w.db.systemUsers
    ensures var o := UpdateOutcome(w, id, documentRoot, phpVersion, sslEnabled, status, customConfig, test);
            var errors := UpdateErrors(phpVersion, sslEnabled, status);
            && (o.response.status == 404 <==> id !in w.db.vhosts)
            && (o.response.status == 422 <==> id in w.db.vhosts && errors != {})
            && (o.response.status == 500
                <==> (id in w.db.vhosts && errors == {} && (documentRoot.Null? || phpVersion.Null? || status.Null?)))
            && (o.response.status in {404, 422, 500} ==> o.world == w)
  {
  }

  /**
    Past validation, `update` changes only the editable columns of the row,
    re-renders its configuration from them and writes that configuration to
    sites-available, whether or not the test then passes.
  */
  lemma UpdateRerenders(w: World, id: nat, documentRoot: Field<string>, phpVersion: Field<string>,
                        sslEnabled: Field<bool>, status: Field<string>, customConfig: Field<string>, test: CmdResult)
    requires id in w.db.vhosts && w.db.vhosts[id].systemUserId in w.db.systemUsers
    requires UpdateErrors(phpVersion, sslEnabled, status) == {}
    requires !(documentRoot.Null? || phpVersion.Null? || status.Null?)
    ensures var o := UpdateOutcome(w, id, documentRoot, phpVersion, sslEnabled, status, customConfig, test);
            var v := w.db.vhosts[id];
            var r := o.world.db.vhosts[id];
            && id in o.world.db.vhosts
            && o.world.db.vhosts == w.db.vhosts[id := r]
            && o.world.db.systemUsers == w.db.systemUsers && o.world.db.certificates == w.db.certificates
            && r.domain == v.domain && r.systemUserId == v.systemUserId
            && r.documentRoot == documentRoot.Assign(v.documentRoot) && r.phpVersion == phpVersion.Assign(v.phpVersion)
            && r.sslEnabled == sslEnabled.Assign(v.sslEnabled) && r.status == status.Assign(v.status)
            && r.customConfig == customConfig.AssignNullable(v.customConfig)
            && ConfigMatchesRow(r, w.db.systemUsers[v.systemUserId].username)
            && o.world.available == w.available[v.domain := r.nginxConfig.value]
            && o.world.enabled == w.enabled
  {
  }

  /**
    A failing test changes nothing but the answer and the missing reload:
    the new columns, the new stored configuration and the rewritten file all
    stay.
  */
  lemma FailedUpdateIsKept(w: World, id: nat, documentRoot: Field<string>, phpVersion: Field<string>,
                           sslEnabled: Field<bool>, status: Field<string>, customConfig: Field<string>,
                           failed: CmdResult, passed: CmdResult)
    requires id in w.db.vhosts && w.db.vhosts[id].systemUserId in w.db.systemUsers
    requires UpdateErrors(phpVersion, sslEnabled, status) == {}
    requires !(documentRoot.Null? || phpVersion.Null? || status.Null?)
    requires !failed.Succeeded() && passed.Succeeded()
    ensures var bad := UpdateOutcome(w, id, documentRoot, phpVersion, sslEnabled, status, customConfig, failed);
            var good := UpdateOutcome(w, id, documentRoot, phpVersion, sslEnabled, status, customConfig, passed);
            && bad.response == Response(400, ErrorWithOutput(NginxTestFailed, failed.output))
            && good.response == Response(200, VhostRecord(id))
            && good.world == bad.world.(trace := bad.world.trace + [NginxReload])
  {
  }

  /** Rewriting a row to an allowed PHP version and status keeps the registry in agreement with the machine. */
  lemma RewrittenKeepsConsistent(w: World, id: nat, r: Vhost, test: CmdResult)
    requires Consistent(w) && id in w.db.vhosts
    requires r.domain == w.db.vhosts[id].domain && r.systemUserId == w.db.vhosts[id].systemUserId
    requires r.nginxConfig.Some? && PhpVersionAllowed(r.phpVersion) && r.status in Statuses
    ensures Consistent(Rewritten(w, id, r, test).world)
  {
    SiteRevised(w.db, id, r, w.accounts, w.available, w.enabled);
    SiteRewritten(UpdateVhost(w.db, id, r), w.accounts, w.available, w.enabled, r.domain, r.nginxConfig.value);
    assert Consistent(Written(w, id, r));
  }

  /** `update` keeps the registry in agreement with the machine, whatever its outcome. */
  lemma UpdateKeepsConsistent(w: World, id: nat, documentRoot: Field<string>, phpVersion: Field<string>,
                              sslEnabled: Field<bool>, status: Field<string>, customConfig: Field<string>, test: CmdResult)
    requires Consistent(w)
    ensures Consistent(UpdateOutcome(w, id, documentRoot, phpVersion, sslEnabled, status, customConfig, test).world)
  {
    if UpdateRefusal(w.db, id, documentRoot, phpVersion, status, sslEnabled).None? {
      var v := w.db.vhosts[id];
      var r := Rerendered(Revised(v, documentRoot, phpVersion, sslEnabled, status, customConfig),
                          w.db.systemUsers[v.systemUserId].username);
      RewrittenKeepsConsistent(w, id, r, test);
    }
  }


  // ---------------------------------------------------------------- destroy

  /**
    The site files of `name` removed: the link when it resolves to an existing
    file (`file_exists` follows it), then the file when it exists.
  */
  function Unlinked(w: World, name: string): (r: World)
    ensures name !in r.available && r.available == w.available - {name}
    ensures name in w.available ==> r.enabled == w.enabled - {name}
    ensures name !in w.available ==> r.enabled == w.enabled
    ensures r.(available := w.available, enabled := w.enabled, trace := w.trace) == w
  {
    var linked := name in w.enabled && name in w.available;
    w.(available := w.available - {name},
       enabled := if linked then w.enabled - {name} else w.enabled,
       trace := w.trace + (if linked then [RemoveFile(SitesEnabled + name)] else [])
                + (if name in w.available then [RemoveFile(SitesAvailable + name)] else []))
  }

  method Unlink(h: Host, name: string)
    modifies h
    ensures h.State() == Unlinked(old(h.State()), name)
  {
    var available := h.available;
    if name in h.enabled && name in h.available {
      h.enabled := h.enabled - {name};
      h.trace := h.trace + [RemoveFile(SitesEnabled + name)];
    }
    if name in h.available {
      h.available := h.available - {name};
      h.trace := h.trace + [RemoveFile(SitesAvailable + name)];
    }
    assert h.available == available - {name};
  }

  /**
    DELETE /vhosts/{id}: what the request leaves behind. The site files go
    first, the row goes whatever `nginx -t` says, and the document root stays.
  */
  function DestroyOutcome(w: World, id: nat, test: CmdResult): Outcome
  {
    if id !in w.db.vhosts then Outcome(w, Response(404, NotFound))
    else
      var u := Unlinked(w, w.db.vhosts[id].domain);
      Outcome(u.(db := DeleteVhost(w.db, id),
                 trace := u.trace + [NginxTest] + (if test.Succeeded() then [NginxReload] else []) + [DeleteRow(Vhosts, id)]),
              Response(200, Message(Deleted)))
  }

  method Destroy(h: Host, id: nat, test: CmdResult) returns (response: Response)
    requires h.Valid()
    modifies h
    ensures Outcome(h.State(), response) == DestroyOutcome(old(h.State()), id, test)
    ensures h.Valid()
  {
    DestroyKeepsConsistent(h.State(), id, test);
    if id !in h.db.vhosts {
      return Response(404, NotFound);
    }
    Unlink(h, h.db.vhosts[id].domain);

    h.trace := h.trace + [NginxTest];
    if test.Succeeded() {
      h.trace := h.trace + [NginxReload];
    }

    h.db := DeleteVhost(h.db, id);
    h.trace := h.trace + [DeleteRow(Vhosts, id)];
    response := Response(200, Message(Deleted));
  }

  /**
    Deleting a registered site frees its domain, takes its certificates with
    it, leaves no site file behind, drops its link when its file existed and
    never touches a directory or a page.
  */
  lemma DestroyRemovesSite(w: World, id: nat, test: CmdResult)
    requires w.db.Valid() && id in w.db.vhosts
    ensures var o := DestroyOutcome(w, id, test);
            var name := w.db.vhosts[id].domain;
            && o.response == Response(200, Message(Deleted))
            && !o.world.db.DomainTaken(name)
            && (forall c | c in o.world.db.certificates :: o.world.db.certificates[c].vhostId != id)
            && name !in o.world.available
            && (name in w.available ==> name !in o.world.enabled)
            && o.world.dirs == w.dirs && o.world.files == w.files && o.world.accounts == w.accounts
  {
    DeleteVhostKeepsValid(w.db, id);
  }

  /**
    The result of `nginx -t` decides only whether nginx is reloaded: the
    machine and the answer are otherwise the same, and the reload comes after
    the test and before the row goes.
  */
  lemma DestroyReloadsOnlyAfterPassingTest(w: World, id: nat, test: CmdResult, other: CmdResult)
    requires id in w.db.vhosts
    ensures var o := DestroyOutcome(w, id, test);
            var u := Unlinked(w, w.db.vhosts[id].domain);
            && o.world.(trace := []) == DestroyOutcome(w, id, other).world.(trace := [])
            && o.response == DestroyOutcome(w, id, other).response
            && o.world.trace[..|u.trace| + 1] == u.trace + [NginxTest]
            && (NginxReload in o.world.trace[|u.trace|..] <==> test.Succeeded())
  {
    var u := Unlinked(w, w.db.vhosts[id].domain);
    var o := DestroyOutcome(w, id, test);
    assert o.world.trace[|u.trace|..] == [NginxTest] + (if test.Succeeded() then [NginxReload] else []) + [DeleteRow(Vhosts, id)];
  }

  /** `destroy` keeps the registry in agreement with the machine. */
  lemma DestroyKeepsConsistent(w: World, id: nat, test: CmdResult)
    requires Consistent(w)
    ensures Consistent(DestroyOutcome(w, id, test).world)
  {
    if id in w.db.vhosts {
      SiteRemoved(w.db, id, w.accounts, w.available, w.enabled);
    }
  }

  // -------------------------------------------------------------- enableSsl

  /**
    POST /vhosts/{id}/ssl: what the request leaves behind. `emailValid` is
    the verdict of the `email` rule on the given address, `certbot` the
    outcome of `certbot --nginx`, `now` the current time in seconds.
  */
  function EnableSslOutcome(w: World, id: nat, email: Field<string>, emailValid: bool, certbot: CmdResult, now: int): Outcome
  {
    if id !in w.db.vhosts then Outcome(w, Response(404, NotFound))
    else if !(email.Given? && emailValid) then Outcome(w, Response(422, ValidationErrors({Email})))
    else
      var v := w.db.vhosts[id];
      var tried := w.trace + [Certbot(v.domain, email.value)];
      if !certbot.Succeeded() then Outcome(w.(trace := tried), Response(500, ErrorWithOutput(CertbotFailed, certbot.output)))
      else
        var updated := UpdateVhost(w.db, id, v.(sslEnabled := true));
        Outcome(w.(db := InsertCertificate(updated, IssuedCertificate(id, v.domain, now)).value,
                   trace := tried + [UpdateRow(Vhosts, id)] + [InsertRow(SslCertificates, updated.nextCertificateId)]),
                Response(200, CertificateIssued(CertificateEnabled, id)))
  }

  method EnableSsl(h: Host, id: nat, email: Field<string>, emailValid: bool, certbot: CmdResult, now: int)
    returns (response: Response)
    requires h.Valid()
    modifies h
    ensures Outcome(h.State(), response) == EnableSslOutcome(old(h.State()), id, email, emailValid, certbot, now)
    ensures h.Valid()
  {
    EnableSslKeepsConsistent(h.State(), id, email, emailValid, certbot, now);
    response := Certify(h, id, email, emailValid, certbot, now);
  }

  /** The steps of `enableSsl`, in the controller's order. */
  method Certify(h: Host, id: nat, email: Field<string>, emailValid: bool, certbot: CmdResult, now: int)
    returns (response: Response)
    modifies h
    ensures Outcome(h.State(), response) == EnableSslOutcome(old(h.State()), id, email, emailValid, certbot, now)
  {
    if id !in h.db.vhosts {
      return Response(404, NotFound);
    }
    if !(email.Given? && emailValid) {
      return Response(422, ValidationErrors({Email}));
    }
    var v := h.db.vhosts[id];
    h.trace := h.trace + [Certbot(v.domain, email.value)];
    if !certbot.Succeeded() {
      return Response(500, ErrorWithOutput(CertbotFailed, certbot.output));
    }

    h.db := UpdateVhost(h.db, id, v.(sslEnabled := true));
    h.trace := h.trace + [UpdateRow(Vhosts, id)];

    var certId := h.db.nextCertificateId;
    h.db := InsertCertificate(h.db, IssuedCertificate(id, v.domain, now)).value;
    h.trace := h.trace + [InsertRow(SslCertificates, certId)];

    response := Response(200, CertificateIssued(CertificateEnabled, id));
  }

  /**
    A registered site asked for TLS without a valid address gets 422 naming
    `email`, and nothing is run or written.
  */
  lemma EnableSslNeedsEmail(w: World, id: nat, email: Field<string>, emailValid: bool, certbot: CmdResult, now: int)
    requires id in w.db.vhosts && !(email.Given? && emailValid)
    ensures EnableSslOutcome(w, id, email, emailValid, certbot, now) == Outcome(w, Response(422, ValidationErrors({Email})))
  {
  }

  /**
    The flag and the certificate row are written only once certbot has
    succeeded; a failure answers 500 with certbot's output and leaves the
    tables as they were. On success the row is marked TLS-enabled and one
    certificate naming the domain's lineage and expiring in ninety days is
    added; the panel itself rewrites neither the stored configuration nor the
    site file (certbot's own edit of that file is not recorded here).
  */
  lemma EnableSslCommitsAfterCertbot(w: World, id: nat, email: Field<string>, emailValid: bool, certbot: CmdResult,
                                     now: int)
    requires id in w.db.vhosts && email.Given? && emailValid
    ensures var o := EnableSslOutcome(w, id, email, emailValid, certbot, now);
            var v, c := w.db.vhosts[id], w.db.nextCertificateId;
            && (!certbot.Succeeded() ==> o.response == Response(500, ErrorWithOutput(CertbotFailed, certbot.output))
                                         && o.world.db == w.db)
            && (certbot.Succeeded() ==>
                  && o.response.status == 200
                  && o.world.db.vhosts == w.db.vhosts[id := v.(sslEnabled := true)]
                  && o.world.db.vhosts[id].nginxConfig == v.nginxConfig
                  && o.world.db.certificates == w.db.certificates[c := IssuedCertificate(id, v.domain, now)]
                  && o.world.db.certificates[c].expiresAt == now + 90 * 86400
                  && o.world.available == w.available)
  {
  }

  /**
    A site provisioned without TLS and then switched to TLS keeps its old
    stored configuration, whose text is no longer the rendering of its
    columns.
  */
  lemma EnableSslLeavesConfigStale(v: Vhost, username: string)
    requires ConfigMatchesRow(v, username) && !v.sslEnabled
    ensures v.nginxConfig.value.Text() != SiteOf(v.(sslEnabled := true), username).Text()
  {
    TlsFlagChangesText(v.domain, v.documentRoot, username, v.phpVersion, v.customConfig);
  }

  /**
    Nothing checks for an existing certificate: enabling TLS twice records two
    certificates for the same vhost.
  */
  lemma EnableSslTwice(w: World, id: nat, email: Field<string>, certbot: CmdResult, first: int, second: int)
    requires id in w.db.vhosts && email.Given? && certbot.Succeeded()
    ensures var once := EnableSslOutcome(w, id, email, true, certbot, first);
            var twice := EnableSslOutcome(once.world, id, email, true, certbot, second);
            var c := w.db.nextCertificateId;
            && twice.response.status == 200
            && c in twice.world.db.certificates && c + 1 in twice.world.db.certificates
            && twice.world.db.certificates[c].vhostId == id && twice.world.db.certificates[c + 1].vhostId == id
  {
  }

  /** Recording a certificate for a registered site keeps the registry in agreement with the machine. */
  lemma CertificateAdded(db: Db, c: SslCertificate, accounts: set<string>, available: map<string, Site>, enabled: set<string>)
    requires InPlace(db, accounts, available, enabled) && InsertCertificate(db, c).Some?
    ensures InPlace(InsertCertificate(db, c).value, accounts, available, enabled)
  {
    InsertCertificateKeepsValid(db, c);
  }

  /** `enableSsl` keeps the registry in agreement with the machine. */
  lemma EnableSslKeepsConsistent(w: World, id: nat, email: Field<string>, emailValid: bool, certbot: CmdResult, now: int)
    requires Consistent(w)
    ensures Consistent(EnableSslOutcome(w, id, email, emailValid, certbot, now).world)
  {
    var o := EnableSslOutcome(w, id, email, emailValid, certbot, now);
    if id in w.db.vhosts && email.Given? && emailValid && certbot.Succeeded() {
      var v := w.db.vhosts[id];
      var flagged := v.(sslEnabled := true);
      SiteRevised(w.db, id, flagged, w.accounts, w.available, w.enabled);
      var updated := UpdateVhost(w.db, id, flagged);
      CertificateAdded(updated, IssuedCertificate(id, v.domain, now), w.accounts, w.available, w.enabled);
      assert o.world == w.(db := InsertCertificate(updated, IssuedCertificate(id, v.domain, now)).value,
                           trace := o.world.trace);
    } else {
      assert o.world == w.(trace := o.world.trace);
    }
  }
}
