/**
  The three tables the controllers write: `system_users`, `vhosts` and
  `ssl_certificates`, their column defaults, their unique columns and their
  cascading foreign keys. Rows are keyed by auto-increment ids; `panelUsers`
  stands for the ids of the `users` table, which `system_users.created_by`
  references.
*/
module Schema {
  import opened Common
  import NginxConfig

  const DefaultShell := "/bin/bash"
  const DefaultPhpVersion := "8.3"
  const DefaultStatus := "active"

  /** A row of `system_users`. */
  datatype SystemUser = SystemUser(
    username: string,
    homeDirectory: string,
    shell: string,
    sshEnabled: bool,
    ftpEnabled: bool,
    description: Option<string>,
    createdBy: nat)

  /** A row of `vhosts`. */
  datatype Vhost = Vhost(
    domain: string,
    documentRoot: string,
    systemUserId: nat,
    sslEnabled: bool,
    phpVersion: string,
    status: string,
    nginxConfig: Option<NginxConfig.Site>,
    customConfig: Option<string>)

  /** A row of `ssl_certificates`; timestamps are seconds since the epoch. */
  datatype SslCertificate = SslCertificate(
    vhostId: nat,
    certPath: string,
    keyPath: string,
    chainPath: Option<string>,
    expiresAt: int,
    autoRenew: bool,
    lastRenewedAt: Option<int>,
    renewalLog: Option<string>)

  /**
    A `system_users` row built from the columns an insert names; the columns it
    leaves out (`None`) take the table's defaults.
  */
  function SystemUserRow(username: string, homeDirectory: string, shell: Option<string>, sshEnabled: Option<bool>,
                         ftpEnabled: Option<bool>, description: Option<string>, createdBy: nat): SystemUser
  {
    SystemUser(username, homeDirectory,
               if shell.Some? then shell.value else DefaultShell,
               if sshEnabled.Some? then sshEnabled.value else false,
               if ftpEnabled.Some? then ftpEnabled.value else false,
               description, createdBy)
  }

  /** A `vhosts` row built from the columns an insert names, the others defaulted. */
  function VhostRow(domain: string, documentRoot: string, systemUserId: nat, sslEnabled: Option<bool>, phpVersion: Option<string>,
                    status: Option<string>, nginxConfig: Option<NginxConfig.Site>, customConfig: Option<string>): Vhost
  {
    Vhost(domain, documentRoot, systemUserId,
          if sslEnabled.Some? then sslEnabled.value else false,
          if phpVersion.Some? then phpVersion.value else DefaultPhpVersion,
          if status.Some? then status.value else DefaultStatus,
          nginxConfig, customConfig)
  }

  /** An `ssl_certificates` row built from the columns an insert names, the others defaulted. */
  function SslCertificateRow(vhostId: nat, certPath: string, keyPath: string, chainPath: Option<string>, expiresAt: int,
                             autoRenew: Option<bool>, lastRenewedAt: Option<int>, renewalLog: Option<string>): SslCertificate
  {
    SslCertificate(vhostId, certPath, keyPath, chainPath, expiresAt,
                   if autoRenew.Some? then autoRenew.value else true,
                   lastRenewedAt, renewalLog)
  }

  /** A system user inserted without shell, flags or description gets a bash shell, SSH and FTP off and no description. */
  lemma SystemUserDefaults(username: string, home: string, creator: nat)
    ensures SystemUserRow(username, home, None, None, None, None, creator)
         == SystemUser(username, home, "/bin/bash", false, false, None, creator)
  {
  }

  /** A vhost inserted with only its required columns gets no TLS, PHP 8.3, status active and no stored configuration. */
  lemma VhostDefaults(domain: string, root: string, owner: nat)
    ensures VhostRow(domain, root, owner, None, None, None, None, None)
         == Vhost(domain, root, owner, false, "8.3", "active", None, None)
  {
  }

  /** A certificate inserted with only its required columns renews automatically and has no chain and no renewal history. */
  lemma CertificateDefaults(vhostId: nat, cert: string, key: string, expires: int)
    ensures SslCertificateRow(vhostId, cert, key, None, expires, None, None, None)
         == SslCertificate(vhostId, cert, key, None, expires, true, None, None)
  {
  }

  /** The three tables, with the next auto-increment id of each. */
  datatype Db = Db(
    panelUsers: set<nat>,
    systemUsers: map<nat, SystemUser>,
    vhosts: map<nat, Vhost>,
    certificates: map<nat, SslCertificate>,
    nextSystemUserId: nat,
    nextVhostId: nat,
    nextCertificateId: nat)
  {
    /** No two system users share a username (`username` is unique). */
    predicate UniqueUsernames()
    {
      forall a, b | a in systemUsers && b in systemUsers && a != b :: systemUsers[a].username != systemUsers[b].username
    }

    /** No two vhosts share a domain (`domain` is unique). */
    predicate UniqueDomains()
    {
      forall a, b | a in vhosts && b in vhosts && a != b :: vhosts[a].domain != vhosts[b].domain
    }

    /** Every foreign key names an existing row. */
    predicate ReferencesResolve()
    {
      && (forall id | id in systemUsers :: systemUsers[id].createdBy in panelUsers)
      && (forall id | id in vhosts :: vhosts[id].systemUserId in systemUsers)
      && (forall id | id in certificates :: certificates[id].vhostId in vhosts)
    }

    /** Every row id was handed out by its table's counter. */
    predicate IdsIssued()
    {
      && (forall id | id in systemUsers :: id < nextSystemUserId)
      && (forall id | id in vhosts :: id < nextVhostId)
      && (forall id | id in certificates :: id < nextCertificateId)
    }

    predicate Valid()
    {
      UniqueUsernames() && UniqueDomains() && ReferencesResolve() && IdsIssued()
    }

    predicate UsernameTaken(username: string)
    {
      exists id | id in systemUsers :: systemUsers[id].username == username
    }

    predicate DomainTaken(domain: string)
    {
      exists id | id in vhosts :: vhosts[id].domain == domain
    }
  }

  /** The empty registry. */
  const Empty := Db({}, map[], map[], map[], 1, 1, 1)

  // --------------------------------------------------------------- inserts

  /**
    INSERT into `system_users`: refused when the username is taken or the
    creator does not exist; otherwise the row gets the next id.
  */
  function InsertSystemUser(db: Db, u: SystemUser): (r: Option<Db>)
    ensures r.Some? <==> !db.UsernameTaken(u.username) && u.createdBy in db.panelUsers
    ensures r.Some? ==> r.value == db.(systemUsers := db.systemUsers[db.nextSystemUserId := u],
                                       nextSystemUserId := db.nextSystemUserId + 1)
  {
    if db.UsernameTaken(u.username) || u.createdBy !in db.panelUsers then None
    else
      Some(db.(systemUsers := db.systemUsers[db.nextSystemUserId := u], nextSystemUserId := db.nextSystemUserId + 1))
  }
  /** An accepted `system_users` insert keeps every constraint. */
  lemma InsertSystemUserKeepsValid(db: Db, u: SystemUser)
    requires db.Valid() && InsertSystemUser(db, u).Some?
    ensures InsertSystemUser(db, u).value.Valid()
  {
  }


  /**
    INSERT into `vhosts`: refused when the domain is taken or the system user
    does not exist; otherwise the row gets the next id.
  */
  function InsertVhost(db: Db, v: Vhost): (r: Option<Db>)
    ensures r.Some? <==> !db.DomainTaken(v.domain) && v.systemUserId in db.systemUsers
    ensures r.Some? ==> r.value == db.(vhosts := db.vhosts[db.nextVhostId := v], nextVhostId := db.nextVhostId + 1)
  {
    if db.DomainTaken(v.domain) || v.systemUserId !in db.systemUsers then None
    else Some(db.(vhosts := db.vhosts[db.nextVhostId := v], nextVhostId := db.nextVhostId + 1))
  }
  /** An accepted `vhosts` insert keeps every constraint. */
  lemma InsertVhostKeepsValid(db: Db, v: Vhost)
    requires db.Valid() && InsertVhost(db, v).Some?
    ensures InsertVhost(db, v).value.Valid()
  {
  }


  /**
    INSERT into `ssl_certificates`: refused only when the vhost does not exist.
    `vhost_id` is not unique, so a vhost may already have certificates.
  */
  function InsertCertificate(db: Db, c: SslCertificate): (r: Option<Db>)
    ensures r.Some? <==> c.vhostId in db.vhosts
    ensures r.Some? ==> r.value == db.(certificates := db.certificates[db.nextCertificateId := c],
                                       nextCertificateId := db.nextCertificateId + 1)
  {
    if c.vhostId !in db.vhosts then None
    else Some(db.(certificates := db.certificates[db.nextCertificateId := c], nextCertificateId := db.nextCertificateId + 1))
  }
  /** An accepted `ssl_certificates` insert keeps every constraint. */
  lemma InsertCertificateKeepsValid(db: Db, c: SslCertificate)
    requires db.Valid() && InsertCertificate(db, c).Some?
    ensures InsertCertificate(db, c).value.Valid()
  {
  }


  /** The schema allows several certificates for one vhost. */
  lemma SeveralCertificatesPerVhost(db: Db, c1: SslCertificate, c2: SslCertificate)
    requires db.Valid() && c1.vhostId in db.vhosts && c2.vhostId == c1.vhostId
    ensures InsertCertificate(db, c1).Some?
    ensures InsertCertificate(InsertCertificate(db, c1).value, c2).Some?
    ensures var r := InsertCertificate(InsertCertificate(db, c1).value, c2).value;
            && r.Valid()
            && r.certificates[db.nextCertificateId] == c1
            && r.certificates[db.nextCertificateId + 1] == c2
  {
    var once := InsertCertificate(db, c1).value;
    InsertCertificateKeepsValid(db, c1);
    InsertCertificateKeepsValid(once, c2);
  }

  // --------------------------------------------------------------- updates

  /**
    UPDATE of a `vhosts` row that leaves its domain and its system user alone,
    as every update the controllers issue does.
  */
  function UpdateVhost(db: Db, id: nat, v: Vhost): (r: Db)
    requires id in db.vhosts
    requires v.domain == db.vhosts[id].domain && v.systemUserId == db.vhosts[id].systemUserId
    ensures r.vhosts == db.vhosts[id := v] && r.vhosts.Keys == db.vhosts.Keys
    ensures r.systemUsers == db.systemUsers && r.certificates == db.certificates
  {
    db.(vhosts := db.vhosts[id := v])
  }
  /** Such an update keeps every constraint. */
  lemma UpdateVhostKeepsValid(db: Db, id: nat, v: Vhost)
    requires db.Valid() && id in db.vhosts
    requires v.domain == db.vhosts[id].domain && v.systemUserId == db.vhosts[id].systemUserId
    ensures UpdateVhost(db, id, v).Valid()
  {
  }


  /** A second UPDATE of the same row overrides the first. */
  lemma UpdateVhostTwice(db: Db, id: nat, first: Vhost, second: Vhost)
    requires id in db.vhosts
    requires first.domain == db.vhosts[id].domain && first.systemUserId == db.vhosts[id].systemUserId
    requires second.domain == first.domain && second.systemUserId == first.systemUserId
    ensures UpdateVhost(UpdateVhost(db, id, first), id, second) == UpdateVhost(db, id, second)
  {
    assert db.vhosts[id := first][id := second] == db.vhosts[id := second];
  }

  /**
    UPDATE of a `system_users` row that leaves its username and creator alone,
    as every update the controllers issue does.
  */
  function UpdateSystemUser(db: Db, id: nat, u: SystemUser): (r: Db)
    requires id in db.systemUsers
    requires u.username == db.systemUsers[id].username && u.createdBy == db.systemUsers[id].createdBy
    ensures r.systemUsers == db.systemUsers[id := u] && r.systemUsers.Keys == db.systemUsers.Keys
    ensures r.vhosts == db.vhosts && r.certificates == db.certificates
  {
    db.(systemUsers := db.systemUsers[id := u])
  }
  /** Such an update keeps every constraint. */
  lemma UpdateSystemUserKeepsValid(db: Db, id: nat, u: SystemUser)
    requires db.Valid() && id in db.systemUsers
    requires u.username == db.systemUsers[id].username && u.createdBy == db.systemUsers[id].createdBy
    ensures UpdateSystemUser(db, id, u).Valid()
  {
  }


  // ------------------------------------------------------- cascading deletes

  /** The certificates whose vhost is among `keep`. */
  function CertificatesOf(certificates: map<nat, SslCertificate>, keep: set<nat>): map<nat, SslCertificate>
  {
    map id | id in certificates && certificates[id].vhostId in keep :: certificates[id]
  }

  /** DELETE of a vhost: its certificates go with it (`ON DELETE CASCADE`). */
  function DeleteVhost(db: Db, id: nat): (r: Db)
    ensures r.vhosts == db.vhosts - {id}
    ensures forall c | c in r.certificates :: c in db.certificates && r.certificates[c] == db.certificates[c]
    ensures r.systemUsers == db.systemUsers && r.panelUsers == db.panelUsers
  {
    var vhosts := db.vhosts - {id};
    db.(vhosts := vhosts, certificates := CertificatesOf(db.certificates, vhosts.Keys))
  }
  /**
    Deleting a vhost keeps every constraint, and the certificates that go are
    exactly those of that vhost.
  */
  lemma DeleteVhostKeepsValid(db: Db, id: nat)
    requires db.Valid()
    ensures DeleteVhost(db, id).Valid()
    ensures forall c :: c in DeleteVhost(db, id).certificates <==> c in db.certificates && db.certificates[c].vhostId != id
  {
  }


  /**
    DELETE of a system user: its vhosts go with it, and their certificates
    with them.
  */
  function DeleteSystemUser(db: Db, id: nat): (r: Db)
    ensures r.systemUsers == db.systemUsers - {id}
    ensures forall v :: v in r.vhosts <==> v in db.vhosts && db.vhosts[v].systemUserId != id
    ensures forall v | v in r.vhosts :: r.vhosts[v] == db.vhosts[v]
    ensures forall c :: c in r.certificates <==> c in db.certificates && db.certificates[c].vhostId in r.vhosts
    ensures forall c | c in r.certificates :: c in db.certificates && r.certificates[c] == db.certificates[c]
    ensures r.panelUsers == db.panelUsers
  {
    var vhosts := map v | v in db.vhosts && db.vhosts[v].systemUserId != id :: db.vhosts[v];
    db.(systemUsers := db.systemUsers - {id}, vhosts := vhosts, certificates := CertificatesOf(db.certificates, vhosts.Keys))
  }
  /** Deleting a system user, with everything that hangs off it, keeps every constraint. */
  lemma DeleteSystemUserKeepsValid(db: Db, id: nat)
    requires db.Valid()
    ensures DeleteSystemUser(db, id).Valid()
  {
  }


  /**
    DELETE of a panel user: the system users they created go with them, and
    everything that hangs off those.
  */
  function DeletePanelUser(db: Db, uid: nat): (r: Db)
    ensures r.panelUsers == db.panelUsers - {uid}
    ensures forall s :: s in r.systemUsers <==> s in db.systemUsers && db.systemUsers[s].createdBy != uid
    ensures forall v :: v in r.vhosts <==> v in db.vhosts && db.vhosts[v].systemUserId in r.systemUsers
    ensures forall c :: c in r.certificates <==> c in db.certificates && db.certificates[c].vhostId in r.vhosts
  {
    var users := map s | s in db.systemUsers && db.systemUsers[s].createdBy != uid :: db.systemUsers[s];
    var vhosts := map v | v in db.vhosts && db.vhosts[v].systemUserId in users :: db.vhosts[v];
    db.(panelUsers := db.panelUsers - {uid}, systemUsers := users, vhosts := vhosts,
        certificates := CertificatesOf(db.certificates, vhosts.Keys))
  }
  /** Deleting a panel user, with everything that hangs off it, keeps every constraint. */
  lemma DeletePanelUserKeepsValid(db: Db, uid: nat)
    requires db.Valid()
    ensures DeletePanelUser(db, uid).Valid()
  {
  }


  /**
    Deleting a system user leaves no row behind that depends on it: no vhost
    of theirs and no certificate of such a vhost.
  */
  lemma DeleteSystemUserLeavesNoOrphans(db: Db, id: nat)
    requires db.Valid()
    ensures forall v | v in DeleteSystemUser(db, id).vhosts :: DeleteSystemUser(db, id).vhosts[v].systemUserId != id
    ensures forall c | c in DeleteSystemUser(db, id).certificates ::
              DeleteSystemUser(db, id).certificates[c].vhostId in db.vhosts
              && db.vhosts[DeleteSystemUser(db, id).certificates[c].vhostId].systemUserId != id
  {
  }

  /**
    Deleting the vhost just inserted gives back the registry as it was, save
    for the id the insert consumed.
  */
  lemma InsertThenDeleteVhost(db: Db, v: Vhost)
    requires db.Valid() && InsertVhost(db, v).Some?
    ensures DeleteVhost(InsertVhost(db, v).value, db.nextVhostId) == db.(nextVhostId := db.nextVhostId + 1)
  {
    var id := db.nextVhostId;
    var r := DeleteVhost(InsertVhost(db, v).value, id);
    assert id !in db.vhosts;
    assert r.vhosts == db.vhosts;
    assert r.certificates == db.certificates;
  }
}
