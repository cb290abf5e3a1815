/**
  The machine the panel administers, as far as the controllers touch it: the
  registry, the nginx site directories, the directories and files they create,
  the operating-system accounts, and the record of every command and
  statement they issue, in order.
*/
module Host {
  import opened Common
  import opened Schema
  import opened Validators
  import NginxConfig

  const SitesAvailable := "/etc/nginx/sites-available/"
  const SitesEnabled := "/etc/nginx/sites-enabled/"

  datatype Table = SystemUsers | Vhosts | SslCertificates

  /** One step with an effect outside the controller: a command or a SQL statement. */
  datatype Effect =
    | UserAdd(username: string, home: string)
    | UserDel(username: string)
    | MakeDirectory(path: string)
    | Chown(path: string, owner: string)
    | Chmod(path: string, mode: string)
    | MoveInto(path: string, content: string)
    | InstallSite(domain: string, site: NginxConfig.Site)
    | LinkSite(domain: string)
    | RemoveFile(path: string)
    | NginxTest
    | NginxReload
    | Certbot(domain: string, email: string)
    | InsertRow(table: Table, id: nat)
    | UpdateRow(table: Table, id: nat)
    | DeleteRow(table: Table, id: nat)

  /** A snapshot of the machine. */
  datatype World = World(
    db: Db,
    available: map<string, NginxConfig.Site>,
    enabled: set<string>,
    dirs: set<string>,
    files: map<string, string>,
    accounts: set<string>,
    trace: seq<Effect>)

  /** The machine after a request, and the response it sends. */
  datatype Outcome = Outcome(world: World, response: Response)

  /** A registered system user has a valid name, an OS account and its home under /home. */
  predicate AccountInPlace(u: SystemUser, accounts: set<string>)
  {
    IsValidUsername(u.username) && u.homeDirectory == HomeDirectory(u.username) && u.username in accounts
  }

  /**
    A registered vhost has a valid domain, an allowed PHP version and status,
    a configuration file in sites-available and a link in sites-enabled.
  */
  predicate SiteInPlace(v: Vhost, available: map<string, NginxConfig.Site>, enabled: set<string>)
  {
    IsValidDomain(v.domain) && PhpVersionAllowed(v.phpVersion) && v.status in Statuses
    && v.domain in available && v.domain in enabled
  }

  /** The `user:group` argument of `chown` for an account and its own group. */
  function Owner(username: string): string
  {
    username + ":" + username
  }

  /** `path` is `dir` itself or lies below it. */
  predicate Within(path: string, dir: string)
  {
    path == dir || (|path| > |dir| && path[..|dir| + 1] == dir + "/")
  }

  /**
    PHP's `file_exists(p)` on the machine: `p` is a recorded directory or
    file, a site file, or a link whose file exists, or it is a directory
    above one of them (`mkdir -p` makes every missing parent). Paths are
    compared as spelled: no trailing slash, `//`, `.` or `..` is resolved.
  */
  predicate PathExists(w: World, p: string)
  {
    || (exists d | d in w.dirs :: Within(d, p))
    || (exists f | f in w.files :: Within(f, p))
    || (exists n | n in w.available :: Within(SitesAvailable + n, p))
    || (exists n | n in w.enabled && n in w.available :: Within(SitesEnabled + n, p))
  }

  /** Lying below is transitive. */
  lemma WithinWithin(path: string, mid: string, dir: string)
    requires Within(path, mid) && Within(mid, dir)
    ensures Within(path, dir)
  {
  }

  /** A directory above an existing path exists too. */
  lemma ParentExists(w: World, p: string, dir: string)
    requires PathExists(w, p) && Within(p, dir)
    ensures PathExists(w, dir)
  {
    if d :| d in w.dirs && Within(d, p) {
      WithinWithin(d, p, dir);
    } else if f :| f in w.files && Within(f, p) {
      WithinWithin(f, p, dir);
    } else if n :| n in w.available && Within(SitesAvailable + n, p) {
      WithinWithin(SitesAvailable + n, p, dir);
    } else {
      var n :| n in w.enabled && n in w.available && Within(SitesEnabled + n, p);
      WithinWithin(SitesEnabled + n, p, dir);
    }
  }

  /** The paths of `paths` that `rm -r dir` leaves behind. */
  function Outside(paths: set<string>, dir: string): (r: set<string>)
    ensures forall p :: p in r <==> p in paths && !Within(p, dir)
  {
    set p | p in paths && !Within(p, dir)
  }

  /** The files of `files` that `rm -r dir` leaves behind. */
  function FilesOutside(files: map<string, string>, dir: string): (r: map<string, string>)
    ensures r.Keys == Outside(files.Keys, dir)
    ensures forall p | p in r :: r[p] == files[p]
  {
    map p | p in files && !Within(p, dir) :: files[p]
  }

  /**
    The registry agrees with the machine: every registered account exists
    and every registered site is served.
  */
  predicate InPlace(db: Db, accounts: set<string>, available: map<string, NginxConfig.Site>, enabled: set<string>)
  {
    && db.Valid()
    && (forall id | id in db.systemUsers :: AccountInPlace(db.systemUsers[id], accounts))
    && (forall id | id in db.vhosts :: SiteInPlace(db.vhosts[id], available, enabled))
  }

  /** `InPlace` for a snapshot. */
  predicate Consistent(w: World)
  {
    InPlace(w.db, w.accounts, w.available, w.enabled)
  }

  class Host {
    /** The three tables. */
    var db: Db
    /** Files under /etc/nginx/sites-available, by domain: the rendering of a site's arguments. */
    var available: map<string, NginxConfig.Site>
    /** Links under /etc/nginx/sites-enabled, by domain. */
    var enabled: set<string>
    /** Directories known to exist; every directory above one exists too (see `PathExists`). */
    var dirs: set<string>
    /** Other files the controllers place, by path. */
    var files: map<string, string>
    /** Operating-system accounts. */
    var accounts: set<string>
    /** Every command run and statement executed, oldest first. */
    var trace: seq<Effect>

    function State(): World
      reads this
    {
      World(db, available, enabled, dirs, files, accounts, trace)
    }

    predicate Valid()
      reads this
    {
      InPlace(db, accounts, available, enabled)
    }

    /**
      A fresh machine: nothing registered, no site, only the panel's own
      users, and the directories `existing` that were there before the panel.
    */
    constructor (panelUsers: set<nat>, existing: set<string>)
      ensures Valid()
      ensures db == Empty.(panelUsers := panelUsers)
      ensures available == map[] && enabled == {} && dirs == existing && files == map[] && accounts == {} && trace == []
    {
      db := Empty.(panelUsers := panelUsers);
      available := map[];
      enabled := {};
      dirs := existing;
      files := map[];
      accounts := {};
      trace := [];
    }
  }
}
