# TruPanel provisioning core, modelled in Dafny

TruPanel is a hosting control panel. Its API creates Linux accounts ("system
users") and nginx virtual hosts for them, and switches sites to TLS with Let's
Encrypt. This project models the server side of that work:

- **`NginxConfig`** (`nginx_config.dfy`): the site configuration the panel
  writes. `Render` builds the text as a sequence of lines. The lemmas state
  its shape:
  - one or two `server` blocks;
  - the listen ports;
  - the certificate paths;
  - the PHP-FPM socket;
  - where the operator's custom fragment is pasted.
- **`Schema`** (`schema.dfy`): the tables `system_users`, `vhosts` and
  `ssl_certificates`. This covers their column defaults, their unique
  columns (`username`, `domain`) and their cascading foreign keys. `Db.Valid`
  gathers these constraints, and each insert, update and delete is proved to
  keep it.
- **`Validators`** (`validators.dfy`): the domain and username patterns and
  the `in:8.1,8.2,8.3` rule on PHP versions.
- **`Host`** (`host.dfy`): the machine. The class `Host.Host` holds:
  - the registry;
  - the files in `/etc/nginx/sites-available`;
  - the links in `/etc/nginx/sites-enabled`;
  - the directories and pages the panel creates;
  - the operating-system accounts;
  - a trace of every command run and SQL statement issued, in order.

  `Consistent` says that the registry agrees with the machine: every
  registered user has an account, and every registered site is served.
- **`VhostController`** (`vhost_controller.dfy`), **`SystemUserController`**
  (`system_user_controller.dfy`) and **`Routes`** (`routes.dfy`): the
  endpoints. Each endpoint is two things:
  - a method on `Host` that performs the controller's steps in order;
  - a function on snapshots (`StoreOutcome`, `UpdateOutcome`, ...) that
    gives the machine and the response the request leaves behind.

  Each method's postcondition ties it to its function. Lemmas state the
  endpoint's promises about that function, among them:
  - validation comes before any side effect;
  - rollback or no rollback when `nginx -t` fails;
  - what a deletion removes and what it leaves;
  - every endpoint keeps `Consistent`.

External commands are not run: `useradd`, `userdel -r`, `nginx -t`,
`systemctl reload nginx` and `certbot` each appear as a parameter of type
`CmdResult`, holding an exit code and output lines. The verdict of the
`email` rule is a boolean parameter, and the current time is an integer
parameter. A request field is `Absent`, `Null` or `Given(v)`, because the
controllers treat a field left out of the body differently from an explicit
`null`.

The stored configuration (`vhosts.nginx_config`, and the file in
sites-available) is represented by the arguments it was rendered from
(`NginxConfig.Site`). The text itself is `Site.Text()`, that is, `Render` of
those arguments.

## Model

| member | source | states |
|---|---|---|
| NginxConfig.PlainSiteShape | app/Http/Controllers/Api/VhostController.php:246-290 | Without TLS the configuration has exactly one `server` block, listens on `80` and `[::]:80` only, and has no `ssl_certificate`, `ssl_certificate_key` or `return` directive. Directives are counted as the panel writes them; the custom fragment is pasted as one verbatim line, and whatever its own text says is not counted. |
| NginxConfig.TlsSiteShape | app/Http/Controllers/Api/VhostController.php:246-300 | With TLS the configuration is the main block followed by the redirect block, with two `server` blocks. Across the whole file the listen arguments are exactly 443 and `[::]:443` (ssl http2), 80 and `[::]:80`; the redirect block's own listen arguments are exactly 80 and `[::]:80`. The only certificate and key are the domain's `/etc/letsencrypt/live/{domain}/fullchain.pem` and `privkey.pem`, and the only `return` argument is the 301 to HTTPS. Directives are counted as the panel writes them; the custom fragment is pasted as one verbatim line, and whatever its own text says is not counted. |
| NginxConfig.TlsSiteListens | app/Http/Controllers/Api/VhostController.php:248-296 | With TLS there are exactly two `server` blocks, and the listen arguments are exactly the two 443 sockets and the two port-80 sockets. Directives are counted as the panel writes them; the custom fragment is pasted as one verbatim line, and whatever its own text says is not counted. |
| NginxConfig.TlsSiteCertificates | app/Http/Controllers/Api/VhostController.php:251-298 | With TLS the only certificate and key arguments are the domain's Let's Encrypt `fullchain.pem` and `privkey.pem`, and the only `return` argument is `301 https://$server_name$request_uri`. Directives are counted as the panel writes them; the custom fragment is pasted as one verbatim line, and whatever its own text says is not counted. |
| NginxConfig.ListenFacts | app/Http/Controllers/Api/VhostController.php:248-259 | The listen lines of the main block are the two 443 sockets with TLS and the two port-80 sockets without, and they open no `server` block. |
| NginxConfig.ListenCertificates | app/Http/Controllers/Api/VhostController.php:248-259 | The main block names the domain's certificate and key exactly when TLS is on, and never a `return` or FastCGI upstream among those lines. |
| NginxConfig.SiteLinesLackTlsAndListen | app/Http/Controllers/Api/VhostController.php:261-283 | The name, root, header and location lines contain no `listen`, certificate or `return` directive. |
| NginxConfig.SiteLinesLack | app/Http/Controllers/Api/VhostController.php:261-283 | None of `listen`, `ssl_certificate`, `ssl_certificate_key` or `return` has an argument among the name, root, header and location lines. |
| NginxConfig.SiteLinesPassToPool | app/Http/Controllers/Api/VhostController.php:274-279 | Among the name, root, header and location lines, the only `fastcgi_pass` argument is `unix:/var/run/php/php{version}-fpm-{user}.sock`. |
| NginxConfig.SiteLinesPassOnce | app/Http/Controllers/Api/VhostController.php:274-279 | The PHP location block's `fastcgi_pass` line to the owner's pool occurs exactly once among those lines. |
| NginxConfig.ConfigPassesOnce | app/Http/Controllers/Api/VhostController.php:246-300 | With TLS on or off, the owner's `fastcgi_pass` line occurs exactly once in the whole configuration. |
| NginxConfig.RedirectFacts | app/Http/Controllers/Api/VhostController.php:293-300 | The redirect block is one `server` block, listens on 80 and `[::]:80`, returns 301 to HTTPS, and names no certificate and no upstream. |
| NginxConfig.RedirectArgs | app/Http/Controllers/Api/VhostController.php:294-299 | The redirect block's directives: listen 80 and `[::]:80`, the 301 `return`, no certificate, key or upstream. |
| NginxConfig.RedirectCount | app/Http/Controllers/Api/VhostController.php:294-299 | The redirect block opens exactly one `server` block. |
| NginxConfig.PhpGoesToUserPool | app/Http/Controllers/Api/VhostController.php:275 | With TLS on or off, the only `fastcgi_pass` argument in the configuration is the pool socket of the owning user for the chosen PHP version. Directives are counted as the panel writes them; the custom fragment is pasted as one verbatim line, and whatever its own text says is not counted. |
| NginxConfig.PoolLineText | app/Http/Controllers/Api/VhostController.php:275 | The upstream line reads, character for character, eight spaces, `fastcgi_pass `, the socket path and `;`. |
| NginxConfig.CustomLinesText | app/Http/Controllers/Api/VhostController.php:285-288 | The custom fragment contributes `    # Custom configuration`, then the fragment after four spaces, then a blank line, when it is PHP-truthy, and nothing otherwise. |
| NginxConfig.CustomFragmentVerbatim | app/Http/Controllers/Api/VhostController.php:285-290 | The rendered text is the same head, then the fragment's text, then the same tail. A null, empty or `"0"` fragment renders exactly as no fragment. |
| NginxConfig.FirstListenAt20 | app/Http/Controllers/Api/VhostController.php:246-257 | Character 20 of a configuration is the first character of its first `listen` argument. |
| NginxConfig.TlsFlagChangesText | app/Http/Controllers/Api/VhostController.php:248-259 | Turning the TLS flag on changes the rendered text, all else equal. |
| Validators.DomainCheckMatchesPattern | app/Http/Controllers/Api/VhostController.php:29 | The decision procedure `IsValidDomain` accepts a string if and only if it matches `^[a-zA-Z0-9.-]+\.[a-zA-Z]{2,}$`. |
| Validators.ValidDomainIsPlainFileName | app/Http/Controllers/Api/VhostController.php:75 | A valid domain contains no `/`, has at least four characters and is neither `.` nor `..`, so `/etc/nginx/sites-available/{domain}` names a file directly inside that directory. |
| Validators.HomeDirectory | app/Http/Controllers/Api/SystemUserController.php:31 | The home directory is `/home/` followed by the username, character for character. |
| Validators.HomeDirectoryStaysInHome | app/Http/Controllers/Api/SystemUserController.php:21 | A username matching `^[a-zA-Z0-9_-]+$` gives a home with no `/` after `/home/`, and the username is not `.` or `..`. |
| Validators.PaddedVersionPassesLooseCheck | app/Http/Controllers/Api/VhostController.php:32 | Every zero-padded spelling of 8.1 (`8.10`, `8.100`, ...) passes `in:8.1,8.2,8.3` as the framework evaluates it, yet is none of the listed versions. |
| Validators.AllowedVersionPassesLooseCheck | app/Http/Controllers/Api/VhostController.php:32 | The exact check accepts only `8.1`, `8.2` and `8.3`, and each of those also passes the loose check, so the correction only narrows it. |
| Schema.SystemUserDefaults | database/migrations/2025_07_04_042937_create_system_users_table.php:18-21 | A system user inserted without shell, flags or description gets `/bin/bash`, SSH and FTP off, and no description. |
| Schema.VhostDefaults | database/migrations/2025_07_04_042944_create_vhosts_table.php:19-23 | A vhost inserted with only domain, root and owner gets TLS off, PHP `8.3`, status `active`, and no stored or custom configuration. |
| Schema.CertificateDefaults | database/migrations/2025_07_04_042949_create_ssl_certificates_table.php:19-23 | A certificate inserted with only its required columns gets automatic renewal on, and no chain, last renewal or renewal log. |
| Schema.InsertSystemUser | database/migrations/2025_07_04_042937_create_system_users_table.php:16-22 | The insert is accepted if and only if the username is free and the creating panel user exists. The row then gets the next id and nothing else changes. |
| Schema.InsertSystemUserKeepsValid | database/migrations/2025_07_04_042937_create_system_users_table.php:16 | An accepted insert keeps usernames and domains unique and every foreign key resolved. |
| Schema.InsertVhost | database/migrations/2025_07_04_042944_create_vhosts_table.php:16-18 | The insert is accepted if and only if the domain is free and the system user exists. The row then gets the next id. |
| Schema.InsertVhostKeepsValid | database/migrations/2025_07_04_042944_create_vhosts_table.php:16-18 | An accepted vhost insert keeps every constraint. |
| Schema.InsertCertificate | database/migrations/2025_07_04_042949_create_ssl_certificates_table.php:16 | The insert is accepted if and only if the vhost exists, whatever certificates it already has. |
| Schema.InsertCertificateKeepsValid | database/migrations/2025_07_04_042949_create_ssl_certificates_table.php:16 | An accepted certificate insert keeps every constraint. |
| Schema.SeveralCertificatesPerVhost | database/migrations/2025_07_04_042949_create_ssl_certificates_table.php:16 | Two certificates for the same vhost are both accepted, under consecutive ids, and the registry stays valid. |
| Schema.UpdateVhost | database/migrations/2025_07_04_042944_create_vhosts_table.php:16-23 | An update that keeps domain and owner replaces that one row and leaves every id, every other row, the users and the certificates as they were. |
| Schema.UpdateVhostKeepsValid | database/migrations/2025_07_04_042944_create_vhosts_table.php:16-18 | Such an update keeps every constraint. |
| Schema.UpdateVhostTwice | app/Http/Controllers/Api/VhostController.php:128-140 | Two consecutive updates of a row amount to the second. |
| Schema.UpdateSystemUser | database/migrations/2025_07_04_042937_create_system_users_table.php:16-22 | An update that keeps username and creator replaces that one row and leaves the vhosts and certificates as they were. |
| Schema.UpdateSystemUserKeepsValid | database/migrations/2025_07_04_042937_create_system_users_table.php:16-22 | Such an update keeps every constraint. |
| Schema.DeleteVhost | database/migrations/2025_07_04_042949_create_ssl_certificates_table.php:16 | Deleting a vhost removes that row; the surviving certificates are unchanged, and users and panel users stay. |
| Schema.DeleteVhostKeepsValid | database/migrations/2025_07_04_042949_create_ssl_certificates_table.php:16 | Deleting a vhost keeps every constraint. The certificates that remain are exactly those of other vhosts. |
| Schema.DeleteSystemUser | database/migrations/2025_07_04_042944_create_vhosts_table.php:18 | Deleting a system user removes its row and exactly its vhosts, unchanged otherwise, and exactly the certificates of those vhosts. |
| Schema.DeleteSystemUserKeepsValid | database/migrations/2025_07_04_042944_create_vhosts_table.php:18 | That cascade keeps every constraint. |
| Schema.DeleteSystemUserLeavesNoOrphans | database/migrations/2025_07_04_042944_create_vhosts_table.php:18 | After the cascade no vhost names the deleted user, and every remaining certificate belongs to a vhost of another user. |
| Schema.DeletePanelUser | database/migrations/2025_07_04_042937_create_system_users_table.php:22 | Deleting a panel user removes exactly the system users they created, the vhosts of those, and the certificates of those vhosts. |
| Schema.DeletePanelUserKeepsValid | database/migrations/2025_07_04_042937_create_system_users_table.php:22 | That cascade keeps every constraint. |
| Schema.InsertThenDeleteVhost | app/Http/Controllers/Api/VhostController.php:92 | Deleting the vhost just inserted restores the registry, save for the consumed auto-increment id. |
| Host.Outside | app/Http/Controllers/Api/SystemUserController.php:93 | `rm -r dir` keeps a path exactly when it is neither `dir` nor below it. |
| Host.ParentExists | app/Http/Controllers/Api/VhostController.php:46 | `file_exists` holds of every directory above an existing path. |
| Host.FilesOutside | app/Http/Controllers/Api/SystemUserController.php:93 | The files left by `rm -r dir` are those outside it, with unchanged contents. |
| VhostController.StoreErrors | app/Http/Controllers/Api/VhostController.php:28-35 | Each field is rejected if and only if its rule fails. The domain fails when it is missing, does not match the pattern, or is registered. The system user fails when it is missing or unknown. The PHP version fails when it is given but is not exactly `8.1`, `8.2` or `8.3` (the corrected rule; see Findings). The TLS flag fails when it is sent as null. |
| VhostController.UpdateErrors | app/Http/Controllers/Api/VhostController.php:115-121 | The PHP version, TLS flag and status are rejected exactly when their rules fail, the PHP version by the corrected exact rule. |
| VhostController.PaddedVersionRejected | app/Http/Controllers/Api/VhostController.php:32 | Every zero-padded spelling of 8.1 (`8.10`, `8.100`, ...), which the loose check accepts, is rejected by both `store` and `update` under the corrected rule. |
| VhostController.DocumentRoot | app/Http/Controllers/Api/VhostController.php:42 | The document root is the requested one when it is PHP-truthy, and otherwise `{home}/public_html`. |
| VhostController.NewVhost | app/Http/Controllers/Api/VhostController.php:60-72 | The new row has the requested domain, root and owner, PHP `8.3` and TLS off unless given, and status `active`. Its stored configuration is the rendering of its own columns. |
| VhostController.Revised | app/Http/Controllers/Api/VhostController.php:128 | Only document root, PHP version, TLS flag, status and custom fragment take the sent values. A field left out keeps its value, and domain, owner and stored configuration stay. |
| VhostController.Rerendered | app/Http/Controllers/Api/VhostController.php:131-140 | After the update the stored configuration is the rendering of the row's new columns, and nothing else changes. |
| VhostController.IssuedCertificate | app/Http/Controllers/Api/VhostController.php:224-230 | The certificate row names the domain's `fullchain.pem`, `privkey.pem` and `chain.pem` under `/etc/letsencrypt/live/{domain}/`, expires ninety days after `now`, renews automatically and has no renewal history. |
| VhostController.SiteAdded | app/Http/Controllers/Api/VhostController.php:63-82 | Registering an allowed site while writing its file and link keeps the registry consistent with the machine. |
| VhostController.SiteRolledBack | app/Http/Controllers/Api/VhostController.php:89-92 | Taking back the file and link of an unregistered domain keeps it consistent, even with a consumed id. |
| VhostController.SiteRevised | app/Http/Controllers/Api/VhostController.php:128 | Changing a row's editable columns to an allowed PHP version and status keeps it consistent. |
| VhostController.SiteRewritten | app/Http/Controllers/Api/VhostController.php:143-146 | Rewriting an existing site file keeps it consistent. |
| VhostController.SiteRemoved | app/Http/Controllers/Api/VhostController.php:169-185 | Removing one site's row, file and link keeps every other site served. |
| VhostController.WithDocumentRoot | app/Http/Controllers/Api/VhostController.php:46-57 | Preparing the document root never touches the registry, the site files or the accounts. |
| VhostController.PrepareDocumentRoot | app/Http/Controllers/Api/VhostController.php:46-57 | When `file_exists` fails for the root as spelled (no recorded directory, file, site file or link at or below that path), creates the root with its placeholder page and runs the five commands. Otherwise it does nothing. |
| VhostController.Provision | app/Http/Controllers/Api/VhostController.php:63-96 | Inserts the row, writes the file and the link, and runs the test. It reloads on success, and on failure removes the file, the link and the row, in that order. |
| VhostController.Create | app/Http/Controllers/Api/VhostController.php:41-96 | Prepares the document root under `file_exists`, then inserts the row, writes the file and the link, tests, and reloads or rolls back, as `Created` states. |
| VhostController.Store | app/Http/Controllers/Api/VhostController.php:26-100 | The request's effect on the machine and its response are `StoreOutcome`, and the registry stays consistent with the machine (`Host.Valid`). |
| VhostController.StoreValidatesFirst | app/Http/Controllers/Api/VhostController.php:28-39 | The answer is 422 if and only if a field is rejected, and then nothing has changed. Otherwise it is 201 or 400, as `nginx -t` decides. |
| VhostController.StoreProvisionsSite | app/Http/Controllers/Api/VhostController.php:60-96 | With a passing test, 201 with the row under the next id. The row has the requested domain, owner and root, PHP and TLS defaulting to `8.3` and off, and status `active`. Its configuration is the rendering of its columns, sites-available holds it, the site is enabled, and the reload comes last. |
| VhostController.StoreUndoneOnFailedTest | app/Http/Controllers/Api/VhostController.php:85-94 | With a failing test, 400 with the test output. The registry is as before save for the consumed id, the domain has no file and no link, accounts are untouched, and no reload runs. |
| VhostController.StorePreparesDocumentRoot | app/Http/Controllers/Api/VhostController.php:46-57 | When nothing exists at the root, the root is recorded and its placeholder page written; mkdir, chown, chmod, mv and chown come first; both stay even after a rollback. When anything exists at the root as spelled (a directory, a file, or a parent made by an earlier `mkdir -p`), no directory, page or `mkdir` is added. |
| VhostController.ExistingFileRootLeftAlone | app/Http/Controllers/Api/VhostController.php:46 | A root that already exists as a file is left alone: no directory, page or command. |
| VhostController.PreparedRootAndParentsExist | app/Http/Controllers/Api/VhostController.php:46-47 | After preparation, the root and every directory above it exist, as `mkdir -p` leaves them. A later store rooted at any of them prepares nothing. |
| VhostController.ProvisionedKeepsConsistent | app/Http/Controllers/Api/VhostController.php:63-94 | Provisioning, kept or rolled back, keeps the registry consistent with the machine. |
| VhostController.StoreKeepsConsistent | app/Http/Controllers/Api/VhostController.php:26-100 | `store` keeps the registry consistent with the machine, whatever its outcome. |
| VhostController.UpdateRefusal | app/Http/Controllers/Api/VhostController.php:115-128 | `update` refuses before writing (404, 422 or 500) if and only if the row is unknown, a field is rejected, or a non-null column is sent as null. |
| VhostController.Rewrite | app/Http/Controllers/Api/VhostController.php:128-154 | Saves the columns, then the configuration, writes the file, tests, and reloads only on success. Nothing is undone. |
| VhostController.Revise | app/Http/Controllers/Api/VhostController.php:128-156 | The rewrite of an existing row with the sent fields, as `Revision` states. |
| VhostController.Update | app/Http/Controllers/Api/VhostController.php:113-160 | The request's effect on the machine and its response are `UpdateOutcome`, and `Host.Valid` is kept. |
| VhostController.UpdateValidatesFirst | app/Http/Controllers/Api/VhostController.php:115-125 | Each of 404, 422 and 500 is answered if and only if its condition holds, in that precedence, and then nothing has changed. |
| VhostController.UpdateRerenders | app/Http/Controllers/Api/VhostController.php:128-146 | Past validation only that row changes, and only its editable columns. Its stored configuration is the rendering of the new columns, that configuration is written to sites-available, and links are untouched. |
| VhostController.FailedUpdateIsKept | app/Http/Controllers/Api/VhostController.php:149-154 | A failing test answers 400 and leaves the same machine as a passing one, less the reload: the new columns, configuration and file stay. |
| VhostController.RewrittenKeepsConsistent | app/Http/Controllers/Api/VhostController.php:128-154 | The rewrite keeps the registry consistent with the machine. |
| VhostController.UpdateKeepsConsistent | app/Http/Controllers/Api/VhostController.php:113-160 | `update` keeps the registry consistent with the machine, whatever its outcome. |
| VhostController.Unlinked | app/Http/Controllers/Api/VhostController.php:169-177 | The domain has no site file afterwards. Its link goes exactly when the file existed, and otherwise the links stay as they were. Only files, links and the trace change. |
| VhostController.Unlink | app/Http/Controllers/Api/VhostController.php:172-177 | Removes the link when it resolves to an existing file, then the file when it exists. |
| VhostController.Destroy | app/Http/Controllers/Api/VhostController.php:165-191 | The request's effect on the machine and its response are `DestroyOutcome`, and `Host.Valid` is kept. |
| VhostController.DestroyRemovesSite | app/Http/Controllers/Api/VhostController.php:169-187 | Deleting a registered site answers 200. It frees the domain, takes the site's certificates and leaves no site file. When the file existed, the link goes too. It touches no directory, page or account: the document root stays. |
| VhostController.DestroyReloadsOnlyAfterPassingTest | app/Http/Controllers/Api/VhostController.php:179-185 | The test result changes neither the machine (the trace aside) nor the answer. The test follows the file removals, and a reload occurs if and only if the test passes. |
| VhostController.DestroyKeepsConsistent | app/Http/Controllers/Api/VhostController.php:165-187 | `destroy` keeps the registry consistent with the machine. |
| VhostController.EnableSsl | app/Http/Controllers/Api/VhostController.php:196-239 | The request's effect on the machine and its response are `EnableSslOutcome`, and `Host.Valid` is kept. |
| VhostController.Certify | app/Http/Controllers/Api/VhostController.php:198-237 | The steps of `enableSsl`: 404, then 422 for the email, then certbot; on success the flag update and the certificate insert, in that order, as `EnableSslOutcome` states. |
| VhostController.EnableSslNeedsEmail | app/Http/Controllers/Api/VhostController.php:198-204 | For a registered site without a valid email, the answer is 422 naming `email`, and the machine is unchanged: nothing is run and nothing is recorded. |
| VhostController.EnableSslCommitsAfterCertbot | app/Http/Controllers/Api/VhostController.php:214-230 | A certbot failure answers 500 with certbot's output and leaves the registry unchanged. On success it answers 200: only the TLS flag of the row changes, and one certificate is added under the next id, expiring in ninety days. The panel itself rewrites neither the stored configuration nor the site file; certbot's own edit of that file is outside the model. |
| VhostController.EnableSslLeavesConfigStale | app/Http/Controllers/Api/VhostController.php:220-221 | For a site rendered without TLS, the stored configuration's text differs from the rendering of its columns once the flag is on. |
| VhostController.EnableSslTwice | app/Http/Controllers/Api/VhostController.php:224-230 | Nothing checks for an existing certificate: enabling TLS twice records two certificates for the vhost. |
| VhostController.CertificateAdded | app/Http/Controllers/Api/VhostController.php:224-230 | Recording a certificate keeps the registry consistent with the machine. |
| VhostController.EnableSslKeepsConsistent | app/Http/Controllers/Api/VhostController.php:196-239 | `enableSsl` keeps the registry consistent with the machine, whatever its outcome. |
| SystemUserController.StoreErrors | app/Http/Controllers/Api/SystemUserController.php:20-25 | The username is rejected if and only if it is missing, malformed or taken. Each flag is rejected if and only if it is sent as null. |
| SystemUserController.UpdateErrors | app/Http/Controllers/Api/SystemUserController.php:74-78 | Each flag is rejected if and only if it is sent as null. |
| SystemUserController.NewSystemUser | app/Http/Controllers/Api/SystemUserController.php:48-55 | The new row has the username, home `/home/{username}`, a bash shell, flags off unless given, the description, and the requesting user as creator. |
| SystemUserController.Revised | app/Http/Controllers/Api/SystemUserController.php:84 | Only description and flags take the sent values. Username, home, shell and creator stay. |
| SystemUserController.Store | app/Http/Controllers/Api/SystemUserController.php:18-65 | The request's effect on the machine and its response are `StoreOutcome`, and `Host.Valid` is kept. |
| SystemUserController.AddAccount | app/Http/Controllers/Api/SystemUserController.php:20-62 | The steps of `store`: validation, `useradd`, the row, then `chown` and `chmod` of the home directory, as `StoreOutcome` states. |
| SystemUserController.StoreValidatesFirst | app/Http/Controllers/Api/SystemUserController.php:20-41 | The answer is 422 if and only if a field is rejected, and then nothing has changed. Otherwise `useradd` is the first step. |
| SystemUserController.StoreStopsOnFailedUseradd | app/Http/Controllers/Api/SystemUserController.php:41-45 | A failed `useradd` answers 500 with its output joined by spaces. No row, account or directory is added. |
| SystemUserController.StoreCreatesAccount | app/Http/Controllers/Api/SystemUserController.php:31-61 | After a successful `useradd`, exactly one row is added, under the next id. It has home `/home/{username}`, shell `/bin/bash`, flags defaulting to off, and the requester as creator. The account and home exist. The steps are `useradd`, insert, `chown`, `chmod`, in that order, and the answer is 201. |
| SystemUserController.AccountAdded | app/Http/Controllers/Api/SystemUserController.php:47-55 | Registering a valid user whose account exists keeps the registry consistent with the machine. |
| SystemUserController.StoreKeepsConsistent | app/Http/Controllers/Api/SystemUserController.php:18-65 | `store` keeps the registry consistent with the machine, whatever its outcome. |
| SystemUserController.Update | app/Http/Controllers/Api/SystemUserController.php:72-87 | The request's effect on the machine and its response are `UpdateOutcome`, and `Host.Valid` is kept. |
| SystemUserController.UpdateChangesOnlyFlags | app/Http/Controllers/Api/SystemUserController.php:74-86 | It answers 404 and 422 if and only if their conditions hold, and then nothing changes. Otherwise only that row's description and flags change; every other row, account, directory and file stays. |
| SystemUserController.UpdateKeepsConsistent | app/Http/Controllers/Api/SystemUserController.php:84 | `update` keeps the registry consistent with the machine. |
| SystemUserController.Destroy | app/Http/Controllers/Api/SystemUserController.php:89-105 | The request's effect on the machine and its response are `DestroyOutcome`, and `Host.Valid` is kept. |
| SystemUserController.DestroyKeepsRowOnFailure | app/Http/Controllers/Api/SystemUserController.php:93-97 | A failed `userdel` answers 500 with its output, and only the trace changes. |
| SystemUserController.DestroyRemovesUser | app/Http/Controllers/Api/SystemUserController.php:93-101 | A successful `userdel` answers 200 and frees the username. It removes the account and the home, and no vhost of the user remains. Nginx files and links stay, and so do the homes of all other users. |
| SystemUserController.HomesApart | app/Http/Controllers/Api/SystemUserController.php:93 | For two different valid usernames, neither home is the other or lies inside it. |
| SystemUserController.DeletionKeepsOthersInPlace | app/Http/Controllers/Api/SystemUserController.php:99 | Removing one user and its account keeps every other user and site consistent. |
| SystemUserController.DestroyKeepsConsistent | app/Http/Controllers/Api/SystemUserController.php:89-101 | `destroy` keeps the registry consistent with the machine, whatever `userdel` says. |
| Routes.Reload | routes/api.php:36-52 | The request's effect on the machine and its response are `ReloadOutcome`, and `Host.Valid` is kept. |
| Routes.ReloadOnlyAfterTest | routes/api.php:38-48 | Only the trace changes, and it starts with `nginx -t`. A reload occurs if and only if the test passes. A failed test answers 400 with the test's output, a failed reload 500, and the answer is 200 if and only if both commands succeed. |
| Routes.FailedReloadReportsBothOutputs | routes/api.php:38-45 | A failed reload reports every line of the test followed by every line of the reload. |

## Left out

- Shell quoting and injection: the commands are effects with their arguments. The model does not capture the unescaped interpolations, for example the `chown` and `mv` lines of `store` and `userdel` of `destroy`.
- Exit codes of `mkdir`, `chown`, `chmod`, `mv`, `ln` and `rm`: the controllers ignore them, so each is taken to succeed.
- Temporary files (`tempnam`, `file_put_contents`): the model places the final file directly.
- The machine's own file tree: only the directories handed to the `Host` constructor, and what the panel creates, are known to exist. `file_exists` on any other path (a file under `/etc` that the panel did not write, say) is taken to be false.
- What `certbot --nginx --redirect` itself writes into the site file: it is an external program.
- The `email` rule: an oracle boolean, not an RFC 5322 parser.
- Caught exceptions other than the NOT NULL failure of `update`: database outages, filesystem errors and similar are not modelled. Their answer would be 500 with the state reached so far.
- Eloquent's dirty checking, which skips an UPDATE that changes nothing: both UPDATE statements of `update` are always recorded, and so is the UPDATE of `enableSsl`, even when `ssl_enabled` is already true.
- Partial effects of a failed `useradd` or `userdel`: a failure is taken to change nothing.
- `index` and `show` endpoints, route-model binding and the auth middleware: reads only. Binding is modelled as a 404 for an unknown id.
- `/system/info`, external databases, the Eloquent model classes, the seeder and the browser front end: outside the provisioning core.
- Concurrency between requests: every request runs alone.
- The timestamps columns `created_at` and `updated_at`.
- SystemUserController.Destroy: the nginx files and links of the deleted user's sites are left in place, as the code does. `Consistent` still holds because their rows are gone.
- VhostController.Update: requires `Host.Valid`, whose `Db.Valid` guarantees that the row's owner exists; every endpoint method likewise requires and keeps `Host.Valid`.
- VhostController.StoreErrors / UpdateErrors: the endpoints apply the corrected PHP-version rule (only the exact strings 8.1, 8.2 and 8.3). The code also accepts zero-padded spellings such as "8.10", stores them and renders a socket path that names no installed PHP-FPM pool; see Findings.
- VhostController.Store, VhostController.Update: follow the corrected rule above, so a padded version is answered 422 here instead of being stored.
- VhostController.StoreKeepsConsistent, VhostController.UpdateKeepsConsistent: `Consistent` requires each stored version to be one of the three listed strings. That holds for the corrected rule only; under the rule as written, a stored "8.10" breaks it.
- VhostController.EnableSslCommitsAfterCertbot: "the site file stays" means the panel does not write it. Certbot's own edit of the file is not recorded, so the model does not promise the file is byte-for-byte the same.
- Validators.IsValidDomain, Validators.IsValidUsername: each check runs on the value after the framework trims input, so the `$` anchor's tolerance of a trailing newline (in `^[a-zA-Z0-9.-]+\.[a-zA-Z]{2,}$` and `^[a-zA-Z0-9_-]+$`) is not modelled.
- VhostController.StoreErrors, VhostController.UpdateErrors, VhostController.UpdateRefusal, VhostController.Store, VhostController.Update: a `Given` string field is taken to be non-blank. The framework's default middleware trims input and turns a blank string into null before the controller runs, so a blank field arrives as `Null`, which these members handle. On `Given("")` itself they answer 422 for `php_version` or `status`, and `update` stores a blank `document_root`. Laravel's validator would instead skip the `in` rule on a blank value.
- VhostController.PrepareDocumentRoot, VhostController.WithDocumentRoot, VhostController.Create, VhostController.Store, VhostController.StorePreparesDocumentRoot: paths are compared as spelled, with no normalisation. A root naming an existing directory through a trailing `/`, a `//`, a `/./` or a `..` counts as absent. The model then prepares it again: the directory, a placeholder over the existing page, and the five commands. There, `file_exists` is true and the code skips lines 47-56 of the vhost controller.

## Findings

| source | as written | input that shows it | evidently intended | confidence | as-written member | corrected member |
|---|---|---|---|---|---|---|
| app/Http/Controllers/Api/VhostController.php:32 | `in:8.1,8.2,8.3` on `store` is checked with a non-strict `in_array`, so numeric strings are compared as numbers | `php_version = "8.10"` passes, is stored, and renders `fastcgi_pass unix:/var/run/php/php8.10-fpm-{user}.sock` | only the three listed strings pass | not executed | Validators.PaddedVersionPassesLooseCheck | VhostController.StoreErrors |
| app/Http/Controllers/Api/VhostController.php:117 | the same loose `in:8.1,8.2,8.3` rule on `update` | `php_version = "8.10"` on an existing site passes, and the site is re-rendered with the padded socket path | only the three listed strings pass | not executed | Validators.PaddedVersionPassesLooseCheck | VhostController.UpdateErrors |
