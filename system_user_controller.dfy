/**
  The system-user endpoints: creating an operating-system account together
  with its registry row, changing the row's flags, and removing both.

  As for the virtual hosts, each endpoint is a method on the machine and a
  function on snapshots, `...Outcome`, that says what the request leaves
  behind. The functions are the specification the methods are proved
  against; the lemmas after each pair state what the endpoint promises.
*/
module SystemUserController {
  import opened Common
  import opened Schema
  import opened Validators
  import opened Host
  import NginxConfig

  const CreateFailed := "Failed to create system user: "
  const RemoveFailed := "Failed to remove system user: "
  const Deleted := "System user deleted successfully"

  /**
    The fields `store` rejects: a username that is missing, malformed or
    already registered, and a flag sent as an explicit null (the `boolean`
    rule admits only true, false, 0, 1, "0" and "1").
  */
  function StoreErrors(db: Db, username: Field<string>, sshEnabled: Field<bool>, ftpEnabled: Field<bool>): (errors: set<Input>)
    ensures Username in errors <==> !username.Given? || !IsValidUsername(username.value) || db.UsernameTaken(username.value)
    ensures SshEnabled in errors <==> sshEnabled.Null?
    ensures FtpEnabled in errors <==> ftpEnabled.Null?
    ensures errors <= {Username, SshEnabled, FtpEnabled}
  {
    (if !username.Given? || !IsValidUsername(username.value) || db.UsernameTaken(username.value) then {Username} else {})
    + (if sshEnabled.Null? then {SshEnabled} else {})
    + (if ftpEnabled.Null? then {FtpEnabled} else {})
  }

  /** The fields `update` rejects: a flag sent as an explicit null. */
  function UpdateErrors(sshEnabled: Field<bool>, ftpEnabled: Field<bool>): (errors: set<Input>)
    ensures SshEnabled in errors <==> sshEnabled.Null?
    ensures FtpEnabled in errors <==> ftpEnabled.Null?
    ensures errors <= {SshEnabled, FtpEnabled}
  {
    (if sshEnabled.Null? then {SshEnabled} else {}) + (if ftpEnabled.Null? then {FtpEnabled} else {})
  }

  /** The row `store` inserts for a new account. */
  function NewSystemUser(username: string, description: Field<string>, sshEnabled: Field<bool>, ftpEnabled: Field<bool>,
                         actor: nat): (u: SystemUser)
    ensures u.username == username && u.homeDirectory == HomeDirectory(username) && u.shell == DefaultShell
    ensures u.sshEnabled == (sshEnabled.Given? && sshEnabled.value)
    ensures u.ftpEnabled == (ftpEnabled.Given? && ftpEnabled.value)
    ensures u.description == description.ToOption()
    ensures u.createdBy == actor
  {
    SystemUserRow(username, HomeDirectory(username), None, Some(sshEnabled.Or(false)), Some(ftpEnabled.Or(false)),
                  description.ToOption(), actor)
  }

  /** The row with the columns `update` assigns. */
  function Revised(u: SystemUser, description: Field<string>, sshEnabled: Field<bool>, ftpEnabled: Field<bool>): (r: SystemUser)
    ensures r.username == u.username && r.homeDirectory == u.homeDirectory && r.shell == u.shell
    ensures r.createdBy == u.createdBy
    ensures r.description == description.AssignNullable(u.description)
    ensures r.sshEnabled == sshEnabled.Assign(u.sshEnabled) && r.ftpEnabled == ftpEnabled.Assign(u.ftpEnabled)
  {
    u.(description := description.AssignNullable(u.description),
       sshEnabled := sshEnabled.Assign(u.sshEnabled),
       ftpEnabled := ftpEnabled.Assign(u.ftpEnabled))
  }

  // ------------------------------------------------------------------ store

  /**
    POST /system-users: what the request leaves behind. `actor` is the
    authenticated panel user; `useradd` is the outcome of
    `useradd -m -d /home/{username} -s /bin/bash {username}`, which creates
    the account and its home.
  */
  function StoreOutcome(w: World, username: Field<string>, description: Field<string>, sshEnabled: Field<bool>,
                        ftpEnabled: Field<bool>, actor: nat, useradd: CmdResult): Outcome
    requires actor in w.db.panelUsers
  {
    var errors := StoreErrors(w.db, username, sshEnabled, ftpEnabled);
    if errors != {} then Outcome(w, Response(422, ValidationErrors(errors)))
    else
      var name, home := username.value, HomeDirectory(username.value);
      var tried := w.trace + [UserAdd(name, home)];
      if !useradd.Succeeded() then
        Outcome(w.(trace := tried), Response(500, Error(CreateFailed + Implode(" ", useradd.output))))
      else
        var id := w.db.nextSystemUserId;
        Outcome(w.(db := InsertSystemUser(w.db, NewSystemUser(name, description, sshEnabled, ftpEnabled, actor)).value,
                   accounts := w.accounts + {name},
                   dirs := w.dirs + {home},
                   trace := tried + [InsertRow(SystemUsers, id)] + [Chown(home, Owner(name))] + [Chmod(home, "755")]),
                Response(201, SystemUserRecord(id)))
  }

  method Store(h: Host, username: Field<string>, description: Field<string>, sshEnabled: Field<bool>, ftpEnabled: Field<bool>,
               actor: nat, useradd: CmdResult) returns (response: Response)
    requires h.Valid() && actor in h.db.panelUsers
    modifies h
    ensures Outcome(h.State(), response)
            == StoreOutcome(old(h.State()), username, description, sshEnabled, ftpEnabled, actor, useradd)
    ensures h.Valid()
  {
    StoreKeepsConsistent(h.State(), username, description, sshEnabled, ftpEnabled, actor, useradd);
    response := AddAccount(h, username, description, sshEnabled, ftpEnabled, actor, useradd);
  }

  /** The steps of `store`, in the controller's order. */
  method AddAccount(h: Host, username: Field<string>, description: Field<string>, sshEnabled: Field<bool>,
                    ftpEnabled: Field<bool>, actor: nat, useradd: CmdResult) returns (response: Response)
    requires actor in h.db.panelUsers
    modifies h
    ensures Outcome(h.State(), response)
            == StoreOutcome(old(h.State()), username, description, sshEnabled, ftpEnabled, actor, useradd)
  {
    var errors := StoreErrors(h.db, username, sshEnabled, ftpEnabled);
    if errors != {} {
      return Response(422, ValidationErrors(errors));
    }
    var name := username.value;
    var home := HomeDirectory(name);

    h.trace := h.trace + [UserAdd(name, home)];
    if !useradd.Succeeded() {
      return Response(500, Error(CreateFailed + Implode(" ", useradd.output)));
    }
    h.accounts := h.accounts + {name};
    h.dirs := h.dirs + {home};

    var id := h.db.nextSystemUserId;
    h.db := InsertSystemUser(h.db, NewSystemUser(name, description, sshEnabled, ftpEnabled, actor)).value;
    h.trace := h.trace + [InsertRow(SystemUsers, id)];

    h.trace := h.trace + [Chown(home, Owner(name))];
    h.trace := h.trace + [Chmod(home, "755")];
    response := Response(201, SystemUserRecord(id));
  }

  /**
    `store` validates before it runs any command: it answers 422 exactly when
    a field is rejected, and then the machine is as it was. Otherwise
    `useradd` is the first thing it does.
  */
  lemma StoreValidatesFirst(w: World, username: Field<string>, description: Field<string>, sshEnabled: Field<bool>,
                            ftpEnabled: Field<bool>, actor: nat, useradd: CmdResult)
    requires actor in w.db.panelUsers
    ensures var o := StoreOutcome(w, username, description, sshEnabled, ftpEnabled, actor, useradd);
            var errors := StoreErrors(w.db, username, sshEnabled, ftpEnabled);
            && (o.response.status == 422 <==> errors != {})
            && (errors != {} ==> o.world == w && o.response.body == ValidationErrors(errors))
            && (errors == {} ==> |o.world.trace| > |w.trace|
                                 && o.world.trace[|w.trace|] == UserAdd(username.value, HomeDirectory(username.value)))
  {
  }

  /** A failed `useradd` is reported with its output joined by spaces, and no row is written. */
  lemma StoreStopsOnFailedUseradd(w: World, username: Field<string>, description: Field<string>, sshEnabled: Field<bool>,
                                  ftpEnabled: Field<bool>, actor: nat, useradd: CmdResult)
    requires actor in w.db.panelUsers
    requires StoreErrors(w.db, username, sshEnabled, ftpEnabled) == {} && !useradd.Succeeded()
    ensures var o := StoreOutcome(w, username, description, sshEnabled, ftpEnabled, actor, useradd);
            && o.response == Response(500, Error(CreateFailed + Implode(" ", useradd.output)))
            && o.world.db == w.db && o.world.accounts == w.accounts && o.world.dirs == w.dirs
  {
  }

  /**
    After a successful `useradd` exactly one row is written, under the next
    id: the username, a home of `/home/{username}`, a bash shell, the flags
    defaulting to off, and the requesting panel user as creator. The home
    is handed to the account only after the row exists.
  */
  lemma StoreCreatesAccount(w: World, username: Field<string>, description: Field<string>, sshEnabled: Field<bool>,
                            ftpEnabled: Field<bool>, actor: nat, useradd: CmdResult)
    requires actor in w.db.panelUsers
    requires StoreErrors(w.db, username, sshEnabled, ftpEnabled) == {} && useradd.Succeeded()
    ensures var o := StoreOutcome(w, username, description, sshEnabled, ftpEnabled, actor, useradd);
            var id, name := w.db.nextSystemUserId, username.value;
            && o.response == Response(201, SystemUserRecord(id))
            && id in o.world.db.systemUsers
            && o.world.db.systemUsers == w.db.systemUsers[id := o.world.db.systemUsers[id]]
            && o.world.db.vhosts == w.db.vhosts && o.world.db.certificates == w.db.certificates
            && var u := o.world.db.systemUsers[id];
               && u.username == name && u.homeDirectory == "/home/" + name && u.shell == "/bin/bash"
               && u.sshEnabled == sshEnabled.Or(false) && u.ftpEnabled == ftpEnabled.Or(false)
               && u.createdBy == actor
               && o.world.accounts == w.accounts + {name} && u.homeDirectory in o.world.dirs
               && o.world.trace[|w.trace|..]
                  == [UserAdd(name, u.homeDirectory), InsertRow(SystemUsers, id),
                      Chown(u.homeDirectory, Owner(name)), Chmod(u.homeDirectory, "755")]
  {
  }

  /** `store` keeps the registry in agreement with the machine, whatever its outcome. */
  lemma StoreKeepsConsistent(w: World, username: Field<string>, description: Field<string>, sshEnabled: Field<bool>,
                             ftpEnabled: Field<bool>, actor: nat, useradd: CmdResult)
    requires Consistent(w) && actor in w.db.panelUsers
    ensures Consistent(StoreOutcome(w, username, description, sshEnabled, ftpEnabled, actor, useradd).world)
  {
    if StoreErrors(w.db, username, sshEnabled, ftpEnabled) == {} && useradd.Succeeded() {
      AccountAdded(w.db, NewSystemUser(username.value, description, sshEnabled, ftpEnabled, actor),
                   w.accounts, w.available, w.enabled);
    }
  }

  /** Registering a valid username whose account exists keeps the registry in agreement with the machine. */
  lemma AccountAdded(db: Db, u: SystemUser, accounts: set<string>, available: map<string, NginxConfig.Site>,
                     enabled: set<string>)
    requires InPlace(db, accounts, available, enabled) && InsertSystemUser(db, u).Some?
    requires IsValidUsername(u.username) && u.homeDirectory == HomeDirectory(u.username)
    ensures InPlace(InsertSystemUser(db, u).value, accounts + {u.username}, available, enabled)
  {
    InsertSystemUserKeepsValid(db, u);
  }

  // ----------------------------------------------------------------- update

  /** PUT /system-users/{id}: what the request leaves behind. */
  function UpdateOutcome(w: World, id: nat, description: Field<string>, sshEnabled: Field<bool>,
                         ftpEnabled: Field<bool>): Outcome
  {
    if id !in w.db.systemUsers then Outcome(w, Response(404, NotFound))
    else
      var errors := UpdateErrors(sshEnabled, ftpEnabled);
      if errors != {} then Outcome(w, Response(422, ValidationErrors(errors)))
      else
        Outcome(w.(db := UpdateSystemUser(w.db, id, Revised(w.db.systemUsers[id], description, sshEnabled, ftpEnabled)),
                   trace := w.trace + [UpdateRow(SystemUsers, id)]),
                Response(200, SystemUserRecord(id)))
  }

  method Update(h: Host, id: nat, description: Field<string>, sshEnabled: Field<bool>, ftpEnabled: Field<bool>)
    returns (response: Response)
    requires h.Valid()
    modifies h
    ensures Outcome(h.State(), response) == UpdateOutcome(old(h.State()), id, description, sshEnabled, ftpEnabled)
    ensures h.Valid()
  {
    UpdateKeepsConsistent(h.State(), id, description, sshEnabled, ftpEnabled);
    if id !in h.db.systemUsers {
      return Response(404, NotFound);
    }
    var errors := UpdateErrors(sshEnabled, ftpEnabled);
    if errors != {} {
      return Response(422, ValidationErrors(errors));
    }
    h.db := UpdateSystemUser(h.db, id, Revised(h.db.systemUsers[id], description, sshEnabled, ftpEnabled));
    h.trace := h.trace + [UpdateRow(SystemUsers, id)];
    response := Response(200, SystemUserRecord(id));
  }

  /**
    `update` changes only the description and the two flags of the one row:
    the username, home, shell and creator stay, and so does every other row,
    account and file. It answers 404 for an unknown row and 422 for a null
    flag, and then nothing changes.
  */
  lemma UpdateChangesOnlyFlags(w: World, id: nat, description: Field<string>, sshEnabled: Field<bool>,
                               ftpEnabled: Field<bool>)
    ensures var o := UpdateOutcome(w, id, description, sshEnabled, ftpEnabled);
            && (o.response.status == 404 <==> id !in w.db.systemUsers)
            && (o.response.status == 422 <==> id in w.db.systemUsers && UpdateErrors(sshEnabled, ftpEnabled) != {})
            && (o.response.status != 200 ==> o.world == w)
            && o.world.db.systemUsers.Keys == w.db.systemUsers.Keys
            && o.world.db.vhosts == w.db.vhosts && o.world.db.certificates == w.db.certificates
            && o.world.accounts == w.accounts && o.world.dirs == w.dirs && o.world.files == w.files
            && (forall k | k in w.db.systemUsers && k != id :: o.world.db.systemUsers[k] == w.db.systemUsers[k])
            && (id in w.db.systemUsers ==>
                  var u, r := w.db.systemUsers[id], o.world.db.systemUsers[id];
                  && r.username == u.username && r.homeDirectory == u.homeDirectory
                  && r.shell == u.shell && r.createdBy == u.createdBy)
  {
  }

  /** `update` keeps the registry in agreement with the machine. */
  lemma UpdateKeepsConsistent(w: World, id: nat, description: Field<string>, sshEnabled: Field<bool>, ftpEnabled: Field<bool>)
    requires Consistent(w)
    ensures Consistent(UpdateOutcome(w, id, description, sshEnabled, ftpEnabled).world)
  {
    if id in w.db.systemUsers && UpdateErrors(sshEnabled, ftpEnabled) == {} {
      UpdateSystemUserKeepsValid(w.db, id, Revised(w.db.systemUsers[id], description, sshEnabled, ftpEnabled));
    }
  }

  // ---------------------------------------------------------------- destroy

  /**
    DELETE /system-users/{id}: what the request leaves behind. `userdel` is
    the outcome of `userdel -r`, which removes the account and its home
    directory tree. The row's vhosts and their certificates go with it, but
    their nginx files and links stay.
  */
  function DestroyOutcome(w: World, id: nat, userdel: CmdResult): Outcome
  {
    if id !in w.db.systemUsers then Outcome(w, Response(404, NotFound))
    else
      var u := w.db.systemUsers[id];
      var tried := w.trace + [UserDel(u.username)];
      if !userdel.Succeeded() then
        Outcome(w.(trace := tried), Response(500, Error(RemoveFailed + Implode(" ", userdel.output))))
      else
        Outcome(w.(db := DeleteSystemUser(w.db, id),
                   accounts := w.accounts - {u.username},
                   dirs := Outside(w.dirs, u.homeDirectory),
                   files := FilesOutside(w.files, u.homeDirectory),
                   trace := tried + [DeleteRow(SystemUsers, id)]),
                Response(200, Message(Deleted)))
  }

  method Destroy(h: Host, id: nat, userdel: CmdResult) returns (response: Response)
    requires h.Valid()
    modifies h
    ensures Outcome(h.State(), response) == DestroyOutcome(old(h.State()), id, userdel)
    ensures h.Valid()
  {
    DestroyKeepsConsistent(h.State(), id, userdel);
    if id !in h.db.systemUsers {
      return Response(404, NotFound);
    }
    var u := h.db.systemUsers[id];
    h.trace := h.trace + [UserDel(u.username)];
    if !userdel.Succeeded() {
      return Response(500, Error(RemoveFailed + Implode(" ", userdel.output)));
    }
    h.accounts := h.accounts - {u.username};
    h.dirs := Outside(h.dirs, u.homeDirectory);
    h.files := FilesOutside(h.files, u.homeDirectory);

    h.db := DeleteSystemUser(h.db, id);
    h.trace := h.trace + [DeleteRow(SystemUsers, id)];
    response := Response(200, Message(Deleted));
  }

  /** A failed `userdel` is reported with its output, and the row and the account stay. */
  lemma DestroyKeepsRowOnFailure(w: World, id: nat, userdel: CmdResult)
    requires id in w.db.systemUsers && !userdel.Succeeded()
    ensures var o := DestroyOutcome(w, id, userdel);
            && o.response == Response(500, Error(RemoveFailed + Implode(" ", userdel.output)))
            && o.world == w.(trace := w.trace + [UserDel(w.db.systemUsers[id].username)])
  {
  }

  /**
    A successful `userdel` removes the row, frees the username, takes the
    user's vhosts and their certificates with it and removes the home tree,
    but leaves every nginx site file and link in place, and every other
    registered user's home.
  */
  lemma DestroyRemovesUser(w: World, id: nat, userdel: CmdResult)
    requires w.db.Valid() && id in w.db.systemUsers && userdel.Succeeded()
    requires forall k | k in w.db.systemUsers :: AccountInPlace(w.db.systemUsers[k], w.accounts)
    ensures var o := DestroyOutcome(w, id, userdel);
            var u := w.db.systemUsers[id];
            && o.response == Response(200, Message(Deleted))
            && !o.world.db.UsernameTaken(u.username)
            && u.username !in o.world.accounts && u.homeDirectory !in o.world.dirs
            && (forall v | v in o.world.db.vhosts :: o.world.db.vhosts[v].systemUserId != id)
            && o.world.available == w.available && o.world.enabled == w.enabled
            && (forall k | k in o.world.db.systemUsers ::
                  o.world.db.systemUsers[k].homeDirectory in o.world.dirs
                  <==> o.world.db.systemUsers[k].homeDirectory in w.dirs)
  {
    var o := DestroyOutcome(w, id, userdel);
    var u := w.db.systemUsers[id];
    DeleteSystemUserKeepsValid(w.db, id);
    forall k | k in o.world.db.systemUsers
      ensures o.world.db.systemUsers[k].homeDirectory in o.world.dirs <==> o.world.db.systemUsers[k].homeDirectory in w.dirs
    {
      var other := w.db.systemUsers[k];
      assert other.username != u.username;
      HomesApart(other.username, u.username);
    }
  }

  /**
    The homes of two different valid usernames lie apart: neither is the
    other or inside it, so `userdel -r` of one leaves the other.
  */
  lemma HomesApart(a: string, b: string)
    requires IsValidUsername(a) && IsValidUsername(b) && a != b
    ensures !Within(HomeDirectory(a), HomeDirectory(b))
  {
    var ha, hb := HomeDirectory(a), HomeDirectory(b);
    if |ha| > |hb| {
      HomeDirectoryStaysInHome(a);
      assert ha[..|hb| + 1][|hb|] != (hb + "/")[|hb|];
    }
  }

  /** `destroy` keeps the registry in agreement with the machine, whatever `userdel` says. */
  lemma DestroyKeepsConsistent(w: World, id: nat, userdel: CmdResult)
    requires Consistent(w)
    ensures Consistent(DestroyOutcome(w, id, userdel).world)
  {
    if id in w.db.systemUsers && userdel.Succeeded() {
      DeletionKeepsOthersInPlace(w.db, id, w.accounts, w.available, w.enabled);
    }
  }

  /**
    Removing one system user, with its account, leaves every other
    registered user and site in place.
  */
  lemma DeletionKeepsOthersInPlace(db: Db, id: nat, accounts: set<string>, available: map<string, NginxConfig.Site>,
                                   enabled: set<string>)
    requires InPlace(db, accounts, available, enabled) && id in db.systemUsers
    ensures InPlace(DeleteSystemUser(db, id), accounts - {db.systemUsers[id].username}, available, enabled)
  {
    var r := DeleteSystemUser(db, id);
    DeleteSystemUserKeepsValid(db, id);
    forall k | k in r.systemUsers
      ensures AccountInPlace(r.systemUsers[k], accounts - {db.systemUsers[id].username})
    {
      assert k != id && k in db.systemUsers;
      assert db.systemUsers[k].username != db.systemUsers[id].username;
    }
  }
}
