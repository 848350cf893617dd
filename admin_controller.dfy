/** The admin controller (controllers/adminController.js): the user and
    file listings, and the cascading delete of a user with their files. */
module AdminController {
  import opened Common
  import opened Models
  import opened Http
  import opened Services

  const UsersFailed := "Server error while fetching users."
  const FilesFailed := "Server error while fetching files."
  const SelfDelete := "Admins cannot delete their own account from the dashboard."
  const UserNotFound := "User not found."
  const DeleteFailed := "Server error while deleting user."
  const UserDeleted := "User and all associated files deleted successfully."

  /** A user document without its password (`select('-password')`). */
  datatype PublicUser = PublicUser(id: Id, name: string, email: string, isAdmin: bool,
                                   createdAt: int, updatedAt: int)

  function Public(u: User): PublicUser {
    PublicUser(u.id, u.name, u.email, u.isAdmin, u.createdAt, u.updatedAt)
  }

  /** Putting a password back on a projected user. */
  function WithPassword(p: PublicUser, password: string): User {
    User(p.id, p.name, p.email, password, p.isAdmin, p.createdAt, p.updatedAt)
  }

  /** The projection drops the password and nothing else. */
  lemma PublicDropsOnlyPassword(u: User)
    ensures WithPassword(Public(u), u.password) == u
  {
  }

  /** `getAllUsers`: every user, in store order, without the password; or
      the 500 response when the store throws. */
  function AllUsers(users: seq<User>, online: bool): (r: Response<seq<PublicUser>>)
    ensures r.status == 200 <==> online
    ensures !online ==> r == Response(500, Msg(UsersFailed))
    ensures online ==> r.body.Data? && |r.body.payload| == |users|
                       && forall i :: 0 <= i < |users| ==>
                            WithPassword(r.body.payload[i], users[i].password) == users[i]
  {
    if online then Response(200, Data(seq(|users|, i requires 0 <= i < |users| => Public(users[i]))))
    else Response(500, Msg(UsersFailed))
  }

  /** The populated `uploadedBy`: the owner's id and email. */
  datatype Owner = Owner(id: Id, email: string)

  /** A file record whose `uploadedBy` was populated; null when the owning
      user no longer exists. */
  datatype ListedFile = ListedFile(doc: FileDoc, owner: Option<Owner>)

  /** `User.findById(id)`. */
  function UserById(users: seq<User>, id: Id): (r: Option<User>)
    ensures r.None? <==> forall u :: u in users ==> u.id != id
    ensures r.Some? ==> r.value in users && r.value.id == id
  {
    FindFirst(users, UserIdIs(id))
  }

  function OwnerOf(users: seq<User>, id: Id): (o: Option<Owner>)
    ensures o.None? <==> forall u :: u in users ==> u.id != id
    ensures o.Some? ==> o.value.id == id && exists u :: u in users && u.id == id && u.email == o.value.email
  {
    match UserById(users, id)
    case None => None
    case Some(u) => Some(Owner(u.id, u.email))
  }

  /** `getAllFiles`: every file record in store order, each with its
      owner's id and email, or the 500 response when the store throws. */
  function AllFiles(files: seq<FileDoc>, users: seq<User>, online: bool): (r: Response<seq<ListedFile>>)
    ensures r.status == 200 <==> online
    ensures !online ==> r == Response(500, Msg(FilesFailed))
    ensures online ==> r.body.Data? && |r.body.payload| == |files|
                       && forall i :: 0 <= i < |files| ==>
                            && r.body.payload[i].doc == files[i]
                            && (r.body.payload[i].owner.None? <==> forall u :: u in users ==> u.id != files[i].uploadedBy)
                            && (r.body.payload[i].owner.Some? ==>
                                  && r.body.payload[i].owner.value.id == files[i].uploadedBy
                                  && exists u :: u in users && u.id == files[i].uploadedBy
                                                 && u.email == r.body.payload[i].owner.value.email)
  {
    if online
    then Response(200, Data(seq(|files|, i requires 0 <= i < |files| => ListedFile(files[i], OwnerOf(users, files[i].uploadedBy)))))
    else Response(500, Msg(FilesFailed))
  }

  /** The ids of a sequence of file records. */
  function IdsOf(s: seq<FileDoc>): set<Id> {
    set f | f in s :: f.id
  }

  /** The stored files the cascade removes from disk: each record's path,
      unless it is empty or its unlink fails (a missing file fails with
      ENOENT and removes nothing either). */
  function UnlinkedPaths(s: seq<FileDoc>, failing: set<string>): set<string> {
    if s == [] then {}
    else
      var last := s[|s| - 1];
      UnlinkedPaths(s[..|s| - 1], failing)
        + (if last.filepath != "" && last.filepath !in failing then {last.filepath} else {})
  }

  /** Deleting the records of the target's files by id is the same as
      keeping the records of everyone else. */
  lemma CascadeRemovesExactlyOwned(files: seq<FileDoc>, target: Id)
    requires DistinctFileIds(files)
    ensures Filter(files, FileIdNotIn(IdsOf(Filter(files, OwnedBy(target)))))
         == Filter(files, NotOwnedBy(target))
  {
    var owned := Filter(files, OwnedBy(target));
    forall x | x in files
      ensures FileIdNotIn(IdsOf(owned))(x) == NotOwnedBy(target)(x)
    {
      if x.id in IdsOf(owned) {
        var y :| y in owned && y.id == x.id;
        var i :| 0 <= i < |files| && files[i] == x;
        var j :| 0 <= j < |files| && files[j] == y;
        assert files[i].id == files[j].id;
      }
    }
    FilterCongruent(files, FileIdNotIn(IdsOf(owned)), NotOwnedBy(target));
  }

  /** `deleteUser`: refuses self-deletion (400) and unknown users (404);
      otherwise unlinks each of the target's stored files (errors are
      caught), deletes each file record, then the user. */
  method DeleteUser(db: Db, fs: FileSystem, admin: Id, target: Id) returns (res: Response<()>)
    requires db.Valid()
    modifies db, fs
    ensures db.Valid()
    ensures db.history == old(db.history) && db.nextId == old(db.nextId) && db.online == old(db.online)
    ensures fs.failing == old(fs.failing)
    ensures target == admin ==> res == Response(400, Msg(SelfDelete))
    ensures target != admin && !old(db.online) ==> res == Response(500, MsgError(DeleteFailed, DbUnavailable))
    ensures target != admin && old(db.online) && UserById(old(db.users), target).None? ==>
              res == Response(404, Msg(UserNotFound))
    ensures res.status != 200 ==>
              db.users == old(db.users) && db.files == old(db.files) && fs.contents == old(fs.contents)
    ensures res.status == 200 <==> target != admin && old(db.online) && UserById(old(db.users), target).Some?
    ensures res.status == 200 ==>
              && res == Response(200, Msg(UserDeleted))
              && db.users == Filter(old(db.users), UserIdIsNot(target))
              && db.files == Filter(old(db.files), NotOwnedBy(target))
              && fs.contents == old(fs.contents)
                   - UnlinkedPaths(Filter(old(db.files), OwnedBy(target)), old(fs.failing))
  {
    if target == admin {
      return Response(400, Msg(SelfDelete));
    }
    if !db.online {
      return Response(500, MsgError(DeleteFailed, DbUnavailable));
    }
    var user := UserById(db.users, target);
    if user.None? {
      return Response(404, Msg(UserNotFound));
    }
    var userFiles := Filter(db.files, OwnedBy(target));
    ghost var files0 := db.files;
    RemoveFiles(db, fs, userFiles);
    CascadeRemovesExactlyOwned(files0, target);
    var err := db.DeleteUserById(target);
    res := Response(200, Msg(UserDeleted));
  }

  /** The loop of `deleteUser` over the target's files: unlink each stored
      file, swallowing the error, then delete its record. The user record is
      untouched throughout, so it still exists at every step. */
  method RemoveFiles(db: Db, fs: FileSystem, userFiles: seq<FileDoc>)
    requires db.Valid() && db.online
    modifies db, fs
    ensures db.Valid()
    ensures db.users == old(db.users) && db.history == old(db.history)
    ensures db.nextId == old(db.nextId) && db.online == old(db.online)
    ensures fs.failing == old(fs.failing)
    ensures db.files == Filter(old(db.files), FileIdNotIn(IdsOf(userFiles)))
    ensures fs.contents == old(fs.contents) - UnlinkedPaths(userFiles, old(fs.failing))
  {
    ghost var files0 := db.files;
    ghost var contents0 := fs.contents;
    assert IdsOf(userFiles[..0]) == {} by { assert userFiles[..0] == []; }
    FilterAllKept(files0, FileIdNotIn({}));
    var i := 0;
    while i < |userFiles|
      invariant 0 <= i <= |userFiles|
      invariant db.Valid() && db.online
      invariant db.users == old(db.users) && db.history == old(db.history) && db.nextId == old(db.nextId)
      invariant fs.failing == old(fs.failing)
      invariant Cascaded(db.files, fs.contents, files0, contents0, userFiles[..i], fs.failing)
    {
      RemoveNext(db, fs, files0, contents0, userFiles, i);
      i := i + 1;
    }
    assert userFiles[..i] == userFiles;
  }

  /** The records and the disk once the files of `done` are removed. */
  ghost predicate Cascaded(files: seq<FileDoc>, contents: map<string, Bytes>, files0: seq<FileDoc>,
                           contents0: map<string, Bytes>, done: seq<FileDoc>, failing: set<string>) {
    && files == Filter(files0, FileIdNotIn(IdsOf(done)))
    && contents == contents0 - UnlinkedPaths(done, failing)
  }

  /** One iteration of the loop: the files before `i` are gone, and after
      it so is file `i`. */
  method RemoveNext(db: Db, fs: FileSystem, ghost files0: seq<FileDoc>, ghost contents0: map<string, Bytes>,
                    userFiles: seq<FileDoc>, i: nat)
    requires i < |userFiles| && db.Valid() && db.online
    requires Cascaded(db.files, fs.contents, files0, contents0, userFiles[..i], fs.failing)
    modifies db, fs
    ensures db.Valid() && db.online
    ensures db.users == old(db.users) && db.history == old(db.history) && db.nextId == old(db.nextId)
    ensures fs.failing == old(fs.failing)
    ensures Cascaded(db.files, fs.contents, files0, contents0, userFiles[..i + 1], fs.failing)
  {
    CascadeStep(files0, userFiles, i);
    PathsStep(contents0, userFiles, i, fs.failing);
    RemoveOne(db, fs, userFiles[i]);
  }

  /** One more iteration removes the records of one more id: filtering
      out the ids before `i`, then file `i`'s, is filtering out the ids up
      to and including `i`. */
  lemma CascadeStep(files0: seq<FileDoc>, s: seq<FileDoc>, i: nat)
    requires i < |s|
    ensures Filter(Filter(files0, FileIdNotIn(IdsOf(s[..i]))), FileIdNotIn({s[i].id}))
         == Filter(files0, FileIdNotIn(IdsOf(s[..i + 1])))
  {
    var before, one, upTo := FileIdNotIn(IdsOf(s[..i])), FileIdNotIn({s[i].id}), FileIdNotIn(IdsOf(s[..i + 1]));
    IdsStep(s, i);
    forall x | x in files0 ensures upTo(x) == (before(x) && one(x)) {
    }
    FilterTwice(files0, before, one, upTo);
  }

  /** The ids up to and including `i` are those before it and file `i`'s. */
  lemma IdsStep(s: seq<FileDoc>, i: nat)
    requires i < |s|
    ensures IdsOf(s[..i + 1]) == IdsOf(s[..i]) + {s[i].id}
  {
    assert s[..i + 1] == s[..i] + [s[i]];
  }

  /** One more iteration removes file `i`'s path from disk exactly when it
      has one and its unlink succeeds. */
  lemma PathsStep(contents0: map<string, Bytes>, s: seq<FileDoc>, i: nat, failing: set<string>)
    requires i < |s|
    ensures var m := contents0 - UnlinkedPaths(s[..i], failing);
      (if s[i].filepath != "" && s[i].filepath !in failing then m - {s[i].filepath} else m)
        == contents0 - UnlinkedPaths(s[..i + 1], failing)
  {
    assert s[..i + 1][..i] == s[..i];
  }

  method RemoveOne(db: Db, fs: FileSystem, f: FileDoc)
    requires db.Valid() && db.online
    modifies db, fs
    ensures db.Valid()
    ensures db.users == old(db.users) && db.history == old(db.history)
    ensures db.nextId == old(db.nextId) && db.online == old(db.online)
    ensures fs.failing == old(fs.failing)
    ensures db.files == Filter(old(db.files), FileIdNotIn({f.id}))
    ensures fs.contents == if f.filepath != "" && f.filepath !in fs.failing
                           then old(fs.contents) - {f.filepath} else old(fs.contents)
  {
    if f.filepath != "" {
      var err := fs.Unlink(f.filepath);
    }
    var err := db.DeleteFileById(f.id);
  }
}
