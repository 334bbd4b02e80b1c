/**
  `syncDocumentAndContainer`: every visible entry of the document directory,
  except two the system puts there, is moved into the user scripts
  directory, replacing an entry of the same name.
*/
module Sync {
  import opened Files

  const KeyPairName: string := "com.google.iid-keypair.plist"
  const InboxName: string := "Inbox"

  /** The entries the sync leaves where they are. */
  predicate Excluded(name: string)
  {
    name == KeyPairName || name == InboxName
  }

  /** The document directory and the user scripts directory. */
  datatype Dirs = Dirs(documents: Directory, user: Directory)

  predicate DirsWellFormed(dirs: Dirs)
  {
    WellFormed(dirs.documents) && WellFormed(dirs.user)
  }

  /**
    One entry: skipped when excluded; otherwise the user directory's entry of
    that name is removed, then the document entry, when there is one, is
    copied over and removed from the documents.
  */
  function SyncStep(dirs: Dirs, name: string): (r: Dirs)
    requires DirsWellFormed(dirs)
    ensures DirsWellFormed(r)
  {
    if Excluded(name) then dirs
    else
      var user := if name in dirs.user.files then Remove(dirs.user, name) else dirs.user;
      if name in dirs.documents.files then
        Dirs(Remove(dirs.documents, name), Put(user, name, dirs.documents.files[name]))
      else
        Dirs(dirs.documents, user)
  }

  /** The sync's loop over the listed names. */
  function SyncAll(dirs: Dirs, names: seq<string>): (r: Dirs)
    requires DirsWellFormed(dirs)
    ensures DirsWellFormed(r)
  {
    if names == [] then dirs else SyncStep(SyncAll(dirs, names[..|names| - 1]), names[|names| - 1])
  }

  /** Whether the sync of `names` moves the entry `name`. */
  predicate Moves(names: seq<string>, name: string)
  {
    name in names && !Excluded(name)
  }

  /** What the sync leaves in the documents and puts in the user directory, entry by entry. */
  ghost predicate SyncedFrom(dirs: Dirs, names: seq<string>, r: Dirs)
  {
    && (forall n :: n in r.documents.files <==> n in dirs.documents.files && !Moves(names, n))
    && (forall n :: n in r.documents.files ==> r.documents.files[n] == dirs.documents.files[n])
    && (forall n :: n in r.user.files <==> n in dirs.user.files || Moves(names, n))
    && (forall n :: n in r.user.files && Moves(names, n) ==> n in dirs.documents.files && r.user.files[n] == dirs.documents.files[n])
    && (forall n :: n in r.user.files && !Moves(names, n) ==> r.user.files[n] == dirs.user.files[n])
  }

  /** One more name: what a step does to a state that `SyncedFrom` describes. */
  lemma SyncStepEffect(dirs: Dirs, names: seq<string>, name: string, r: Dirs)
    requires DirsWellFormed(dirs) && DirsWellFormed(r)
    requires name !in names && name in dirs.documents.files
    requires SyncedFrom(dirs, names, r)
    ensures SyncedFrom(dirs, names + [name], SyncStep(r, name))
  {
    assert forall n :: Moves(names + [name], n) <==> Moves(names, n) || (n == name && !Excluded(name));
  }

  /**
    The sync of distinct names listed in the documents: each one, unless
    excluded, leaves the documents and ends in the user directory with its
    document content, replacing any entry of that name there; every other
    entry of either directory stays as it was.
  */
  lemma {:induction false} SyncEffect(dirs: Dirs, names: seq<string>)
    requires DirsWellFormed(dirs) && NoDuplicates(names)
    requires forall n :: n in names ==> n in dirs.documents.files
    ensures SyncedFrom(dirs, names, SyncAll(dirs, names))
  {
    if names != [] {
      var prefix := names[..|names| - 1];
      var name := names[|names| - 1];
      assert names == prefix + [name];
      SyncEffect(dirs, prefix);
      SyncStepEffect(dirs, prefix, name, SyncAll(dirs, prefix));
    }
  }

  /** The whole sync, over the documents' listing. */
  function SyncDirectories(dirs: Dirs): (r: Dirs)
    requires DirsWellFormed(dirs)
    ensures DirsWellFormed(r)
  {
    SyncAll(dirs, Listing(dirs.documents))
  }

  /**
    After the sync the documents hold exactly their hidden and excluded
    entries, unchanged; the user directory holds its former entries and every
    moved one, a moved entry with its document content.
  */
  lemma SyncDirectoriesEffect(dirs: Dirs)
    requires DirsWellFormed(dirs)
    ensures var r := SyncDirectories(dirs);
      && (forall n :: n in r.documents.files <==> n in dirs.documents.files && (Hidden(n) || Excluded(n)))
      && (forall n :: n in r.documents.files ==> r.documents.files[n] == dirs.documents.files[n])
      && (forall n :: n in r.user.files <==> n in dirs.user.files || (n in dirs.documents.files && !Hidden(n) && !Excluded(n)))
      && (forall n :: n in dirs.documents.files && !Hidden(n) && !Excluded(n) ==> r.user.files[n] == dirs.documents.files[n])
      && (forall n :: n in dirs.user.files && (n !in dirs.documents.files || Hidden(n) || Excluded(n)) ==>
            r.user.files[n] == dirs.user.files[n])
  {
    ListingMembers(dirs.documents);
    SyncEffect(dirs, Listing(dirs.documents));
  }

  /** A document directory holding only excluded or hidden entries leaves both directories as they were. */
  lemma NothingToMove(dirs: Dirs)
    requires DirsWellFormed(dirs)
    requires forall n :: n in dirs.documents.files ==> Hidden(n) || Excluded(n)
    ensures SyncDirectories(dirs).documents.files == dirs.documents.files
    ensures SyncDirectories(dirs).user.files == dirs.user.files
  {
    SyncDirectoriesEffect(dirs);
    var r := SyncDirectories(dirs);
    assert r.user.files.Keys == dirs.user.files.Keys;
  }
}
