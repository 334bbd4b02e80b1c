/**
  `ScriptsManager`: the fields the manager keeps (stored plugins, activation
  names, the main, hook and position scripts, the directories it reads and
  writes) and the operations that update them.
*/
module Manager {
  import opened Wrappers
  import opened Files
  import opened ScriptRecord
  import opened Plugins
  import opened Activation
  import opened Sync
  import opened Update
  import opened HookFormat

  /** The three fixed script slots. */
  datatype Slots = Slots(main: Option<Script>, hook: Option<Script>, position: Option<Script>)

  /** Each slot that holds a script holds one of category "Core". */
  predicate SlotsAreCore(slots: Slots)
  {
    && (slots.main.Some? ==> slots.main.value.category == "Core")
    && (slots.hook.Some? ==> slots.hook.value.category == "Core")
    && (slots.position.Some? ==> slots.position.value.category == "Core")
  }

  /** The main script read from `dir`, promoted to category "Core". */
  function AsMainScript(dir: Dir, name: string, text: string): (s: Script)
    ensures s.category == "Core" && s.filePath == Path(dir, name) && s.fileContent == text && !s.isUserScript
  {
    ScriptAtFile(Path(dir, name), text).(category := "Core")
  }

  /** The hook script: a core script whose text is formatted with the app's version and build number. */
  function HookScript(text: string, version: string, build: int): (s: Script)
    ensures s.category == "Core" && s.filePath == Path(LibraryScripts, HookScriptName)
    ensures s.fileContent == Format(text, [Object(version), Integer(build)]) && s.name == Some("hook")
  {
    var hook := CoreScript(Path(LibraryScripts, HookScriptName), text, "hook");
    hook.(fileContent := Format(hook.fileContent, [Object(version), Integer(build)]))
  }

  /** The position script of the library. */
  function PositionScript(text: string): (s: Script)
    ensures s.category == "Core" && s.filePath == Path(LibraryScripts, PositionScriptName)
    ensures s.fileContent == text && s.name == Some("position")
  {
    CoreScript(Path(LibraryScripts, PositionScriptName), text, "position")
  }

  /** A user's main or position script: category "Core", marked as a user script. */
  function UserMainScript(name: string, text: string): (s: Script)
    ensures s.category == "Core" && s.filePath == Path(UserScripts, name) && s.fileContent == text && s.isUserScript
  {
    AsMainScript(UserScripts, name, text).(isUserScript := true)
  }

  /**
    The library part of `loadMainScripts`: the main script, then the hook
    script, then the position script; the first file that cannot be read
    ends the sequence, leaving that slot and the later ones as they were.
  */
  function LibrarySlots(library: Directory, version: string, build: int, slots: Slots): Slots
  {
    match ReadText(library, MainScriptName)
    case None => slots
    case Some(mainText) =>
      var main := Some(AsMainScript(LibraryScripts, MainScriptName, mainText));
      match ReadText(library, HookScriptName)
      case None => slots.(main := main)
      case Some(hookText) =>
        var hook := Some(HookScript(hookText, version, build));
        match ReadText(library, PositionScriptName)
        case None => Slots(main, hook, slots.position)
        case Some(positionText) => Slots(main, hook, Some(PositionScript(positionText)))
  }

  /**
    One user override of `loadUserMainScript`: when the user directory has a
    file of that name that can be read, it takes the slot, in category
    "Core" and marked as a user script; otherwise the slot is kept.
  */
  function UserOverride(user: Directory, name: string, current: Option<Script>): Option<Script>
  {
    if name !in user.files then current
    else match ReadText(user, name)
      case None => current
      case Some(text) => Some(UserMainScript(name, text))
  }

  /** `loadUserMainScript`: the user's main script, then the user's position script. */
  function UserSlots(user: Directory, slots: Slots): Slots
  {
    slots.(main := UserOverride(user, MainScriptName, slots.main),
           position := UserOverride(user, PositionScriptName, slots.position))
  }

  /** `loadMainScripts`: the library slots, then the user overrides. */
  function MainSlots(library: Directory, user: Directory, version: string, build: int, slots: Slots): Slots
  {
    UserSlots(user, LibrarySlots(library, version, build, slots))
  }

  /** A readable user main script or position script always wins its slot. */
  lemma UserScriptsTakeSlots(library: Directory, user: Directory, version: string, build: int, slots: Slots)
    ensures ReadText(user, MainScriptName).Some? ==>
      var main := MainSlots(library, user, version, build, slots).main;
      && main.Some? && main.value.isUserScript && main.value.category == "Core"
      && main.value.filePath == Path(UserScripts, MainScriptName)
      && main.value.fileContent == ReadText(user, MainScriptName).value
    ensures ReadText(user, PositionScriptName).Some? ==>
      var position := MainSlots(library, user, version, build, slots).position;
      && position.Some? && position.value.isUserScript && position.value.category == "Core"
      && position.value.filePath == Path(UserScripts, PositionScriptName)
      && position.value.fileContent == ReadText(user, PositionScriptName).value
  {
  }

  /**
    Without a user override, a readable library main script takes the main
    slot: category "Core", not a user script, with the version and name of
    its own header.
  */
  lemma LibraryMainScript(library: Directory, user: Directory, version: string, build: int, slots: Slots)
    requires ReadText(library, MainScriptName).Some? && MainScriptName !in user.files
    ensures var main := MainSlots(library, user, version, build, slots).main;
      var text := ReadText(library, MainScriptName).value;
      && main.Some? && main.value.category == "Core" && !main.value.isUserScript
      && main.value.filePath == Path(LibraryScripts, MainScriptName) && main.value.fileContent == text
      && main.value.version == HeaderValue(text, "version") && main.value.name == HeaderValue(text, "name")
  {
    var text := ReadText(library, MainScriptName).value;
    LibraryMainSlot(library, user, version, build, slots);
    MainScriptFields(LibraryScripts, MainScriptName, text);
  }

  lemma LibraryMainSlot(library: Directory, user: Directory, version: string, build: int, slots: Slots)
    requires ReadText(library, MainScriptName).Some? && MainScriptName !in user.files
    ensures MainSlots(library, user, version, build, slots).main ==
      Some(AsMainScript(LibraryScripts, MainScriptName, ReadText(library, MainScriptName).value))
  {
  }

  /** A main script keeps the version and the name of its header. */
  lemma MainScriptFields(dir: Dir, name: string, text: string)
    ensures AsMainScript(dir, name, text).version == HeaderValue(text, "version")
    ensures AsMainScript(dir, name, text).name == HeaderValue(text, "name")
  {
    ScriptFieldsFromHeader(Path(dir, name), text);
  }

  /**
    When the library main script cannot be read and the user has none, none
    of the slots changes, except for the user's position script.
  */
  lemma UnreadableMainKeepsSlots(library: Directory, user: Directory, version: string, build: int, slots: Slots)
    requires ReadText(library, MainScriptName).None? && MainScriptName !in user.files
    ensures MainSlots(library, user, version, build, slots) ==
      slots.(position := UserOverride(user, PositionScriptName, slots.position))
  {
  }

  /** Loading keeps every filled slot in category "Core". */
  lemma MainSlotsAreCore(library: Directory, user: Directory, version: string, build: int, slots: Slots)
    requires SlotsAreCore(slots)
    ensures SlotsAreCore(MainSlots(library, user, version, build, slots))
  {
  }

  /** `loadAllPlugins`: the user's scripts merged over the library plugins. */
  function StoredPlugins(plugins: Directory, user: Directory): seq<Script>
    requires WellFormed(plugins) && WellFormed(user)
  {
    Merge(Discover(LibraryPlugins, plugins, Listing(plugins)), Discover(UserScripts, user, Listing(user)))
  }

  /**
    The stored plugins are the library plugins, each one the user overrides
    replaced in place, then the user's other scripts; every one a plugin
    candidate, never the main or the position script.
  */
  lemma StoredPluginsShape(plugins: Directory, user: Directory)
    requires WellFormed(plugins) && WellFormed(user)
    ensures var library := Discover(LibraryPlugins, plugins, Listing(plugins));
      var users := Discover(UserScripts, user, Listing(user));
      StoredPlugins(plugins, user) == Overlay(library, users) + Extras(library, users)
    ensures forall s :: s in StoredPlugins(plugins, user) ==> IsPluginCandidate(s.fileName)
  {
    var library := Discover(LibraryPlugins, plugins, Listing(plugins));
    var users := Discover(UserScripts, user, Listing(user));
    ListingMembers(plugins);
    ListingMembers(user);
    DiscoveredNamesDistinct(LibraryPlugins, plugins, Listing(plugins));
    DiscoveredNamesDistinct(UserScripts, user, Listing(user));
    MergeIsOverlayPlusExtras(library, users);
    forall s | s in StoredPlugins(plugins, user)
      ensures IsPluginCandidate(s.fileName)
    {
      MergedAreCandidates(plugins, Listing(plugins), user, Listing(user), s);
    }
  }

  /** Which directory watcher reported a change. */
  datatype Watcher = DocumentWatcher | ContainerWatcher

  class ScriptsManager {
    var storedPlugins: seq<Script>
    var loadedPluginNames: seq<string>
    var loadedPlugins: set<string>
    /** The activation names as last saved to the shared user defaults. */
    var savedPluginNames: seq<string>

    var mainScript: Option<Script>
    var hookScript: Option<Script>
    var positionScript: Option<Script>

    var libraryScripts: Directory
    var libraryPlugins: Directory
    var userScripts: Directory
    var documents: Directory

    /** How many times the scripts-updated notification was posted. */
    var notificationsPosted: nat

    /** The app's version and build number, formatted into the hook script. */
    const appVersion: string
    const buildNumber: int

    /**
      The activation set follows the activation list. The saved names may
      differ from it: the shared defaults can be written by another process.
    */
    predicate ActivationSynced()
      reads this`loadedPlugins, this`loadedPluginNames
    {
      loadedPlugins == (set n | n in loadedPluginNames)
    }

    predicate DirectoriesWellFormed()
      reads this`libraryScripts, this`libraryPlugins, this`userScripts, this`documents
    {
      && WellFormed(libraryScripts) && WellFormed(libraryPlugins)
      && WellFormed(userScripts) && WellFormed(documents)
    }

    predicate Valid()
      reads this
    {
      ActivationSynced() && DirectoriesWellFormed() && SlotsAreCore(CurrentSlots())
    }

    function CurrentSlots(): Slots
      reads this`mainScript, this`hookScript, this`positionScript
    {
      Slots(mainScript, hookScript, positionScript)
    }

    function DirectoryOf(dir: Dir): Directory
      reads this
    {
      match dir
      case LibraryScripts => libraryScripts
      case LibraryPlugins => libraryPlugins
      case UserScripts => userScripts
      case Documents => documents
    }

    /**
      `init`: the saved activation names are loaded, the documents are synced
      into the user directory, then the main scripts and the plugins are
      loaded.
    */
    constructor (libraryScripts: Directory, libraryPlugins: Directory, userScripts: Directory,
                 documents: Directory, saved: seq<string>, appVersion: string, buildNumber: int)
      requires WellFormed(libraryScripts) && WellFormed(libraryPlugins)
      requires WellFormed(userScripts) && WellFormed(documents)
      ensures Valid()
      ensures loadedPluginNames == saved && savedPluginNames == saved
      ensures this.appVersion == appVersion && this.buildNumber == buildNumber
      ensures Dirs(this.documents, this.userScripts) == SyncDirectories(Dirs(documents, userScripts))
      ensures this.libraryScripts == libraryScripts && this.libraryPlugins == libraryPlugins
      ensures CurrentSlots() == MainSlots(this.libraryScripts, this.userScripts, this.appVersion, this.buildNumber, Slots(None, None, None))
      ensures storedPlugins == StoredPlugins(this.libraryPlugins, this.userScripts)
      ensures notificationsPosted == 0
    {
      this.libraryScripts := libraryScripts;
      this.libraryPlugins := libraryPlugins;
      this.userScripts := userScripts;
      this.documents := documents;
      this.appVersion := appVersion;
      this.buildNumber := buildNumber;
      storedPlugins := [];
      mainScript := None;
      hookScript := None;
      positionScript := None;
      notificationsPosted := 0;
      loadedPluginNames := saved;
      loadedPlugins := set n | n in saved;
      savedPluginNames := saved;
      new;
      Start();
    }

    /** The part of `init` after `super.init()`: the sync, then the loads. */
    method Start()
      requires Valid()
      modifies this`documents, this`userScripts, this`mainScript, this`hookScript, this`positionScript, this`storedPlugins
      ensures Valid()
      ensures Dirs(documents, userScripts) == SyncDirectories(old(Dirs(documents, userScripts)))
      ensures CurrentSlots() == MainSlots(libraryScripts, userScripts, appVersion, buildNumber, old(CurrentSlots()))
      ensures storedPlugins == StoredPlugins(libraryPlugins, userScripts)
      ensures unchanged(this`loadedPluginNames, this`savedPluginNames)
    {
      SyncDocumentAndContainer();
      LoadScripts();
    }

    /** The loads `init` ends with: the main scripts, then the plugins. */
    method LoadScripts()
      requires WellFormed(libraryPlugins) && WellFormed(userScripts)
      requires SlotsAreCore(CurrentSlots())
      modifies this`mainScript, this`hookScript, this`positionScript, this`storedPlugins
      ensures SlotsAreCore(CurrentSlots())
      ensures CurrentSlots() == MainSlots(libraryScripts, userScripts, appVersion, buildNumber, old(CurrentSlots()))
      ensures storedPlugins == StoredPlugins(libraryPlugins, userScripts)
    {
      LoadMainScripts();
      LoadAllPlugins();
    }

    /** `loadPluginInDirectory`: the scripts of the directory's plugin candidates, in directory order. */
    method LoadPluginInDirectory(dir: Dir) returns (result: seq<Script>)
      requires WellFormed(DirectoryOf(dir))
      ensures result == Discover(dir, DirectoryOf(dir), Listing(DirectoryOf(dir)))
    {
      var directory := DirectoryOf(dir);
      var contents := Listing(directory);
      result := [];
      for i := 0 to |contents|
        invariant result == Discover(dir, directory, contents[..i])
      {
        var name := contents[i];
        DiscoverNext(dir, directory, contents, i);
        if !EndsWith(name, ".js") {
          continue;
        }
        if EndsWith(name, ".meta.js") {
          continue;
        }
        if name == MainScriptName {
          continue;
        }
        if name == PositionScriptName {
          continue;
        }
        var text := ReadText(directory, name);
        if text.None? {
          continue;
        }
        result := result + [ScriptAtFile(Path(dir, name), text.value)];
      }
      assert contents[..|contents|] == contents;
    }

    /**
      `loadAllPlugins`: the library plugins, then each user script, marked,
      replacing the first stored plugin of its file name or appended.
    */
    method LoadAllPlugins()
      requires WellFormed(libraryPlugins) && WellFormed(userScripts)
      modifies this`storedPlugins
      ensures storedPlugins == StoredPlugins(libraryPlugins, userScripts)
    {
      var library := LoadPluginInDirectory(LibraryPlugins);
      storedPlugins := library;
      var users := LoadPluginInDirectory(UserScripts);
      for i := 0 to |users|
        invariant storedPlugins == Merge(library, users[..i])
      {
        MergeNext(library, users, i);
        var plugin := MarkUser(users[i]);
        var index := FindByName(storedPlugins, plugin.fileName);
        if index.Some? {
          storedPlugins := storedPlugins[index.value := plugin];
        } else {
          storedPlugins := storedPlugins + [plugin];
        }
      }
      assert users[..|users|] == users;
    }

    /** `loadMainScripts`: the library's main, hook and position scripts, then the user overrides. */
    method LoadMainScripts()
      requires SlotsAreCore(CurrentSlots())
      modifies this`mainScript, this`hookScript, this`positionScript
      ensures SlotsAreCore(CurrentSlots())
      ensures CurrentSlots() == MainSlots(libraryScripts, userScripts, appVersion, buildNumber, old(CurrentSlots()))
    {
      MainSlotsAreCore(libraryScripts, userScripts, appVersion, buildNumber, CurrentSlots());
      var mainText := ReadText(libraryScripts, MainScriptName);
      if mainText.Some? {
        mainScript := Some(AsMainScript(LibraryScripts, MainScriptName, mainText.value));
        var hookText := ReadText(libraryScripts, HookScriptName);
        if hookText.Some? {
          hookScript := Some(HookScript(hookText.value, appVersion, buildNumber));
          var positionText := ReadText(libraryScripts, PositionScriptName);
          if positionText.Some? {
            positionScript := Some(PositionScript(positionText.value));
          }
        }
      }
      LoadUserMainScript();
    }

    /** `loadUserMainScript`: a readable user main or position script replaces the slot's script. */
    method LoadUserMainScript()
      modifies this`mainScript, this`positionScript
      ensures CurrentSlots() == UserSlots(userScripts, old(CurrentSlots()))
    {
      if MainScriptName in userScripts.files {
        var text := ReadText(userScripts, MainScriptName);
        if text.Some? {
          mainScript := Some(UserMainScript(MainScriptName, text.value));
        }
      }
      if PositionScriptName in userScripts.files {
        var text := ReadText(userScripts, PositionScriptName);
        if text.Some? {
          positionScript := Some(UserMainScript(PositionScriptName, text.value));
        }
      }
    }

    /**
      `getLoadedScripts`: the main and hook scripts, then the stored plugin
      of each activated name that has one, with the canvas renderer moved to
      the front.
    */
    method GetLoadedScripts() returns (result: seq<Script>)
      requires mainScript.Some? && hookScript.Some?
      ensures result == LoadedScripts(mainScript.value, hookScript.value, loadedPluginNames, storedPlugins)
    {
      result := [mainScript.value, hookScript.value];
      for i := 0 to |loadedPluginNames|
        invariant result == LoadedScripts(mainScript.value, hookScript.value, loadedPluginNames[..i], storedPlugins)
      {
        var name := loadedPluginNames[i];
        assert loadedPluginNames[..i + 1][..i] == loadedPluginNames[..i];
        var index := FindByName(storedPlugins, name);
        if index.Some? {
          if name == CanvasRenderName {
            result := [storedPlugins[index.value]] + result;
          } else {
            result := result + [storedPlugins[index.value]];
          }
        }
      }
      assert loadedPluginNames[..|loadedPluginNames|] == loadedPluginNames;
    }

    /** `setPlugin`: toggles the script's file name in the activation list and saves the list. */
    method SetPlugin(script: Script, loaded: bool)
      modifies this`loadedPluginNames, this`loadedPlugins, this`savedPluginNames
      ensures ActivationSynced()
      ensures loadedPluginNames == Toggled(old(loadedPluginNames), script.fileName, loaded)
      ensures savedPluginNames == loadedPluginNames
    {
      var index := FirstIndex(loadedPluginNames, script.fileName);
      if index.Some? && !loaded {
        loadedPluginNames := loadedPluginNames[..index.value] + loadedPluginNames[index.value + 1..];
      } else if index.None? && loaded {
        loadedPluginNames := loadedPluginNames + [script.fileName];
      }
      loadedPlugins := set n | n in loadedPluginNames;
      savedPluginNames := loadedPluginNames;
    }

    /**
      Another process sharing the app group (the app or its extension) saves
      its activation list under "LoadedPlugins"; this manager's own list is
      not touched until `reloadSettings` reads it back.
    */
    method SharedDefaultsWritten(names: seq<string>)
      modifies this`savedPluginNames
      ensures savedPluginNames == names
    {
      savedPluginNames := names;
    }

    /** `reloadSettings`: the activation list is read back from the saved names. */
    method ReloadSettings()
      modifies this`loadedPluginNames, this`loadedPlugins
      ensures ActivationSynced()
      ensures loadedPluginNames == savedPluginNames
    {
      loadedPluginNames := savedPluginNames;
      loadedPlugins := set n | n in loadedPluginNames;
    }

    /**
      `syncDocumentAndContainer`: each listed document, except the two
      excluded names, is moved into the user directory, replacing an entry of
      the same name.
    */
    method SyncDocumentAndContainer()
      requires WellFormed(documents) && WellFormed(userScripts)
      modifies this`documents, this`userScripts
      ensures WellFormed(documents) && WellFormed(userScripts)
      ensures Dirs(documents, userScripts) == SyncDirectories(old(Dirs(documents, userScripts)))
    {
      ghost var start := Dirs(documents, userScripts);
      var temp := Listing(documents);
      for i := 0 to |temp|
        invariant WellFormed(documents) && WellFormed(userScripts)
        invariant Dirs(documents, userScripts) == SyncAll(start, temp[..i])
      {
        var name := temp[i];
        assert temp[..i + 1][..i] == temp[..i];
        if name == KeyPairName {
          continue;
        }
        if name == InboxName {
          continue;
        }
        if name in userScripts.files {
          userScripts := Remove(userScripts, name);
        }
        if name in documents.files {
          userScripts := Put(userScripts, name, documents.files[name]);
          documents := Remove(documents, name);
        }
      }
      assert temp[..|temp|] == temp;
    }

    /**
      `directoryDidChange`: a change in the documents syncs them; a change in
      the user directory reloads the plugins and the main scripts and posts
      the scripts-updated notification.
    */
    method DirectoryDidChange(watcher: Watcher)
      requires Valid()
      modifies this
      ensures Valid()
      ensures libraryScripts == old(libraryScripts) && libraryPlugins == old(libraryPlugins)
      ensures loadedPluginNames == old(loadedPluginNames) && savedPluginNames == old(savedPluginNames)
      ensures watcher == DocumentWatcher ==>
        && Dirs(documents, userScripts) == SyncDirectories(old(Dirs(documents, userScripts)))
        && storedPlugins == old(storedPlugins) && CurrentSlots() == old(CurrentSlots())
        && notificationsPosted == old(notificationsPosted)
      ensures watcher == ContainerWatcher ==>
        && documents == old(documents) && userScripts == old(userScripts)
        && storedPlugins == StoredPlugins(libraryPlugins, userScripts)
        && CurrentSlots() == MainSlots(libraryScripts, userScripts, appVersion, buildNumber, old(CurrentSlots()))
        && notificationsPosted == old(notificationsPosted) + 1
    {
      match watcher
      case DocumentWatcher =>
        SyncDocumentAndContainer();
      case ContainerWatcher =>
        LoadAllPlugins();
        assert ActivationSynced() && DirectoriesWellFormed();
        LoadMainScripts();
        notificationsPosted := notificationsPosted + 1;
    }

    /** The scripts `updatePlugins` probes: the stored plugins, then the main and the position script. */
    function UpdateTargets(): (targets: seq<Script>)
      reads this
      requires mainScript.Some? && positionScript.Some?
    {
      storedPlugins + [mainScript.value, positionScript.value]
    }

    /**
      The write of an update: a download decision writes the downloaded text
      to its destination file, created when missing, and changes no other
      directory; a skip changes nothing.
    */
    method ApplyUpdate(decision: Decision, downloaded: string)
      requires DirectoriesWellFormed()
      modifies this`libraryScripts, this`libraryPlugins, this`userScripts, this`documents
      ensures DirectoriesWellFormed()
      ensures decision.Skip? ==> forall dir :: DirectoryOf(dir) == old(DirectoryOf(dir))
      ensures decision.Download? ==>
        var destination := decision.destination;
        && DirectoryOf(destination.dir).files == old(DirectoryOf(destination.dir)).files[destination.fileName := Text(downloaded)]
        && forall dir :: dir != destination.dir ==> DirectoryOf(dir) == old(DirectoryOf(dir))
    {
      if decision.Skip? {
        return;
      }
      var pathPrefix := decision.destination;
      match pathPrefix.dir
      case UserScripts =>
        userScripts := Write(userScripts, pathPrefix.fileName, Text(downloaded));
      case LibraryScripts =>
        libraryScripts := Write(libraryScripts, pathPrefix.fileName, Text(downloaded));
      case LibraryPlugins =>
        libraryPlugins := Write(libraryPlugins, pathPrefix.fileName, Text(downloaded));
      case Documents =>
        documents := Write(documents, pathPrefix.fileName, Text(downloaded));
    }

    /**
      One script's update, with the version comparison the right way round:
      the probe text `fetched` decides; a download
      writes `downloaded` over the script's own file, in the user directory
      for a user script and in the library otherwise.
    */
    method UpdatePlugin(script: Script, fetched: string, downloaded: string)
      requires DirectoriesWellFormed()
      modifies this`libraryScripts, this`libraryPlugins, this`userScripts, this`documents
      ensures DirectoriesWellFormed()
      ensures IntendedUpdateDecision(script, fetched).Skip? ==> forall dir :: DirectoryOf(dir) == old(DirectoryOf(dir))
      ensures IntendedUpdateDecision(script, fetched).Download? ==>
        var destination := Destination(script);
        && DirectoryOf(destination.dir).files == old(DirectoryOf(destination.dir)).files[script.fileName := Text(downloaded)]
        && forall dir :: dir != destination.dir ==> DirectoryOf(dir) == old(DirectoryOf(dir))
    {
      var decision := IntendedUpdateDecision(script, fetched);
      ApplyUpdate(decision, downloaded);
    }
  }
}
