/**
  The plugin lists of the manager: which directory entries the scan turns
  into scripts (`loadPluginInDirectory`), and how the user's scripts are
  merged over the bundled plugins (`loadAllPlugins`).
*/
module Plugins {
  import opened Wrappers
  import opened Files
  import opened ScriptRecord

  const MainScriptName: string := "total-conversion-build.user.js"
  const PositionScriptName: string := "user-location.user.js"
  const HookScriptName: string := "ios-hooks.js"

  predicate EndsWith(s: string, suffix: string)
  {
    |suffix| <= |s| && s[|s| - |suffix|..] == suffix
  }

  /**
    An entry the scan loads: a ".js" file that is not a ".meta.js" file and
    not the main or the position script.
  */
  predicate IsPluginCandidate(name: string)
  {
    && EndsWith(name, ".js")
    && !EndsWith(name, ".meta.js")
    && name != MainScriptName
    && name != PositionScriptName
  }

  /** The hook script is not excluded by name: in a plugin directory it is loaded as a plugin. */
  lemma HookScriptIsCandidate()
    ensures IsPluginCandidate(HookScriptName)
  {
    assert HookScriptName[|HookScriptName| - 3..] == ".js";
    assert HookScriptName[|HookScriptName| - 8..] != ".meta.js" by {
      assert HookScriptName[|HookScriptName| - 8..][0] == 'h';
    }
  }

  /** The entries among `names` the scan keeps: candidates whose text can be read. */
  function Loadable(d: Directory, names: seq<string>): (r: seq<string>)
    ensures forall n :: n in r <==> n in names && IsPluginCandidate(n) && ReadText(d, n).Some?
    ensures NoDuplicates(names) ==> NoDuplicates(r)
  {
    if names == [] then []
    else
      var rest := Loadable(d, names[..|names| - 1]);
      var name := names[|names| - 1];
      assert names == names[..|names| - 1] + [name];
      assert NoDuplicates(names) ==> name !in rest;
      if IsPluginCandidate(name) && ReadText(d, name).Some? then rest + [name] else rest
  }

  /** The script `init(atFilePath:)` builds from a readable entry of `d`, found in directory `dir`. */
  function Built(dir: Dir, d: Directory, name: string): (s: Script)
    requires ReadText(d, name).Some?
    ensures s.fileName == name
  {
    ScriptAtFile(Path(dir, name), ReadText(d, name).value)
  }

  /** The scripts the scan builds from the entries `names` of `d`, found in directory `dir`. */
  function Discover(dir: Dir, d: Directory, names: seq<string>): seq<Script>
  {
    if names == [] then []
    else
      var name := names[|names| - 1];
      Discover(dir, d, names[..|names| - 1])
      + if IsPluginCandidate(name) && ReadText(d, name).Some? then [Built(dir, d, name)] else []
  }

  /**
    The scan yields one script per loadable entry, in directory order, each
    built from that entry's text; the entries it skips, or cannot read, are
    dropped without ending the scan.
  */
  lemma {:induction false} DiscoverIsLoadable(dir: Dir, d: Directory, names: seq<string>)
    ensures |Discover(dir, d, names)| == |Loadable(d, names)|
    ensures forall i :: 0 <= i < |Discover(dir, d, names)| ==>
      ReadText(d, Loadable(d, names)[i]).Some? && Discover(dir, d, names)[i] == Built(dir, d, Loadable(d, names)[i])
  {
    if names != [] {
      var prefix := names[..|names| - 1];
      var name := names[|names| - 1];
      DiscoverIsLoadable(dir, d, prefix);
      if IsPluginCandidate(name) && ReadText(d, name).Some? {
        assert Discover(dir, d, names) == Discover(dir, d, prefix) + [Built(dir, d, name)];
        assert Loadable(d, names) == Loadable(d, prefix) + [name];
      } else {
        assert Discover(dir, d, names) == Discover(dir, d, prefix);
        assert Loadable(d, names) == Loadable(d, prefix);
      }
    }
  }

  /** Whether two different scripts of the list share a file name. */
  predicate DistinctNames(scripts: seq<Script>)
  {
    forall i, j :: 0 <= i < j < |scripts| ==> scripts[i].fileName != scripts[j].fileName
  }

  /** A scan of a directory yields scripts with distinct file names. */
  lemma DiscoveredNamesDistinct(dir: Dir, d: Directory, names: seq<string>)
    requires NoDuplicates(names)
    ensures DistinctNames(Discover(dir, d, names))
  {
    DiscoverIsLoadable(dir, d, names);
  }

  /** `firstIndex { $0.fileName == name }`. */
  function FindByName(scripts: seq<Script>, name: string): (r: Option<nat>)
    ensures r.Some? ==> r.value < |scripts| && scripts[r.value].fileName == name
    ensures r.Some? ==> forall k :: 0 <= k < r.value ==> scripts[k].fileName != name
    ensures r.None? ==> forall k :: 0 <= k < |scripts| ==> scripts[k].fileName != name
  {
    if scripts == [] then None
    else if scripts[0].fileName == name then Some(0)
    else match FindByName(scripts[1..], name)
      case Some(k) => Some(k + 1)
      case None => None
  }

  /** `plugin.isUserScript = true`. */
  function MarkUser(script: Script): Script
  {
    script.(isUserScript := true)
  }

  /** One step of the merge: replace the first script of that name, or append. */
  function MergeOne(stored: seq<Script>, plugin: Script): seq<Script>
  {
    match FindByName(stored, plugin.fileName)
    case Some(k) => stored[k := plugin]
    case None => stored + [plugin]
  }

  /** `loadAllPlugins`' loop: the user's scripts, marked, merged over `stored` one by one. */
  function Merge(stored: seq<Script>, users: seq<Script>): seq<Script>
  {
    if users == [] then stored
    else MergeOne(Merge(stored, users[..|users| - 1]), MarkUser(users[|users| - 1]))
  }

  /** The scan over one more entry. */
  lemma DiscoverNext(dir: Dir, d: Directory, names: seq<string>, i: nat)
    requires i < |names|
    ensures Discover(dir, d, names[..i + 1]) == Discover(dir, d, names[..i])
      + if IsPluginCandidate(names[i]) && ReadText(d, names[i]).Some? then [Built(dir, d, names[i])] else []
  {
    assert names[..i + 1][..i] == names[..i];
  }

  /** The merge over one more user script. */
  lemma MergeNext(stored: seq<Script>, users: seq<Script>, i: nat)
    requires i < |users|
    ensures Merge(stored, users[..i + 1]) == MergeOne(Merge(stored, users[..i]), MarkUser(users[i]))
  {
    assert users[..i + 1][..i] == users[..i];
  }

  /** A library plugin, or the user's script of the same file name, marked. */
  function Pick(plugin: Script, users: seq<Script>): (r: Script)
    ensures r.fileName == plugin.fileName
  {
    match FindByName(users, plugin.fileName)
    case Some(j) => MarkUser(users[j])
    case None => plugin
  }

  /** The library list with every plugin the user overrides replaced in place. */
  function Overlay(library: seq<Script>, users: seq<Script>): (r: seq<Script>)
    ensures |r| == |library|
    ensures forall i :: 0 <= i < |library| ==> r[i] == Pick(library[i], users)
  {
    seq(|library|, i requires 0 <= i < |library| => Pick(library[i], users))
  }

  /** The user's scripts that override no library plugin, marked, in their order. */
  function Extras(library: seq<Script>, users: seq<Script>): (r: seq<Script>)
    ensures forall e :: e in r ==> FindByName(library, e.fileName).None? && e.isUserScript
    ensures forall e :: e in r ==> exists j :: 0 <= j < |users| && users[j].fileName == e.fileName
  {
    if users == [] then []
    else
      var rest := Extras(library, users[..|users| - 1]);
      var last := users[|users| - 1];
      assert forall e :: e in rest ==> exists j :: 0 <= j < |users| - 1 && users[j].fileName == e.fileName;
      if FindByName(library, last.fileName).Some? then rest else rest + [MarkUser(last)]
  }

  /** The first match is the only index with the properties `FindByName` promises. */
  lemma FindByNameIs(scripts: seq<Script>, name: string, r: Option<nat>)
    requires r.Some? ==> r.value < |scripts| && scripts[r.value].fileName == name
    requires r.Some? ==> forall k :: 0 <= k < r.value ==> scripts[k].fileName != name
    requires r.None? ==> forall k :: 0 <= k < |scripts| ==> scripts[k].fileName != name
    ensures FindByName(scripts, name) == r
  {
  }

  /** The first match in a list extended by one script. */
  lemma FindByNameSnoc(scripts: seq<Script>, script: Script, name: string)
    ensures FindByName(scripts + [script], name) ==
      if FindByName(scripts, name).Some? then FindByName(scripts, name)
      else if script.fileName == name then Some(|scripts|)
      else None
  {
    var all := scripts + [script];
    assert forall k :: 0 <= k < |scripts| ==> all[k] == scripts[k];
    FindByNameIs(all, name,
      if FindByName(scripts, name).Some? then FindByName(scripts, name)
      else if script.fileName == name then Some(|scripts|)
      else None);
  }

  /** A match in the first part of a concatenation is the match of the whole. */
  lemma FindByNameInPrefix(front: seq<Script>, back: seq<Script>, name: string)
    requires FindByName(front, name).Some?
    ensures FindByName(front + back, name) == FindByName(front, name)
  {
    var all := front + back;
    assert forall k :: 0 <= k < |front| ==> all[k] == front[k];
    FindByNameIs(all, name, FindByName(front, name));
  }

  /** No match in either part means no match in the concatenation. */
  lemma FindByNameInNeither(front: seq<Script>, back: seq<Script>, name: string)
    requires FindByName(front, name).None? && FindByName(back, name).None?
    ensures FindByName(front + back, name).None?
  {
    var all := front + back;
    assert forall k :: 0 <= k < |all| ==> all[k] == if k < |front| then front[k] else back[k - |front|];
    FindByNameIs(all, name, None);
  }

  /** Two lists with the same file names at the same places have the same matches. */
  lemma FindByNameSameNames(a: seq<Script>, b: seq<Script>, name: string)
    requires |a| == |b| && forall i :: 0 <= i < |a| ==> a[i].fileName == b[i].fileName
    ensures FindByName(a, name) == FindByName(b, name)
  {
    FindByNameIs(a, name, FindByName(b, name));
  }

  /** Adding a user script that no earlier one names overrides at most one library plugin. */
  lemma OverlayStep(library: seq<Script>, earlier: seq<Script>, user: Script)
    requires DistinctNames(library) && FindByName(earlier, user.fileName).None?
    ensures FindByName(library, user.fileName).Some? ==>
      Overlay(library, earlier + [user]) == Overlay(library, earlier)[FindByName(library, user.fileName).value := MarkUser(user)]
    ensures FindByName(library, user.fileName).None? ==>
      Overlay(library, earlier + [user]) == Overlay(library, earlier)
  {
    forall i | 0 <= i < |library|
      ensures Pick(library[i], earlier + [user]) ==
        if library[i].fileName == user.fileName then MarkUser(user) else Pick(library[i], earlier)
    {
      FindByNameSnoc(earlier, user, library[i].fileName);
    }
  }

  /** The loop's steps, one user script at a time. */
  lemma MergeSteps(library: seq<Script>, earlier: seq<Script>, user: Script)
    ensures Merge(library, earlier + [user]) == MergeOne(Merge(library, earlier), MarkUser(user))
    ensures Extras(library, earlier + [user]) ==
      if FindByName(library, user.fileName).Some? then Extras(library, earlier)
      else Extras(library, earlier) + [MarkUser(user)]
  {
    assert (earlier + [user])[..|earlier|] == earlier;
  }

  /** One step of the merge when the user script overrides a library plugin. */
  lemma MergeStepOverrides(library: seq<Script>, earlier: seq<Script>, user: Script)
    requires DistinctNames(library) && FindByName(earlier, user.fileName).None?
    requires FindByName(library, user.fileName).Some?
    requires Merge(library, earlier) == Overlay(library, earlier) + Extras(library, earlier)
    ensures Merge(library, earlier + [user]) == Overlay(library, earlier + [user]) + Extras(library, earlier + [user])
  {
    MergeSteps(library, earlier, user);
    OverlayStep(library, earlier, user);
    var front := Overlay(library, earlier);
    var back := Extras(library, earlier);
    FindByNameSameNames(front, library, user.fileName);
    FindByNameInPrefix(front, back, user.fileName);
    UpdateInFront(front, back, FindByName(library, user.fileName).value, MarkUser(user));
  }

  lemma UpdateInFront<T>(front: seq<T>, back: seq<T>, k: nat, x: T)
    requires k < |front|
    ensures (front + back)[k := x] == front[k := x] + back
  {
  }

  /** One step of the merge when the user script overrides nothing. */
  lemma MergeStepAppends(library: seq<Script>, earlier: seq<Script>, user: Script)
    requires DistinctNames(library) && FindByName(earlier, user.fileName).None?
    requires FindByName(library, user.fileName).None?
    requires Merge(library, earlier) == Overlay(library, earlier) + Extras(library, earlier)
    ensures Merge(library, earlier + [user]) == Overlay(library, earlier + [user]) + Extras(library, earlier + [user])
  {
    MergeSteps(library, earlier, user);
    OverlayStep(library, earlier, user);
    var front := Overlay(library, earlier);
    var back := Extras(library, earlier);
    FindByNameSameNames(front, library, user.fileName);
    FindByNameIs(back, user.fileName, None);
    FindByNameInNeither(front, back, user.fileName);
    assert MergeOne(front + back, MarkUser(user)) == (front + back) + [MarkUser(user)];
    AppendInBack(front, back, MarkUser(user));
  }

  lemma AppendInBack<T>(front: seq<T>, back: seq<T>, x: T)
    ensures (front + back) + [x] == front + (back + [x])
  {
  }

  /**
    The merge, stated without the loop: every library plugin the user
    overrides is replaced at its own index by the user's script; the others
    keep their places and order; the user's remaining scripts follow, in
    their order; and every script taken from the user directory is marked as
    a user script. This holds when the names within each directory are
    distinct, as they are in a directory listing.
  */
  lemma {:induction false} MergeIsOverlayPlusExtras(library: seq<Script>, users: seq<Script>)
    requires DistinctNames(library) && DistinctNames(users)
    ensures Merge(library, users) == Overlay(library, users) + Extras(library, users)
  {
    if users != [] {
      var earlier := users[..|users| - 1];
      var user := users[|users| - 1];
      assert users == earlier + [user];
      MergeIsOverlayPlusExtras(library, earlier);
      FindByNameIs(earlier, user.fileName, None);
      if FindByName(library, user.fileName).Some? {
        MergeStepOverrides(library, earlier, user);
      } else {
        MergeStepAppends(library, earlier, user);
      }
    }
  }

  /** Every script of the user directory ends in the merged list, marked as a user script. */
  lemma UserScriptsWin(library: seq<Script>, users: seq<Script>, j: nat)
    requires DistinctNames(library) && DistinctNames(users)
    requires j < |users|
    ensures MarkUser(users[j]) in Merge(library, users)
  {
    MergeIsOverlayPlusExtras(library, users);
    var name := users[j].fileName;
    match FindByName(library, name)
    case Some(k) =>
      assert Overlay(library, users)[k] == MarkUser(users[j]);
      assert Merge(library, users)[k] == MarkUser(users[j]);
    case None =>
      ExtrasHold(library, users, j);
  }

  /** A user script that overrides no library plugin is among the extras. */
  lemma {:induction false} ExtrasHold(library: seq<Script>, users: seq<Script>, j: nat)
    requires j < |users| && FindByName(library, users[j].fileName).None?
    ensures MarkUser(users[j]) in Extras(library, users)
  {
    var earlier := users[..|users| - 1];
    if j < |users| - 1 {
      assert earlier[j] == users[j];
      ExtrasHold(library, earlier, j);
    }
  }

  /** Every merged script is a library plugin or a user script, marked. */
  lemma {:induction false} MergedFromEither(library: seq<Script>, users: seq<Script>, s: Script)
    requires s in Merge(library, users)
    ensures s in library || exists j :: 0 <= j < |users| && s == MarkUser(users[j])
  {
    if users != [] {
      var earlier := users[..|users| - 1];
      var merged := Merge(library, earlier);
      var user := MarkUser(users[|users| - 1]);
      if s != user {
        assert s in merged by {
          match FindByName(merged, users[|users| - 1].fileName)
          case Some(k) =>
            var i :| 0 <= i < |merged[k := user]| && merged[k := user][i] == s;
            assert merged[i] == s;
          case None =>
        }
        MergedFromEither(library, earlier, s);
        if s !in library {
          var j :| 0 <= j < |earlier| && s == MarkUser(earlier[j]);
          assert earlier[j] == users[j];
        }
      }
    }
  }

  /** Every scanned script is a plugin candidate. */
  lemma DiscoveredAreCandidates(dir: Dir, d: Directory, names: seq<string>, s: Script)
    requires s in Discover(dir, d, names)
    ensures IsPluginCandidate(s.fileName)
  {
    DiscoverIsLoadable(dir, d, names);
    var i :| 0 <= i < |Discover(dir, d, names)| && Discover(dir, d, names)[i] == s;
    assert Loadable(d, names)[i] in Loadable(d, names);
  }

  /**
    The merged list never holds the main or the position script, nor a
    ".meta.js" file, whichever directory they sit in: those slots are
    filled separately.
  */
  lemma MergedAreCandidates(library: Directory, libraryNames: seq<string>,
                            user: Directory, userNames: seq<string>, s: Script)
    requires s in Merge(Discover(LibraryPlugins, library, libraryNames), Discover(UserScripts, user, userNames))
    ensures IsPluginCandidate(s.fileName)
  {
    var users := Discover(UserScripts, user, userNames);
    MergedFromEither(Discover(LibraryPlugins, library, libraryNames), users, s);
    if s in Discover(LibraryPlugins, library, libraryNames) {
      DiscoveredAreCandidates(LibraryPlugins, library, libraryNames, s);
    } else {
      var j :| 0 <= j < |users| && s == MarkUser(users[j]);
      DiscoveredAreCandidates(UserScripts, user, userNames, users[j]);
    }
  }
}
