/**
  Which plugins run: the list of activated file names (`setPlugin`), and the
  ordered list of scripts built from it (`getLoadedScripts`).
*/
module Activation {
  import opened Wrappers
  import opened Files
  import opened ScriptRecord
  import opened Plugins

  const CanvasRenderName: string := "canvas-render.user.js"

  /**
    The list `getLoadedScripts` builds after the first `|names|` activation
    names: the main and hook scripts, then for each name with a stored plugin
    of that file name, the first such plugin, appended, except that the
    canvas renderer is inserted at the very front.
  */
  function LoadedScripts(main: Script, hook: Script, names: seq<string>, stored: seq<Script>): seq<Script>
  {
    if names == [] then [main, hook]
    else
      var earlier := LoadedScripts(main, hook, names[..|names| - 1], stored);
      var name := names[|names| - 1];
      match FindByName(stored, name)
      case None => earlier
      case Some(k) => if name == CanvasRenderName then [stored[k]] + earlier else earlier + [stored[k]]
  }

  /** The names of `names` a stored plugin has, in order. */
  function MatchedNames(names: seq<string>, stored: seq<Script>): (r: seq<string>)
    ensures forall n :: n in r ==> FindByName(stored, n).Some?
  {
    if names == [] then []
    else
      var name := names[|names| - 1];
      MatchedNames(names[..|names| - 1], stored) + if FindByName(stored, name).Some? then [name] else []
  }

  /** A name is matched exactly when it is activated and a stored plugin has it. */
  lemma {:induction false} MatchedNamesExactly(names: seq<string>, stored: seq<Script>)
    ensures forall n :: n in MatchedNames(names, stored) <==> n in names && FindByName(stored, n).Some?
  {
    if names != [] {
      var prefix := names[..|names| - 1];
      var name := names[|names| - 1];
      MatchedNamesExactly(prefix, stored);
      assert names == prefix + [name];
      forall n
        ensures n in MatchedNames(names, stored) <==> n in names && FindByName(stored, n).Some?
      {
        assert n in names <==> n in prefix || n == name;
      }
    }
  }

  /** The stored plugins the names select, in the order of the names. */
  function Matched(names: seq<string>, stored: seq<Script>): seq<Script>
  {
    if names == [] then []
    else
      var name := names[|names| - 1];
      Matched(names[..|names| - 1], stored)
      + match FindByName(stored, name) case Some(k) => [stored[k]] case None => []
  }

  /** Each selected plugin is the first stored plugin of a matched name; unmatched names select nothing. */
  lemma {:induction false} MatchedIsMatchedNames(names: seq<string>, stored: seq<Script>)
    ensures |Matched(names, stored)| == |MatchedNames(names, stored)|
    ensures forall i :: 0 <= i < |Matched(names, stored)| ==>
      && FindByName(stored, MatchedNames(names, stored)[i]).Some?
      && Matched(names, stored)[i] == stored[FindByName(stored, MatchedNames(names, stored)[i]).value]
  {
    if names != [] {
      var prefix := names[..|names| - 1];
      var name := names[|names| - 1];
      MatchedIsMatchedNames(prefix, stored);
      match FindByName(stored, name)
      case Some(k) =>
        assert Matched(names, stored) == Matched(prefix, stored) + [stored[k]];
        assert MatchedNames(names, stored) == MatchedNames(prefix, stored) + [name];
      case None =>
    }
  }

  function CanvasNames(names: seq<string>): seq<string>
  {
    if names == [] then []
    else
      var name := names[|names| - 1];
      CanvasNames(names[..|names| - 1]) + if name == CanvasRenderName then [name] else []
  }

  function OtherNames(names: seq<string>): seq<string>
  {
    if names == [] then []
    else
      var name := names[|names| - 1];
      OtherNames(names[..|names| - 1]) + if name == CanvasRenderName then [] else [name]
  }

  /** Selecting by one more name adds that name's plugin, if it has one, at the end. */
  lemma MatchedSnoc(names: seq<string>, name: string, stored: seq<Script>)
    ensures Matched(names + [name], stored) ==
      Matched(names, stored) + match FindByName(stored, name) case Some(k) => [stored[k]] case None => []
  {
    assert (names + [name])[..|names|] == names;
  }

  /** Every script of `scripts` is the first stored canvas renderer. */
  predicate AllCanvas(scripts: seq<Script>, stored: seq<Script>)
  {
    forall i :: 0 <= i < |scripts| ==>
      && FindByName(stored, CanvasRenderName).Some?
      && scripts[i] == stored[FindByName(stored, CanvasRenderName).value]
  }

  /** The canvas names select copies of one plugin: the first stored canvas renderer. */
  lemma {:induction false} CanvasCopies(names: seq<string>, stored: seq<Script>)
    ensures AllCanvas(Matched(CanvasNames(names), stored), stored)
  {
    if names != [] {
      var prefix := names[..|names| - 1];
      var name := names[|names| - 1];
      CanvasCopies(prefix, stored);
      if name == CanvasRenderName {
        assert CanvasNames(names) == CanvasNames(prefix) + [name];
        MatchedSnoc(CanvasNames(prefix), name, stored);
        var before := Matched(CanvasNames(prefix), stored);
        var after := Matched(CanvasNames(names), stored);
        forall i | 0 <= i < |after|
          ensures FindByName(stored, CanvasRenderName).Some?
          ensures after[i] == stored[FindByName(stored, CanvasRenderName).value]
        {
          if i < |before| {
            assert after[i] == before[i];
          }
        }
      } else {
        assert CanvasNames(names) == CanvasNames(prefix);
      }
    }
  }

  /** Prepending a copy of what a list holds throughout is appending it. */
  lemma PrependCopy<T>(x: T, copies: seq<T>, middle: seq<T>, others: seq<T>)
    requires forall i :: 0 <= i < |copies| ==> copies[i] == x
    ensures [x] + (copies + middle + others) == (copies + [x]) + middle + others
  {
    assert [x] + copies == copies + [x];
  }

  /** The last activation name is the canvas renderer. */
  lemma LoadedStepCanvas(main: Script, hook: Script, names: seq<string>, stored: seq<Script>)
    requires names != [] && names[|names| - 1] == CanvasRenderName
    requires var prefix := names[..|names| - 1];
      LoadedScripts(main, hook, prefix, stored) ==
      Matched(CanvasNames(prefix), stored) + [main, hook] + Matched(OtherNames(prefix), stored)
    ensures LoadedScripts(main, hook, names, stored) ==
      Matched(CanvasNames(names), stored) + [main, hook] + Matched(OtherNames(names), stored)
  {
    var prefix := names[..|names| - 1];
    var name := names[|names| - 1];
    var canvas := Matched(CanvasNames(prefix), stored);
    var others := Matched(OtherNames(prefix), stored);
    assert CanvasNames(names) == CanvasNames(prefix) + [name];
    assert OtherNames(names) == OtherNames(prefix);
    MatchedSnoc(CanvasNames(prefix), name, stored);
    match FindByName(stored, name)
    case Some(k) =>
      CanvasCopies(prefix, stored);
      PrependCopy(stored[k], canvas, [main, hook], others);
    case None =>
  }

  /** The last activation name is any other name. */
  lemma LoadedStepOther(main: Script, hook: Script, names: seq<string>, stored: seq<Script>)
    requires names != [] && names[|names| - 1] != CanvasRenderName
    requires var prefix := names[..|names| - 1];
      LoadedScripts(main, hook, prefix, stored) ==
      Matched(CanvasNames(prefix), stored) + [main, hook] + Matched(OtherNames(prefix), stored)
    ensures LoadedScripts(main, hook, names, stored) ==
      Matched(CanvasNames(names), stored) + [main, hook] + Matched(OtherNames(names), stored)
  {
    var prefix := names[..|names| - 1];
    var name := names[|names| - 1];
    assert CanvasNames(names) == CanvasNames(prefix);
    assert OtherNames(names) == OtherNames(prefix) + [name];
    MatchedSnoc(OtherNames(prefix), name, stored);
  }

  /**
    The shape of the loaded list: the canvas renderer, once per time it is
    activated and stored, ahead of everything, even the main script; then
    the main and hook scripts; then the other activated stored plugins in
    activation order.
  */
  lemma {:induction false} LoadedShape(main: Script, hook: Script, names: seq<string>, stored: seq<Script>)
    ensures LoadedScripts(main, hook, names, stored) ==
      Matched(CanvasNames(names), stored) + [main, hook] + Matched(OtherNames(names), stored)
  {
    if names != [] {
      LoadedShape(main, hook, names[..|names| - 1], stored);
      if names[|names| - 1] == CanvasRenderName {
        LoadedStepCanvas(main, hook, names, stored);
      } else {
        LoadedStepOther(main, hook, names, stored);
      }
    }
  }

  /** When no stored canvas renderer is activated, the canvas names select nothing. */
  lemma {:induction false} NoCanvasSelected(names: seq<string>, stored: seq<Script>)
    requires CanvasRenderName !in names || FindByName(stored, CanvasRenderName).None?
    ensures Matched(CanvasNames(names), stored) == []
    ensures Matched(OtherNames(names), stored) == Matched(names, stored)
  {
    if names != [] {
      var prefix := names[..|names| - 1];
      var name := names[|names| - 1];
      assert CanvasRenderName !in prefix || FindByName(stored, CanvasRenderName).None?;
      NoCanvasSelected(prefix, stored);
      assert names == prefix + [name];
      MatchedSnoc(prefix, name, stored);
      if name == CanvasRenderName {
        assert CanvasNames(names) == CanvasNames(prefix) + [name];
        assert OtherNames(names) == OtherNames(prefix);
        MatchedSnoc(CanvasNames(prefix), name, stored);
      } else {
        assert CanvasNames(names) == CanvasNames(prefix);
        assert OtherNames(names) == OtherNames(prefix) + [name];
        MatchedSnoc(OtherNames(prefix), name, stored);
      }
    }
  }

  /**
    Without an activated, stored canvas renderer the list is the main and
    hook scripts followed by the selected plugins in activation order, two
    longer than the selection.
  */
  lemma LoadedWithoutCanvas(main: Script, hook: Script, names: seq<string>, stored: seq<Script>)
    requires CanvasRenderName !in names || FindByName(stored, CanvasRenderName).None?
    ensures LoadedScripts(main, hook, names, stored) == [main, hook] + Matched(names, stored)
    ensures |LoadedScripts(main, hook, names, stored)| == 2 + |MatchedNames(names, stored)|
  {
    LoadedShape(main, hook, names, stored);
    NoCanvasSelected(names, stored);
    MatchedIsMatchedNames(names, stored);
  }

  /** An activated canvas renderer selects a plugin when one is stored. */
  lemma {:induction false} CanvasSelected(names: seq<string>, stored: seq<Script>)
    requires CanvasRenderName in names && FindByName(stored, CanvasRenderName).Some?
    ensures Matched(CanvasNames(names), stored) != []
  {
    var prefix := names[..|names| - 1];
    var name := names[|names| - 1];
    if name == CanvasRenderName {
      MatchedSnoc(CanvasNames(prefix), name, stored);
    } else {
      assert CanvasRenderName in prefix;
      CanvasSelected(prefix, stored);
      assert CanvasNames(names) == CanvasNames(prefix);
    }
  }

  /** An activated, stored canvas renderer comes first, ahead of the main script. */
  lemma CanvasComesFirst(main: Script, hook: Script, names: seq<string>, stored: seq<Script>)
    requires CanvasRenderName in names && FindByName(stored, CanvasRenderName).Some?
    ensures LoadedScripts(main, hook, names, stored) != []
    ensures LoadedScripts(main, hook, names, stored)[0] == stored[FindByName(stored, CanvasRenderName).value]
  {
    LoadedShape(main, hook, names, stored);
    CanvasSelected(names, stored);
    CanvasCopies(names, stored);
  }

  /** `firstIndex { $0 == name }` on the activation names. */
  function FirstIndex(names: seq<string>, name: string): (r: Option<nat>)
    ensures r.Some? ==> r.value < |names| && names[r.value] == name
    ensures r.Some? ==> forall k :: 0 <= k < r.value ==> names[k] != name
    ensures r.None? ==> name !in names
  {
    if names == [] then None
    else if names[0] == name then Some(0)
    else match FirstIndex(names[1..], name)
      case Some(k) => Some(k + 1)
      case None => None
  }

  /**
    `setPlugin`'s update of the activation names: disabling an active name
    removes its first occurrence, enabling an inactive one appends it, and
    any other request changes nothing.
  */
  function Toggled(names: seq<string>, name: string, loaded: bool): seq<string>
  {
    match FirstIndex(names, name)
    case Some(i) => if !loaded then names[..i] + names[i + 1..] else names
    case None => if loaded then names + [name] else names
  }

  /** A request for the state a name is already in changes nothing. */
  lemma ToggleInStateUnchanged(names: seq<string>, name: string, loaded: bool)
    requires (name in names) == loaded
    ensures Toggled(names, name, loaded) == names
  {
  }

  /** Enabling an inactive name appends it. */
  lemma EnableAppends(names: seq<string>, name: string)
    requires name !in names
    ensures Toggled(names, name, true) == names + [name]
  {
  }

  /** On a list without repeats, disabling an active name is removing it, the others keeping their order. */
  lemma DisableRemoves(names: seq<string>, name: string)
    requires NoDuplicates(names) && name in names
    ensures Toggled(names, name, false) == Without(names, name)
  {
    var i := FirstIndex(names, name).value;
    var before := names[..i];
    var after := names[i + 1..];
    assert names == before + [name] + after;
    assert name !in before;
    assert name !in after by {
      forall j | 0 <= j < |after|
        ensures after[j] != name
      {
        assert after[j] == names[i + 1 + j];
      }
    }
    WithoutConcat(before + [name], after, name);
    WithoutConcat(before, [name], name);
    WithoutAbsent(before, name);
    WithoutAbsent(after, name);
    assert Without([name], name) == [] by {
      assert [name][..0] == [];
    }
  }

  /** Enabling an inactive name and then disabling it restores the list. */
  lemma EnableThenDisable(names: seq<string>, name: string)
    requires name !in names
    ensures Toggled(Toggled(names, name, true), name, false) == names
  {
    var enabled := names + [name];
    assert FirstIndex(enabled, name) == Some(|names|) by {
      assert enabled[|names|] == name;
      assert forall k :: 0 <= k < |names| ==> enabled[k] == names[k];
    }
    assert enabled[..|names|] == names;
  }

  /**
    On a list without repeats, the request leaves the name active exactly
    when it asked for that, leaves every other name as it was, and keeps the
    list free of repeats; so the set of names is the requested one.
  */
  lemma ToggleMembership(names: seq<string>, name: string, loaded: bool)
    requires NoDuplicates(names)
    ensures NoDuplicates(Toggled(names, name, loaded))
    ensures name in Toggled(names, name, loaded) <==> loaded
    ensures forall n :: n != name ==> (n in Toggled(names, name, loaded) <==> n in names)
  {
    if name in names && !loaded {
      DisableRemoves(names, name);
    } else if name !in names && loaded {
      assert NoDuplicates(names + [name]) by {
        forall a, b | 0 <= a < b < |names| + 1
          ensures (names + [name])[a] != (names + [name])[b]
        {
          if b == |names| {
            assert (names + [name])[a] == names[a];
          }
        }
      }
    }
  }
}
