# IITC-Mobile userscript manager, modelled in Dafny

This project models the userscript plugin manager of IITC-Mobile, made of the
`Script` record and its metadata header parser, and the `ScriptsManager`
bookkeeping.

- **Header parser.** `getJSAttributes` takes the text between
  `==UserScript==` and `==/UserScript==` and splits it into lines on "\n".
  On each line a Foundation `Scanner` skips to `@`, reads a key up to
  whitespace and a value up to a newline. The result is a map from each key
  to its values, in order.
  - `Metadata` models this parser. `TextScanner` models the part of
    `Scanner` it relies on, with the default skip set (whitespace and
    newline characters) written out.
- **Scripts.** `ScriptRecord` models the two initialisers of `Script`:
  - `init(atFilePath:)`, which reads the header;
  - `init(coreJS:withName:)`, which does not.
- **Manager.** `Manager.ScriptsManager` is a class whose fields follow the
  source's fields:
  - the stored plugins;
  - the activation list, its set and its saved copy;
  - the main, hook and position slots;
  - the four directories it reads and writes.

  Its methods follow the source's methods:
  - the directory scan and the library/user merge (in module `Plugins`);
  - the main-script slots and their user overrides;
  - the ordered list of loaded scripts, with the canvas-renderer rule (in
    module `Activation`);
  - activation toggling;
  - the document-to-container sync (in module `Sync`);
  - the watcher routing;
  - the per-script update decision and its destination (in module
    `Update`).
- **Helper modules.**
  - `Files` models a directory as its listing order plus a map from file
    name to entry. An entry is a readable text or an unreadable file.
  - `VersionOrder` models `compare(_:options: .numeric)`.
  - `HookFormat` models the `String(format:)` call that fills the hook
    script.

Three behaviours of the code worth noting:

- The canvas renderer is inserted at index 0 of the whole loaded list,
  ahead of the main script. It is not placed at index 0 of the plugin part.
- The user's position script is forced to category "Core" as well, like
  the user's main script.
- As written, the update check downloads only when the probe's version is
  numerically OLDER than the local one. `Update.UpdateDecision` models that
  guard as written; the manager's `UpdatePlugin` applies the corrected
  decision, `Update.IntendedUpdateDecision`, which downloads a newer version.
  See "Findings".

All paths below are relative to the repository root.

## Model

| member | source | states |
|---|---|---|
| TextScanner.SkipFromSkips | BaseFramework/ScriptsManager/Script.swift:59-75 | every character the scanner's implicit skip passes over is a whitespace or newline character |
| TextScanner.UpToAvoids | BaseFramework/ScriptsManager/Script.swift:62-75 | no character a scan up to a character set passes over belongs to that set |
| TextScanner.AtEndMeansOnlySkipped | BaseFramework/ScriptsManager/Script.swift:65-73 | `isAtEnd` holds exactly when only whitespace and newline characters remain after the cursor |
| TextScanner.ScanUpToToken | BaseFramework/ScriptsManager/Script.swift:62-75 | a successful scan reads a non-empty token that starts with a significant character, holds no stop character, follows only skipped characters and ends at a stop character or at the end |
| TextScanner.Scanner.constructor | BaseFramework/ScriptsManager/Script.swift:59 | a new scanner is over the line, with the cursor at 0 |
| TextScanner.Scanner.ScanUpToCharacters | BaseFramework/ScriptsManager/Script.swift:62-75 | the loops skip the skipped characters, then read up to the stop set; the token and cursor equal `ScanUpTo`, and a failed scan does not move the cursor |
| TextScanner.Scanner.ScanString | BaseFramework/ScriptsManager/Script.swift:68 | the skip loop plus the literal match give `ScanLiteral`: the literal is consumed only when the text continues with it |
| Metadata.FindFrom | BaseFramework/ScriptsManager/Script.swift:49-52 | a found index is one where the marker occurs |
| Metadata.FindFromIsFirst | BaseFramework/ScriptsManager/Script.swift:49-52 | `range(of:)` finds the first occurrence; nothing is found only when there is no occurrence |
| Metadata.HeaderSpanAsWritten | BaseFramework/ScriptsManager/Script.swift:49-56 | the span the source slices, with both markers searched from the start; a well-formed body lies inside the text |
| Metadata.AsWrittenTrapsOnEndMarkerFirst | BaseFramework/ScriptsManager/Script.swift:56 | with the end marker before the start marker, the source's range is inverted, and Swift traps on it |
| Metadata.HeaderSpan | BaseFramework/ScriptsManager/Script.swift:49-56 | the corrected span is never inverted; it starts right after a start marker and ends at an end marker |
| Metadata.HeaderSpanAgrees | BaseFramework/ScriptsManager/Script.swift:49-56 | on every text on which the source does not trap, the corrected span is the source's span |
| Metadata.SplitJoin | BaseFramework/ScriptsManager/Script.swift:57 | `components(separatedBy: "\n")` gives lines without "\n" that join back to the text |
| Metadata.ScanHeaderLine | BaseFramework/ScriptsManager/Script.swift:58-79 | the scanner calls of one loop iteration give the pair `ScanLine` describes, or none |
| Metadata.ScanLineHasShape | BaseFramework/ScriptsManager/Script.swift:58-79 | every accepted line has this shape: first `@`; skipped characters; a key up to whitespace; skipped characters; a value up to a newline character. The pair is exactly that key and value |
| Metadata.ShapeIsScanned | BaseFramework/ScriptsManager/Script.swift:58-79 | conversely, every line of that shape is accepted with exactly that key and value |
| Metadata.ScanLineWellFormed | BaseFramework/ScriptsManager/Script.swift:69-75 | keys hold no whitespace and values hold no newline character ("\n" or "\r"); both are non-empty |
| Metadata.NoAtSignNoAttribute | BaseFramework/ScriptsManager/Script.swift:62-67 | a line without `@` adds nothing |
| Metadata.KeyAloneNoAttribute | BaseFramework/ScriptsManager/Script.swift:69-74 | a line whose key is followed only by whitespace or newlines, or by nothing, adds nothing |
| Metadata.PairsFromLines | BaseFramework/ScriptsManager/Script.swift:57-79 | every gathered pair comes from one header line |
| Metadata.GatherIsValuesOf | BaseFramework/ScriptsManager/Script.swift:80-84 | each key maps to exactly the values its lines give, in order of appearance, so the first occurrence creates a singleton; a key is present iff some line gives it |
| Metadata.GatherFromPairs | BaseFramework/ScriptsManager/Script.swift:80-84 | every key and every value of the map comes from a scanned pair |
| Metadata.GatherHeaderLines | BaseFramework/ScriptsManager/Script.swift:57-85 | the dictionary loop over the lines builds `Gather(Pairs(lines))` |
| Metadata.GetJSAttributes | BaseFramework/ScriptsManager/Script.swift:46-87 | on every text on which the source does not trap, the result is the attributes of the lines between the markers |
| Metadata.MissingMarkerNoAttributes | BaseFramework/ScriptsManager/Script.swift:49-54 | a text lacking either marker has no attributes |
| Metadata.AttributesWellFormed | BaseFramework/ScriptsManager/Script.swift:69-84 | every key is whitespace-free and maps to a non-empty list of newline-free values |
| Metadata.AttributesWithinHeader | BaseFramework/ScriptsManager/Script.swift:56-57 | every key and every value occurs strictly between the two markers; text outside the header never contributes |
| ScriptRecord.FirstValueIsHeaderValue | BaseFramework/ScriptsManager/Script.swift:34-40 | the dictionary's first value for a key is the first value the header lines give it |
| ScriptRecord.ScriptAtFile | BaseFramework/ScriptsManager/Script.swift:32-44 | `init(atFilePath:)` keeps the file's name, path and text, and is not a user script |
| ScriptRecord.ScriptFieldsFromHeader | BaseFramework/ScriptsManager/Script.swift:35-40 | version, name, description, downloadURL and updateURL are the first header value of their key, or none; the category is the first `category` value, else "Undefined" |
| ScriptRecord.HeaderlessScript | BaseFramework/ScriptsManager/Script.swift:35-54 | a text without a complete header gives no metadata and category "Undefined" |
| ScriptRecord.CoreScript | BaseFramework/ScriptsManager/Script.swift:23-30 | `init(coreJS:withName:)` gives the name, category "Core", the file's name, path and text, and not a user script |
| ScriptRecord.CoreScriptIgnoresHeader | BaseFramework/ScriptsManager/Script.swift:23-30 | the core initialiser reads no metadata: two texts give scripts that differ only in their text |
| VersionOrder.DigitRun | BaseFramework/ScriptsManager/ScriptsManager.swift:215 | a leading digit run is all digits and is followed by a non-digit or by the end |
| VersionOrder.CompareFlips | BaseFramework/ScriptsManager/ScriptsManager.swift:215 | the `.numeric` comparison is antisymmetric: swapping the operands flips the order |
| VersionOrder.CompareReflexive | BaseFramework/ScriptsManager/ScriptsManager.swift:215 | every version compares the same as itself |
| VersionOrder.PatchLevelExample | BaseFramework/ScriptsManager/ScriptsManager.swift:215 | "1.0.0" is ascending against "1.0.1" |
| VersionOrder.MinorLevelExample | BaseFramework/ScriptsManager/ScriptsManager.swift:215 | "1.9" is ascending against "1.10": digit runs compare by value |
| HookFormat.NaturalDecimal | BaseFramework/ScriptsManager/ScriptsManager.swift:99 | `%d` prints a non-empty run of digits without a leading zero |
| HookFormat.DecimalRoundTrip | BaseFramework/ScriptsManager/ScriptsManager.swift:99 | reading the printed digits back gives the build number |
| HookFormat.PlainPrefix | BaseFramework/ScriptsManager/ScriptsManager.swift:99 | text without `%` is copied unchanged by the formatting |
| HookFormat.NoConversionUnchanged | BaseFramework/ScriptsManager/ScriptsManager.swift:99 | a hook text without `%` is left as it is |
| HookFormat.FirstConversion | BaseFramework/ScriptsManager/ScriptsManager.swift:99 | the first `%@` or `%d` prints the first argument (the version), and the rest of the text takes the remaining ones (the build number) |
| Files.VisibleMembers | BaseFramework/ScriptsManager/ScriptsManager.swift:132 | `.skipsHiddenFiles` keeps exactly the names not starting with ".", without repeats |
| Files.ListingMembers | BaseFramework/ScriptsManager/ScriptsManager.swift:238 | a directory listing names every visible entry once |
| Files.WithoutMembers | BaseFramework/ScriptsManager/ScriptsManager.swift:248 | removing an entry from the listing keeps exactly the other names, without repeats |
| Files.Remove | BaseFramework/ScriptsManager/ScriptsManager.swift:248 | `removeItem`: the entry is gone, nothing else changes, and the directory stays well formed |
| Files.Put | BaseFramework/ScriptsManager/ScriptsManager.swift:250 | `copyItem` to a free name: the entry appears with the copied content and nothing else changes |
| Files.Write | BaseFramework/ScriptsManager/ScriptsManager.swift:232 | `write(to:atomically:)`: the entry holds the text, created when missing, and nothing else changes |
| Files.WithoutAbsent | BaseFramework/ScriptsManager/ScriptsManager.swift:185 | removing a name that is not listed changes nothing |
| Files.WithoutConcat | BaseFramework/ScriptsManager/ScriptsManager.swift:185 | removal distributes over the two parts of a list |
| Sync.SyncStep | BaseFramework/ScriptsManager/ScriptsManager.swift:239-251 | one entry of the sync keeps both directories well formed |
| Sync.SyncStepEffect | BaseFramework/ScriptsManager/ScriptsManager.swift:246-251 | one more entry: it leaves the documents and lands in the user directory with its document content |
| Sync.SyncEffect | BaseFramework/ScriptsManager/ScriptsManager.swift:239-252 | over distinct listed names, each entry not excluded moves with its content and replaces any same-named user entry; every other entry stays; each entry is handled independently |
| Sync.SyncDirectoriesEffect | BaseFramework/ScriptsManager/ScriptsManager.swift:237-254 | afterwards the documents hold exactly their hidden and excluded entries (`com.google.iid-keypair.plist`, `Inbox`), unchanged; the user directory holds its old entries plus every moved one, with its document content |
| Sync.NothingToMove | BaseFramework/ScriptsManager/ScriptsManager.swift:237-254 | documents holding only excluded or hidden entries leave both directories unchanged |
| Plugins.HookScriptIsCandidate | BaseFramework/ScriptsManager/ScriptsManager.swift:137-148 | `ios-hooks.js` is not excluded from the plugin scan |
| Plugins.Loadable | BaseFramework/ScriptsManager/ScriptsManager.swift:136-155 | the scan keeps exactly the listed names that end in ".js", do not end in ".meta.js", are not the main or the position script and can be read |
| Plugins.Built | BaseFramework/ScriptsManager/ScriptsManager.swift:151 | a scanned script keeps the entry's file name |
| Plugins.DiscoverIsLoadable | BaseFramework/ScriptsManager/ScriptsManager.swift:136-155 | the scan yields one script per loadable entry, in listing order, each built from that entry's text; unreadable entries are dropped without ending the scan |
| Plugins.DiscoverNext | BaseFramework/ScriptsManager/ScriptsManager.swift:136-155 | the scan over one more entry appends that entry's script exactly when it is a readable candidate |
| Plugins.DiscoveredNamesDistinct | BaseFramework/ScriptsManager/ScriptsManager.swift:132-155 | a scan of a listing yields scripts with distinct file names |
| Plugins.DiscoveredAreCandidates | BaseFramework/ScriptsManager/ScriptsManager.swift:137-148 | every scanned script is a plugin candidate |
| Plugins.FindByName | BaseFramework/ScriptsManager/ScriptsManager.swift:81-84 | `firstIndex` by file name finds the first script of that name, or reports that there is none |
| Plugins.FindByNameSnoc | BaseFramework/ScriptsManager/ScriptsManager.swift:81-84 | the first match in a list extended by one script |
| Plugins.MergeNext | BaseFramework/ScriptsManager/ScriptsManager.swift:79-90 | the merge over one more user script is one replace-or-append step |
| Plugins.Overlay | BaseFramework/ScriptsManager/ScriptsManager.swift:78-90 | the library list keeps its length, each plugin replaced by the marked user script of its name when there is one |
| Plugins.Extras | BaseFramework/ScriptsManager/ScriptsManager.swift:79-90 | the appended scripts override no library plugin, come from the user directory and are marked as user scripts |
| Plugins.MergeIsOverlayPlusExtras | BaseFramework/ScriptsManager/ScriptsManager.swift:78-90 | a user script matching a library plugin replaces it at its own index; the other library plugins keep their order; the other user scripts follow in order; every user-directory script is marked |
| Plugins.UserScriptsWin | BaseFramework/ScriptsManager/ScriptsManager.swift:79-90 | every user script ends in the stored list, marked as a user script |
| Plugins.MergedFromEither | BaseFramework/ScriptsManager/ScriptsManager.swift:78-90 | every stored script is a library plugin or a marked user script |
| Plugins.MergedAreCandidates | BaseFramework/ScriptsManager/ScriptsManager.swift:136-148 | the stored list never holds the main or position script, nor a ".meta.js" file |
| Activation.MatchedNames | BaseFramework/ScriptsManager/ScriptsManager.swift:163-168 | only names with a stored plugin select one |
| Activation.MatchedNamesExactly | BaseFramework/ScriptsManager/ScriptsManager.swift:163-168 | a name is matched exactly when it is activated and a stored plugin has that file name, so no activated, stored plugin is missed |
| Activation.MatchedIsMatchedNames | BaseFramework/ScriptsManager/ScriptsManager.swift:163-174 | each selected script is the first stored plugin of a matched name, in activation order; unmatched names are skipped |
| Activation.CanvasCopies | BaseFramework/ScriptsManager/ScriptsManager.swift:169-170 | every canvas-renderer selection is the first stored `canvas-render.user.js` |
| Activation.LoadedShape | BaseFramework/ScriptsManager/ScriptsManager.swift:159-176 | the loaded list is the stored canvas renderer (once per activation), then main and hook, then the other selected plugins in activation order |
| Activation.NoCanvasSelected | BaseFramework/ScriptsManager/ScriptsManager.swift:169-173 | without an activated, stored canvas renderer, the canvas part is empty |
| Activation.LoadedWithoutCanvas | BaseFramework/ScriptsManager/ScriptsManager.swift:159-176 | without an activated, stored canvas renderer, the list is `[main, hook]` plus the selected plugins, of length 2 plus the matched names |
| Activation.CanvasSelected | BaseFramework/ScriptsManager/ScriptsManager.swift:169-170 | an activated, stored canvas renderer is selected |
| Activation.CanvasComesFirst | BaseFramework/ScriptsManager/ScriptsManager.swift:169-170 | an activated, stored canvas renderer is element 0, ahead of the main script |
| Activation.FirstIndex | BaseFramework/ScriptsManager/ScriptsManager.swift:180-183 | `firstIndex` on the names finds the first occurrence, or none when the name is absent |
| Activation.ToggleInStateUnchanged | BaseFramework/ScriptsManager/ScriptsManager.swift:184-188 | a request for the state the name is already in leaves the list unchanged |
| Activation.EnableAppends | BaseFramework/ScriptsManager/ScriptsManager.swift:186-187 | enabling an absent name appends it |
| Activation.DisableRemoves | BaseFramework/ScriptsManager/ScriptsManager.swift:184-185 | disabling a present name removes it, the others keeping their order |
| Activation.EnableThenDisable | BaseFramework/ScriptsManager/ScriptsManager.swift:184-188 | enabling then disabling an absent name restores the list |
| Activation.ToggleMembership | BaseFramework/ScriptsManager/ScriptsManager.swift:179-189 | the name ends active exactly when requested; other names are untouched; no repeats appear |
| Update.Destination | BaseFramework/ScriptsManager/ScriptsManager.swift:220-231 | a user script goes to the user directory, else a "Core" script to the library scripts and any other to the library plugins, always under its own file name |
| Update.UpdateDecision | BaseFramework/ScriptsManager/ScriptsManager.swift:199-217 | as written: a download always targets `Destination` |
| Update.NoUpdateURLSkips | BaseFramework/ScriptsManager/ScriptsManager.swift:199-201 | a script without updateURL is never downloaded |
| Update.UpdateDecisionCases | BaseFramework/ScriptsManager/ScriptsManager.swift:199-217 | as written, a download happens iff all hold: an updateURL; a probe with downloadURL and version; a local version; the local version newer than the probe's. It fetches the probe's downloadURL |
| Update.AsWrittenSkipsNewerVersion | BaseFramework/ScriptsManager/ScriptsManager.swift:215 | a script at 1.0.0 whose probe announces 1.0.1 is skipped as written, and downloaded by the intended decision |
| Update.IntendedUpdateDecision | BaseFramework/ScriptsManager/ScriptsManager.swift:199-217 | corrected decision: a download always targets `Destination` |
| Update.IntendedDecisionCases | BaseFramework/ScriptsManager/ScriptsManager.swift:199-217 | corrected: a download happens iff the guards pass and the probe's version is the newer one |
| Update.IntendedSkipsSameVersion | BaseFramework/ScriptsManager/ScriptsManager.swift:215 | corrected: a probe of the same version is never downloaded |
| Update.DownloadReplacesOrigin | BaseFramework/ScriptsManager/ScriptsManager.swift:220-231 | a non-"Core" library plugin and a user script are written back to the file they came from |
| Update.CorePluginWrittenToScripts | BaseFramework/ScriptsManager/ScriptsManager.swift:224-225 | a library plugin whose header says "Core" is written to the library scripts directory, not back to the plugins |
| Manager.AsMainScript | BaseFramework/ScriptsManager/ScriptsManager.swift:96-97 | the library main script is read from its file and forced to category "Core" |
| Manager.HookScript | BaseFramework/ScriptsManager/ScriptsManager.swift:98-99 | the hook script is a "Core" script named "hook"; its text is formatted with the app version and the build number |
| Manager.PositionScript | BaseFramework/ScriptsManager/ScriptsManager.swift:100 | the position script is a "Core" script named "position", from the library scripts |
| Manager.UserMainScript | BaseFramework/ScriptsManager/ScriptsManager.swift:111-113 | a user override is read from the user directory, in category "Core", marked as a user script |
| Manager.UserScriptsTakeSlots | BaseFramework/ScriptsManager/ScriptsManager.swift:107-128 | a readable user main or position script always wins its slot: "Core", a user script, with the user file's text |
| Manager.LibraryMainScript | BaseFramework/ScriptsManager/ScriptsManager.swift:93-105 | without a user override, a readable library main script takes the slot: "Core", not a user script, with its header's version and name |
| Manager.LibraryMainSlot | BaseFramework/ScriptsManager/ScriptsManager.swift:93-105 | without a user override, the main slot is the library main script |
| Manager.MainScriptFields | BaseFramework/ScriptsManager/ScriptsManager.swift:96-97 | forcing the category keeps the header's version and name |
| Manager.UnreadableMainKeepsSlots | BaseFramework/ScriptsManager/ScriptsManager.swift:95-104 | when the library main script cannot be read, no library slot changes; only a user position script can replace its slot |
| Manager.MainSlotsAreCore | BaseFramework/ScriptsManager/ScriptsManager.swift:93-128 | loading keeps every filled slot in category "Core" |
| Manager.StoredPluginsShape | BaseFramework/ScriptsManager/ScriptsManager.swift:77-91 | the stored plugins are: the library plugins with user overrides in place, then the other user scripts. All are plugin candidates |
| Manager.ScriptsManager.constructor | BaseFramework/ScriptsManager/ScriptsManager.swift:38-75 | `init`: activation list from the saved names, documents synced, main slots and stored plugins loaded, invariant established; the saved list is the given one, and the hook script is formatted with the given version and build number |
| Manager.ScriptsManager.Start | BaseFramework/ScriptsManager/ScriptsManager.swift:68-73 | the sync, then the loads: the directories are the sync's result; slots and stored plugins are loaded from the synced user directory |
| Manager.ScriptsManager.LoadScripts | BaseFramework/ScriptsManager/ScriptsManager.swift:72-73 | the main slots and then the stored plugins, each given by its defining function |
| Manager.ScriptsManager.LoadPluginInDirectory | BaseFramework/ScriptsManager/ScriptsManager.swift:130-157 | the loop yields the scan `Discover` of the directory's listing |
| Manager.ScriptsManager.LoadAllPlugins | BaseFramework/ScriptsManager/ScriptsManager.swift:77-91 | the stored plugins become `StoredPlugins`, whose shape `StoredPluginsShape` gives |
| Manager.ScriptsManager.LoadMainScripts | BaseFramework/ScriptsManager/ScriptsManager.swift:93-105 | the slots become `MainSlots` of the old slots and stay "Core" |
| Manager.ScriptsManager.LoadUserMainScript | BaseFramework/ScriptsManager/ScriptsManager.swift:107-128 | the slots become `UserSlots` of the old ones; the hook slot is untouched |
| Manager.ScriptsManager.GetLoadedScripts | BaseFramework/ScriptsManager/ScriptsManager.swift:159-177 | the loop yields `LoadedScripts`, whose shape `LoadedShape` gives |
| Manager.ScriptsManager.SetPlugin | BaseFramework/ScriptsManager/ScriptsManager.swift:179-191 | the names become `Toggled` of the old ones; the set and the saved copy follow them |
| Manager.ScriptsManager.SharedDefaultsWritten | BaseFramework/ScriptsManager/ScriptsManager.swift:36 | another process sharing the app-group defaults saves a "LoadedPlugins" list; only the saved list changes, and the manager's own activation list stays as it was until it is reloaded |
| Manager.ScriptsManager.ReloadSettings | BaseFramework/ScriptsManager/ScriptsManager.swift:266-269 | the activation list becomes the saved list, including one another process wrote, and the set follows it |
| Manager.ScriptsManager.SyncDocumentAndContainer | BaseFramework/ScriptsManager/ScriptsManager.swift:237-254 | the loop's moves give `SyncDirectories` of the old directories, whose effect `SyncDirectoriesEffect` states |
| Manager.ScriptsManager.DirectoryDidChange | BaseFramework/ScriptsManager/ScriptsManager.swift:256-264 | the document watcher only syncs; the container watcher reloads the plugins and the main slots, and posts one notification; neither touches the activation list or the saved list |
| Manager.ScriptsManager.ApplyUpdate | BaseFramework/ScriptsManager/ScriptsManager.swift:218-232 | a download writes the text to its destination file, creating it when missing, and changes no other directory; a skip changes nothing |
| Manager.ScriptsManager.UpdatePlugin | BaseFramework/ScriptsManager/ScriptsManager.swift:199-232 | one script's update under the corrected decision: the write lands on the script's own file name in `Destination`, or nothing changes |

## Left out

- Network access (Alamofire and RxSwift in `updatePlugins`) is not modelled.
  - The probe's text and the downloaded text are parameters.
  - The fan-out over `UpdateTargets`, its concurrency and order, and request failures are not modelled.
  - The model covers the decision and the write for one script.
- `DirectoryWatcher` and `NotificationCenter` are not modelled. The watcher is an enum argument and a posted notification is a counter.
- `UserDefaults` is a field. It holds the saved activation list, with no "Version"/"BuildVersion" keys. A write by another process sharing the app group is the method `SharedDefaultsWritten`; when and how often that happens is not modelled.
- The first-run and upgrade copy of the bundled scripts in `init` (which depends on `VersionTool`) and `switchIITCVersion` are not modelled. The directories are constructor arguments.
- The app version and build number are constructor arguments, not read from `VersionTool`.
- The `createDirectory` calls are not modelled, and neither is a failing `contentsOfDirectory`. Every directory exists and can be listed.
- Every `removeItem`, `copyItem` and `write` succeeds.
- Sync.SyncStep: does not model a failing copy followed by a removal that still deletes the document.
- `resolvingSymlinksInPath` is not modelled. A path is its directory and file name.
- Text encoding is not modelled. A file is either a readable text or unreadable.
- Characters are Unicode code points. Swift's grapheme clusters and UTF-16 offsets are not modelled.
- Hidden files are the names starting with ".".
- VersionOrder.NumericCompare: a simplified `.numeric` comparison.
  - Digit runs compare by value and other characters by code point.
  - Locale rules, Unicode digits, and ties between digit runs of equal value but different length are not modelled.
- HookFormat.Format: only `%@`, `%d` and `%%` are interpreted. Every other character, including other conversions, is copied. `%d` prints the whole integer; the 32-bit truncation `String(format:)` applies to a build number above 2^31 - 1 is not modelled.
- A saved activation list with repeated names is accepted as it is. `Activation.DisableRemoves` and `Activation.ToggleMembership` are stated for lists without repeats, which `setPlugin` never creates from such a list but which the model does not keep as an invariant of the manager.
- Manager.ScriptsManager.GetLoadedScripts: requires filled main and hook slots, where the source's implicitly unwrapped optionals trap.
- Manager.ScriptsManager.UpdateTargets: the script list of `updatePlugins`, without a contract. It only lists its inputs.
- Metadata.GetJSAttributes: requires the text not to trap the source (see "Findings").
- ScriptRecord.ScriptAtFile: a text whose first end marker comes before the end of the start marker traps `init(atFilePath:)`, but is parsed here with the corrected span and gives a script. So a single such file in a plugin directory, which crashes `loadAllPlugins`, is loaded normally by `Discover`, `StoredPlugins` and `LoadAllPlugins`.
- Update.UpdateDecision: a probe text on which `getJSAttributes` traps at ScriptsManager.swift:208 is parsed here with the corrected span and gets a decision.
- Files.ReadText: the file-system read itself, `String(contentsOfFile:)`. It has no partner property: a text entry reads as its text, and any other entry fails.
- Script objects are values. No two owners ever share a `Script` the source then mutates, so nothing depends on object identity.

## Findings

| source | as written | input that shows it | evidently intended | confidence | as-written member | corrected member |
|---|---|---|---|---|---|---|
| BaseFramework/ScriptsManager/Script.swift:56 | both markers are searched from the start of the text, and the slice runs from the end of the start marker to the end marker | `"==/UserScript==\n==UserScript=="`: the range is inverted and Swift traps | search the end marker after the start marker | not executed; high | Metadata.AsWrittenTrapsOnEndMarkerFirst | Metadata.HeaderSpan |
| BaseFramework/ScriptsManager/ScriptsManager.swift:215 | `newVersion.compare(oldVersion, options: .numeric) != .orderedAscending` skips, so only a probe OLDER than the local version is downloaded | local version "1.0.0", probe version "1.0.1" with a downloadURL: skipped | download when the probe's version is newer | not executed; high | Update.AsWrittenSkipsNewerVersion | Update.IntendedDecisionCases |
