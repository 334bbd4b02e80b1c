/**
  The `Script` record: one userscript file, with the fields its metadata
  header gives it.
*/
module ScriptRecord {
  import opened Wrappers
  import opened Metadata

  /** The four directories the manager works with. */
  datatype Dir =
    | LibraryScripts   // the bundled scripts: main, hook and position scripts
    | LibraryPlugins   // the bundled plugins, a subdirectory of LibraryScripts
    | UserScripts      // the user's own scripts, in the shared container
    | Documents        // the app's document directory, filled by file sharing

  /** A file path: a directory and the last path component. */
  datatype Path = Path(dir: Dir, fileName: string)

  datatype Script = Script(
    fileName: string,
    filePath: Path,
    fileContent: string,
    version: Option<string>,
    name: Option<string>,
    category: string,
    scriptDescription: Option<string>,
    downloadURL: Option<string>,
    updateURL: Option<string>,
    isUserScript: bool)

  /** `attributes[key]?.first`. */
  function FirstValue(attributes: Attributes, key: string): (r: Option<string>)
    ensures r.Some? <==> key in attributes && attributes[key] != []
    ensures r.Some? ==> r.value == attributes[key][0]
  {
    if key in attributes && attributes[key] != [] then Some(attributes[key][0]) else None
  }

  /**
    The first value the header of `content` gives `key`, read off the lines
    directly rather than through the dictionary.
  */
  function HeaderValue(content: string, key: string): Option<string>
  {
    var values := ValuesOf(Pairs(HeaderLines(content)), key);
    if values == [] then None else Some(values[0])
  }

  /** The dictionary's first value for a key is the header's first value for it. */
  lemma FirstValueIsHeaderValue(content: string, key: string)
    ensures FirstValue(JSAttributes(content), key) == HeaderValue(content, key)
  {
    GatherIsValuesOf(Pairs(HeaderLines(content)), key);
  }

  /**
    `init(atFilePath:)`: the text of the file at `path`, and the fields its
    header gives: the first value of each key, and "Undefined" as the
    category when the header has none.
  */
  function ScriptAtFile(path: Path, content: string): (s: Script)
    ensures s.fileName == path.fileName && s.filePath == path && s.fileContent == content
    ensures !s.isUserScript
  {
    var attributes := JSAttributes(content);
    Script(
      fileName := path.fileName,
      filePath := path,
      fileContent := content,
      version := FirstValue(attributes, "version"),
      name := FirstValue(attributes, "name"),
      category := match FirstValue(attributes, "category") case Some(c) => c case None => "Undefined",
      scriptDescription := FirstValue(attributes, "description"),
      downloadURL := FirstValue(attributes, "downloadURL"),
      updateURL := FirstValue(attributes, "updateURL"),
      isUserScript := false)
  }

  /**
    The fields `init(atFilePath:)` sets are the first values the header lists
    for their keys, or none when the header lacks the key; the category falls
    back to "Undefined".
  */
  lemma ScriptFieldsFromHeader(path: Path, content: string)
    ensures ScriptAtFile(path, content).version == HeaderValue(content, "version")
    ensures ScriptAtFile(path, content).name == HeaderValue(content, "name")
    ensures ScriptAtFile(path, content).scriptDescription == HeaderValue(content, "description")
    ensures ScriptAtFile(path, content).downloadURL == HeaderValue(content, "downloadURL")
    ensures ScriptAtFile(path, content).updateURL == HeaderValue(content, "updateURL")
    ensures HeaderValue(content, "category").Some? ==>
      ScriptAtFile(path, content).category == HeaderValue(content, "category").value
    ensures HeaderValue(content, "category").None? ==> ScriptAtFile(path, content).category == "Undefined"
  {
    FirstValueIsHeaderValue(content, "version");
    FirstValueIsHeaderValue(content, "name");
    FirstValueIsHeaderValue(content, "description");
    FirstValueIsHeaderValue(content, "downloadURL");
    FirstValueIsHeaderValue(content, "updateURL");
    FirstValueIsHeaderValue(content, "category");
  }

  /** A text without a complete header gives a script with no metadata at all. */
  lemma HeaderlessScript(path: Path, content: string)
    requires HeaderSpan(content).NoHeader?
    ensures var s := ScriptAtFile(path, content);
      && s.version.None? && s.name.None? && s.scriptDescription.None?
      && s.downloadURL.None? && s.updateURL.None? && s.category == "Undefined"
  {
  }

  /**
    `init(coreJS:withName:)`: the text of the file at `path` under the given
    name, in category "Core"; the header is not read.
  */
  function CoreScript(path: Path, content: string, name: string): (s: Script)
    ensures s.fileName == path.fileName && s.filePath == path && s.fileContent == content
    ensures s.name == Some(name) && s.category == "Core" && !s.isUserScript
  {
    Script(
      fileName := path.fileName,
      filePath := path,
      fileContent := content,
      version := None,
      name := Some(name),
      category := "Core",
      scriptDescription := None,
      downloadURL := None,
      updateURL := None,
      isUserScript := false)
  }

  /** The core initialiser ignores the header: two texts give the same metadata. */
  lemma CoreScriptIgnoresHeader(path: Path, content1: string, content2: string, name: string)
    ensures CoreScript(path, content1, name) == CoreScript(path, content2, name).(fileContent := content1)
  {
  }
}
