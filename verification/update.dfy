/**
  The per-script part of `updatePlugins`: whether a script is downloaded
  again after its update URL was probed, and where the download is written.
  The probe and the download themselves are network requests; the text the
  update URL returns is a parameter here.
*/
module Update {
  import opened Wrappers
  import opened Metadata
  import opened ScriptRecord
  import opened VersionOrder

  datatype Decision = Skip | Download(url: string, destination: Path)

  /** The text whose header is read: what the update URL returned, or "" without an update URL. */
  function ProbeText(script: Script, fetched: string): string
  {
    if script.updateURL.Some? then fetched else ""
  }

  /**
    Where a downloaded script is written: the user directory for a user
    script, otherwise the library scripts directory for a "Core" script and
    the library plugins directory for any other; always under the script's
    own file name.
  */
  function Destination(script: Script): (p: Path)
    ensures p.fileName == script.fileName
    ensures p.dir == UserScripts <==> script.isUserScript
    ensures p.dir == LibraryScripts <==> !script.isUserScript && script.category == "Core"
    ensures p.dir == LibraryPlugins <==> !script.isUserScript && script.category != "Core"
  {
    if script.isUserScript then Path(UserScripts, script.fileName)
    else if script.category == "Core" then Path(LibraryScripts, script.fileName)
    else Path(LibraryPlugins, script.fileName)
  }

  /**
    The decision as the source makes it: skip without a `downloadURL` in the
    probe, skip when either version is missing, and skip unless the probe's
    version compares as ascending against the local one, that is, unless the
    probe is older.
  */
  function UpdateDecision(script: Script, fetched: string): (d: Decision)
    ensures d.Download? ==> d.destination == Destination(script)
  {
    var attributes := JSAttributes(ProbeText(script, fetched));
    match FirstValue(attributes, "downloadURL")
    case None => Skip
    case Some(url) =>
      match (FirstValue(attributes, "version"), script.version)
      case (Some(newVersion), Some(oldVersion)) =>
        if NumericCompare(newVersion, oldVersion) != OrderedAscending then Skip
        else Download(url, Destination(script))
      case _ => Skip
  }

  /** The evidently intended decision: download when the probe's version is newer. */
  function IntendedUpdateDecision(script: Script, fetched: string): (d: Decision)
    ensures d.Download? ==> d.destination == Destination(script)
  {
    var attributes := JSAttributes(ProbeText(script, fetched));
    match FirstValue(attributes, "downloadURL")
    case None => Skip
    case Some(url) =>
      match (FirstValue(attributes, "version"), script.version)
      case (Some(newVersion), Some(oldVersion)) =>
        if NumericCompare(newVersion, oldVersion) != OrderedDescending then Skip
        else Download(url, Destination(script))
      case _ => Skip
  }

  /** A script without an update URL is never downloaded: the empty probe has no header. */
  lemma NoUpdateURLSkips(script: Script, fetched: string)
    requires script.updateURL.None?
    ensures UpdateDecision(script, fetched) == Skip
    ensures IntendedUpdateDecision(script, fetched) == Skip
  {
    MissingMarkerNoAttributes("");
  }

  /**
    The source downloads exactly when the script has an update URL, the probe
    names a download URL and a version, the script has a version, and the
    LOCAL version is the newer one; it then fetches the probe's download URL
    into `Destination`.
  */
  lemma UpdateDecisionCases(script: Script, fetched: string)
    ensures UpdateDecision(script, fetched).Download? <==>
      && script.updateURL.Some?
      && HeaderValue(fetched, "downloadURL").Some?
      && HeaderValue(fetched, "version").Some?
      && script.version.Some?
      && NumericCompare(script.version.value, HeaderValue(fetched, "version").value) == OrderedDescending
    ensures UpdateDecision(script, fetched).Download? ==>
      UpdateDecision(script, fetched) == Download(HeaderValue(fetched, "downloadURL").value, Destination(script))
  {
    if script.updateURL.None? {
      NoUpdateURLSkips(script, fetched);
    } else {
      FirstValueIsHeaderValue(fetched, "downloadURL");
      FirstValueIsHeaderValue(fetched, "version");
      if HeaderValue(fetched, "version").Some? && script.version.Some? {
        CompareFlips(HeaderValue(fetched, "version").value, script.version.value);
      }
    }
  }

  /**
    The intended decision downloads exactly when the probe's version is the
    newer one (and the other guards pass).
  */
  lemma IntendedDecisionCases(script: Script, fetched: string)
    ensures IntendedUpdateDecision(script, fetched).Download? <==>
      && script.updateURL.Some?
      && HeaderValue(fetched, "downloadURL").Some?
      && HeaderValue(fetched, "version").Some?
      && script.version.Some?
      && NumericCompare(script.version.value, HeaderValue(fetched, "version").value) == OrderedAscending
    ensures IntendedUpdateDecision(script, fetched).Download? ==>
      IntendedUpdateDecision(script, fetched) == Download(HeaderValue(fetched, "downloadURL").value, Destination(script))
  {
    if script.updateURL.None? {
      NoUpdateURLSkips(script, fetched);
    } else {
      FirstValueIsHeaderValue(fetched, "downloadURL");
      FirstValueIsHeaderValue(fetched, "version");
      if HeaderValue(fetched, "version").Some? && script.version.Some? {
        CompareFlips(HeaderValue(fetched, "version").value, script.version.value);
      }
    }
  }

  /** With the intended decision, a probe of the same version is never downloaded. */
  lemma IntendedSkipsSameVersion(script: Script, fetched: string)
    requires script.version.Some? && HeaderValue(fetched, "version") == script.version
    ensures IntendedUpdateDecision(script, fetched) == Skip
  {
    IntendedDecisionCases(script, fetched);
    CompareReflexive(script.version.value);
  }

  /**
    The discrepancy: a script at version 1.0.0 whose update URL announces
    1.0.1 with a download URL is skipped by the source, and downloaded by the
    intended decision.
  */
  lemma AsWrittenSkipsNewerVersion(script: Script, fetched: string)
    requires script.updateURL.Some? && script.version == Some("1.0.0")
    requires HeaderValue(fetched, "version") == Some("1.0.1")
    requires HeaderValue(fetched, "downloadURL").Some?
    ensures UpdateDecision(script, fetched) == Skip
    ensures IntendedUpdateDecision(script, fetched).Download?
  {
    PatchLevelExample();
    UpdateDecisionCases(script, fetched);
    IntendedDecisionCases(script, fetched);
  }

  /**
    A library plugin of any category but "Core", and a user script, are
    written back to the file they were loaded from.
  */
  lemma DownloadReplacesOrigin(script: Script)
    requires script.fileName == script.filePath.fileName
    requires
      || (script.filePath.dir == LibraryPlugins && !script.isUserScript && script.category != "Core")
      || (script.filePath.dir == UserScripts && script.isUserScript)
    ensures Destination(script) == script.filePath
  {
  }

  /**
    A library plugin whose header declares category "Core" is written to the
    library scripts directory, not back to the plugins directory it came from.
  */
  lemma CorePluginWrittenToScripts(script: Script)
    requires script.filePath.dir == LibraryPlugins && !script.isUserScript && script.category == "Core"
    ensures Destination(script) != script.filePath
    ensures Destination(script).dir == LibraryScripts
  {
  }
}
