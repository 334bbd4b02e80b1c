/**
  Directories as the manager sees them through `FileManager`: the names in
  the order `contentsOfDirectory` lists them, and what each name holds.
*/
module Files {
  import opened Wrappers

  /** A directory entry: a text file, or something `String(contentsOf:)` cannot read. */
  datatype Entry = Text(text: string) | Unreadable

  datatype Directory = Directory(names: seq<string>, files: map<string, Entry>)

  predicate NoDuplicates<T(==)>(s: seq<T>)
  {
    forall i, j :: 0 <= i < j < |s| ==> s[i] != s[j]
  }

  /** Each entry is listed once, and exactly the entries are listed. */
  predicate WellFormed(d: Directory)
  {
    && NoDuplicates(d.names)
    && (forall n :: n in d.names ==> n in d.files)
    && (forall n {:trigger n in d.names} :: n in d.files ==> n in d.names)
  }

  /** A name `contentsOfDirectory(..., options: .skipsHiddenFiles)` leaves out. */
  predicate Hidden(name: string)
  {
    |name| > 0 && name[0] == '.'
  }

  /** The names that are not hidden, in directory order. */
  function Visible(names: seq<string>): seq<string>
  {
    if names == [] then []
    else
      var rest := Visible(names[..|names| - 1]);
      var last := names[|names| - 1];
      if Hidden(last) then rest else rest + [last]
  }

  /** `Visible` keeps exactly the names that are not hidden, each once if it was listed once. */
  lemma {:induction false} VisibleMembers(names: seq<string>)
    ensures forall n :: n in Visible(names) <==> n in names && !Hidden(n)
    ensures NoDuplicates(names) ==> NoDuplicates(Visible(names))
  {
    if names != [] {
      var front := names[..|names| - 1];
      var last := names[|names| - 1];
      VisibleMembers(front);
      assert names == front + [last];
      assert NoDuplicates(names) ==> last !in front;
    }
  }

  /** `contentsOfDirectory` with hidden files skipped. */
  function Listing(d: Directory): seq<string>
    requires WellFormed(d)
  {
    Visible(d.names)
  }

  /** The listing names every entry that is not hidden, once. */
  lemma ListingMembers(d: Directory)
    requires WellFormed(d)
    ensures NoDuplicates(Listing(d))
    ensures forall n :: n in Listing(d) <==> n in d.files && !Hidden(n)
  {
    VisibleMembers(d.names);
  }

  /** `names` without `name`, the others in their order. */
  function Without(names: seq<string>, name: string): seq<string>
  {
    if names == [] then []
    else
      var rest := Without(names[..|names| - 1], name);
      var last := names[|names| - 1];
      if last == name then rest else rest + [last]
  }

  /** `Without` keeps exactly the other names, each once if it was listed once. */
  lemma {:induction false} WithoutMembers(names: seq<string>, name: string)
    ensures forall n :: n in Without(names, name) <==> n in names && n != name
    ensures NoDuplicates(names) ==> NoDuplicates(Without(names, name))
  {
    if names != [] {
      var front := names[..|names| - 1];
      var last := names[|names| - 1];
      WithoutMembers(front, name);
      assert names == front + [last];
      assert NoDuplicates(names) ==> last !in front;
    }
  }

  /** `removeItem`: the entry is gone and nothing else changes. */
  function Remove(d: Directory, name: string): (r: Directory)
    requires WellFormed(d)
    ensures WellFormed(r)
    ensures r.files == d.files - {name}
  {
    WithoutMembers(d.names, name);
    Directory(Without(d.names, name), d.files - {name})
  }

  /** `copyItem` to a name that does not exist yet: the new entry is listed last. */
  function Put(d: Directory, name: string, entry: Entry): (r: Directory)
    requires WellFormed(d) && name !in d.files
    ensures WellFormed(r)
    ensures r.files == d.files[name := entry]
  {
    Directory(d.names + [name], d.files[name := entry])
  }

  /** `write(to:atomically:)`: the entry holds `entry`, created when missing. */
  function Write(d: Directory, name: string, entry: Entry): (r: Directory)
    requires WellFormed(d)
    ensures WellFormed(r)
    ensures r.files == d.files[name := entry]
  {
    if name in d.files then Directory(d.names, d.files[name := entry]) else Put(d, name, entry)
  }

  /** `String(contentsOf:)`: the text of a readable file, or the error (`None`). */
  function ReadText(d: Directory, name: string): (r: Option<string>)
    ensures r.Some? <==> name in d.files && d.files[name].Text?
    ensures r.Some? ==> d.files[name] == Text(r.value)
  {
    if name in d.files && d.files[name].Text? then Some(d.files[name].text) else None
  }

  /** Removing a name that is not there changes nothing. */
  lemma {:induction false} WithoutAbsent(names: seq<string>, name: string)
    requires name !in names
    ensures Without(names, name) == names
  {
    if names != [] {
      WithoutAbsent(names[..|names| - 1], name);
    }
  }

  /** Removing a name from a concatenation removes it from each part. */
  lemma {:induction false} WithoutConcat(front: seq<string>, back: seq<string>, name: string)
    ensures Without(front + back, name) == Without(front, name) + Without(back, name)
  {
    if back == [] {
      assert front + back == front;
    } else {
      var earlier := back[..|back| - 1];
      var last := back[|back| - 1];
      var tail := if last == name then [] else [last];
      WithoutConcat(front, earlier, name);
      assert (front + back)[..|front + back| - 1] == front + earlier;
      assert (front + back)[|front + back| - 1] == last;
      assert Without(front + back, name) == Without(front + earlier, name) + tail;
      assert Without(back, name) == Without(earlier, name) + tail;
    }
  }
}
