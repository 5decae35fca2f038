/** The abstract filesystem the logger works on: a map from path to contents.
    `os.Stat`, `os.Remove`, `os.Rename` and `os.Create` become operations on it. */
module Files {

  type FileSystem = map<string, string>

  /** `getFileSize`: the length of the file, 0 when it does not exist. */
  function FileSize(fs: FileSystem, path: string): nat {
    if path in fs then |fs[path]| else 0
  }

  /** Appending to an existing file grows its size by exactly the length written. */
  lemma FileSizeAppend(fs: FileSystem, path: string, data: string)
    requires path in fs
    ensures FileSize(fs[path := fs[path] + data], path) == FileSize(fs, path) + |data|
  {
  }

  /** `os.Rename(from, to)`: the contents move to `to`, replacing what was there;
      when `from` does not exist the call fails and nothing changes. */
  function Rename(fs: FileSystem, from: string, to: string): (r: FileSystem)
    requires from != to
    ensures from in fs ==> from !in r && to in r && r[to] == fs[from]
    ensures from !in fs ==> r == fs
  {
    if from in fs then (fs - {from})[to := fs[from]] else fs
  }

  /** Renaming touches no path other than its two arguments. */
  lemma RenameKeepsOthers(fs: FileSystem, from: string, to: string, k: string)
    requires from != to && k != from && k != to
    ensures SameEntry(fs, Rename(fs, from, to), k)
  {
  }

  /** The same entry for `path` in both filesystems (both absent, or equal contents). */
  predicate SameEntry(a: FileSystem, b: FileSystem, path: string) {
    (path in a <==> path in b) && (path in a ==> a[path] == b[path])
  }

  /** `os.OpenFile(path, O_RDWR|O_APPEND|O_CREATE)`: an existing file is kept as it
      is, a missing one is created empty. */
  function OpenForAppend(fs: FileSystem, path: string): (r: FileSystem)
    ensures path in r && r[path] == (if path in fs then fs[path] else "")
  {
    if path in fs then fs else fs[path := ""]
  }

  /** Opening a file touches no other path. */
  lemma OpenKeepsOthers(fs: FileSystem, path: string, k: string)
    requires k != path
    ensures SameEntry(fs, OpenForAppend(fs, path), k)
  {
  }

  /** One rotation of the primary file into `archive`: the archive slot is
      emptied, the primary file is renamed onto it and a new, empty primary file
      is created. When the primary file was missing the slot ends up empty. */
  function Archived(fs: FileSystem, primary: string, archive: string): (r: FileSystem)
    requires primary != archive
    ensures primary in r && r[primary] == ""
    ensures archive in r <==> primary in fs
    ensures primary in fs ==> r[archive] == fs[primary]
  {
    Rename(fs - {archive}, primary, archive)[primary := ""]
  }

  /** A rotation touches no path other than the primary file and the archive. */
  lemma ArchivedKeepsOthers(fs: FileSystem, primary: string, archive: string, k: string)
    requires primary != archive && k != primary && k != archive
    ensures SameEntry(fs, Archived(fs, primary, archive), k)
  {
    RenameKeepsOthers(fs - {archive}, primary, archive, k);
  }

  /** After a rotation the primary file starts again from size 0, and the
      archive has the size the primary file had. */
  lemma FileSizeArchived(fs: FileSystem, primary: string, archive: string)
    requires primary != archive
    ensures FileSize(Archived(fs, primary, archive), primary) == 0
    ensures FileSize(Archived(fs, primary, archive), archive) == FileSize(fs, primary)
  {
  }

  /** Rotating a lone primary file leaves exactly the empty primary and the archive. */
  lemma ArchivedLone(primary: string, archive: string, contents: string)
    requires primary != archive
    ensures Archived(map[primary := contents], primary, archive) == map[primary := "", archive := contents]
  {
  }

  /** The bytes of a sequence of lines written one after another. */
  function Concat(lines: seq<string>): string {
    if lines == [] then "" else lines[0] + Concat(lines[1..])
  }

  /** Writing one more line extends the concatenation at its end. */
  lemma {:induction false} ConcatSnoc(lines: seq<string>, line: string)
    ensures Concat(lines + [line]) == Concat(lines) + line
  {
    if lines != [] {
      assert (lines + [line])[1..] == lines[1..] + [line];
      ConcatSnoc(lines[1..], line);
    } else {
      assert lines + [line] == [line];
    }
  }
}
