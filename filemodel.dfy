/** The remote file record (`FileItem`) and its derived display properties. */
module FileModel {
  import opened Wrappers
  import opened Text

  /** A file or directory of a listing; `path` is the display path. */
  datatype FileItem = FileItem(
    name: string,
    path: string,
    size: int,
    permissions: string,
    isDirectory: bool,
    isSymlink: bool,
    owner: string)

  /** `FileItem(name, path)` with every other field at its default. */
  function NewFileItem(name: string, path: string): (f: FileItem)
    ensures f.name == name && f.path == path && f.size == 0
    ensures f.permissions == "----------" && f.owner == "root"
    ensures !f.isDirectory && !f.isSymlink
  {
    FileItem(name, path, 0, "----------", false, false, "root")
  }

  /** The unit `size_formatted` prints: bytes, kilobytes, megabytes or gigabytes. */
  datatype SizeUnit = B | KB | MB | GB

  function UnitName(u: SizeUnit): string {
    match u
    case B => "B"
    case KB => "KB"
    case MB => "MB"
    case GB => "GB"
  }

  const Kibi: int := 1024

  /** The bucket `size_formatted` chooses for `size`. */
  function Unit(size: int): (u: SizeUnit)
    ensures u == B <==> size < Kibi
    ensures u == KB <==> Kibi <= size < Kibi * Kibi
    ensures u == MB <==> Kibi * Kibi <= size < Kibi * Kibi * Kibi
    ensures u == GB <==> Kibi * Kibi * Kibi <= size
  {
    if size < Kibi then B
    else if size < Kibi * Kibi then KB
    else if size < Kibi * Kibi * Kibi then MB
    else GB
  }

  function UnitRank(u: SizeUnit): nat {
    match u
    case B => 0
    case KB => 1
    case MB => 2
    case GB => 3
  }

  /** A larger size never gets a smaller unit. */
  lemma {:induction false} UnitMonotone(a: int, b: int)
    requires a <= b
    ensures UnitRank(Unit(a)) <= UnitRank(Unit(b))
  {
  }

  /**
   * `size_formatted`: below 1024 the exact byte count and " B"; above it a
   * rounded number (floating point, not modelled) and the unit.
   */
  datatype SizeText = Exact(text: string) | Rounded(unit: SizeUnit)

  function SizeFormatted(size: int): (r: SizeText)
    ensures r.Exact? <==> size < Kibi
    ensures r.Exact? ==> r.text == IntToString(size) + " B"
    ensures r.Rounded? ==> r.unit == Unit(size)
  {
    if size < Kibi then Exact(IntToString(size) + " B") else Rounded(Unit(size))
  }

  /** The exact byte count can be read back from the text below 1024. */
  lemma {:induction false} SizeFormattedBytes(size: int)
    requires size < Kibi
    ensures var t := SizeFormatted(size).text;
      EndsWith(t, " B") && ParseInt(t[..|t| - 2]) == Some(size)
  {
    var t := SizeFormatted(size).text;
    assert t[..|t| - 2] == IntToString(size);
    ParseIntToString(size);
  }

  /** The text after the last dot of a name (all of it when there is no dot). */
  function Extension(name: string): string {
    Last(Split(name, "."))
  }

  /** `file_type`: "Folder", "Link", "<EXT> File" or "File". */
  function FileType(f: FileItem): (r: string)
    ensures f.isDirectory ==> r == "Folder"
    ensures !f.isDirectory && f.isSymlink ==> r == "Link"
    ensures !f.isDirectory && !f.isSymlink && !Contains(f.name, ".") ==> r == "File"
    ensures !f.isDirectory && !f.isSymlink && Contains(f.name, ".") ==>
      r == Upper(Extension(f.name)) + " File"
  {
    if f.isDirectory then "Folder"
    else if f.isSymlink then "Link"
    else if Contains(f.name, ".") then Upper(Extension(f.name)) + " File"
    else "File"
  }

  /** For a dotted plain file the extension is what follows the last dot: it holds no dot and the name ends with it. */
  lemma {:induction false} FileTypeExtension(f: FileItem)
    requires !f.isDirectory && !f.isSymlink && Contains(f.name, ".")
    ensures var e := Extension(f.name);
      FileType(f) == Upper(e) + " File" && !Contains(e, ".") && EndsWith(f.name, "." + e)
  {
    SplitLastNoSep(f.name, ".");
    SplitLastSuffix(f.name, ".");
  }

  /** `str(item)` is the name. */
  function ToString(f: FileItem): (r: string)
    ensures r == f.name
  {
    f.name
  }
}
