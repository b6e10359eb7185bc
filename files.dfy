/** `FileManager`: finding a file in a directory listing and checking the
    data folder. The file system is a value: the set of paths that exist and,
    among them, the directories. */
module Files {
  import opened Errors
  import opened PyStrings

  /** `a / b` on paths. */
  function Join(folder: string, name: string): string {
    folder + "/" + name
  }

  /** `Path.suffix`: from the last dot of the name, unless that dot is the
      first or the last character. */
  function Suffix(name: string): (r: string)
    ensures r == "" || (r[0] == '.' && |r| >= 2 && Contains(name, r))
    ensures r != "" ==> forall j | 1 <= j < |r| :: r[j] != '.'
    ensures r != "" <==>
              exists i | 0 < i < |name| - 1 :: name[i] == '.' && forall j | i < j < |name| :: name[j] != '.'
    ensures r != "" ==> |r| <= |name| && name[|name| - |r|..] == r
  {
    var i := LastIndex(name, '.');
    if 0 < i < |name| - 1 then
      assert OccursAt(name[i..], name, i);
      name[i..]
    else
      assert forall k | 0 < k < |name| - 1 && name[k] == '.' :: exists j | k < j < |name| :: name[j] == '.' by {
        forall k | 0 < k < |name| - 1 && name[k] == '.'
          ensures exists j | k < j < |name| :: name[j] == '.'
        {
          assert k <= i;
          assert k != i;
        }
      }
      ""
  }

  lemma SuffixExamples()
    ensures Suffix("secrets.yaml") == ".yaml"
    ensures Suffix("archive.tar.gz") == ".gz"
    ensures Suffix(".profile") == ""
    ensures Suffix("notes.") == ""
    ensures Suffix("README") == ""
  {
    LastIndexAt("secrets.yaml", '.', 7);
    LastIndexAt("archive.tar.gz", '.', 11);
    LastIndexAt(".profile", '.', 0);
    LastIndexAt("notes.", '.', 5);
    assert LastIndex("README", '.') == -1;
  }

  /** The test `find_file` applies to an entry's name, ignoring ASCII case. */
  predicate Qualifies(name: string, nameContaining: string, extension: string) {
    Contains(Lower(name), Lower(nameContaining)) && Lower(Suffix(name)) == Lower(extension)
  }

  /** Index of the first qualifying entry, or `|listing|`. */
  function FirstQualifying(listing: seq<string>, nameContaining: string, extension: string): (r: nat)
    ensures r <= |listing|
    ensures r < |listing| ==> Qualifies(listing[r], nameContaining, extension)
    ensures forall j | 0 <= j < r :: !Qualifies(listing[j], nameContaining, extension)
  {
    var tests := seq(|listing|, i requires 0 <= i < |listing| => Qualifies(listing[i], nameContaining, extension));
    var r := FirstTrueFrom(tests, 0);
    assert forall j | 0 <= j < |listing| :: tests[j] == Qualifies(listing[j], nameContaining, extension);
    r
  }

  /** Index of the first `true` at or after `k`, or `|tests|`. */
  function FirstTrueFrom(tests: seq<bool>, k: nat): (r: nat)
    requires k <= |tests|
    ensures k <= r <= |tests|
    ensures r < |tests| ==> tests[r]
    ensures forall j | k <= j < r :: !tests[j]
    decreases |tests| - k
  {
    if k == |tests| || tests[k] then k else FirstTrueFrom(tests, k + 1)
  }

  /** `find_file`: the first entry of the directory listing, in listing
      order, whose name contains `nameContaining` and whose suffix is
      `extension`, both ignoring case; `None` when there is none. */
  function FindFile(nameContaining: string, extension: string, folder: string, listing: seq<string>): (r: Option<string>)
    ensures r.None? <==> forall j | 0 <= j < |listing| :: !Qualifies(listing[j], nameContaining, extension)
    ensures r.Some? ==>
              exists i | 0 <= i < |listing| ::
                && Qualifies(listing[i], nameContaining, extension)
                && (forall j | 0 <= j < i :: !Qualifies(listing[j], nameContaining, extension))
                && r.value == Join(folder, listing[i])
  {
    var i := FirstQualifying(listing, nameContaining, extension);
    if i < |listing| then Some(Join(folder, listing[i])) else None
  }

  /** The case of neither the pattern nor the extension matters. */
  lemma FindFileIgnoresCase(nameContaining: string, extension: string, folder: string, listing: seq<string>)
    ensures FindFile(Lower(nameContaining), Lower(extension), folder, listing)
            == FindFile(nameContaining, extension, folder, listing)
  {
    LowerIdempotent(nameContaining);
    LowerIdempotent(extension);
    assert forall n :: Qualifies(n, Lower(nameContaining), Lower(extension)) == Qualifies(n, nameContaining, extension);
    assert seq(|listing|, i requires 0 <= i < |listing| => Qualifies(listing[i], Lower(nameContaining), Lower(extension)))
        == seq(|listing|, i requires 0 <= i < |listing| => Qualifies(listing[i], nameContaining, extension));
  }

  lemma LowerIdempotent(s: string)
    ensures Lower(Lower(s)) == Lower(s)
  {
  }

  /** Paths that exist, and which of them are directories. */
  datatype FileSystem = FileSystem(existing: set<string>, directories: set<string>)
  {
    predicate Exists(path: string) {
      path in existing || path in directories
    }

    predicate IsDir(path: string) {
      path in directories
    }
  }

  const RequiredFiles: seq<string> := ["secrets.yaml", "userprofile.yaml"]

  /** The names among `names` that do not exist in `folder`, in order. */
  function MissingFiles(fs: FileSystem, folder: string, names: seq<string>): (r: seq<string>)
    ensures forall n :: n in r <==> n in names && !fs.Exists(Join(folder, n))
    ensures |r| <= |names|
    ensures r == [] ==> forall i | 0 <= i < |names| :: fs.Exists(Join(folder, names[i]))
  {
    if names == [] then []
    else if fs.Exists(Join(folder, names[0])) then MissingFiles(fs, folder, names[1..])
    else [names[0]] + MissingFiles(fs, folder, names[1..])
  }

  function MissingMessage(missing: seq<string>): string {
    "Missing files in the data folder: " + JoinWith(", ", missing)
  }

  /** `validate_data_folder`: the folder must be a directory holding both
      required files (a directory of that name counts too); on success the
      two file paths are returned. */
  function ValidateDataFolder(fs: FileSystem, folder: string): (r: Result<(string, string)>)
    ensures r.Ok? <==>
              fs.IsDir(folder) && forall i | 0 <= i < |RequiredFiles| :: fs.Exists(Join(folder, RequiredFiles[i]))
    ensures !fs.IsDir(folder) ==> r == Err(FileNotFoundError("Data folder not found: " + folder))
    ensures r.Ok? ==> r.value == (Join(folder, "secrets.yaml"), Join(folder, "userprofile.yaml"))
                      && fs.Exists(r.value.0) && fs.Exists(r.value.1)
    ensures fs.IsDir(folder) && r.Err? ==>
              r.error.FileNotFoundError?
              && exists n :: n in RequiredFiles && !fs.Exists(Join(folder, n))
  {
    if !fs.Exists(folder) || !fs.IsDir(folder) then
      Err(FileNotFoundError("Data folder not found: " + folder))
    else
      var missing := MissingFiles(fs, folder, RequiredFiles);
      if missing != [] then
        assert missing[0] in missing;
        Err(FileNotFoundError(MissingMessage(missing)))
      else
        Ok((Join(folder, "secrets.yaml"), Join(folder, "userprofile.yaml")))
  }

  /** Missing files are listed in the order they are required. */
  lemma MissingInOrder(fs: FileSystem, folder: string)
    ensures MissingFiles(fs, folder, RequiredFiles)
            == (if fs.Exists(Join(folder, "secrets.yaml")) then [] else ["secrets.yaml"])
               + (if fs.Exists(Join(folder, "userprofile.yaml")) then [] else ["userprofile.yaml"])
  {
    assert RequiredFiles[1..] == ["userprofile.yaml"];
    assert RequiredFiles[1..][1..] == [];
  }

  /** The outcome for a folder that is a directory, in each of the four
      combinations of present and missing files. */
  lemma MissingFilesMessage(fs: FileSystem, folder: string)
    requires fs.IsDir(folder)
    ensures var secrets := fs.Exists(Join(folder, "secrets.yaml"));
            var profile := fs.Exists(Join(folder, "userprofile.yaml"));
            ValidateDataFolder(fs, folder) ==
              if secrets && profile then Ok((Join(folder, "secrets.yaml"), Join(folder, "userprofile.yaml")))
              else if profile then Err(FileNotFoundError(MissingMessage(["secrets.yaml"])))
              else if secrets then Err(FileNotFoundError(MissingMessage(["userprofile.yaml"])))
              else Err(FileNotFoundError(MissingMessage(["secrets.yaml", "userprofile.yaml"])))
  {
    MissingInOrder(fs, folder);
  }

  /** Both names, separated by a comma and a space. */
  lemma BothMissingMessage()
    ensures MissingMessage(["secrets.yaml", "userprofile.yaml"])
            == "Missing files in the data folder: " + "secrets.yaml" + ", " + "userprofile.yaml"
  {
    var both := ["secrets.yaml", "userprofile.yaml"];
    assert both[1..] == ["userprofile.yaml"];
  }
}
