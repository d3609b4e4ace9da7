/** File selection of rag/loader.py (class Loader): which directory entries
    are read, by which reader, and under which key the result is stored.
    The directory listing, the is-a-regular-file test and the three readers
    are inputs; a reader that fails yields `None`. */
module Loader {
  import opened Wrappers
  import opened PyText

  /** The three readers: `_load_pdf`, `_load_text` and `_load_csv`. */
  datatype FileKind = Pdf | Text | Csv

  /** What the file system answers: whether a path is a regular file, and
      what a reader returns for a path (`None` when it caught an error). */
  datatype FileSystem<C> = FileSystem(isFile: string -> bool, read: (FileKind, string) -> Option<C>)

  /** The fate of one directory entry, in the order the tests are made. */
  datatype Decision = NotAFile | ExcludedType | ExcludedName | Unsupported | Read(kind: FileKind)

  /** Python truthiness of an optional list: `None` and `[]` are false. */
  predicate Truthy(xs: Option<seq<string>>) {
    xs.Some? && |xs.value| > 0
  }

  /** The reader chosen by the name's extension, if any. */
  function KindOf(name: string): Option<FileKind> {
    if EndsWith(name, ".pdf") then Some(Pdf)
    else if EndsWith(name, ".txt") || EndsWith(name, ".md") then Some(Text)
    else if EndsWith(name, ".csv") then Some(Csv)
    else None
  }

  /** The skip tests of `load_files`, then the extension dispatch. Type
      exclusion is a raw suffix test: no dot is required. */
  function Decide(name: string, isFile: bool,
                  excludeFileTypes: Option<seq<string>>, excludeFileNames: Option<seq<string>>): Decision
  {
    if !isFile then NotAFile
    else if Truthy(excludeFileTypes) && EndsWithAny(name, excludeFileTypes.value) then ExcludedType
    else if Truthy(excludeFileNames) && name in excludeFileNames.value then ExcludedName
    else match KindOf(name)
         case None => Unsupported
         case Some(kind) => Read(kind)
  }

  /** `os.path.join(directory, name)` on POSIX. */
  function PathJoin(directory: string, name: string): string {
    if |name| > 0 && name[0] == '/' then name
    else if |directory| == 0 || directory[|directory| - 1] == '/' then directory + name
    else directory + "/" + name
  }

  /** The dictionary `load_files` has built after the entries of `listing`. */
  function Loaded<C>(dataDir: string, excludeFileTypes: Option<seq<string>>,
                     excludeFileNames: Option<seq<string>>, listing: seq<string>,
                     fs: FileSystem<C>): map<string, Option<C>>
    decreases |listing|
  {
    if |listing| == 0 then map[]
    else
      var before := Loaded(dataDir, excludeFileTypes, excludeFileNames, listing[..|listing| - 1], fs);
      var name := listing[|listing| - 1];
      var path := PathJoin(dataDir, name);
      match Decide(name, fs.isFile(path), excludeFileTypes, excludeFileNames)
      case Read(kind) => before[name := fs.read(kind, path)]
      case _ => before
  }

  class Loader {
    var dataDir: string
    var excludeFileTypes: Option<seq<string>>
    var excludeFileNames: Option<seq<string>>

    /** `Loader(data_dir, exclude_file_types=None, exclude_file_names=None)`. */
    constructor (dataDir: string, excludeFileTypes: Option<seq<string>> := None,
                 excludeFileNames: Option<seq<string>> := None)
      ensures this.dataDir == dataDir
      ensures this.excludeFileTypes == excludeFileTypes
      ensures this.excludeFileNames == excludeFileNames
    {
      this.dataDir := dataDir;
      this.excludeFileTypes := excludeFileTypes;
      this.excludeFileNames := excludeFileNames;
    }

    /** `load_files`: one pass over the directory listing, skipping
        entries with `continue` and storing each reader's result. */
    method LoadFiles<C>(listing: seq<string>, fs: FileSystem<C>) returns (data: map<string, Option<C>>)
      ensures data == Loaded(dataDir, excludeFileTypes, excludeFileNames, listing, fs)
    {
      data := map[];
      for i := 0 to |listing|
        invariant data == Loaded(dataDir, excludeFileTypes, excludeFileNames, listing[..i], fs)
      {
        var file := listing[i];
        var path := PathJoin(dataDir, file);
        assert listing[..i + 1][..i] == listing[..i];
        if !fs.isFile(path) {
          continue;
        }
        if Truthy(excludeFileTypes) && EndsWithAny(file, excludeFileTypes.value) {
          continue;
        }
        if Truthy(excludeFileNames) && file in excludeFileNames.value {
          continue;
        }
        if EndsWith(file, ".pdf") {
          data := data[file := fs.read(Pdf, path)];
        } else if EndsWith(file, ".txt") || EndsWith(file, ".md") {
          data := data[file := fs.read(Text, path)];
        } else if EndsWith(file, ".csv") {
          data := data[file := fs.read(Csv, path)];
        } else {
          continue;
        }
      }
      assert listing[..|listing|] == listing;
    }
  }

  // -----------------------------------------------------------------------
  // Properties of the selection
  // -----------------------------------------------------------------------

  /** The keys are exactly the listed entries that pass every test and have
      a supported extension, and each holds its reader's result, `None`
      included. */
  lemma {:induction false} LoadedAt<C>(dataDir: string, excludeFileTypes: Option<seq<string>>,
                                       excludeFileNames: Option<seq<string>>, listing: seq<string>,
                                       fs: FileSystem<C>, name: string)
    ensures var data := Loaded(dataDir, excludeFileTypes, excludeFileNames, listing, fs);
            var path := PathJoin(dataDir, name);
            var decision := Decide(name, fs.isFile(path), excludeFileTypes, excludeFileNames);
            && (name in data <==> name in listing && decision.Read?)
            && (name in data ==> data[name] == fs.read(decision.kind, path))
    decreases |listing|
  {
    if |listing| > 0 {
      var init := listing[..|listing| - 1];
      LoadedAt(dataDir, excludeFileTypes, excludeFileNames, init, fs, name);
      assert listing == init + [listing[|listing| - 1]];
      assert name in listing <==> name in init || name == listing[|listing| - 1];
    }
  }

  /** A reader failure stores `None` under the file's key instead of
      dropping the key. */
  lemma ReaderFailureKept<C>(dataDir: string, excludeFileTypes: Option<seq<string>>,
                             excludeFileNames: Option<seq<string>>, listing: seq<string>,
                             fs: FileSystem<C>, name: string)
    requires name in listing
    requires var path := PathJoin(dataDir, name);
             var decision := Decide(name, fs.isFile(path), excludeFileTypes, excludeFileNames);
             decision.Read? && fs.read(decision.kind, path) == None
    ensures var data := Loaded(dataDir, excludeFileTypes, excludeFileNames, listing, fs);
            name in data && data[name] == None
  {
    LoadedAt(dataDir, excludeFileTypes, excludeFileNames, listing, fs, name);
  }

  /** With a non-empty type exclusion list, no key ends with a listed suffix. */
  lemma ExcludedTypesAbsent<C>(dataDir: string, excludeFileTypes: Option<seq<string>>,
                               excludeFileNames: Option<seq<string>>, listing: seq<string>,
                               fs: FileSystem<C>, name: string, suffix: string)
    requires excludeFileTypes.Some? && suffix in excludeFileTypes.value
    requires EndsWith(name, suffix)
    ensures name !in Loaded(dataDir, excludeFileTypes, excludeFileNames, listing, fs)
  {
    LoadedAt(dataDir, excludeFileTypes, excludeFileNames, listing, fs, name);
  }

  /** With a non-empty name exclusion list, no listed name is a key. */
  lemma ExcludedNamesAbsent<C>(dataDir: string, excludeFileTypes: Option<seq<string>>,
                               excludeFileNames: Option<seq<string>>, listing: seq<string>,
                               fs: FileSystem<C>, name: string)
    requires excludeFileNames.Some? && name in excludeFileNames.value
    ensures name !in Loaded(dataDir, excludeFileTypes, excludeFileNames, listing, fs)
  {
    LoadedAt(dataDir, excludeFileTypes, excludeFileNames, listing, fs, name);
  }

  /** `None` and `[]` exclude nothing: a falsy exclusion list gives the
      same dictionary as no exclusion at all. */
  lemma {:induction false} FalsyExclusionsIgnored<C>(dataDir: string, excludeFileTypes: Option<seq<string>>,
                                                     excludeFileNames: Option<seq<string>>,
                                                     listing: seq<string>, fs: FileSystem<C>)
    requires !Truthy(excludeFileTypes) && !Truthy(excludeFileNames)
    ensures Loaded(dataDir, excludeFileTypes, excludeFileNames, listing, fs)
         == Loaded(dataDir, None, None, listing, fs)
    decreases |listing|
  {
    if |listing| > 0 {
      FalsyExclusionsIgnored(dataDir, excludeFileTypes, excludeFileNames, listing[..|listing| - 1], fs);
    }
  }

  /** Without exclusions, the keys are the regular files with a supported
      extension. */
  lemma NoExclusionKeys<C>(dataDir: string, listing: seq<string>, fs: FileSystem<C>, name: string)
    ensures name in Loaded(dataDir, None, None, listing, fs)
        <==> name in listing && fs.isFile(PathJoin(dataDir, name)) && KindOf(name).Some?
  {
    LoadedAt(dataDir, None, None, listing, fs, name);
  }

  /** The extension dispatch: `.pdf` first, then `.txt` or `.md`, then
      `.csv`; any other name has no reader. */
  lemma KindOfSuffixes(name: string)
    ensures KindOf(name) == Some(Pdf) <==> EndsWith(name, ".pdf")
    ensures KindOf(name) == Some(Text) <==> !EndsWith(name, ".pdf") && (EndsWith(name, ".txt") || EndsWith(name, ".md"))
    ensures KindOf(name).None? <==> (!EndsWith(name, ".pdf") && !EndsWith(name, ".txt")
                                     && !EndsWith(name, ".md") && !EndsWith(name, ".csv"))
  {
  }

  /** An entry is read exactly when it is a regular file, passes both
      exclusion tests and has a supported extension, and then by the
      extension's reader. */
  lemma DecideRead(name: string, isFile: bool,
                   excludeFileTypes: Option<seq<string>>, excludeFileNames: Option<seq<string>>)
    ensures var d := Decide(name, isFile, excludeFileTypes, excludeFileNames);
            && (d.Read? <==> && isFile
                             && !(Truthy(excludeFileTypes) && EndsWithAny(name, excludeFileTypes.value))
                             && !(Truthy(excludeFileNames) && name in excludeFileNames.value)
                             && KindOf(name).Some?)
            && (d.Read? ==> KindOf(name) == Some(d.kind))
  {
  }

  /** `os.path.join` keeps an absolute name as it is, and otherwise puts
      the directory in front; either way the path ends with the name. */
  lemma PathJoinShape(directory: string, name: string)
    ensures var path := PathJoin(directory, name);
            && EndsWith(path, name)
            && (|name| > 0 && name[0] == '/' ==> path == name)
            && (!(|name| > 0 && name[0] == '/') ==> |directory| <= |path| && path[..|directory|] == directory)
  {
    var path := PathJoin(directory, name);
    if !(|name| > 0 && name[0] == '/') {
      if |directory| == 0 || directory[|directory| - 1] == '/' {
        assert path[|path| - |name|..] == name;
      } else {
        assert path == directory + ("/" + name);
        assert path[|path| - |name|..] == name;
      }
    }
  }

  /** The last part of `s.split(c)` is a suffix of `s`. */
  lemma {:induction false} SplitLastIsSuffix(s: string, c: char)
    ensures var parts := Split(s, c);
            EndsWith(s, parts[|parts| - 1])
    decreases |s|
  {
    if |s| > 0 {
      SplitLastIsSuffix(s[1..], c);
      if s[0] != c && |Split(s[1..], c)| == 1 {
        SplitSingleTail(s, c);
      } else {
        SplitLongTail(s, c);
      }
    }
  }

  /** When the tail splits into one part and `s` does not start with the
      separator, `s` itself is the only part. */
  lemma SplitSingleTail(s: string, c: char)
    requires |s| > 0 && s[0] != c && |Split(s[1..], c)| == 1
    ensures Split(s, c) == [s]
  {
    JoinSplit(s[1..], c);
    assert s == [s[0]] + s[1..];
  }

  /** Otherwise the last part of `s` is the last part of its tail. */
  lemma SplitLongTail(s: string, c: char)
    requires |s| > 0 && !(s[0] != c && |Split(s[1..], c)| == 1)
    requires var rest := Split(s[1..], c);
             EndsWith(s[1..], rest[|rest| - 1])
    ensures var parts := Split(s, c);
            EndsWith(s, parts[|parts| - 1])
  {
    var rest := Split(s[1..], c);
    if s[0] == c {
      assert Split(s, c) == [""] + rest;
    } else {
      assert Split(s, c) == [[s[0]] + rest[0]] + rest[1..];
    }
    assert Split(s, c)[|Split(s, c)| - 1] == rest[|rest| - 1];
    SuffixOfTail(s, rest[|rest| - 1]);
  }

  /** A suffix of `s[1..]` is a suffix of `s`. */
  lemma SuffixOfTail(s: string, t: string)
    requires |s| > 0 && EndsWith(s[1..], t)
    ensures EndsWith(s, t)
  {
    assert s[|s| - |t|..] == s[1..][|s[1..]| - |t|..];
  }

  /** Excluding `["pdf"]`: no key's last dot-separated part is `pdf`. */
  lemma PdfExcluded<C>(dataDir: string, listing: seq<string>, fs: FileSystem<C>,
                       excludeFileNames: Option<seq<string>>, key: string)
    requires key in Loaded(dataDir, Some(["pdf"]), excludeFileNames, listing, fs)
    ensures var parts := Split(key, '.');
            parts[|parts| - 1] != "pdf"
  {
    SplitLastIsSuffix(key, '.');
    LoadedAt(dataDir, Some(["pdf"]), excludeFileNames, listing, fs, key);
    assert EndsWith(key, "pdf") ==> EndsWithAny(key, ["pdf"]) by {
      assert ["pdf"][0] == "pdf";
    }
  }
}
