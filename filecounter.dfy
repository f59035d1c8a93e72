/** The FileCounter server's one tool, `count_files`: expand "~", check that the
    path exists and is a directory, and count the regular files directly in it. The
    file system is the oracle `FileSystem`. */
module FileCounter {
  import opened Strings
  import opened Exceptions

  /** What a path names, following symbolic links. */
  datatype Kind = RegularFile | Directory | OtherKind

  datatype FileSystem = FileSystem(
    home: string,                         // $HOME
    userHome: string -> Option<string>,   // the password database's home of a user
    kind: string -> Option<Kind>,         // None: the path does not exist
    listdir: string -> Result<seq<string>>)

  const DefaultDirectory := "/home/karinag/Documentos"

  /** `s.rstrip("/")`. */
  function StripSlashes(s: string): (r: string)
    ensures StartsWith(s, r)
    ensures r == [] || r[|r| - 1] != '/'
    ensures forall i :: |r| <= i < |s| ==> s[i] == '/'
  {
    if s == [] || s[|s| - 1] != '/' then s else StripSlashes(s[..|s| - 1])
  }

  /** The index of the first "/" after position 0, or `|s|`. */
  function NameEnd(s: string): (i: nat)
    requires s != []
    ensures 1 <= i <= |s|
    ensures forall k :: 1 <= k < i ==> s[k] != '/'
    ensures i < |s| ==> s[i] == '/'
  {
    if |s| == 1 || s[1] == '/' then 1 else 1 + NameEnd(s[1..])
  }

  /** `os.path.expanduser(path)` on POSIX: a leading "~" or "~user" is replaced by
      that home directory without its trailing slashes; an unknown user leaves the
      path alone. */
  function ExpandUser(path: string, fs: FileSystem): (r: string)
    ensures !StartsWith(path, "~") ==> r == path
    ensures StartsWith(path, "~") && (|path| == 1 || path[1] == '/') ==>
      r == if StripSlashes(fs.home) + path[1..] == "" then "/" else StripSlashes(fs.home) + path[1..]
  {
    if !StartsWith(path, "~") then path
    else
      var i := NameEnd(path);
      var home := if i == 1 then Some(fs.home) else fs.userHome(path[1..i]);
      match home
      case None => path
      case Some(h) =>
        var expanded := StripSlashes(h) + path[i..];
        if expanded == "" then "/" else expanded
  }

  /** `[f for f in names if os.path.isfile(os.path.join(path, f))]`. */
  function Files(path: string, names: seq<string>, fs: FileSystem): (files: seq<string>)
    ensures |files| <= |names|
  {
    if names == [] then []
    else
      var rest := Files(path, names[..|names| - 1], fs);
      var last := names[|names| - 1];
      if fs.kind(PathJoin(path, last)) == Some(RegularFile) then rest + [last] else rest
  }

  /** The files kept are exactly the entries that are regular files: subdirectories
      and every other kind of entry are left out. */
  lemma {:induction false} FilesAreRegular(path: string, names: seq<string>, fs: FileSystem)
    ensures forall n :: n in Files(path, names, fs) <==> n in names && fs.kind(PathJoin(path, n)) == Some(RegularFile)
  {
    if names != [] {
      var init := names[..|names| - 1];
      FilesAreRegular(path, init, fs);
      assert names == init + [names[|names| - 1]];
    }
  }

  /** The positions in the listing whose entry is a regular file. */
  ghost function RegularAt(path: string, names: seq<string>, fs: FileSystem): set<int>
  {
    set i | 0 <= i < |names| && fs.kind(PathJoin(path, names[i])) == Some(RegularFile)
  }

  /** One more entry adds its position to the regular ones when it is a file. */
  lemma RegularAtStep(path: string, names: seq<string>, fs: FileSystem)
    requires names != []
    ensures var n := |names| - 1;
      fs.kind(PathJoin(path, names[n])) == Some(RegularFile) ==>
        RegularAt(path, names, fs) == RegularAt(path, names[..n], fs) + {n}
    ensures var n := |names| - 1;
      fs.kind(PathJoin(path, names[n])) != Some(RegularFile) ==>
        RegularAt(path, names, fs) == RegularAt(path, names[..n], fs)
    ensures |names| - 1 !in RegularAt(path, names[..|names| - 1], fs)
  {
    var n := |names| - 1;
    var init := names[..n];
    assert forall i :: 0 <= i < n ==> init[i] == names[i];
  }

  /** The number reported is the number of listing entries that are regular files,
      a name listed twice counted twice. */
  lemma {:induction false} FilesCount(path: string, names: seq<string>, fs: FileSystem)
    ensures |Files(path, names, fs)| == |RegularAt(path, names, fs)|
  {
    if names != [] {
      FilesCount(path, names[..|names| - 1], fs);
      RegularAtStep(path, names, fs);
    }
  }

  /** Only regular files: a directory holding nothing but subdirectories counts 0. */
  lemma {:induction false} NoFilesNoCount(path: string, names: seq<string>, fs: FileSystem)
    requires forall i :: 0 <= i < |names| ==> fs.kind(PathJoin(path, names[i])) != Some(RegularFile)
    ensures Files(path, names, fs) == []
  {
    if names != [] {
      NoFilesNoCount(path, names[..|names| - 1], fs);
    }
  }

  /** `count_files(directory_path)`. */
  function CountFiles(directoryPath: string, fs: FileSystem): (r: string)
    ensures var path := ExpandUser(directoryPath, fs);
      fs.kind(path).None? ==> r == "Erro: O diretório '" + directoryPath + "' não existe."
    ensures var path := ExpandUser(directoryPath, fs);
      fs.kind(path).Some? && fs.kind(path) != Some(Directory) ==> r == "Erro: '" + directoryPath + "' não é um diretório."
    ensures var path := ExpandUser(directoryPath, fs);
      fs.kind(path) == Some(Directory) && fs.listdir(path).Err? ==>
        r == "Erro ao contar arquivos: " + Str(fs.listdir(path).error)
    ensures var path := ExpandUser(directoryPath, fs);
      fs.kind(path) == Some(Directory) && fs.listdir(path).Ok? ==>
        r == "Existem " + IntToString(|Files(path, fs.listdir(path).value, fs)|) + " arquivos em '" + directoryPath + "'."
  {
    var path := ExpandUser(directoryPath, fs);
    if fs.kind(path).None? then "Erro: O diretório '" + directoryPath + "' não existe."
    else if fs.kind(path) != Some(Directory) then "Erro: '" + directoryPath + "' não é um diretório."
    else match fs.listdir(path)
      case Err(e) => "Erro ao contar arquivos: " + Str(e)
      case Ok(names) =>
        var files := Files(path, names, fs);
        "Existem " + IntToString(|files|) + " arquivos em '" + directoryPath + "'."
  }

  /** The checks apply to the expanded path while the messages quote the path as
      given: "~/x" is reported as "~/x" although "$HOME/x" was counted. */
  lemma ReportsPathAsGiven(fs: FileSystem, names: seq<string>)
    requires fs.home == "/home/u"
    requires fs.kind("/home/u/x") == Some(Directory) && fs.listdir("/home/u/x") == Ok(names)
    ensures ExpandUser("~/x", fs) == "/home/u/x"
    ensures CountFiles("~/x", fs) ==
      "Existem " + IntToString(|Files("/home/u/x", names, fs)|) + " arquivos em '" + "~/x" + "'."
  {
    assert StripSlashes("/home/u") == "/home/u";
    assert "~/x"[1..] == "/x";
    assert StripSlashes(fs.home) + "~/x"[1..] == "/home/u/x";
  }
}
