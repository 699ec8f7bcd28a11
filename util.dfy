/** Mapping of the listing payload's entries to the host's generic objects,
    and the relative-path helper. */
module Util {
  import opened Types

  /** The object `fileToObj` builds for one entry: the identifier is the
      entry's path and the modification time is left at Go's zero time,
      whatever the entry's committed date. */
  function FileToObj(file: File): (obj: Obj)
    ensures obj.ID == file.Path && obj.Path == file.Path
    ensures obj.Name == file.Name && obj.Size == file.Size
    ensures obj.Modified == ZeroTime && obj.Ctime == ZeroTime
    ensures obj.IsFolder <==> file.Type == "tree"
  {
    Obj(ID := file.Path, Path := file.Path, Name := file.Name, Size := file.Size,
        Modified := ZeroTime, Ctime := ZeroTime, IsFolder := file.Type == "tree")
  }

  /** The object the loop of `filesToObjs` builds for one entry: no
      identifier, and the committed date read as seconds since the epoch. */
  function ListedObj(file: File): (obj: Obj)
    ensures obj.ID == "" && obj.Path == file.Path
    ensures obj.Name == file.Name && obj.Size == file.Size
    ensures obj.Modified == Unix(file.CommittedDate) && obj.Ctime == ZeroTime
    ensures obj.IsFolder <==> file.Type == "tree"
  {
    Obj(ID := "", Path := file.Path, Name := file.Name, Size := file.Size,
        Modified := Unix(file.CommittedDate), Ctime := ZeroTime, IsFolder := file.Type == "tree")
  }

  /** The sequence `filesToObjs` returns, defined the way the loop builds it:
      the objects of all entries but the last, then the last entry's object. */
  function ListedObjs(files: seq<File>): (objs: seq<Obj>)
    ensures |objs| == |files|
    ensures forall i :: 0 <= i < |files| ==> objs[i] == ListedObj(files[i])
  {
    if files == [] then []
    else ListedObjs(files[..|files| - 1]) + [ListedObj(files[|files| - 1])]
  }

  /** `filesToObjs`: one object per entry, in the entries' order. */
  method FilesToObjs(files: seq<File>) returns (objs: seq<Obj>)
    ensures objs == ListedObjs(files)
    ensures |objs| == |files|
    ensures forall i :: 0 <= i < |files| ==>
      && objs[i].Name == files[i].Name && objs[i].Path == files[i].Path
      && objs[i].Size == files[i].Size && objs[i].ID == ""
      && objs[i].Modified == Unix(files[i].CommittedDate)
      && (objs[i].IsFolder <==> files[i].Type == "tree")
  {
    objs := [];
    for i := 0 to |files|
      invariant objs == ListedObjs(files[..i])
    {
      var file := files[i];
      objs := objs + [ListedObj(file)];
      assert files[..i + 1][..i] == files[..i];
    }
    assert files[..|files|] == files;
  }

  /** Mapping a concatenation of entry lists maps each part in turn. */
  lemma ListedObjsAppend(a: seq<File>, b: seq<File>)
    ensures ListedObjs(a + b) == ListedObjs(a) + ListedObjs(b)
  {
  }

  /** An object of the listing is a folder exactly when its entry is a tree. */
  lemma ListedFolders(files: seq<File>, i: nat)
    requires i < |files|
    ensures i < |ListedObjs(files)|
    ensures ListedObjs(files)[i].IsFolder <==> files[i].Type == "tree"
  {
  }

  /** No listed modification time is `==` to `time.Time{}`: an entry whose
      committed date is 0 becomes the epoch, `Unix(0)`. (A committed date of
      -62135596800 gives the zero instant, which `==` still tells apart from
      `time.Time{}` by its location.) */
  lemma ListedModified(files: seq<File>, i: nat)
    requires i < |files|
    ensures i < |ListedObjs(files)|
    ensures ListedObjs(files)[i].Modified != ZeroTime
    ensures files[i].CommittedDate == 0 ==> ListedObjs(files)[i].Modified == Unix(0)
  {
  }

  /** The two mappings copy the same fields and differ only in the identifier
      and the modification time. */
  lemma FileToObjVersusListedObj(file: File)
    ensures FileToObj(file) == ListedObj(file).(ID := file.Path, Modified := ZeroTime)
    ensures FileToObj(file) != ListedObj(file)
  {
  }

  /** Entries with pairwise distinct paths give objects with pairwise distinct
      paths, so the path can serve the host as an identifier. */
  lemma ListedPathsDistinct(files: seq<File>)
    requires forall i, j :: 0 <= i < j < |files| ==> files[i].Path != files[j].Path
    ensures forall i, j :: 0 <= i < j < |files| ==> ListedObjs(files)[i].Path != ListedObjs(files)[j].Path
  {
  }

  /** `getRelativePath`: "" for no object and for the path "/", otherwise the
      object's path as `clean` (Go's `path.Clean`) normalises it. */
  function GetRelativePath(obj: Option<Obj>, clean: string -> string): (rel: string)
    ensures obj.None? ==> rel == ""
    ensures obj.Some? && obj.value.Path == "/" ==> rel == ""
    ensures obj.Some? && obj.value.Path != "/" ==> rel == clean(obj.value.Path)
  {
    if obj.None? || obj.value.Path == "/" then "" else clean(obj.value.Path)
  }
}
