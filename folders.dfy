/**
 * Choosing the folder that holds the text model
 * (src/COLMAP_Tracking_Importer_C4D_v1_3.py:20-37): `sparse` itself when it
 * holds the three files, otherwise the first of its sub-folders, in name
 * order, that does.  The file system is an abstract view: which paths are
 * folders or files, and the listing of a folder, absent when listing fails.
 */
module Folders {
  import opened Wrappers
  import opened Sorting

  /** A path as its list of components; `os.path.join` appends one. */
  type Path = seq<string>

  datatype FileSystem = FileSystem(isDir: Path -> bool, isFile: Path -> bool, listDir: Path -> Option<seq<string>>)

  /** The folder holds all three model files. */
  predicate HasTxt(fs: FileSystem, p: Path)
  {
    fs.isFile(p + ["cameras.txt"]) && fs.isFile(p + ["images.txt"]) && fs.isFile(p + ["points3D.txt"])
  }

  /** A child of `sparse` the search accepts. */
  predicate Qualifies(fs: FileSystem, sparse: Path, name: string)
  {
    fs.isDir(sparse + [name]) && HasTxt(fs, sparse + [name])
  }

  /** Python's string order: code point by code point, a proper prefix first. */
  predicate LexLe(a: string, b: string)
  {
    if a == [] then true
    else if b == [] then false
    else if a[0] != b[0] then a[0] < b[0]
    else LexLe(a[1..], b[1..])
  }

  lemma {:induction false} LexLeTotal(a: string, b: string)
    ensures LexLe(a, b) || LexLe(b, a)
    decreases |a|
  {
    if a != [] && b != [] && a[0] == b[0] {
      LexLeTotal(a[1..], b[1..]);
    }
  }

  lemma {:induction false} LexLeTransitive(a: string, b: string, c: string)
    requires LexLe(a, b) && LexLe(b, c)
    ensures LexLe(a, c)
    decreases |a|
  {
    if a != [] && b != [] && c != [] && a[0] == b[0] && b[0] == c[0] {
      LexLeTransitive(a[1..], b[1..], c[1..]);
    }
  }

  lemma {:induction false} LexLeAntisymmetric(a: string, b: string)
    requires LexLe(a, b) && LexLe(b, a)
    ensures a == b
    decreases |a|
  {
    if a != [] {
      LexLeAntisymmetric(a[1..], b[1..]);
      assert a == [a[0]] + a[1..] && b == [b[0]] + b[1..];
    }
  }

  /** The string order is total and transitive, so sorting by it is well defined. */
  lemma LexLeTotalPreorder()
    ensures TotalPreorder(LexLe)
  {
    forall a, b
      ensures LexLe(a, b) || LexLe(b, a)
    {
      LexLeTotal(a, b);
    }
    forall a, b, c | LexLe(a, b) && LexLe(b, c)
      ensures LexLe(a, c)
    {
      LexLeTransitive(a, b, c);
    }
  }

  /** The first name of the list that qualifies, as a path under `sparse`. */
  function FirstMatch(fs: FileSystem, sparse: Path, names: seq<string>): Option<Path>
  {
    if names == [] then None
    else if Qualifies(fs, sparse, names[0]) then Some(sparse + [names[0]])
    else FirstMatch(fs, sparse, names[1..])
  }

  /** `find_sparse_txt_folder`. */
  function FindSparseTxtFolder(fs: FileSystem, scene: Path): Option<Path>
  {
    var sparse := scene + ["sparse"];
    if !fs.isDir(sparse) then None
    else if HasTxt(fs, sparse) then Some(sparse)
    else
      match fs.listDir(sparse)
      case None => None
      case Some(names) => FirstMatch(fs, sparse, Sort(names, LexLe))
  }

  /** FirstMatch finds the earliest qualifying name, and nothing when none qualifies. */
  lemma {:induction false} FirstMatchIsFirst(fs: FileSystem, sparse: Path, names: seq<string>)
    ensures FirstMatch(fs, sparse, names).None? <==> forall k :: 0 <= k < |names| ==> !Qualifies(fs, sparse, names[k])
    ensures FirstMatch(fs, sparse, names).Some? ==>
              exists j :: 0 <= j < |names| && FirstMatch(fs, sparse, names) == Some(sparse + [names[j]])
                && Qualifies(fs, sparse, names[j])
                && forall k :: 0 <= k < j ==> !Qualifies(fs, sparse, names[k])
    decreases |names|
  {
    if names != [] && !Qualifies(fs, sparse, names[0]) {
      FirstMatchIsFirst(fs, sparse, names[1..]);
      if FirstMatch(fs, sparse, names).Some? {
        var j :| 0 <= j < |names[1..]| && FirstMatch(fs, sparse, names[1..]) == Some(sparse + [names[1..][j]])
                && Qualifies(fs, sparse, names[1..][j])
                && forall k :: 0 <= k < j ==> !Qualifies(fs, sparse, names[1..][k]);
        assert forall k :: 0 <= k < j + 1 ==> !Qualifies(fs, sparse, names[k]) by {
          forall k | 0 < k < j + 1
            ensures !Qualifies(fs, sparse, names[k])
          {
            assert names[k] == names[1..][k - 1];
          }
        }
      } else {
        forall k | 0 < k < |names|
          ensures !Qualifies(fs, sparse, names[k])
        {
          assert names[k] == names[1..][k - 1];
        }
      }
    }
  }

  /** On a sorted list, the first qualifying name is the least qualifying name. */
  lemma FirstMatchOfSorted(fs: FileSystem, sparse: Path, sorted: seq<string>)
    requires Sorted(sorted, LexLe)
    ensures FirstMatch(fs, sparse, sorted).None? <==> forall n :: n in sorted ==> !Qualifies(fs, sparse, n)
    ensures FirstMatch(fs, sparse, sorted).Some? ==>
              exists n :: n in sorted && FirstMatch(fs, sparse, sorted) == Some(sparse + [n]) && Qualifies(fs, sparse, n)
                && forall m :: m in sorted && Qualifies(fs, sparse, m) ==> LexLe(n, m)
  {
    FirstMatchIsFirst(fs, sparse, sorted);
    var r := FirstMatch(fs, sparse, sorted);
    if r.Some? {
      var j :| 0 <= j < |sorted| && r == Some(sparse + [sorted[j]]) && Qualifies(fs, sparse, sorted[j])
              && forall k :: 0 <= k < j ==> !Qualifies(fs, sparse, sorted[k]);
      forall m | m in sorted && Qualifies(fs, sparse, m)
        ensures LexLe(sorted[j], m)
      {
        var k :| 0 <= k < |sorted| && sorted[k] == m;
        if k == j {
          LexLeTotal(m, m);
        }
      }
    }
  }

  lemma SameMembers(names: seq<string>, sorted: seq<string>)
    requires multiset(sorted) == multiset(names)
    ensures forall n :: n in names <==> n in sorted
  {
    forall n
      ensures n in names <==> n in sorted
    {
      assert n in names <==> n in multiset(names);
      assert n in sorted <==> n in multiset(sorted);
    }
  }

  /**
   * The folder search: no folder without a `sparse` folder; `sparse` itself
   * when it holds the three files; otherwise nothing when it cannot be
   * listed, and else the least name in string order among the listed
   * sub-folders that hold the three files, or nothing when none does.
   */
  lemma FindSparseTxtFolderSpec(fs: FileSystem, scene: Path)
    ensures var sparse := scene + ["sparse"];
            var r := FindSparseTxtFolder(fs, scene);
            && (!fs.isDir(sparse) ==> r.None?)
            && (fs.isDir(sparse) && HasTxt(fs, sparse) ==> r == Some(sparse))
            && (fs.isDir(sparse) && !HasTxt(fs, sparse) && fs.listDir(sparse).None? ==> r.None?)
            && (fs.isDir(sparse) && !HasTxt(fs, sparse) && fs.listDir(sparse).Some? ==>
                  var names := fs.listDir(sparse).value;
                  && (r.None? <==> forall n :: n in names ==> !Qualifies(fs, sparse, n))
                  && (r.Some? ==> exists n :: n in names && r == Some(sparse + [n]) && Qualifies(fs, sparse, n)
                                    && forall m :: m in names && Qualifies(fs, sparse, m) ==> LexLe(n, m)))
  {
    var sparse := scene + ["sparse"];
    if fs.isDir(sparse) && !HasTxt(fs, sparse) && fs.listDir(sparse).Some? {
      var names := fs.listDir(sparse).value;
      var sorted := Sort(names, LexLe);
      LexLeTotalPreorder();
      SortSorted(names, LexLe);
      SortPermutation(names, LexLe);
      SameMembers(names, sorted);
      FirstMatchOfSorted(fs, sparse, sorted);
    }
  }

  /** Whatever the search returns is a folder holding the three files. */
  lemma FoundFolderHoldsModel(fs: FileSystem, scene: Path)
    ensures var r := FindSparseTxtFolder(fs, scene);
            r.Some? ==> fs.isDir(r.value) && HasTxt(fs, r.value)
  {
    FindSparseTxtFolderSpec(fs, scene);
  }
}
