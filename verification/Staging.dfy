/**
 Pruning the staging tree. After it, the directories are exactly the ones that hold a staged
 file, which is what the upload summary's folder count is compared with.
 */
module Staging {
  import opened Tables
  import opened BatchItems

  ghost predicate HoldsFile(files: set<Display>, d: Display) {
    exists f :: f in files && d < f
  }

  /** Nothing is directly inside `d`. */
  ghost predicate IsEmpty(files: set<Display>, dirs: set<Display>, d: Display) {
    && (forall f :: f in files && d < f ==> |f| != |d| + 1)
    && (forall g :: g in dirs && d < g ==> |g| != |d| + 1)
  }

  /** Every directory above a directory is there, and every directory above a file. */
  ghost predicate IsTree(files: set<Display>, dirs: set<Display>) {
    && (forall d, e: Display :: d in dirs && e < d && e != [] ==> e in dirs)
    && (forall f, e: Display :: f in files && e < f && e != [] ==> e in dirs)
    && [] !in dirs
  }

  /** Bottom-up, a directory is empty exactly when no file is left anywhere below it. */
  lemma EmptyMeansNoFile(files: set<Display>, dirs: set<Display>, todo: set<Display>, left: set<Display>, d: Display)
    requires IsTree(files, dirs) && d in todo && todo <= dirs && forall g :: g in todo ==> !(d < g)
    requires forall g :: g in left <==> g in dirs && (g in todo || HoldsFile(files, g))
    ensures IsEmpty(files, left, d) <==> !HoldsFile(files, d)
  {
    forall g | g in left && d < g ensures HoldsFile(files, d) {
      var f :| f in files && g < f;
      assert d < f;
    }
    if HoldsFile(files, d) {
      var f :| f in files && d < f;
      if |f| != |d| + 1 {
        var g := f[..|d| + 1];
        assert g < f && d < g && g in dirs && HoldsFile(files, g);
      }
    }
  }

  lemma DeepestExists(dirs: set<Display>)
    requires dirs != {}
    ensures exists d :: d in dirs && forall g :: g in dirs ==> |g| <= |d|
  {
    var d :| d in dirs;
    var rest := dirs - {d};
    assert dirs == rest + {d};
    if rest == {} {
      assert forall g :: g in dirs ==> g == d;
    } else {
      DeepestExists(rest);
      var e :| e in rest && forall g :: g in rest ==> |g| <= |e|;
      var deepest := if |e| < |d| then d else e;
      assert forall g :: g in dirs ==> |g| <= |deepest|;
    }
  }

  /** Removes a directory, which fails if anything is in it. */
  method RemoveDir(files: set<Display>, dirs: set<Display>, d: Display) returns (left: set<Display>)
    requires d in dirs
    ensures left == if IsEmpty(files, dirs, d) then dirs - {d} else dirs
  {
    var inside := (set f | f in files && d < f && |f| == |d| + 1) + (set g | g in dirs && d < g && |g| == |d| + 1);
    assert IsEmpty(files, dirs, d) <==> inside == {} by {
      if !IsEmpty(files, dirs, d) {
        var x :| (x in files || x in dirs) && d < x && |x| == |d| + 1;
        assert x in inside;
      }
    }
    left := if inside == {} then dirs - {d} else dirs;
  }

  /** One pass from the bottom up, whatever order it takes siblings in. */
  method PruneEmptyDirs(files: set<Display>, dirs: set<Display>) returns (left: set<Display>)
    requires IsTree(files, dirs)
    ensures left == FoldersOf(files)
  {
    left := dirs;
    var todo := dirs;
    while todo != {}
      invariant todo <= dirs
      invariant forall d :: d in left <==> d in dirs && (d in todo || HoldsFile(files, d))
      decreases todo
    {
      DeepestExists(todo);
      var d :| d in todo && forall g :: g in todo ==> |g| <= |d|;
      EmptyMeansNoFile(files, dirs, todo, left, d);
      left := RemoveDir(files, left, d);
      todo := todo - {d};
    }
    forall d ensures d in left <==> d in FoldersOf(files) {
      FoldersHoldFiles(files, dirs, d);
    }
  }

  lemma FoldersHoldFiles(files: set<Display>, dirs: set<Display>, d: Display)
    requires IsTree(files, dirs)
    ensures d in FoldersOf(files) <==> d in dirs && HoldsFile(files, d)
  {
    if d in dirs && HoldsFile(files, d) {
      var f :| f in files && d < f;
      assert d == f[..|d|] && d != [];
    }
    if d in FoldersOf(files) {
      var f, n :| f in files && 0 < n < |f| && d == f[..n];
      assert d < f && d != [];
    }
  }
}
