// Applying a submitted patch: language checks before and after git changes the tree.
module ApplyPatch {
  import opened Types
  import opened GoErrors
  import opened Engine

  // Reading a file and detecting its language; a path outside the map does not exist.
  datatype FileState = Readable(language: string) | Unreadable(e: ForeignError)
  type Tree = map<string, FileState>

  datatype PatchFile = PatchFile(oldName: string, newName: string, isNew: bool, isDelete: bool)

  // git apply could not be run, or it exited and left a tree behind.
  datatype Git = GitFailed(e: ForeignError) | GitExited(code: int, tree: Tree)

  predicate HasPrefix(s: string, prefix: string) {
    |prefix| <= |s| && s[..|prefix|] == prefix
  }

  function StripPrefix(path: string): string {
    if HasPrefix(path, "a/") || HasPrefix(path, "b/") then path[2..] else path
  }

  function CheckFile(path: string, tree: Tree, allowed: seq<string>): Result<bool, Err> {
    if path !in tree then Error(Rejected(false, Some(Plain("file does not exist"))))
    else match tree[path]
      case Unreadable(e) => Error(e)
      case Readable(language) => Ok(language in allowed)
  }

  datatype Side = OldSide | NewSide

  predicate Skipped(f: PatchFile, side: Side) {
    if side.OldSide? then f.isNew else f.isDelete
  }

  function PathOn(f: PatchFile, side: Side): string {
    StripPrefix(if side.OldSide? then f.oldName else f.newName)
  }

  function CheckOn(f: PatchFile, side: Side, tree: Tree, allowed: seq<string>): Result<bool, Err> {
    if Skipped(f, side) then Ok(true) else CheckFile(PathOn(f, side), tree, allowed)
  }

  // The first check that errors ends the scan; a forbidden language does not.
  function Scan(files: seq<PatchFile>, side: Side, tree: Tree, allowed: seq<string>): Result<bool, Err> {
    if files == [] then Ok(true)
    else
      var rest := Scan(files[..|files| - 1], side, tree, allowed);
      if rest.Error? then rest
      else
        var last := CheckOn(files[|files| - 1], side, tree, allowed);
        if last.Error? then last else Ok(rest.value && last.value)
  }

  predicate PatchCallable(p: Params) {
    |p.allowedLanguages| > 0 && p.repoDir != "" && p.focus != ""
  }

  const INVALID_PATCH: Err := Rejected(false, None)
  const FORBIDDEN: Err := Rejected(false, Some(Plain("file modifies forbidden language")))

  function PatchOutcome(p: Params, patch: Option<seq<PatchFile>>, before: Tree, git: Git): Option<Err> {
    if !PatchCallable(p) then Some(MISSING_PARAMS)
    else if patch.None? then Some(INVALID_PATCH)
    else
      var pre := Scan(patch.value, OldSide, before, p.allowedLanguages);
      if pre.Error? then Some(pre.error)
      else if !pre.value then Some(FORBIDDEN)
      else if git.GitFailed? then Some(git.e)
      else
        var post := Scan(patch.value, NewSide, git.tree, p.allowedLanguages);
        if post.Error? then Some(post.error)
        else if !post.value then Some(FORBIDDEN)
        else if git.code != 0 then Some(INVALID_PATCH)
        else None
  }

  // git is reached only after every old file passed.
  predicate GitRuns(p: Params, patch: Option<seq<PatchFile>>, before: Tree) {
    && PatchCallable(p) && patch.Some?
    && Scan(patch.value, OldSide, before, p.allowedLanguages) == Ok(true)
  }

  class Workspace {
    var tree: Tree

    constructor (tree: Tree)
      ensures this.tree == tree
    {
      this.tree := tree;
    }

    method ScanFiles(files: seq<PatchFile>, side: Side, languages: seq<string>) returns (r: Result<bool, Err>)
      ensures r == Scan(files, side, tree, languages)
    {
      var allowed := true;
      var i := 0;
      while i < |files|
        invariant 0 <= i <= |files|
        invariant Scan(files[..i], side, tree, languages) == Ok(allowed)
      {
        assert files[..i + 1][..i] == files[..i];
        if !Skipped(files[i], side) {
          var fileAllowed := CheckFile(PathOn(files[i], side), tree, languages);
          if fileAllowed.Error? {
            ScanStopsAtError(files, i + 1, side, tree, languages);
            return fileAllowed;
          }
          allowed := allowed && fileAllowed.value;
        }
        i := i + 1;
      }
      assert files[..i] == files;
      r := Ok(allowed);
    }

    method ApplyPatch(p: Params, patch: Option<seq<PatchFile>>, git: Git) returns (err: Option<Err>)
      modifies this
      ensures err == PatchOutcome(p, patch, old(tree), git)
      ensures tree == if GitRuns(p, patch, old(tree)) && git.GitExited? then git.tree else old(tree)
    {
      if !PatchCallable(p) {
        return Some(MISSING_PARAMS);
      }
      if patch.None? {
        return Some(INVALID_PATCH);
      }
      var pre := ScanFiles(patch.value, OldSide, p.allowedLanguages);
      if pre.Error? {
        return Some(pre.error);
      }
      if !pre.value {
        return Some(FORBIDDEN);
      }
      if git.GitFailed? {
        return Some(git.e);
      }
      tree := git.tree;
      var post := ScanFiles(patch.value, NewSide, p.allowedLanguages);
      if post.Error? {
        return Some(post.error);
      }
      if !post.value {
        return Some(FORBIDDEN);
      }
      err := if git.code != 0 then Some(INVALID_PATCH) else None;
    }
  }

  // Once a prefix of the files has failed to check, so has the whole list, with the same error.
  lemma {:induction false} ScanStopsAtError(files: seq<PatchFile>, n: nat, side: Side, tree: Tree, allowed: seq<string>)
    requires n <= |files|
    requires Scan(files[..n], side, tree, allowed).Error?
    ensures Scan(files, side, tree, allowed) == Scan(files[..n], side, tree, allowed)
  {
    if n == |files| {
      assert files[..n] == files;
    } else {
      var front := files[..|files| - 1];
      assert front[..n] == files[..n];
      ScanStopsAtError(front, n, side, tree, allowed);
    }
  }

  // A file exists on one side in a language the submitter may change.
  predicate Acceptable(f: PatchFile, side: Side, tree: Tree, allowed: seq<string>) {
    Skipped(f, side) ||
    (PathOn(f, side) in tree && tree[PathOn(f, side)].Readable? && tree[PathOn(f, side)].language in allowed)
  }

  predicate Missing(f: PatchFile, side: Side, tree: Tree) {
    !Skipped(f, side) && PathOn(f, side) !in tree
  }

  predicate Unread(f: PatchFile, side: Side, tree: Tree) {
    !Skipped(f, side) && PathOn(f, side) in tree && tree[PathOn(f, side)].Unreadable?
  }

  // File i is missing and no earlier file was unreadable.
  predicate MissingAt(files: seq<PatchFile>, side: Side, tree: Tree, i: nat) {
    i < |files| && Missing(files[i], side, tree) && forall j :: 0 <= j < i ==> !Unread(files[j], side, tree)
  }

  // The submitter is to blame: a file is missing before any unreadable one, or every file reads
  // and one of them is not acceptable.
  predicate Blamed(files: seq<PatchFile>, side: Side, tree: Tree, allowed: seq<string>) {
    || (exists i | 0 <= i < |files| :: MissingAt(files, side, tree, i))
    || (&& (forall f :: f in files ==> !Unread(f, side, tree))
        && (exists f | f in files :: !Acceptable(f, side, tree, allowed)))
  }

  predicate AllAcceptable(files: seq<PatchFile>, side: Side, tree: Tree, allowed: seq<string>) {
    forall f :: f in files ==> Acceptable(f, side, tree, allowed)
  }

  lemma CheckReport(f: PatchFile, side: Side, tree: Tree, allowed: seq<string>)
    ensures var r := CheckOn(f, side, tree, allowed);
            && (r.Error? <==> Missing(f, side, tree) || Unread(f, side, tree))
            && (r.Error? ==> Reported(Some(r.error)) == (if Missing(f, side, tree) then Failed else Errored, false))
            && (r == Ok(true) <==> Acceptable(f, side, tree, allowed))
  {
    if Unread(f, side, tree) {
      ForeignHasNoStatus(tree[PathOn(f, side)].e);
    }
  }

  // What a scan finds, file by file: it errs with the first file that is missing or unreadable.
  lemma {:induction false} ScanErrs(files: seq<PatchFile>, side: Side, tree: Tree, allowed: seq<string>)
    ensures var r := Scan(files, side, tree, allowed);
            && (r.Error? <==> exists f :: f in files && (Missing(f, side, tree) || Unread(f, side, tree)))
            && (r == Ok(true) <==> AllAcceptable(files, side, tree, allowed))
  {
    if files != [] {
      var front, last := files[..|files| - 1], files[|files| - 1];
      ScanErrs(front, side, tree, allowed);
      CheckReport(last, side, tree, allowed);
      assert files == front + [last];
      assert forall f :: f in files <==> f in front || f == last;
    }
  }

  // Whether some file is missing before any unreadable one is settled by the first file that errs: by one of the
  // files before the last, or else by the last.
  lemma EarlierFileDecides(files: seq<PatchFile>, last: PatchFile, side: Side, tree: Tree)
    requires exists f :: f in files && (Missing(f, side, tree) || Unread(f, side, tree))
    ensures (exists i | 0 <= i < |files| + 1 :: MissingAt(files + [last], side, tree, i)) <==>
            (exists i | 0 <= i < |files| :: MissingAt(files, side, tree, i))
  {
    var f :| f in files && (Missing(f, side, tree) || Unread(f, side, tree));
    var k :| 0 <= k < |files| && files[k] == f;
    assert forall j :: 0 <= j < |files| ==> (files + [last])[j] == files[j];
    if i :| 0 <= i < |files| && MissingAt(files, side, tree, i) {
      assert MissingAt(files + [last], side, tree, i);
    }
    if i :| 0 <= i < |files| + 1 && MissingAt(files + [last], side, tree, i) {
      assert MissingAt(files, side, tree, if i < |files| then i else k);
    }
  }

  lemma LastFileDecides(files: seq<PatchFile>, last: PatchFile, side: Side, tree: Tree)
    requires forall f :: f in files ==> !Missing(f, side, tree) && !Unread(f, side, tree)
    ensures (exists i | 0 <= i < |files| + 1 :: MissingAt(files + [last], side, tree, i)) <==>
            Missing(last, side, tree)
  {
    assert forall j :: 0 <= j < |files| ==> (files + [last])[j] == files[j] && files[j] in files;
    if Missing(last, side, tree) {
      assert MissingAt(files + [last], side, tree, |files|);
    }
  }

  lemma {:induction false} ScanErrorReported(files: seq<PatchFile>, side: Side, tree: Tree, allowed: seq<string>)
    requires Scan(files, side, tree, allowed).Error?
    ensures Reported(Some(Scan(files, side, tree, allowed).error)) ==
            (if exists i | 0 <= i < |files| :: MissingAt(files, side, tree, i) then Failed else Errored, false)
  {
    var front, last := files[..|files| - 1], files[|files| - 1];
    assert files == front + [last];
    ScanErrs(front, side, tree, allowed);
    if Scan(front, side, tree, allowed).Error? {
      ScanErrorReported(front, side, tree, allowed);
      EarlierFileDecides(front, last, side, tree);
    } else {
      CheckReport(last, side, tree, allowed);
      LastFileDecides(front, last, side, tree);
    }
  }

  // A scan passes, blames the submitter, or fails through an unreadable file.
  lemma ScanClassified(files: seq<PatchFile>, side: Side, tree: Tree, allowed: seq<string>)
    ensures var r := Scan(files, side, tree, allowed);
            && (r == Ok(true) <==> AllAcceptable(files, side, tree, allowed))
            && (r.Error? ==> Reported(Some(r.error)) ==
                             (if Blamed(files, side, tree, allowed) then Failed else Errored, false))
            && (r == Ok(false) ==> Blamed(files, side, tree, allowed))
  {
    ScanErrs(files, side, tree, allowed);
    if Scan(files, side, tree, allowed).Error? {
      ScanErrorReported(files, side, tree, allowed);
      if !exists i | 0 <= i < |files| :: MissingAt(files, side, tree, i) {
        if forall f :: f in files ==> !Unread(f, side, tree) {
          var f :| f in files && Missing(f, side, tree);
          var k :| 0 <= k < |files| && files[k] == f;
          assert MissingAt(files, side, tree, k);
        }
      }
    }
  }

  predicate PatchApplies(p: Params, patch: Option<seq<PatchFile>>, before: Tree, git: Git) {
    && PatchCallable(p) && patch.Some?
    && AllAcceptable(patch.value, OldSide, before, p.allowedLanguages)
    && git.GitExited? && git.code == 0
    && AllAcceptable(patch.value, NewSide, git.tree, p.allowedLanguages)
  }

  // The patch, and not the server, is at fault.
  predicate PatchAtFault(p: Params, patch: Option<seq<PatchFile>>, before: Tree, git: Git) {
    && PatchCallable(p)
    && (patch.Some? ==>
          || Blamed(patch.value, OldSide, before, p.allowedLanguages)
          || (&& AllAcceptable(patch.value, OldSide, before, p.allowedLanguages)
              && git.GitExited?
              && (|| Blamed(patch.value, NewSide, git.tree, p.allowedLanguages)
                  || (AllAcceptable(patch.value, NewSide, git.tree, p.allowedLanguages) && git.code != 0))))
  }

  function PatchClass(p: Params, patch: Option<seq<PatchFile>>, before: Tree, git: Git): Class {
    if PatchApplies(p, patch, before, git) then Good
    else if PatchAtFault(p, patch, before, git) then Bad(false)
    else Broken
  }

  lemma BlamedIsNotAccepted(files: seq<PatchFile>, side: Side, tree: Tree, allowed: seq<string>)
    ensures !(Blamed(files, side, tree, allowed) && AllAcceptable(files, side, tree, allowed))
  {
    if i :| 0 <= i < |files| && MissingAt(files, side, tree, i) {
      assert files[i] in files;
    }
  }

  // A patch is applied exactly when it parses, every file it touches exists in an allowed
  // language before and after, and git exits 0; otherwise the patch is reported failed when it
  // is at fault and errored when a read or git itself broke.
  lemma PatchClassified(p: Params, patch: Option<seq<PatchFile>>, before: Tree, git: Git)
    ensures PatchOutcome(p, patch, before, git).None? <==> PatchApplies(p, patch, before, git)
    ensures Reported(PatchOutcome(p, patch, before, git)) == ClassReport(PatchClass(p, patch, before, git))
  {
    var r := PatchOutcome(p, patch, before, git);
    if patch.Some? {
      ScanClassified(patch.value, OldSide, before, p.allowedLanguages);
      BlamedIsNotAccepted(patch.value, OldSide, before, p.allowedLanguages);
      if git.GitExited? {
        ScanClassified(patch.value, NewSide, git.tree, p.allowedLanguages);
        BlamedIsNotAccepted(patch.value, NewSide, git.tree, p.allowedLanguages);
      } else {
        ForeignHasNoStatus(git.e);
      }
    }
  }

  // With readable files and a git that runs, a patch is either applied or reported failed.
  lemma NoReadErrors(p: Params, patch: Option<seq<PatchFile>>, before: Tree, git: Git)
    requires PatchCallable(p) && git.GitExited?
    requires patch.Some? ==> forall f :: f in patch.value ==>
                               !Unread(f, OldSide, before) && !Unread(f, NewSide, git.tree)
    ensures Reported(PatchOutcome(p, patch, before, git)) ==
            (if PatchApplies(p, patch, before, git) then Passed else Failed, false)
  {
    PatchClassified(p, patch, before, git);
  }

  /* --------------------------------------------------- what the names mean */

  // A name without one of git's two prefixes.
  predicate Bare(name: string) { !(|name| >= 2 && (name[0] == 'a' || name[0] == 'b') && name[1] == '/') }

  // The path a name in a patch stands for: what follows `a/` or `b/`, or the name itself.
  predicate Denotes(name: string, path: string) {
    name == "a/" + path || name == "b/" + path || (Bare(path) && name == path)
  }

  lemma DenotedPath(name: string, path: string)
    requires Denotes(name, path)
    ensures StripPrefix(name) == path
  {
    if name == "a/" + path || name == "b/" + path {
      assert name[2..] == path;
      assert name[..2] == "a/" || name[..2] == "b/";
    } else {
      assert forall s: string :: |s| == 2 && HasPrefix(name, s) ==> name[0] == s[0] && name[1] == s[1];
    }
  }

  // The file is there, can be read, and is in a language the submitter may change.
  predicate MayChange(tree: Tree, path: string, allowed: seq<string>) {
    path in tree && tree[path].Readable? && tree[path].language in allowed
  }

  // The paths the names of each file stand for.
  predicate PathsOf(files: seq<PatchFile>, oldPaths: seq<string>, newPaths: seq<string>) {
    && |oldPaths| == |newPaths| == |files|
    && forall i :: 0 <= i < |files| ==>
         Denotes(files[i].oldName, oldPaths[i]) && Denotes(files[i].newName, newPaths[i])
  }

  lemma AcceptableMeans(files: seq<PatchFile>, oldPaths: seq<string>, newPaths: seq<string>, tree: Tree,
                        allowed: seq<string>)
    requires PathsOf(files, oldPaths, newPaths)
    ensures AllAcceptable(files, OldSide, tree, allowed)
            <==> forall i :: 0 <= i < |files| ==> files[i].isNew || MayChange(tree, oldPaths[i], allowed)
    ensures AllAcceptable(files, NewSide, tree, allowed)
            <==> forall i :: 0 <= i < |files| ==> files[i].isDelete || MayChange(tree, newPaths[i], allowed)
  {
    forall i | 0 <= i < |files|
      ensures Acceptable(files[i], OldSide, tree, allowed) <==> files[i].isNew || MayChange(tree, oldPaths[i], allowed)
      ensures Acceptable(files[i], NewSide, tree, allowed)
              <==> files[i].isDelete || MayChange(tree, newPaths[i], allowed)
    {
      DenotedPath(files[i].oldName, oldPaths[i]);
      DenotedPath(files[i].newName, newPaths[i]);
    }
    assert forall i :: 0 <= i < |files| ==> files[i] in files;
  }

  // A patch is accepted iff every file that is not new is there to be changed before, under the path its old name
  // stands for, git exits 0, and every file that is not deleted is there after, under that of its new name.
  lemma PatchMeans(p: Params, files: seq<PatchFile>, oldPaths: seq<string>, newPaths: seq<string>, before: Tree,
                   git: Git)
    requires PatchCallable(p) && PathsOf(files, oldPaths, newPaths)
    ensures PatchOutcome(p, Some(files), before, git).None? <==>
              && (forall i :: 0 <= i < |files| ==>
                    files[i].isNew || MayChange(before, oldPaths[i], p.allowedLanguages))
              && git.GitExited? && git.code == 0
              && (forall i :: 0 <= i < |files| ==>
                    files[i].isDelete || MayChange(git.tree, newPaths[i], p.allowedLanguages))
  {
    PatchClassified(p, Some(files), before, git);
    AcceptableMeans(files, oldPaths, newPaths, before, p.allowedLanguages);
    if git.GitExited? {
      AcceptableMeans(files, oldPaths, newPaths, git.tree, p.allowedLanguages);
    }
  }

  // The same file: both are new or not, deleted or not, and the names that matter stand for the same path.
  ghost predicate SameFile(f: PatchFile, g: PatchFile) {
    && f.isNew == g.isNew && f.isDelete == g.isDelete
    && (!f.isNew ==> exists path :: Denotes(f.oldName, path) && Denotes(g.oldName, path))
    && (!f.isDelete ==> exists path :: Denotes(f.newName, path) && Denotes(g.newName, path))
  }

  lemma {:induction false} SameFilesScanAlike(files: seq<PatchFile>, others: seq<PatchFile>, side: Side, tree: Tree,
                                              allowed: seq<string>)
    requires |files| == |others| && forall i :: 0 <= i < |files| ==> SameFile(files[i], others[i])
    ensures Scan(files, side, tree, allowed) == Scan(others, side, tree, allowed)
    decreases |files|
  {
    if files != [] {
      var n := |files| - 1;
      SameFilesScanAlike(files[..n], others[..n], side, tree, allowed);
      assert SameFile(files[n], others[n]);
      SameFileChecksAlike(files[n], others[n], side, tree, allowed);
    }
  }

  lemma SameFileChecksAlike(f: PatchFile, g: PatchFile, side: Side, tree: Tree, allowed: seq<string>)
    requires SameFile(f, g)
    ensures CheckOn(f, side, tree, allowed) == CheckOn(g, side, tree, allowed)
  {
    if side.OldSide? && !f.isNew {
      var path :| Denotes(f.oldName, path) && Denotes(g.oldName, path);
      DenotedPath(f.oldName, path);
      DenotedPath(g.oldName, path);
    } else if side.NewSide? && !f.isDelete {
      var path :| Denotes(f.newName, path) && Denotes(g.newName, path);
      DenotedPath(f.newName, path);
      DenotedPath(g.newName, path);
    }
  }

  // Prefixes, old names of new files and new names of deleted files change nothing of what a patch comes to.
  lemma NamesDoNotMatter(p: Params, files: seq<PatchFile>, others: seq<PatchFile>, before: Tree, git: Git)
    requires |files| == |others| && forall i :: 0 <= i < |files| ==> SameFile(files[i], others[i])
    ensures PatchOutcome(p, Some(files), before, git) == PatchOutcome(p, Some(others), before, git)
  {
    SameFilesScanAlike(files, others, OldSide, before, p.allowedLanguages);
    if git.GitExited? {
      SameFilesScanAlike(files, others, NewSide, git.tree, p.allowedLanguages);
    }
  }

  // Exactly what applying a patch needs; without it the server is to blame.
  lemma PatchNeeds(p: Params, patch: Option<seq<PatchFile>>, before: Tree, git: Git)
    ensures PatchCallable(p) <==> |p.allowedLanguages| > 0 && |p.repoDir| > 0 && |p.focus| > 0
    ensures !PatchCallable(p) ==> Reported(PatchOutcome(p, patch, before, git)) == (Errored, false)
    ensures PatchCallable(p) && patch.None? ==> Reported(PatchOutcome(p, patch, before, git)) == (Failed, false)
  {
  }
}
