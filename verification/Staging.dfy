/** Staging a local workspace: everything but derived paths is copied, within two limits. */
module Staging {
  import opened Prelude
  import opened FileTree
  import opened Artifacts

  const USIZE_MAX := U64 - 1

  datatype Failure = NotADirectory | Interrupted | FileSystemError | TooManyFiles | TooManyBytes

  datatype StageEnd = Staged | Refused(reason: Failure)

  function StageWalk(l: Listing): seq<Visit> {
    Walk([], l, (p: Path) => !IsDerived(p))
  }

  /** The regular files of a walk, in walk order. */
  function Regular(visits: seq<Visit>): seq<FileAt> {
    if visits == [] then []
    else
      var last := visits[|visits| - 1];
      Regular(visits[..|visits| - 1]) + if last.kind.IsFile? then [FileAt(last.path, last.kind.size)] else []
  }

  lemma RegularStep(visits: seq<Visit>, i: nat)
    requires i < |visits|
    ensures Regular(visits[..i + 1]) ==
      if visits[i].kind.IsFile? then Regular(visits[..i]) + [FileAt(visits[i].path, visits[i].kind.size)]
      else Regular(visits[..i])
  {
    assert visits[..i + 1][..i] == visits[..i];
  }

  lemma {:induction false} RegularPrefix(visits: seq<Visit>, n: nat)
    requires n <= |visits|
    ensures Regular(visits[..n]) <= Regular(visits)
  {
    if n < |visits| {
      RegularPrefix(visits[..|visits| - 1], n);
      assert visits[..|visits| - 1][..n] == visits[..n];
    } else {
      assert visits[..n] == visits;
    }
  }

  /** If the files up to some visit are over the limits, so are all of them. */
  lemma TooMuchAlready(visits: seq<Visit>, n: nat, limits: Budget)
    requires n <= |visits| && !Fits(Regular(visits[..n]), limits)
    ensures !Fits(Regular(visits), limits)
  {
    RegularPrefix(visits, n);
    var k := |Regular(visits[..n])|;
    assert Regular(visits)[..k] == Regular(visits[..n]);
    SumOfPrefix(Regular(visits), k);
  }

  /** Nothing interrupts the copy and no file system call fails. */
  ghost predicate Undisturbed(on: nat -> bool, readable: nat -> bool, writable: nat -> bool) {
    forall i: nat :: on(i) && readable(i) && writable(i)
  }

  lemma UndisturbedAt(on: nat -> bool, readable: nat -> bool, writable: nat -> bool, i: nat)
    ensures Undisturbed(on, readable, writable) ==> on(i) && readable(i) && writable(i)
  {}

  /** Checks one more file against the limits; sums that leave 64 bits are refused too. */
  method Admit(files: nat, bytes: nat, size: nat, limits: Budget)
    returns (refusal: Option<Failure>, filesNow: nat, bytesNow: nat)
    requires limits.files < U64 && limits.bytes < U64
    ensures refusal.None? <==> files + 1 <= limits.files && bytes + size <= limits.bytes
    ensures refusal.None? ==> filesNow == files + 1 && bytesNow == bytes + size
    ensures refusal == Some(TooManyFiles) <==> files + 1 > limits.files
    ensures refusal.Some? ==> refusal == Some(TooManyFiles) || refusal == Some(TooManyBytes)
  {
    filesNow, bytesNow := files, bytes;
    if files >= USIZE_MAX || files + 1 > limits.files {
      return Some(TooManyFiles), filesNow, bytesNow;
    }
    filesNow := files + 1;
    if bytes + size >= U64 || bytes + size > limits.bytes {
      return Some(TooManyBytes), filesNow, bytesNow;
    }
    refusal, bytesNow := None, bytes + size;
  }

  /**
   The copy loop. `on` tells whether the job may still go on at each visit; `readable` and `writable`
   tell whether the visited entry can be read, and its copy be written.
   */
  method CopyVisits(visits: seq<Visit>, limits: Budget, on: nat -> bool, readable: nat -> bool, writable: nat -> bool)
    returns (end: StageEnd, copied: seq<FileAt>)
    requires limits.bytes < U64 && limits.files < U64
    ensures Kept(copied, visits, limits)
    ensures end.Staged? ==> copied == Regular(visits)
    ensures end.Refused? ==> !end.reason.NotADirectory?
    ensures end.Refused? && (end.reason.TooManyFiles? || end.reason.TooManyBytes?) ==> !Fits(Regular(visits), limits)
    ensures Undisturbed(on, readable, writable) ==> (end.Staged? <==> Fits(Regular(visits), limits))
    ensures Undisturbed(on, readable, writable) && end.Refused? ==>
      end.reason.TooManyFiles? || end.reason.TooManyBytes?
  {
    var files: nat, bytes: nat := 0, 0;
    copied := [];
    KeptNothing(visits, limits);
    hide Regular, Sum, Undisturbed, Kept, Fits;
    for i := 0 to |visits|
      invariant copied == Regular(visits[..i]) && Kept(copied, visits, limits)
      invariant files == |copied| && bytes == Sum(copied)
    {
      RegularStep(visits, i);
      KeptNext(visits, i, limits);
      UndisturbedAt(on, readable, writable, i);
      if !on(i) {
        return Refused(Interrupted), copied;
      }
      if !readable(i) {
        return Refused(FileSystemError), copied;
      }
      var v := visits[i];
      if v.kind.IsFile? {
        var next := FileAt(v.path, v.kind.size);
        OneMoreFits(copied, next, limits);
        var refusal;
        refusal, files, bytes := Admit(files, bytes, next.size, limits);
        if refusal.Some? {
          TooMuchAlready(visits, i + 1, limits);
          return Refused(refusal.value), copied;
        }
        if !writable(i) {
          return Refused(FileSystemError), copied;
        }
        copied := copied + [next];
      } else if v.kind.IsDir? && !writable(i) {
        return Refused(FileSystemError), copied;
      }
    }
    KeptAll(visits, limits);
    end := Staged;
  }

  /** What was copied are the first files of the walk, within the limits. */
  predicate Kept(copied: seq<FileAt>, visits: seq<Visit>, limits: Budget) {
    Fits(copied, limits) && copied <= Regular(visits)
  }

  lemma KeptNothing(visits: seq<Visit>, limits: Budget)
    ensures Regular(visits[..0]) == [] && Sum([]) == 0 && Kept([], visits, limits)
  {}

  lemma KeptNext(visits: seq<Visit>, i: nat, limits: Budget)
    requires i < |visits|
    ensures Fits(Regular(visits[..i + 1]), limits) ==> Kept(Regular(visits[..i + 1]), visits, limits)
  {
    RegularPrefix(visits, i + 1);
  }

  lemma KeptAll(visits: seq<Visit>, limits: Budget)
    ensures Regular(visits[..|visits|]) == Regular(visits)
    ensures Kept(Regular(visits), visits, limits) ==> Fits(Regular(visits), limits)
  {
    assert visits[..|visits|] == visits;
  }

  lemma OneMoreFits(copied: seq<FileAt>, next: FileAt, limits: Budget)
    ensures Sum(copied + [next]) == Sum(copied) + next.size
    ensures Fits(copied + [next], limits) <==>
      |copied| + 1 <= limits.files && Sum(copied) + next.size <= limits.bytes
  {
    SumSplits(copied, next);
  }

  /**
   Staging a workspace, absent interruption and file system errors, succeeds exactly if all regular
   files without a derived component fit the limits together; it then copies exactly those. Whatever
   happens, what was copied is within the limits.
   */
  method CopyTree(
    workspace: Listing, isDirectory: bool, limits: Budget,
    on: nat -> bool, readable: nat -> bool, writable: nat -> bool)
    returns (end: StageEnd, copied: seq<FileAt>)
    requires limits.bytes < U64 && limits.files < U64
    ensures Fits(copied, limits) && copied <= StagedFiles(workspace)
    ensures end.Staged? ==> isDirectory && copied == StagedFiles(workspace)
    ensures end.Staged? ==> forall f: FileAt ::
      multiset(copied)[f] == if IsDerived(f.path) then 0 else Times(workspace, f.path, IsFile(f.size))
    ensures end.Staged? ==> forall f: FileAt ::
      f in copied <==> Holds(workspace, f.path, IsFile(f.size)) && !IsDerived(f.path)
    ensures isDirectory && Undisturbed(on, readable, writable) ==>
      (end.Staged? <==> Fits(StagedFiles(workspace), limits))
    ensures !isDirectory ==> end == Refused(NotADirectory) && copied == []
  {
    if !isDirectory {
      return Refused(NotADirectory), [];
    }
    StagedIsPointwise(workspace);
    StagedExactly(workspace);
    end, copied := CopyVisits(StageWalk(workspace), limits, on, readable, writable);
    assert forall f | f in copied :: multiset(copied)[f] > 0;
  }

  /** The regular files with no derived component, judged one by one over the whole tree. */
  function StagedFiles(l: Listing): seq<FileAt> {
    Regular(Filter(Everything(l), (p: Path) => !IsDerived(p)))
  }

  /** Pruning derived directories leaves out exactly the derived files. */
  lemma StagedIsPointwise(l: Listing)
    ensures Regular(StageWalk(l)) == StagedFiles(l)
  {
    var keep := (p: Path) => !IsDerived(p);
    forall p: Path, q: Path | p <= q && keep(q)
      ensures keep(p)
    {
      if IsDerived(p) {
        DerivedBelow(p, q);
      }
    }
    PrunedWalkIsFilter([], l, keep);
  }

  /** A file is staged exactly as often as the workspace holds it, if no component of its path is derived. */
  lemma StagedExactly(l: Listing)
    ensures forall f: FileAt ::
      multiset(StagedFiles(l))[f] == if IsDerived(f.path) then 0 else Times(l, f.path, IsFile(f.size))
  {
    var keep := (p: Path) => !IsDerived(p);
    forall f: FileAt
      ensures multiset(StagedFiles(l))[f] == if IsDerived(f.path) then 0 else Times(l, f.path, IsFile(f.size))
    {
      var v := Visit(f.path, IsFile(f.size));
      RegularCounts(Filter(Everything(l), keep), f);
      FilterCounts(Everything(l), keep, v);
      EverythingCounts(l, v);
    }
  }

  // ---- The order in which directories list their entries does not matter ----

  lemma {:induction false} RegularCounts(visits: seq<Visit>, f: FileAt)
    ensures multiset(Regular(visits))[f] == multiset(visits)[Visit(f.path, IsFile(f.size))]
  {
    if visits == [] {
    } else {
      var n := |visits| - 1;
      var last := visits[n];
      RegularCounts(visits[..n], f);
      assert visits == visits[..n] + [last];
      if last.kind.IsFile? {
        assert Regular(visits) == Regular(visits[..n]) + [FileAt(last.path, last.kind.size)];
      } else {
        assert Regular(visits) == Regular(visits[..n]);
      }
      hide Regular;
    }
  }

  /** Two listings of the same entries are staged alike: the same files, and the same verdict. */
  lemma WalkOrderIsIrrelevant(a: Listing, b: Listing, limits: Budget)
    requires multiset(Everything(a)) == multiset(Everything(b))
    ensures multiset(StagedFiles(a)) == multiset(StagedFiles(b))
    ensures Fits(StagedFiles(a), limits) <==> Fits(StagedFiles(b), limits)
  {
    var keep := (p: Path) => !IsDerived(p);
    forall f: FileAt
      ensures multiset(StagedFiles(a))[f] == multiset(StagedFiles(b))[f]
    {
      var v := Visit(f.path, IsFile(f.size));
      FilterCounts(Everything(a), keep, v);
      FilterCounts(Everything(b), keep, v);
      RegularCounts(Filter(Everything(a), keep), f);
      RegularCounts(Filter(Everything(b), keep), f);
    }
    SumIgnoresOrder(StagedFiles(a), StagedFiles(b));
  }
}
