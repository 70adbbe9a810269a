/** Directory trees, the pruned walk over them, and the budgets of files copied out of a walk. */
module FileTree {
  type Path = seq<string>

  /** What a directory lists, in the order the operating system lists it. */
  datatype Listing =
    | Empty
    | File(name: string, size: nat, rest: Listing)
    | Dir(name: string, inside: Listing, rest: Listing)
    | Other(name: string, rest: Listing)

  datatype Kind = IsFile(size: nat) | IsDir | IsOther
  datatype Visit = Visit(path: Path, kind: Kind)

  /** The walk below directory `at`: depth first, and an entry that is not kept is not descended into. */
  function Walk(at: Path, l: Listing, keep: Path -> bool): seq<Visit>
    decreases l
  {
    match l
    case Empty => []
    case File(name, size, rest) =>
      (if keep(at + [name]) then [Visit(at + [name], IsFile(size))] else []) + Walk(at, rest, keep)
    case Dir(name, inside, rest) =>
      (if keep(at + [name]) then [Visit(at + [name], IsDir)] + Walk(at + [name], inside, keep) else [])
      + Walk(at, rest, keep)
    case Other(name, rest) =>
      (if keep(at + [name]) then [Visit(at + [name], IsOther)] else []) + Walk(at, rest, keep)
  }

  function Everything(l: Listing): seq<Visit> {
    Walk([], l, _ => true)
  }

  /** The visits whose path alone satisfies `keep`. */
  function Filter(visits: seq<Visit>, keep: Path -> bool): seq<Visit> {
    if visits == [] then []
    else (if keep(visits[0].path) then [visits[0]] else []) + Filter(visits[1..], keep)
  }

  ghost predicate AncestorClosed(keep: Path -> bool) {
    forall p: Path, q: Path :: keep(q) && p <= q ==> keep(p)
  }

  lemma {:induction false} FilterSplits(a: seq<Visit>, b: seq<Visit>, keep: Path -> bool)
    ensures Filter(a + b, keep) == Filter(a, keep) + Filter(b, keep)
    decreases |a|
  {
    if a == [] {
      assert a + b == b;
    } else {
      FilterSplits(a[1..], b, keep);
      assert (a + b)[1..] == a[1..] + b && (a + b)[0] == a[0];
      var x, y, z := if keep(a[0].path) then [a[0]] else [], Filter(a[1..], keep), Filter(b, keep);
      assert x + (y + z) == (x + y) + z;
    }
  }

  lemma {:induction false} FilterNone(visits: seq<Visit>, keep: Path -> bool)
    requires forall v | v in visits :: !keep(v.path)
    ensures Filter(visits, keep) == []
  {
    if visits == [] {
    } else {
      assert visits[0] in visits;
      FilterNone(visits[1..], keep);
    }
  }

  lemma {:induction false} FilterKeeps(visits: seq<Visit>, keep: Path -> bool, v: Visit)
    ensures v in Filter(visits, keep) <==> v in visits && keep(v.path)
  {
    if visits == [] {
    } else {
      FilterKeeps(visits[1..], keep, v);
      assert visits == [visits[0]] + visits[1..];
    }
  }

  lemma {:induction false} WalkStaysBelow(at: Path, l: Listing, keep: Path -> bool, v: Visit)
    requires v in Walk(at, l, keep)
    ensures at <= v.path
    decreases l
  {
    match l
    case Empty =>
    case File(name, _, rest) =>
      if v in Walk(at, rest, keep) { WalkStaysBelow(at, rest, keep, v); }
    case Dir(name, inside, rest) =>
      if v in Walk(at, rest, keep) {
        WalkStaysBelow(at, rest, keep, v);
      } else if v.path != at + [name] {
        WalkStaysBelow(at + [name], inside, keep, v);
        assert at <= at + [name];
      }
    case Other(name, rest) =>
      if v in Walk(at, rest, keep) { WalkStaysBelow(at, rest, keep, v); }
  }

  /** Pruning whole directories comes to the same as judging every path on its own. */
  lemma {:induction false} PrunedWalkIsFilter(at: Path, l: Listing, keep: Path -> bool)
    requires AncestorClosed(keep)
    ensures Walk(at, l, keep) == Filter(Walk(at, l, _ => true), keep)
    decreases l
  {
    var all := (_: Path) => true;
    match l
    case Empty =>
    case File(name, size, rest) =>
      PrunedWalkIsFilter(at, rest, keep);
      FilterSplits([Visit(at + [name], IsFile(size))], Walk(at, rest, all), keep);
    case Dir(name, inside, rest) =>
      PrunedWalkIsFilter(at, rest, keep);
      PrunedWalkIsFilter(at + [name], inside, keep);
      var here, below := [Visit(at + [name], IsDir)], Walk(at + [name], inside, all);
      FilterSplits(here + below, Walk(at, rest, all), keep);
      FilterSplits(here, below, keep);
      if !keep(at + [name]) {
        forall v | v in below
          ensures !keep(v.path)
        {
          WalkStaysBelow(at + [name], inside, all, v);
        }
        FilterNone(below, keep);
      }
    case Other(name, rest) =>
      PrunedWalkIsFilter(at, rest, keep);
      FilterSplits([Visit(at + [name], IsOther)], Walk(at, rest, all), keep);
  }

  lemma {:induction false} FilterCounts(visits: seq<Visit>, keep: Path -> bool, v: Visit)
    ensures multiset(Filter(visits, keep))[v] == if keep(v.path) then multiset(visits)[v] else 0
  {
    if visits == [] {
    } else {
      FilterCounts(visits[1..], keep, v);
      assert visits == [visits[0]] + visits[1..];
    }
  }

  // ---- What a listing holds, path by path ----

  /** How often the listing holds `path`: its first component names an entry, which holds the rest. */
  function Times(l: Listing, path: Path, kind: Kind): nat
    decreases l
  {
    match l
    case Empty => 0
    case File(name, size, rest) =>
      (if path == [name] && kind == IsFile(size) then 1 else 0) + Times(rest, path, kind)
    case Dir(name, inside, rest) =>
      (if path == [name] && kind == IsDir then 1 else 0)
      + (if |path| > 1 && path[0] == name then Times(inside, path[1..], kind) else 0)
      + Times(rest, path, kind)
    case Other(name, rest) =>
      (if path == [name] && kind == IsOther then 1 else 0) + Times(rest, path, kind)
  }

  predicate Holds(l: Listing, path: Path, kind: Kind) {
    Times(l, path, kind) > 0
  }

  lemma {:induction false} NothingAtNoPath(l: Listing, kind: Kind)
    ensures Times(l, [], kind) == 0
    decreases l
  {
    match l
    case Empty =>
    case File(_, _, rest) => NothingAtNoPath(rest, kind);
    case Dir(_, _, rest) => NothingAtNoPath(rest, kind);
    case Other(_, rest) => NothingAtNoPath(rest, kind);
  }

  /** How often the walk below `at` should visit `v`. */
  function TimesBelow(at: Path, l: Listing, v: Visit): nat {
    if at <= v.path then Times(l, v.path[|at|..], v.kind) else 0
  }

  lemma CountSplits(a: seq<Visit>, b: seq<Visit>, v: Visit)
    ensures multiset(a + b)[v] == multiset(a)[v] + multiset(b)[v]
  {}

  lemma DirectoryTimes(at: Path, name: string, inside: Listing, rest: Listing, v: Visit)
    ensures TimesBelow(at, Dir(name, inside, rest), v)
      == (if v == Visit(at + [name], IsDir) then 1 else 0)
         + TimesBelow(at + [name], inside, v) + TimesBelow(at, rest, v)
  {
    NothingAtNoPath(inside, v.kind);
    OwnPath(at, name, v.path);
  }

  lemma EntryTimes(at: Path, name: string, kind: Kind, l: Listing, rest: Listing, v: Visit)
    requires (kind.IsFile? && l == File(name, kind.size, rest)) || (kind.IsOther? && l == Other(name, rest))
    ensures TimesBelow(at, l, v) == (if v == Visit(at + [name], kind) then 1 else 0) + TimesBelow(at, rest, v)
  {
    OwnPath(at, name, v.path);
  }

  /** The walk below `at` visits every entry exactly as often as the listing holds it. */
  lemma {:induction false} WalkCounts(at: Path, l: Listing, v: Visit)
    ensures multiset(Walk(at, l, _ => true))[v] == TimesBelow(at, l, v)
    decreases l
  {
    var all := (_: Path) => true;
    hide TimesBelow;
    match l
    case Empty =>
      assert TimesBelow(at, Empty, v) == 0 by { NothingWhenEmpty(at, v); }
    case File(name, size, rest) =>
      WalkCounts(at, rest, v);
      EntryTimes(at, name, IsFile(size), l, rest, v);
      CountSplits([Visit(at + [name], IsFile(size))], Walk(at, rest, all), v);
    case Dir(name, inside, rest) =>
      var here, below, others := [Visit(at + [name], IsDir)], Walk(at + [name], inside, all), Walk(at, rest, all);
      assert Walk(at, l, all) == here + below + others;
      hide Walk;
      WalkCounts(at, rest, v);
      WalkCounts(at + [name], inside, v);
      DirectoryTimes(at, name, inside, rest, v);
      CountSplits(here + below, others, v);
      CountSplits(here, below, v);
    case Other(name, rest) =>
      WalkCounts(at, rest, v);
      EntryTimes(at, name, IsOther, l, rest, v);
      CountSplits([Visit(at + [name], IsOther)], Walk(at, rest, all), v);
  }

  lemma NothingWhenEmpty(at: Path, v: Visit)
    ensures TimesBelow(at, Empty, v) == 0
  {}

  lemma OwnPath(at: Path, name: string, path: Path)
    ensures path == at + [name] <==> at <= path && path[|at|..] == [name]
    ensures at + [name] <= path <==> at <= path && |path| > |at| && path[|at|] == name
    ensures at + [name] <= path ==> path[|at|..][1..] == path[|at| + 1..]
  {
    if at <= path {
      assert path == at + path[|at|..];
    }
  }

  lemma EverythingCounts(l: Listing, v: Visit)
    ensures multiset(Everything(l))[v] == Times(l, v.path, v.kind)
    ensures v in Everything(l) <==> Holds(l, v.path, v.kind)
  {
    WalkCounts([], l, v);
    assert v.path[0..] == v.path;
  }

  // ---- Budgets ----

  datatype FileAt = FileAt(path: Path, size: nat)

  function Sum(files: seq<FileAt>): nat {
    if files == [] then 0 else Sum(files[..|files| - 1]) + files[|files| - 1].size
  }

  datatype Budget = Budget(bytes: nat, files: nat)

  predicate Fits(files: seq<FileAt>, budget: Budget) {
    |files| <= budget.files && Sum(files) <= budget.bytes
  }

  lemma {:induction false} SumOfPrefix(files: seq<FileAt>, n: nat)
    requires n <= |files|
    ensures Sum(files[..n]) <= Sum(files)
  {
    if n < |files| {
      SumOfPrefix(files[..|files| - 1], n);
      assert files[..|files| - 1][..n] == files[..n];
    } else {
      assert files[..n] == files;
    }
  }

  /** A larger prefix fits only if the smaller one does. */
  lemma FitsIsPrefixClosed(files: seq<FileAt>, n: nat, m: nat, budget: Budget)
    requires n <= m <= |files| && Fits(files[..m], budget)
    ensures Fits(files[..n], budget)
  {
    SumOfPrefix(files[..m], n);
    assert files[..m][..n] == files[..n];
  }

  /** The length of the longest prefix within the budget. */
  function LongestFit(files: seq<FileAt>, budget: Budget): (r: nat)
    ensures r <= |files| && Fits(files[..r], budget)
    ensures forall m | r < m <= |files| :: !Fits(files[..m], budget)
  {
    if Fits(files, budget) then assert files[..|files|] == files; |files|
    else
      var fewer := files[..|files| - 1];
      assert files[..|files|] == files;
      assert forall m | 0 <= m < |files| :: fewer[..m] == files[..m];
      LongestFit(fewer, budget)
  }

  lemma SumSplits(a: seq<FileAt>, f: FileAt)
    ensures Sum(a + [f]) == Sum(a) + f.size
  {
    assert (a + [f])[..|a|] == a;
  }

  function Without(files: seq<FileAt>, i: nat): seq<FileAt>
    requires i < |files|
  {
    files[..i] + files[i + 1..]
  }

  lemma {:induction false} SumWithout(files: seq<FileAt>, i: nat)
    requires i < |files|
    ensures Sum(files) == Sum(Without(files, i)) + files[i].size
  {
    var n := |files| - 1;
    if i == n {
      assert files[..i] + files[i + 1..] == files[..n];
    } else {
      SumWithout(files[..n], i);
      var fewer := files[..i] + files[i + 1..];
      assert fewer[..|fewer| - 1] == files[..n][..i] + files[..n][i + 1..];
    }
  }

  lemma MultisetWithout(files: seq<FileAt>, i: nat)
    requires i < |files|
    ensures multiset(Without(files, i)) == multiset(files) - multiset{files[i]}
  {
    assert files == files[..i] + ([files[i]] + files[i + 1..]);
  }

  lemma Find(files: seq<FileAt>, f: FileAt) returns (i: nat)
    requires multiset(files)[f] > 0
    ensures i < |files| && files[i] == f
  {
    assert f in files;
    i :| i < |files| && files[i] == f;
  }

  /** The order of the files does not matter for their budget. */
  lemma {:induction false} SumIgnoresOrder(a: seq<FileAt>, b: seq<FileAt>)
    requires multiset(a) == multiset(b)
    ensures |a| == |b| && Sum(a) == Sum(b)
    decreases |a|
  {
    assert |a| == |multiset(a)| == |multiset(b)| == |b|;
    if a == [] {
    } else {
      assert |Without(a, 0)| < |a|;
      hide Sum, Without;
      var i := Find(b, a[0]);
      MultisetWithout(a, 0);
      MultisetWithout(b, i);
      SumWithout(a, 0);
      SumWithout(b, i);
      SumIgnoresOrder(Without(a, 0), Without(b, i));
    }
  }
}
