/** Artifact export: which paths the walk may visit, and how many of the matching files are copied. */
module Artifacts {
  import opened FileTree
  import Glob

  // ---- Derived paths ----

  const DERIVED_NAMES := {".cache", ".ai-kodu-runner", ".dart_tool", ".runner-cache", "build", "node_modules"}

  /** Some component is the name of a generated directory. */
  predicate IsDerived(path: Path) {
    exists i | 0 <= i < |path| :: path[i] in DERIVED_NAMES
  }

  /** A path is derived exactly if one of its components is one of these six names. */
  lemma DerivedExactly(path: Path)
    ensures IsDerived(path) <==>
      exists i | 0 <= i < |path| ::
        || path[i] == ".cache" || path[i] == ".ai-kodu-runner" || path[i] == ".dart_tool"
        || path[i] == ".runner-cache" || path[i] == "build" || path[i] == "node_modules"
  {
    forall i | 0 <= i < |path|
      ensures path[i] in DERIVED_NAMES <==>
        || path[i] == ".cache" || path[i] == ".ai-kodu-runner" || path[i] == ".dart_tool"
        || path[i] == ".runner-cache" || path[i] == "build" || path[i] == "node_modules"
    {}
  }

  // ---- Which derived paths a pattern names ----

  function Slashed(text: string): (r: string)
    ensures |r| == |text|
  {
    seq(|text|, i requires 0 <= i < |text| => if text[i] == '\\' then '/' else text[i])
  }

  /** A relative path as text, with forward slashes only. */
  function Text(path: Path): string {
    if path == [] then ""
    else if |path| == 1 then Slashed(path[0])
    else Text(path[..|path| - 1]) + "/" + Slashed(path[|path| - 1])
  }

  /** The last component made longer. */
  function Extended(r: Path, name: string): (e: Path)
    requires |r| > 0
    ensures |e| == |r|
  {
    r[..|r| - 1] + [r[|r| - 1] + name]
  }

  lemma ExtendedTwice(r: Path, a: string, b: string)
    requires |r| > 0
    ensures Extended(Extended(r, a), b) == Extended(r, a + b) && Extended(r, "") == r
  {
    var last := r[|r| - 1];
    assert (last + a) + b == last + (a + b) && last + "" == last;
  }

  /** A text cut at its slashes. */
  function Components(text: string): (r: Path)
    ensures |r| > 0
  {
    if text == "" then [""]
    else
      var r, c := Components(text[..|text| - 1]), text[|text| - 1];
      if c == '/' then r + [""] else Extended(r, [c])
  }

  lemma ComponentsOne(text: string, c: char)
    ensures Components(text + [c]) == if c == '/' then Components(text) + [""] else Extended(Components(text), [c])
  {
    var more := text + [c];
    assert more[..|more| - 1] == text && more[|more| - 1] == c;
    hide Extended;
  }

  lemma {:induction false} ComponentsAppend(text: string, name: string)
    requires '/' !in name
    ensures Components(text + name) == Extended(Components(text), name)
    decreases |name|
  {
    hide Components, Extended;
    if name == "" {
      assert text + name == text;
      ExtendedTwice(Components(text), "", "");
    } else {
      var n := |name| - 1;
      ComponentsAppend(text, name[..n]);
      ComponentsOne(text + name[..n], name[n]);
      ExtendedTwice(Components(text), name[..n], [name[n]]);
      assert name[..n] + [name[n]] == name;
      assert (text + name[..n]) + [name[n]] == text + name;
    }
  }

  lemma SlashedPlain(name: string)
    requires '\\' !in name
    ensures Slashed(name) == name
  {}

  lemma ExtendedLast(r: Path, name: string)
    ensures Extended(r + [""], name) == r + [name]
  {
    assert "" + name == name;
    assert (r + [""])[..|r|] == r;
  }

  lemma OneComponent(name: string)
    requires '/' !in name
    ensures Components(name) == [name]
  {
    assert Components("") == [""];
    ComponentsAppend("", name);
    hide Components;
    assert "" + name == name;
  }

  lemma TextSplits(path: Path)
    requires |path| > 1
    ensures Text(path) == Text(path[..|path| - 1]) + ['/'] + Slashed(path[|path| - 1])
  {}

  /** No name of the path contains a slash of either kind. */
  predicate PlainNames(path: Path) {
    forall name | name in path :: '/' !in name && '\\' !in name
  }

  lemma PlainPrefix(path: Path)
    requires path != [] && PlainNames(path)
    ensures PlainNames(path[..|path| - 1])
  {}

  lemma PlainLast(path: Path)
    requires path != [] && PlainNames(path)
    ensures '/' !in path[|path| - 1] && Slashed(path[|path| - 1]) == path[|path| - 1]
  {
    assert path[|path| - 1] in path;
    SlashedPlain(path[|path| - 1]);
    hide Slashed;
  }

  lemma LastOf<T>(s: seq<T>)
    requires s != []
    ensures s == s[..|s| - 1] + [s[|s| - 1]]
    ensures |s| == 1 ==> s == [s[0]]
  {}

  /** The text of a path gives its components back, and separates them by slashes: nothing is lost or added. */
  lemma {:induction false} TextReadsBack(path: Path)
    requires path != [] && PlainNames(path)
    ensures Components(Text(path)) == path
  {
    assert |path| == 1 ==> Text(path) == Slashed(path[0]);
    hide Components, Extended, Text, Slashed, PlainNames;
    PlainPrefix(path);
    PlainLast(path);
    LastOf(path);
    if |path| == 1 {
      OneComponent(path[0]);
    } else {
      var n := |path| - 1;
      TextSplits(path);
      TextReadsBack(path[..n]);
      ComponentsOne(Text(path[..n]), '/');
      ComponentsAppend(Text(path[..n]) + ['/'], path[n]);
      ExtendedLast(path[..n], path[n]);
    }
  }

  // ---- Joining again ----

  function Joined(r: Path): string {
    if r == [] then ""
    else if |r| == 1 then r[0]
    else Joined(r[..|r| - 1]) + ['/'] + r[|r| - 1]
  }

  lemma TextIsJoined(path: Path)
    requires PlainNames(path)
    ensures Text(path) == Joined(path)
  {
    if path == [] {
    } else {
      PlainPrefix(path);
      PlainLast(path);
      hide PlainNames, Slashed;
      if |path| > 1 {
        TextIsJoined(path[..|path| - 1]);
      }
    }
  }

  lemma JoinedOne(r: Path, name: string)
    ensures Joined(r + [name]) == if r == [] then name else Joined(r) + ['/'] + name
  {
    PrefixOf(r, name);
  }

  lemma PrefixOf<T>(s: seq<T>, x: T)
    ensures (s + [x])[..|s|] == s && (s + [x])[|s|] == x
  {}

  lemma JoinedExtended(r: Path, c: char)
    requires r != []
    ensures Joined(Extended(r, [c])) == Joined(r) + [c]
  {
    var n := |r| - 1;
    LastOf(r);
    JoinedOne(r[..n], r[n]);
    JoinedOne(r[..n], r[n] + [c]);
    hide Joined;
    if n == 0 {
      assert r[..0] == [];
    } else {
      var j := Joined(r[..n]) + ['/'];
      assert j + (r[n] + [c]) == (j + r[n]) + [c];
    }
  }

  /** Cutting a text at its slashes and joining the components again gives the text. */
  lemma {:induction false} ComponentsJoin(text: string)
    ensures Joined(Components(text)) == text
  {
    if text == "" {
      assert Components(text) == [""];
    } else {
      var n := |text| - 1;
      ComponentsJoin(text[..n]);
      LastOf(text);
      ComponentsOne(text[..n], text[n]);
      var r := Components(text[..n]);
      hide Components, Joined, Extended;
      if text[n] == '/' {
        JoinedOne(r, "");
        assert Joined(r) + ['/'] + "" == Joined(r) + ['/'];
      } else {
        JoinedExtended(r, text[n]);
      }
    }
  }

  lemma {:induction false} JoinedSplits(a: Path, b: Path)
    requires a != [] && b != []
    ensures Joined(a + b) == Joined(a) + ['/'] + Joined(b)
    decreases |b|
  {
    var n := |b| - 1;
    LastOf(b);
    Regroup(a, b[..n], [b[n]]);
    JoinedOne(a + b[..n], b[n]);
    JoinedOne(b[..n], b[n]);
    if n == 0 {
      assert a + b[..0] == a by { NothingMore(a, b); }
      assert b[..0] == [];
    } else {
      JoinedSplits(a, b[..n]);
      hide Joined;
      var x, y := Joined(a) + ['/'], Joined(b[..n]);
      Regroup(x, y, ['/']);
      Regroup(x, y + ['/'], b[n]);
    }
  }

  lemma Regroup<T>(a: seq<T>, b: seq<T>, c: seq<T>)
    ensures (a + b) + c == a + (b + c)
  {}

  lemma NothingMore<T>(a: seq<T>, b: seq<T>)
    ensures a + b[..0] == a
  {}

  /** A text and a slash in front add the text's components. */
  lemma {:induction false} ComponentsCut(a: string, b: string)
    ensures Components(a + ['/'] + b) == Components(a) + Components(b)
    decreases |b|
  {
    if b == "" {
      assert Components(b) == [""] && a + ['/'] + b == a + ['/'];
      ComponentsOne(a, '/');
    } else {
      var n := |b| - 1;
      LastOf(b);
      var whole := a + ['/'] + b[..n];
      assert whole + [b[n]] == a + ['/'] + b;
      ComponentsCut(a, b[..n]);
      ComponentsOne(whole, b[n]);
      ComponentsOne(b[..n], b[n]);
      var x, y := Components(a), Components(b[..n]);
      hide Components;
      Regroup(x, y, [""]);
      ExtendedRight(x, y, [b[n]]);
    }
  }

  lemma ExtendedRight(x: Path, y: Path, name: string)
    requires y != []
    ensures Extended(x + y, name) == x + Extended(y, name)
  {
    var n := |y| - 1;
    LastOf(y);
    Regroup(x, y[..n], [y[n]]);
    PrefixOf(x + y[..n], y[n]);
    Regroup(x, y[..n], [y[n] + name]);
  }

  /** Drops every leading "./". */
  function Trimmed(pattern: string): string {
    if "./" <= pattern then Trimmed(pattern[2..]) else pattern
  }

  function DotSlashes(n: nat): string {
    if n == 0 then "" else "./" + DotSlashes(n - 1)
  }

  lemma DotsGrow(n: nat, kept: string)
    ensures DotSlashes(n + 1) + kept == "./" + (DotSlashes(n) + kept)
  {
    var d, dots := "./", DotSlashes(n);
    assert (d + dots) + kept == d + (dots + kept);
  }

  lemma TrimOne(pattern: string)
    requires "./" <= pattern
    ensures Trimmed(pattern) == Trimmed(pattern[2..]) && pattern == "./" + pattern[2..]
  {}

  /** Exactly the leading "./" are dropped, however many there are. */
  lemma {:induction false} TrimmedExactly(pattern: string) returns (n: nat)
    ensures pattern == DotSlashes(n) + Trimmed(pattern) && !("./" <= Trimmed(pattern))
  {
    if !("./" <= pattern) {
      n := 0;
      assert DotSlashes(0) + pattern == pattern;
    } else {
      TrimOne(pattern);
      hide Trimmed, DotSlashes;
      n := TrimmedExactly(pattern[2..]);
      DotsGrow(n, Trimmed(pattern));
      n := n + 1;
    }
  }

  /** Some pattern begins literally with this path, as a whole or up to a slash. */
  predicate NamedBy(path: Path, patterns: seq<string>) {
    exists i | 0 <= i < |patterns| ::
      Trimmed(patterns[i]) == Text(path) || Text(path) + "/" <= Trimmed(patterns[i])
  }

  lemma NamedBegins(path: Path, text: string)
    requires Components(Text(path)) == path && (text == Text(path) || Text(path) + ['/'] <= text)
    ensures path <= Components(text)
  {
    hide Components, Text;
    var t := Text(path);
    if text != t {
      var rest := text[|t| + 1..];
      Rejoin(t + ['/'], text);
      ComponentsCut(t, rest);
    }
  }

  lemma BeginsNamed(path: Path, text: string)
    requires path != [] && Text(path) == Joined(path) && path <= Components(text)
    ensures text == Text(path) || Text(path) + ['/'] <= text
  {
    hide Components, Text, Joined;
    ComponentsJoin(text);
    var rest := Components(text)[|path|..];
    Rejoin(path, Components(text));
    if rest != [] {
      JoinedSplits(path, rest);
    }
  }

  /** A text names a path, as a whole or up to a slash, exactly if its components begin with the path's. */
  lemma NamesExactly(path: Path, text: string)
    requires path != [] && PlainNames(path)
    ensures text == Text(path) || Text(path) + "/" <= text <==> path <= Components(text)
  {
    assert "/" == ['/'];
    hide Components, Joined, Text, PlainNames;
    TextReadsBack(path);
    TextIsJoined(path);
    if text == Text(path) || Text(path) + ['/'] <= text {
      NamedBegins(path, text);
    }
    if path <= Components(text) {
      BeginsNamed(path, text);
    }
  }

  lemma Rejoin<T>(a: seq<T>, s: seq<T>)
    requires a <= s
    ensures s == a + s[|a|..] && (s[|a|..] == [] ==> s == a)
  {}

  /** A path is named exactly if the components of some pattern, but for leading "./", begin with it. */
  lemma NamedExactly(path: Path, patterns: seq<string>)
    requires path != [] && PlainNames(path)
    ensures NamedBy(path, patterns) <==>
      exists i | 0 <= i < |patterns| :: path <= Components(Trimmed(patterns[i]))
  {
    forall i | 0 <= i < |patterns|
      ensures Trimmed(patterns[i]) == Text(path) || Text(path) + "/" <= Trimmed(patterns[i])
        <==> path <= Components(Trimmed(patterns[i]))
    {
      NamesExactly(path, Trimmed(patterns[i]));
    }
    hide Text, Trimmed, Components, PlainNames;
  }

  /** The filter of the walk, given the patterns. */
  predicate ShouldVisit(path: Path, patterns: seq<string>) {
    || path == []
    || !IsDerived(path)
    || exists n | 1 <= n <= |path| :: IsDerived(path[..n]) && NamedBy(path[..n], patterns)
  }

  /** The shortest ancestor of a derived path that is derived itself. */
  function DerivedRoot(path: Path): (r: Path)
    requires IsDerived(path)
    ensures r <= path && r != [] && IsDerived(r) && !IsDerived(r[..|r| - 1])
  {
    var parent := path[..|path| - 1];
    if IsDerived(parent) then DerivedRoot(parent) else path
  }

  lemma DerivedBelow(p: Path, q: Path)
    requires p <= q && IsDerived(p)
    ensures IsDerived(q)
  {
    var i :| 0 <= i < |p| && p[i] in DERIVED_NAMES;
    assert q[i] == p[i];
  }

  /** A pattern that names a path names every ancestor of it. */
  lemma {:induction false} NamesAncestors(path: Path, n: nat, patterns: seq<string>)
    requires 1 <= n <= |path| && NamedBy(path, patterns)
    ensures NamedBy(path[..n], patterns)
    decreases |path|
  {
    if n == |path| {
      assert path[..n] == path;
    } else {
      var parent := path[..|path| - 1];
      var i :| 0 <= i < |patterns|
        && (Trimmed(patterns[i]) == Text(path) || Text(path) + "/" <= Trimmed(patterns[i]));
      assert Text(parent) + "/" <= Text(path) <= Text(path) + "/";
      NamesAncestors(parent, n, patterns);
      assert parent[..n] == path[..n];
    }
  }

  /** If some derived ancestor is named, so is the shortest one. */
  lemma RootIsNamed(path: Path, n: nat, patterns: seq<string>)
    requires 1 <= n <= |path| && IsDerived(path[..n]) && NamedBy(path[..n], patterns) && IsDerived(path)
    ensures NamedBy(DerivedRoot(path), patterns)
  {
    hide IsDerived, NamedBy, DerivedRoot;
    SameDerivedRoot(path[..n], path);
    var root := DerivedRoot(path[..n]);
    NamesAncestors(path[..n], |root|, patterns);
    assert path[..n][..|root|] == root;
  }

  /**
   A path is visited exactly if it is not derived or some pattern names its derived root: the
   search over all ancestors never finds more than the shortest one gives.
   */
  lemma VisitedExactly(path: Path, patterns: seq<string>)
    ensures ShouldVisit(path, patterns) <==> !IsDerived(path) || NamedBy(DerivedRoot(path), patterns)
  {
    if IsDerived(path) {
      var root := DerivedRoot(path);
      assert path != [] && path[..|root|] == root;
      hide IsDerived, NamedBy, DerivedRoot;
      if n :| 1 <= n <= |path| && IsDerived(path[..n]) && NamedBy(path[..n], patterns) {
        RootIsNamed(path, n, patterns);
      }
    }
  }

  lemma {:induction false} SameDerivedRoot(p: Path, q: Path)
    requires p <= q && IsDerived(p) && IsDerived(q)
    ensures DerivedRoot(q) == DerivedRoot(p)
    decreases |q|
  {
    if p == q {
    } else {
      var parent := q[..|q| - 1];
      DerivedBelow(p, parent);
      SameDerivedRoot(p, parent);
    }
  }

  /** No visited path lies below one that is not visited. */
  lemma VisitedIsAncestorClosed(patterns: seq<string>)
    ensures AncestorClosed((p: Path) => ShouldVisit(p, patterns))
  {
    forall p: Path, q: Path | p <= q && ShouldVisit(q, patterns)
      ensures ShouldVisit(p, patterns)
    {
      VisitedExactly(p, patterns);
      VisitedExactly(q, patterns);
      if IsDerived(p) {
        DerivedBelow(p, q);
        SameDerivedRoot(p, q);
      }
    }
  }

  function ExportWalk(l: Listing, patterns: seq<string>): seq<Visit> {
    Walk([], l, (p: Path) => ShouldVisit(p, patterns))
  }

  /** The walk reaches an entry, as often as the listing holds it, exactly if the filter holds of it alone. */
  lemma ReachedExactly(l: Listing, patterns: seq<string>, v: Visit)
    ensures ExportWalk(l, patterns) == Filter(Everything(l), (p: Path) => ShouldVisit(p, patterns))
    ensures multiset(ExportWalk(l, patterns))[v]
      == if !IsDerived(v.path) || NamedBy(DerivedRoot(v.path), patterns) then Times(l, v.path, v.kind) else 0
  {
    var keep := (p: Path) => ShouldVisit(p, patterns);
    VisitedIsAncestorClosed(patterns);
    PrunedWalkIsFilter([], l, keep);
    FilterCounts(Everything(l), keep, v);
    EverythingCounts(l, v);
    VisitedExactly(v.path, patterns);
  }

  // ---- The budgeted copy ----

  const U64 := 0x1_0000_0000_0000_0000

  predicate Wanted(v: Visit, patterns: seq<string>) {
    v.kind.IsFile? && exists i | 0 <= i < |patterns| :: Glob.Matches(patterns[i], Text(v.path))
  }

  /** The files of a walk that match some pattern, in walk order. */
  function Selected(visits: seq<Visit>, patterns: seq<string>): seq<FileAt> {
    if visits == [] then []
    else
      var last := visits[|visits| - 1];
      Selected(visits[..|visits| - 1], patterns)
      + if Wanted(last, patterns) then [FileAt(last.path, Size(last))] else []
  }

  function Size(v: Visit): nat {
    if v.kind.IsFile? then v.kind.size else 0
  }

  /** What an export is asked for: a file of the tree that may be visited and that some pattern matches. */
  predicate Candidate(l: Listing, patterns: seq<string>, f: FileAt) {
    && Holds(l, f.path, IsFile(f.size))
    && (!IsDerived(f.path) || NamedBy(DerivedRoot(f.path), patterns))
    && exists i | 0 <= i < |patterns| :: Glob.Matches(patterns[i], Text(f.path))
  }

  lemma OneMoreCount<T>(s: seq<T>, x: T, y: T)
    ensures multiset(s + [x])[y] == multiset(s)[y] + if x == y then 1 else 0
  {}

  lemma WantedIsFile(v: Visit, patterns: seq<string>)
    ensures Wanted(v, patterns) ==> v == Visit(v.path, IsFile(Size(v)))
  {}

  lemma {:induction false} SelectedCounts(visits: seq<Visit>, patterns: seq<string>, f: FileAt)
    ensures var v := Visit(f.path, IsFile(f.size));
      multiset(Selected(visits, patterns))[f] == if Wanted(v, patterns) then multiset(visits)[v] else 0
  {
    hide Wanted;
    if visits == [] {
    } else {
      var n := |visits| - 1;
      var last, before := visits[n], Selected(visits[..n], patterns);
      assert Selected(visits, patterns)
        == before + if Wanted(last, patterns) then [FileAt(last.path, Size(last))] else [];
      hide Selected;
      SelectedCounts(visits[..n], patterns, f);
      LastOf(visits);
      OneMoreCount(visits[..n], last, Visit(f.path, IsFile(f.size)));
      OneMoreCount(before, FileAt(last.path, Size(last)), f);
      WantedIsFile(last, patterns);
      NothingMore(before, [f]);
    }
  }

  /** The files an export considers are exactly the candidates, each as often as the tree holds it. */
  lemma CandidatesExactly(l: Listing, patterns: seq<string>, f: FileAt)
    ensures multiset(Selected(ExportWalk(l, patterns), patterns))[f]
      == if Candidate(l, patterns, f) then Times(l, f.path, IsFile(f.size)) else 0
    ensures f in Selected(ExportWalk(l, patterns), patterns) <==> Candidate(l, patterns, f)
  {
    var v := Visit(f.path, IsFile(f.size));
    SelectedCounts(ExportWalk(l, patterns), patterns, f);
    ReachedExactly(l, patterns, v);
    WantedExactly(v, patterns);
    hide ExportWalk, Selected, Wanted, IsDerived, NamedBy, DerivedRoot, Times;
  }

  lemma WantedExactly(v: Visit, patterns: seq<string>)
    requires v.kind.IsFile?
    ensures Wanted(v, patterns) <==> exists i | 0 <= i < |patterns| :: Glob.Matches(patterns[i], Text(v.path))
  {}

  lemma SelectedStart(visits: seq<Visit>, patterns: seq<string>)
    ensures Selected(visits[..0], patterns) == []
  {}

  lemma SelectedStep(visits: seq<Visit>, i: nat, patterns: seq<string>)
    requires i < |visits|
    ensures Selected(visits[..i + 1], patterns)
      == Selected(visits[..i], patterns)
         + if Wanted(visits[i], patterns) then [FileAt(visits[i].path, Size(visits[i]))] else []
    ensures Selected(visits[..i + 1], patterns) <= Selected(visits, patterns)
  {
    SelectedPrefix(visits, i + 1, patterns);
    assert visits[..i + 1][..i] == visits[..i];
  }

  lemma {:induction false} SelectedPrefix(visits: seq<Visit>, n: nat, patterns: seq<string>)
    requires n <= |visits|
    ensures Selected(visits[..n], patterns) <= Selected(visits, patterns)
  {
    if n < |visits| {
      SelectedPrefix(visits[..|visits| - 1], n, patterns);
      assert visits[..|visits| - 1][..n] == visits[..n];
    } else {
      assert visits[..n] == visits;
    }
  }

  /**
   The first file over the byte budget passes the check all the same: its sum wraps around 64 bits
   to something small.
   */
  predicate WrapsPast(files: seq<FileAt>, budget: Budget) {
    var n := LongestFit(files, budget);
    n < |files| && n < budget.files && Sum(files[..n + 1]) % U64 <= budget.bytes
  }

  datatype ExportEnd =
    | NothingAsked
    | Exported(files: seq<FileAt>)
    | Unreadable(partial: seq<FileAt>)

  /** What an export of `files` has to come to. A file system error leaves a prefix that is within budget too. */
  predicate Budgeted(end: ExportEnd, files: seq<FileAt>, budget: Budget) {
    match end
    case NothingAsked => true
    case Exported(copied) =>
      && copied <= files
      && (!WrapsPast(files, budget) ==> |copied| == LongestFit(files, budget))
      && (WrapsPast(files, budget) ==> |copied| > LongestFit(files, budget))
    case Unreadable(copied) =>
      copied <= files && (WrapsPast(files, budget) || Fits(copied, budget))
  }

  /** `copied` files so far, without and with a wrap behind them. */
  ghost predicate OnTrack(files: seq<FileAt>, budget: Budget, copied: nat, size: nat) {
    && copied <= |files|
    && (|| (Fits(files[..copied], budget) && size == Sum(files[..copied]))
        || (WrapsPast(files, budget) && copied > LongestFit(files, budget)))
  }

  lemma NextFits(files: seq<FileAt>, budget: Budget, copied: nat, size: nat)
    requires OnTrack(files, budget, copied, size) && copied < |files| && budget.bytes < U64 && files[copied].size < U64
    requires copied < budget.files && (size + files[copied].size) % U64 <= budget.bytes
    ensures OnTrack(files, budget, copied + 1, (size + files[copied].size) % U64)
  {
    assert files[..copied + 1] == files[..copied] + [files[copied]];
    SumSplits(files[..copied], files[copied]);
    if Fits(files[..copied], budget) && size == Sum(files[..copied]) && !Fits(files[..copied + 1], budget) {
      FirstMisfit(files, budget, copied);
    }
  }

  lemma NextIsTooMuch(files: seq<FileAt>, budget: Budget, copied: nat, size: nat)
    requires OnTrack(files, budget, copied, size) && copied < |files|
    requires copied >= budget.files || (size + files[copied].size) % U64 > budget.bytes
    ensures Budgeted(Exported(files[..copied]), files, budget)
  {
    assert files[..copied + 1] == files[..copied] + [files[copied]];
    SumSplits(files[..copied], files[copied]);
    if Fits(files[..copied], budget) && size == Sum(files[..copied]) {
      FirstMisfit(files, budget, copied);
    }
  }

  lemma FirstMisfit(files: seq<FileAt>, budget: Budget, n: nat)
    requires n < |files| && Fits(files[..n], budget) && !Fits(files[..n + 1], budget)
    ensures LongestFit(files, budget) == n
  {
    var r := LongestFit(files, budget);
    if r > n {
      FitsIsPrefixClosed(files, n + 1, r, budget);
    }
  }

  lemma StartOnTrack(files: seq<FileAt>, budget: Budget)
    ensures OnTrack(files, budget, 0, 0)
  {
    assert files[..0] == [];
  }

  lemma PartlyOnTrack(files: seq<FileAt>, budget: Budget, copied: nat, size: nat)
    requires OnTrack(files, budget, copied, size)
    ensures Budgeted(Unreadable(files[..copied]), files, budget)
  {}

  lemma AllOnTrack(files: seq<FileAt>, budget: Budget, size: nat)
    requires OnTrack(files, budget, |files|, size)
    ensures Budgeted(Exported(files), files, budget)
  {
    assert files[..|files|] == files;
  }

  /** The loop over the walk. */
  method CopySelected(
    visits: seq<Visit>, patterns: seq<string>, budget: Budget, readable: nat -> bool, writable: nat -> bool)
    returns (end: ExportEnd)
    requires budget.bytes < U64 && forall f | f in Selected(visits, patterns) :: f.size < U64
    ensures !end.NothingAsked? && Budgeted(end, Selected(visits, patterns), budget)
    ensures (forall i: nat :: readable(i) && writable(i)) ==> !end.Unreadable?
  {
    hide Wanted, OnTrack, WrapsPast, Selected, LongestFit, Fits, Budgeted;
    ghost var files := Selected(visits, patterns);
    var out: seq<FileAt>, size: nat := [], 0;
    StartOnTrack(files, budget);
    SelectedStart(visits, patterns);
    for i := 0 to |visits|
      invariant out == Selected(visits[..i], patterns) && out <= files
      invariant OnTrack(files, budget, |out|, size)
    {
      SelectedStep(visits, i, patterns);
      assert files[..|out|] == out;
      if !readable(i) {
        PartlyOnTrack(files, budget, |out|, size);
        return Unreadable(out);
      }
      if Wanted(visits[i], patterns) {
        var bytes := Size(visits[i]);
        if |out| >= budget.files || (size + bytes) % U64 > budget.bytes {
          NextIsTooMuch(files, budget, |out|, size);
          return Exported(out);
        }
        if !writable(i) {
          PartlyOnTrack(files, budget, |out|, size);
          return Unreadable(out);
        }
        NextFits(files, budget, |out|, size);
        size := (size + bytes) % U64;
        out := out + [FileAt(visits[i].path, bytes)];
      }
    }
    assert visits[..|visits|] == visits;
    AllOnTrack(files, budget, size);
    end := Exported(out);
  }

  /**
   Copies matching files in walk order until the next one is over budget; `readable` and `writable`
   tell which file system calls succeed. What is copied is the longest prefix within both budgets
   exactly if the 64-bit sum does not wrap at the first file over the byte budget, and more otherwise.
   */
  method Export(l: Listing, patterns: seq<string>, budget: Budget, readable: nat -> bool, writable: nat -> bool)
    returns (end: ExportEnd)
    requires budget.bytes < U64 && forall f | f in Selected(ExportWalk(l, patterns), patterns) :: f.size < U64
    ensures end.NothingAsked? <==> patterns == []
    ensures Budgeted(end, Selected(ExportWalk(l, patterns), patterns), budget)
    ensures (forall i: nat :: readable(i) && writable(i)) ==> !end.Unreadable?
    ensures end.Exported? ==> forall f | f in end.files :: Candidate(l, patterns, f)
    ensures end.Exported? && Fits(Selected(ExportWalk(l, patterns), patterns), budget) ==>
      forall f :: f in end.files <==> Candidate(l, patterns, f)
  {
    if patterns == [] {
      return NothingAsked;
    }
    end := CopySelected(ExportWalk(l, patterns), patterns, budget, readable, writable);
    ExportedCandidates(l, patterns, budget, end);
  }

  lemma ExportedCandidates(l: Listing, patterns: seq<string>, budget: Budget, end: ExportEnd)
    requires Budgeted(end, Selected(ExportWalk(l, patterns), patterns), budget)
    ensures end.Exported? ==> forall f | f in end.files :: Candidate(l, patterns, f)
    ensures end.Exported? && Fits(Selected(ExportWalk(l, patterns), patterns), budget) ==>
      forall f :: f in end.files <==> Candidate(l, patterns, f)
  {
    hide ExportWalk, Selected, Candidate, Budgeted, Fits;
    var files := Selected(ExportWalk(l, patterns), patterns);
    if end.Exported? {
      ExportedFiles(end.files, files, budget);
      forall f
        ensures f in files <==> Candidate(l, patterns, f)
      {
        CandidatesExactly(l, patterns, f);
      }
    }
  }

  lemma ExportedFiles(copied: seq<FileAt>, files: seq<FileAt>, budget: Budget)
    requires Budgeted(Exported(copied), files, budget)
    ensures copied <= files && (Fits(files, budget) ==> copied == files)
  {
    assert files[..|files|] == files;
    hide Sum;
  }

  /** Byte limits and file sizes a file system can have never wrap, so the export is then the longest prefix. */
  lemma RealSizesNeverWrap(files: seq<FileAt>, budget: Budget)
    requires budget.bytes <= U64 / 2 && forall f | f in files :: f.size < U64 / 2
    ensures !WrapsPast(files, budget)
  {
    var n := LongestFit(files, budget);
    if n < |files| {
      assert files[..n + 1] == files[..n] + [files[n]];
      SumSplits(files[..n], files[n]);
      assert files[n] in files;
    }
  }

  lemma PlainFileIsSelected(name: string, size: nat, patterns: seq<string>)
    requires patterns == ["*"] && |name| == 1
    ensures ShouldVisit([name], patterns) && Wanted(Visit([name], IsFile(size)), patterns)
  {
    Glob.StarsMatchAll(1, Text([name]));
    assert Glob.Stars(1) == patterns[0];
  }

  lemma HugeFilesWrap(files: seq<FileAt>, budget: Budget)
    requires |files| == 3 && files[0].size == files[1].size == U64 / 2 - 1 && files[2].size == 2
    requires budget == Budget(U64 - 1, 3)
    ensures Sum(files) == U64 && LongestFit(files, budget) == 2 && WrapsPast(files, budget)
  {
    var one, two := [files[0]], [files[0]] + [files[1]];
    assert files[..2] == two && files[..3] == files == two + [files[2]];
    SumSplits([], files[0]);
    assert [] + [files[0]] == one;
    SumSplits(one, files[1]);
    SumSplits(two, files[2]);
    hide Sum;
    FirstMisfit(files, budget, 2);
  }

  /**
   A real wrap: with the largest byte limit, two files of the largest size and one of two bytes sum
   up to exactly 2^64, and the last one passes the check although it does not fit.
   */
  lemma WrapCopiesTooMuch() returns (l: Listing, patterns: seq<string>, budget: Budget, files: seq<FileAt>)
    ensures files == Selected(ExportWalk(l, patterns), patterns) && WrapsPast(files, budget)
    ensures budget.bytes == U64 - 1 && forall f | f in files :: f.size < U64 / 2
    ensures LongestFit(files, budget) == 2 && |files| == 3 && Sum(files) == U64 > budget.bytes
  {
    var huge := U64 / 2 - 1;
    l := File("x", huge, File("y", huge, File("z", 2, Empty)));
    patterns, budget := ["*"], Budget(U64 - 1, 3);
    files := [FileAt(["x"], huge), FileAt(["y"], huge), FileAt(["z"], 2)];
    hide ExportWalk, ShouldVisit, Wanted, Selected, LongestFit, WrapsPast, Sum;
    SelectsFirst("x", huge, l.rest, patterns);
    SelectsFirst("y", huge, l.rest.rest, patterns);
    SelectsFirst("z", 2, Empty, patterns);
    SelectsNothing(patterns);
    assert Selected(ExportWalk(l, patterns), patterns) == files;
    HugeFilesWrap(files, budget);
  }

  lemma SelectsNothing(patterns: seq<string>)
    ensures Selected(ExportWalk(Empty, patterns), patterns) == []
  {}

  /** A listing of one more plain file selects one more file. */
  lemma SelectsFirst(name: string, size: nat, rest: Listing, patterns: seq<string>)
    requires patterns == ["*"] && |name| == 1
    ensures Selected(ExportWalk(File(name, size, rest), patterns), patterns)
      == [FileAt([name], size)] + Selected(ExportWalk(rest, patterns), patterns)
  {
    PlainFileIsSelected(name, size, patterns);
    var v := Visit([name], IsFile(size));
    assert [] + [name] == [name];
    assert ExportWalk(File(name, size, rest), patterns) == [v] + ExportWalk(rest, patterns);
    hide ExportWalk, ShouldVisit, Wanted;
    SelectedSplits(v, ExportWalk(rest, patterns), patterns);
  }

  lemma {:induction false} SelectedSplits(v: Visit, visits: seq<Visit>, patterns: seq<string>)
    requires Wanted(v, patterns)
    ensures Selected([v] + visits, patterns) == [FileAt(v.path, Size(v))] + Selected(visits, patterns)
  {
    hide Wanted;
    var all := [v] + visits;
    if visits == [] {
      assert all[..0] == [] && all[0] == v;
    } else {
      var n := |visits| - 1;
      SelectedSplits(v, visits[..n], patterns);
      assert all[..n + 1] == [v] + visits[..n] && all[n + 1] == visits[n];
    }
  }
}
