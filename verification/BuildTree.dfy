/**
 The files a build embeds and the folders it watches (crates/oxplow-app/build.rs).
 A path is the list of its names; the list of paths to skip is a set of them.
 */
module BuildTree {
  /** What is in a directory, in the order it is read. */
  datatype Listing =
    | Empty
    | File(name: string, rest: Listing)
    | Folder(name: string, inside: Listing, rest: Listing)

  type Path = seq<string>

  predicate StartsWithDot(name: string) { name != "" && name[0] == '.' }

  /** A dot entry or a path to skip. */
  predicate Hidden(path: Path, skip: set<Path>)
    requires path != []
  {
    StartsWithDot(path[|path| - 1]) || path in skip
  }

  // ---- What is in a tree

  predicate HasFile(l: Listing, path: Path) {
    match l
    case Empty => false
    case File(name, rest) => path == [name] || HasFile(rest, path)
    case Folder(name, inside, rest) =>
      (path != [] && path[0] == name && HasFile(inside, path[1..])) || HasFile(rest, path)
  }

  predicate HasFolder(l: Listing, path: Path) {
    match l
    case Empty => false
    case File(_, rest) => HasFolder(rest, path)
    case Folder(name, inside, rest) =>
      path == [name] || (path != [] && path[0] == name && HasFolder(inside, path[1..])) || HasFolder(rest, path)
  }

  predicate Has(l: Listing, path: Path) { HasFile(l, path) || HasFolder(l, path) }

  predicate Names(l: Listing, name: string) {
    !l.Empty? && (l.name == name || Names(l.rest, name))
  }

  /** No directory has two entries of one name. */
  predicate Distinct(l: Listing) {
    match l
    case Empty => true
    case File(name, rest) => !Names(rest, name) && Distinct(rest)
    case Folder(name, inside, rest) => !Names(rest, name) && Distinct(inside) && Distinct(rest)
  }

  lemma {:induction false} HasNames(l: Listing, path: Path)
    requires Has(l, path)
    ensures path != [] && Names(l, path[0])
  {
    match l
    case File(name, rest) => if path != [name] { HasNames(rest, path); }
    case Folder(name, inside, rest) => if path == [] || path[0] != name { HasNames(rest, path); }
  }

  // ---- Walking

  function Walked(l: Listing, prefix: Path, skip: set<Path>): seq<Path> {
    match l
    case Empty => []
    case File(name, rest) =>
      (if Hidden(prefix + [name], skip) then [] else [prefix + [name]]) + Walked(rest, prefix, skip)
    case Folder(name, inside, rest) =>
      (if Hidden(prefix + [name], skip) then [] else Walked(inside, prefix + [name], skip)) + Walked(rest, prefix, skip)
  }

  lemma Appended(a: seq<Path>, b: seq<Path>, c: seq<Path>)
    ensures a + b + c == a + (b + c)
  {}

  /** Pushes the files under `dir` onto `out`. */
  method Walk(dir: Listing, prefix: Path, skip: set<Path>, before: seq<Path>) returns (out: seq<Path>)
    ensures out == before + Walked(dir, prefix, skip)
    decreases dir
  {
    out := before;
    var entries := dir;
    while !entries.Empty?
      invariant entries == dir || entries < dir
      invariant out + Walked(entries, prefix, skip) == before + Walked(dir, prefix, skip)
      decreases entries
    {
      var rel := prefix + [entries.name];
      ghost var was, more := out, Walked(entries.rest, prefix, skip);
      if !Hidden(rel, skip) {
        match entries {
          case Folder(_, inside, _) =>
            out := Walk(inside, rel, skip, out);
            Appended(was, Walked(inside, rel, skip), more);
          case File(_, _) =>
            out := out + [rel];
            Appended(was, [rel], more);
        }
      } else {
        Appended(was, [], more);
      }
      entries := entries.rest;
    }
  }

  /** No name on the way from `prefix` to the end of `path` is hidden. */
  ghost predicate Open(prefix: Path, path: Path, skip: set<Path>) {
    forall k | 0 < k <= |path| :: !Hidden(prefix + path[..k], skip)
  }

  lemma OpenStep(prefix: Path, path: Path, skip: set<Path>)
    requires path != []
    ensures Open(prefix, path, skip)
            <==> !Hidden(prefix + [path[0]], skip) && Open(prefix + [path[0]], path[1..], skip)
  {
    var rel := prefix + [path[0]];
    assert path[..1] == [path[0]];
    forall k | 0 < k <= |path| - 1 ensures rel + path[1..][..k] == prefix + path[..k + 1] {}
    if !Hidden(rel, skip) && Open(rel, path[1..], skip) {
      forall k | 0 < k <= |path| ensures !Hidden(prefix + path[..k], skip) {
        if k > 1 { assert rel + path[1..][..k - 1] == prefix + path[..k]; }
      }
    }
  }

  lemma {:induction false} WalkedUnder(l: Listing, prefix: Path, skip: set<Path>, p: Path)
    requires p in Walked(l, prefix, skip)
    ensures |prefix| < |p| && prefix <= p
    ensures !l.Empty? ==> prefix + [l.name] <= p || p in Walked(l.rest, prefix, skip)
  {
    match l
    case File(name, rest) =>
      if p in Walked(rest, prefix, skip) { WalkedUnder(rest, prefix, skip, p); }
    case Folder(name, inside, rest) =>
      if p in Walked(rest, prefix, skip) {
        WalkedUnder(rest, prefix, skip, p);
      } else {
        WalkedUnder(inside, prefix + [name], skip, p);
      }
  }

  lemma UnderName(prefix: Path, name: string, path: Path)
    ensures prefix + [name] <= prefix + path <==> path != [] && path[0] == name
  {
    if prefix + [name] <= prefix + path {
      assert (prefix + path)[|prefix|] == (prefix + [name])[|prefix|];
    }
  }

  /** What an entry adds to the walk of the rest. */
  lemma WalkedFirst(l: Listing, prefix: Path, skip: set<Path>, p: Path)
    requires !l.Empty?
    ensures p in Walked(l, prefix, skip)
            <==> p in Walked(l.rest, prefix, skip)
                 || (!Hidden(prefix + [l.name], skip)
                     && if l.File? then p == prefix + [l.name] else p in Walked(l.inside, prefix + [l.name], skip))
  {
    hide Hidden;
  }

  lemma OpenOne(prefix: Path, name: string, skip: set<Path>)
    ensures Open(prefix, [name], skip) <==> !Hidden(prefix + [name], skip)
  {
    assert [name][..1] == [name];
  }

  lemma SameUnder(prefix: Path, a: Path, b: Path)
    requires prefix + a == prefix + b
    ensures a == b
  {
    assert (prefix + a)[|prefix|..] == a && (prefix + b)[|prefix|..] == b;
  }

  lemma WalkedAtFile(l: Listing, prefix: Path, skip: set<Path>, path: Path)
    requires l.File?
    ensures prefix + path in Walked(l, prefix, skip)
            <==> prefix + path in Walked(l.rest, prefix, skip) || (path == [l.name] && Open(prefix, path, skip))
  {
    WalkedFirst(l, prefix, skip, prefix + path);
    hide Walked, Open, Hidden;
    OpenOne(prefix, l.name, skip);
    if prefix + path == prefix + [l.name] { SameUnder(prefix, path, [l.name]); }
  }

  lemma Descended(prefix: Path, path: Path)
    requires path != []
    ensures prefix + [path[0]] + path[1..] == prefix + path
  {}

  lemma WalkedInFolder(l: Listing, prefix: Path, skip: set<Path>, path: Path)
    requires l.Folder? && path != [] && path[0] == l.name
    ensures prefix + path in Walked(l, prefix, skip)
            <==> prefix + path in Walked(l.rest, prefix, skip)
                 || (!Hidden(prefix + [l.name], skip)
                     && prefix + [l.name] + path[1..] in Walked(l.inside, prefix + [l.name], skip))
  {
    WalkedFirst(l, prefix, skip, prefix + path);
    hide Walked, Hidden;
    Descended(prefix, path);
  }

  lemma WalkedBesideFolder(l: Listing, prefix: Path, skip: set<Path>, path: Path)
    requires l.Folder? && !(path != [] && path[0] == l.name)
    ensures prefix + path in Walked(l, prefix, skip) <==> prefix + path in Walked(l.rest, prefix, skip)
  {
    var rel := prefix + [l.name];
    WalkedFirst(l, prefix, skip, prefix + path);
    UnderName(prefix, l.name, path);
    hide Walked, Hidden;
    if prefix + path in Walked(l.inside, rel, skip) { WalkedUnder(l.inside, rel, skip, prefix + path); }
  }

  /** The walk finds a file just when nothing on the way to it is hidden, nor it. */
  lemma {:induction false} WalkIsExact(l: Listing, prefix: Path, skip: set<Path>, path: Path)
    ensures prefix + path in Walked(l, prefix, skip) <==> HasFile(l, path) && Open(prefix, path, skip)
  {
    if !l.Empty? {
      hide Walked, Open, Hidden;
      WalkIsExact(l.rest, prefix, skip, path);
      if l.File? {
        WalkedAtFile(l, prefix, skip, path);
      } else if path != [] && path[0] == l.name {
        WalkedInFolder(l, prefix, skip, path);
        OpenStep(prefix, path, skip);
        WalkIsExact(l.inside, prefix + [l.name], skip, path[1..]);
      } else {
        WalkedBesideFolder(l, prefix, skip, path);
      }
    }
  }

  /** The `k`th name does not start with a dot, and the path up to it is not to skip. */
  predicate VisibleAt(path: Path, k: nat, skip: set<Path>)
    requires 0 < k <= |path|
  {
    path[..k] !in skip && !("." <= path[k - 1])
  }

  ghost predicate Visible(path: Path, skip: set<Path>) {
    forall k: nat | 0 < k <= |path| :: VisibleAt(path, k, skip)
  }

  lemma HiddenIff(path: Path, k: nat, skip: set<Path>)
    requires 0 < k <= |path|
    ensures Hidden([] + path[..k], skip) <==> !VisibleAt(path, k, skip)
  {
    assert [] + path[..k] == path[..k];
  }

  lemma OpenIff(path: Path, skip: set<Path>)
    ensures Open([], path, skip) <==> Visible(path, skip)
  {
    hide VisibleAt, Hidden;
    forall k: nat | 0 < k <= |path| ensures Hidden([] + path[..k], skip) <==> !VisibleAt(path, k, skip) {
      HiddenIff(path, k, skip);
    }
    if Visible(path, skip) {
      forall k | 0 < k <= |path| ensures !Hidden([] + path[..k], skip) { assert VisibleAt(path, k, skip); }
    }
  }

  /** The walk of a whole tree has the files in it that are visible. */
  lemma WalkedIff(root: Listing, skip: set<Path>, path: Path)
    ensures path in Walked(root, [], skip) <==> HasFile(root, path) && Visible(path, skip)
  {
    hide Walked, HasFile, Open, Visible;
    WalkIsExact(root, [], skip, path);
    OpenIff(path, skip);
    assert [] + path == path;
  }

  // ---- The folders to watch

  predicate Holds(l: Listing, rel: Path, skip: set<Path>) {
    match l
    case Empty => false
    case File(name, rest) => Hidden(rel + [name], skip) || Holds(rest, rel, skip)
    case Folder(name, inside, rest) =>
      Hidden(rel + [name], skip) || Holds(inside, rel + [name], skip) || Holds(rest, rel, skip)
  }

  /** `path` is in the directory at `rel` and would be skipped. */
  predicate IsSkipped(l: Listing, rel: Path, path: Path, skip: set<Path>) {
    path != [] && Has(l, path) && Hidden(rel + path, skip)
  }

  lemma {:induction false} SkippedIn(l: Listing, rel: Path, skip: set<Path>) returns (path: Path)
    requires Holds(l, rel, skip)
    ensures IsSkipped(l, rel, path, skip)
  {
    if Hidden(rel + [l.name], skip) {
      path := [l.name];
    } else if l.Folder? && Holds(l.inside, rel + [l.name], skip) {
      var within := SkippedIn(l.inside, rel + [l.name], skip);
      path := [l.name] + within;
      assert path[1..] == within && rel + path == rel + [l.name] + within;
    } else {
      path := SkippedIn(l.rest, rel, skip);
    }
  }

  lemma {:induction false} SkippedHolds(l: Listing, rel: Path, path: Path, skip: set<Path>)
    requires IsSkipped(l, rel, path, skip)
    ensures Holds(l, rel, skip)
  {
    if path == [l.name] {
    } else if l.Folder? && path[0] == l.name && Has(l.inside, path[1..]) {
      assert rel + [l.name] + path[1..] == rel + path;
      HasNames(l.inside, path[1..]);
      SkippedHolds(l.inside, rel + [l.name], path[1..], skip);
    } else {
      SkippedHolds(l.rest, rel, path, skip);
    }
  }

  lemma {:induction false} HoldsIff(l: Listing, rel: Path, skip: set<Path>)
    ensures Holds(l, rel, skip) <==> exists path :: IsSkipped(l, rel, path, skip)
  {
    if Holds(l, rel, skip) {
      var path := SkippedIn(l, rel, skip);
    }
    forall path | IsSkipped(l, rel, path, skip) ensures Holds(l, rel, skip) {
      SkippedHolds(l, rel, path, skip);
    }
  }

  /** A tree holds something to leave out just when some path in it ends in a dot name or
      is one to skip. */
  lemma HoldsSomeIff(root: Listing, skip: set<Path>)
    ensures Holds(root, [], skip)
            <==> exists path :: Has(root, path) && path != [] && (path in skip || "." <= path[|path| - 1])
  {
    HoldsIff(root, [], skip);
    hide Holds, Has;
    forall path: Path ensures [] + path == path {}
    if path :| IsSkipped(root, [], path, skip) {
      assert [] + path == path;
      assert Has(root, path) && path != [] && (path in skip || "." <= path[|path| - 1]);
    }
    if path :| Has(root, path) && path != [] && (path in skip || "." <= path[|path| - 1]) {
      assert IsSkipped(root, [], path, skip) by { assert [] + path == path; }
    }
  }

  method HoldsSkipped(dir: Listing, rel: Path, skip: set<Path>) returns (holds: bool)
    ensures holds <==> exists path :: IsSkipped(dir, rel, path, skip)
    decreases dir
  {
    var entries := dir;
    while !entries.Empty?
      invariant entries == dir || entries < dir
      invariant Holds(entries, rel, skip) == Holds(dir, rel, skip)
      decreases entries
    {
      var child := rel + [entries.name];
      if Hidden(child, skip) {
        HoldsIff(dir, rel, skip);
        return true;
      }
      match entries {
        case Folder(_, inside, _) =>
          var within := HoldsSkipped(inside, child, skip);
          HoldsIff(inside, child, skip);
          if within {
            HoldsIff(dir, rel, skip);
            return true;
          }
        case File(_, _) =>
      }
      entries := entries.rest;
    }
    HoldsIff(dir, rel, skip);
    return false;
  }

  function WatchedIn(l: Listing, rel: Path, skip: set<Path>): seq<Path>
    decreases l, 0
  {
    match l
    case Empty => []
    case File(_, rest) => WatchedIn(rest, rel, skip)
    case Folder(name, inside, rest) =>
      (if Hidden(rel + [name], skip) then [] else Watched(inside, rel + [name], skip)) + WatchedIn(rest, rel, skip)
  }

  function Watched(l: Listing, rel: Path, skip: set<Path>): seq<Path>
    decreases l, 1
  {
    if !Holds(l, rel, skip) then [rel] else WatchedIn(l, rel, skip)
  }

  method Folders(dir: Listing, rel: Path, skip: set<Path>, before: seq<Path>) returns (out: seq<Path>)
    ensures out == before + Watched(dir, rel, skip)
    decreases dir
  {
    out := before;
    var holds := HoldsSkipped(dir, rel, skip);
    HoldsIff(dir, rel, skip);
    if !holds { return out + [rel]; }
    var entries := dir;
    while !entries.Empty?
      invariant entries == dir || entries < dir
      invariant out + WatchedIn(entries, rel, skip) == before + WatchedIn(dir, rel, skip)
      decreases entries
    {
      var child := rel + [entries.name];
      ghost var was, more := out, WatchedIn(entries.rest, rel, skip);
      if entries.Folder? && !Hidden(child, skip) {
        out := Folders(entries.inside, child, skip, out);
        Appended(was, Watched(entries.inside, child, skip), more);
      } else {
        Appended(was, [], more);
      }
      entries := entries.rest;
    }
  }

  // ---- Which folders those are

  /** What is at `path` in the directory at `rel` holds nothing skipped, at any depth. */
  ghost predicate Clean(l: Listing, rel: Path, path: Path, skip: set<Path>) {
    forall p | path < p :: !IsSkipped(l, rel, p, skip)
  }

  /** A folder under the directory that is open, clean, and in none that is clean. */
  ghost predicate IsTopmost(l: Listing, rel: Path, path: Path, skip: set<Path>) {
    && HasFolder(l, path) && Open(rel, path, skip) && Clean(l, rel, path, skip)
    && forall k | 0 < k < |path| :: !Clean(l, rel, path[..k], skip)
  }

  lemma NoneSkippedIff(l: Listing, rel: Path, skip: set<Path>)
    ensures !Holds(l, rel, skip) <==> Clean(l, rel, [], skip)
  {
    HoldsIff(l, rel, skip);
    forall p: Path | IsSkipped(l, rel, p, skip) ensures [] < p {}
  }

  lemma SkippedInside(l: Listing, rel: Path, p: Path, skip: set<Path>)
    requires l.Folder? && Distinct(l) && |p| > 1 && p[0] == l.name
    ensures IsSkipped(l, rel, p, skip) == IsSkipped(l.inside, rel + [l.name], p[1..], skip)
  {
    if Has(l.rest, p) { HasNames(l.rest, p); }
    assert rel + [l.name] + p[1..] == rel + p;
  }

  /** Inside one entry of a directory. */
  lemma CleanInside(l: Listing, rel: Path, path: Path, skip: set<Path>)
    requires l.Folder? && Distinct(l) && path != [] && path[0] == l.name
    ensures Clean(l, rel, path, skip) <==> Clean(l.inside, rel + [l.name], path[1..], skip)
  {
    forall p: Path | path < p ensures IsSkipped(l, rel, p, skip) == IsSkipped(l.inside, rel + [l.name], p[1..], skip) {
      SkippedInside(l, rel, p, skip);
    }
    if Clean(l, rel, path, skip) {
      forall p: Path | path[1..] < p ensures !IsSkipped(l.inside, rel + [l.name], p, skip) {
        var q := [l.name] + p;
        assert path == [l.name] + path[1..] && q[1..] == p;
        assert path < q;
      }
    }
    if Clean(l.inside, rel + [l.name], path[1..], skip) {
      forall p: Path | path < p ensures !IsSkipped(l, rel, p, skip) {
        assert path[1..] < p[1..];
      }
    }
  }

  /** Among the other entries of a directory. */
  lemma CleanBeside(l: Listing, rel: Path, path: Path, skip: set<Path>)
    requires !l.Empty? && path != [] && path[0] != l.name
    ensures Clean(l, rel, path, skip) <==> Clean(l.rest, rel, path, skip)
    ensures HasFolder(l, path) <==> HasFolder(l.rest, path)
  {
    forall p: Path | path < p ensures IsSkipped(l, rel, p, skip) == IsSkipped(l.rest, rel, p, skip) {
      assert p[0] == path[0];
    }
  }

  lemma TopmostBeside(l: Listing, rel: Path, path: Path, skip: set<Path>)
    requires !l.Empty? && path != [] && path[0] != l.name
    ensures IsTopmost(l, rel, path, skip) <==> IsTopmost(l.rest, rel, path, skip)
  {
    CleanBeside(l, rel, path, skip);
    forall k | 0 < k < |path| ensures Clean(l, rel, path[..k], skip) <==> Clean(l.rest, rel, path[..k], skip) {
      CleanBeside(l, rel, path[..k], skip);
    }
  }

  /** No folder on the way, the directory itself included, is clean. */
  lemma TopmostDeeper(l: Listing, rel: Path, path: Path, skip: set<Path>)
    requires path != []
    ensures !Clean(l, rel, [], skip) && IsTopmost(l, rel, path, skip)
            <==> HasFolder(l, path) && Open(rel, path, skip) && Clean(l, rel, path, skip)
                 && forall k | 0 <= k < |path| :: !Clean(l, rel, path[..k], skip)
  {
    assert path[..0] == [];
  }

  lemma TopmostInside(l: Listing, rel: Path, path: Path, skip: set<Path>)
    requires l.Folder? && Distinct(l) && path != [] && path[0] == l.name
    ensures IsTopmost(l, rel, path, skip)
            <==> !Hidden(rel + [l.name], skip)
                 && if |path| == 1 then Clean(l.inside, rel + [l.name], [], skip)
                    else !Clean(l.inside, rel + [l.name], [], skip)
                         && IsTopmost(l.inside, rel + [l.name], path[1..], skip)
  {
    var child, within := rel + [l.name], path[1..];
    OpenStep(rel, path, skip);
    if HasFolder(l.rest, path) { HasNames(l.rest, path); }
    forall k | 0 < k <= |path|
      ensures Clean(l, rel, path[..k], skip) <==> Clean(l.inside, child, within[..k - 1], skip)
    {
      CleanInside(l, rel, path[..k], skip);
      assert path[..k][1..] == within[..k - 1];
    }
    assert path[..|path|] == path && within[..|within|] == within && within[..0] == [];
    if |path| > 1 {
      TopmostDeeper(l.inside, child, within, skip);
      assert (forall k | 0 < k < |path| :: !Clean(l, rel, path[..k], skip))
        <==> forall k | 0 <= k < |within| :: !Clean(l.inside, child, within[..k], skip) by {
        if forall k | 0 < k < |path| :: !Clean(l, rel, path[..k], skip) {
          forall k | 0 <= k < |within| ensures !Clean(l.inside, child, within[..k], skip) {
            assert !Clean(l, rel, path[..k + 1], skip);
          }
        }
      }
    } else {
      assert path == [l.name] && within == [];
    }
  }

  lemma {:induction false} WatchedInUnder(l: Listing, rel: Path, skip: set<Path>, d: Path)
    requires d in WatchedIn(l, rel, skip)
    ensures rel < d
    decreases l
  {
    if d in WatchedIn(l.rest, rel, skip) {
      WatchedInUnder(l.rest, rel, skip, d);
    } else {
      var child := rel + [l.name];
      assert d in Watched(l.inside, child, skip);
      if d != child { WatchedInUnder(l.inside, child, skip, d); }
    }
  }

  lemma WatchedUnder(l: Listing, rel: Path, skip: set<Path>, d: Path)
    ensures d in Watched(l, rel, skip) ==> rel <= d
    ensures d in WatchedIn(l, rel, skip) ==> rel < d
  {
    if d in WatchedIn(l, rel, skip) { WatchedInUnder(l, rel, skip, d); }
  }

  lemma NotTopmost(l: Listing, rel: Path, path: Path, skip: set<Path>)
    requires path != [] && !Names(l, path[0])
    ensures !HasFolder(l, path) && !IsTopmost(l, rel, path, skip)
  {
    if HasFolder(l, path) { HasNames(l, path); }
  }

  /** A file beside the folders changes nothing about them. */
  lemma TopmostOfFile(l: Listing, rel: Path, path: Path, skip: set<Path>)
    requires l.File? && Distinct(l) && path != []
    ensures IsTopmost(l, rel, path, skip) <==> IsTopmost(l.rest, rel, path, skip)
  {
    if path[0] != l.name {
      TopmostBeside(l, rel, path, skip);
    } else {
      NotTopmost(l.rest, rel, path, skip);
    }
  }

  /** The folders watched under a directory are exactly the topmost clean ones. */
  lemma {:induction false} WatchedInIsExact(l: Listing, rel: Path, skip: set<Path>, path: Path)
    requires Distinct(l) && path != []
    ensures rel + path in WatchedIn(l, rel, skip) <==> IsTopmost(l, rel, path, skip)
    decreases l
  {
    match l
    case Empty =>
    case File(name, rest) =>
      WatchedInIsExact(rest, rel, skip, path);
      TopmostOfFile(l, rel, path, skip);
    case Folder(name, inside, rest) =>
      WatchedInIsExact(rest, rel, skip, path);
      var child := rel + [name];
      UnderName(rel, name, path);
      WatchedUnder(inside, child, skip, rel + path);
      if path[0] != name {
        TopmostBeside(l, rel, path, skip);
      } else {
        TopmostInside(l, rel, path, skip);
        NotTopmost(rest, rel, path, skip);
        NoneSkippedIff(inside, child, skip);
        Descended(rel, path);
        if |path| == 1 {
          assert path[1..] == [] && rel + path == child;
          WatchedUnder(inside, child, skip, child);
        } else {
          WatchedInIsExact(inside, child, skip, path[1..]);
        }
      }
  }

  /** The folders watched are exactly: the directory when it is clean; else the open,
      clean folders that are in no clean folder. */
  lemma FoldersAreTopmost(root: Listing, skip: set<Path>, d: Path)
    requires Distinct(root)
    ensures d in Watched(root, [], skip)
            <==> (d == [] || HasFolder(root, d)) && Open([], d, skip) && Clean(root, [], d, skip)
                 && forall k | 0 <= k < |d| :: !Clean(root, [], d[..k], skip)
  {
    NoneSkippedIff(root, [], skip);
    assert [] + d == d;
    if d == [] {
      WatchedUnder(root, [], skip, []);
    } else {
      WatchedInIsExact(root, [], skip, d);
      TopmostDeeper(root, [], d, skip);
    }
  }

  /** No folder watched is in another. */
  lemma FoldersAreApart(root: Listing, skip: set<Path>, a: Path, b: Path)
    requires Distinct(root) && a in Watched(root, [], skip) && b in Watched(root, [], skip) && a <= b
    ensures a == b
  {
    FoldersAreTopmost(root, skip, a);
    FoldersAreTopmost(root, skip, b);
    assert a == b[..|a|];
  }

  lemma {:induction false} FolderOfStart(l: Listing, d: Path, k: nat)
    requires k <= |d| && (d == [] || Has(l, d))
    ensures k == |d| || k == 0 || HasFolder(l, d[..k])
  {
    if 0 < k < |d| {
      match l
      case File(_, rest) => FolderOfStart(rest, d, k);
      case Folder(name, inside, rest) =>
        if d[0] == name && Has(inside, d[1..]) {
          FolderOfStart(inside, d[1..], k - 1);
          assert d[..k][1..] == d[1..][..k - 1];
          assert k == 1 ==> d[..k] == [name];
        } else {
          FolderOfStart(rest, d, k);
        }
    }
  }

  lemma OpenStart(prefix: Path, d: Path, k: nat, skip: set<Path>)
    requires k <= |d| && Open(prefix, d, skip)
    ensures Open(prefix, d[..k], skip)
  {
    forall j | 0 < j <= k ensures !Hidden(prefix + d[..k][..j], skip) {
      assert d[..k][..j] == d[..j];
    }
  }

  lemma StartsAreNested(a: Path, b: Path, d: Path)
    requires a <= d && b <= d
    ensures a <= b || b <= a
  {
    if |a| <= |b| { assert a == b[..|a|]; } else { assert b == a[..|b|]; }
  }

  /** The topmost clean folder that a clean folder is in. */
  lemma TopmostClean(root: Listing, skip: set<Path>, d: Path) returns (k: nat)
    requires Clean(root, [], d, skip)
    ensures k <= |d| && Clean(root, [], d[..k], skip)
    ensures forall j | 0 <= j < k :: !Clean(root, [], d[..k][..j], skip)
  {
    hide Clean;
    k := 0;
    assert d[..|d|] == d;
    while !Clean(root, [], d[..k], skip)
      invariant 0 <= k <= |d|
      invariant forall j | 0 <= j < k :: !Clean(root, [], d[..j], skip)
      decreases |d| - k
    {
      k := k + 1;
    }
    forall j | 0 <= j < k ensures !Clean(root, [], d[..k][..j], skip) {
      assert d[..k][..j] == d[..j];
    }
  }

  /** Every open, clean folder is under exactly one folder watched. */
  lemma FoldersCover(root: Listing, skip: set<Path>, d: Path) returns (top: Path)
    requires Distinct(root) && (d == [] || HasFolder(root, d)) && Open([], d, skip) && Clean(root, [], d, skip)
    ensures top in Watched(root, [], skip) && top <= d
    ensures forall other | other in Watched(root, [], skip) && other <= d :: other == top
  {
    hide Clean, Watched, Open, Distinct;
    var k := TopmostClean(root, skip, d);
    top := d[..k];
    FolderOfStart(root, d, k);
    OpenStart([], d, k, skip);
    assert k == |d| ==> top == d;
    assert top == [] || HasFolder(root, top);
    FoldersAreTopmost(root, skip, top);
    forall other | other in Watched(root, [], skip) && other <= d ensures other == top {
      StartsAreNested(other, top, d);
      if other <= top {
        FoldersAreApart(root, skip, other, top);
      } else {
        FoldersAreApart(root, skip, top, other);
      }
    }
  }

  lemma OpenAbove(skip: set<Path>, d: Path, k: nat)
    requires Open([], d, skip) && 0 < k <= |d|
    ensures !Hidden(d[..k], skip)
  {
    assert [] + d[..k] == d[..k];
  }

  lemma OpenBelow(root: Listing, skip: set<Path>, d: Path, f: Path, k: nat)
    requires Clean(root, [], d, skip) && HasFile(root, f) && d <= f && |d| < k <= |f|
    ensures !Hidden(f[..k], skip)
  {
    FolderOfStart(root, f, k);
    assert k == |f| ==> f[..k] == f;
    assert [] + f[..k] == f[..k];
    assert !IsSkipped(root, [], f[..k], skip);
  }

  /** Every file under a folder watched is in the walk. */
  lemma FilesUnderAreWalked(root: Listing, skip: set<Path>, d: Path, f: Path)
    requires Distinct(root) && d in Watched(root, [], skip) && d <= f && HasFile(root, f)
    ensures f in Walked(root, [], skip)
  {
    FoldersAreTopmost(root, skip, d);
    WalkIsExact(root, [], skip, f);
    assert [] + f == f;
    hide Distinct, Watched, Walked, HasFile, HasFolder, Clean, Hidden;
    forall k | 0 < k <= |f| ensures !Hidden([] + f[..k], skip) {
      assert [] + f[..k] == f[..k];
      if k <= |d| {
        OpenAbove(skip, d, k);
        assert f[..k] == d[..k];
      } else {
        OpenBelow(root, skip, d, f, k);
      }
    }
  }

  lemma {:induction false} NotBoth(l: Listing, path: Path)
    requires Distinct(l) && HasFile(l, path)
    ensures path != [] && !HasFolder(l, path)
  {
    HasNames(l, path);
    match l
    case File(name, rest) =>
      if path == [name] {
        if HasFolder(rest, path) { HasNames(rest, path); }
      } else {
        NotBoth(rest, path);
      }
    case Folder(name, inside, rest) =>
      if path[0] == name {
        if Has(rest, path) { HasNames(rest, path); }
        NotBoth(inside, path[1..]);
      } else {
        NotBoth(rest, path);
      }
  }

  lemma WatchedIsClean(root: Listing, skip: set<Path>, f: Path, d: Path)
    requires Distinct(root) && HasFile(root, f) && d in Watched(root, [], skip) && d <= f
    ensures |d| < |f| && Clean(root, [], f[..|d|], skip)
  {
    FoldersAreTopmost(root, skip, d);
    NotBoth(root, f);
    assert f[..|d|] == d;
    assert |d| == |f| ==> d == f;
  }

  lemma CleanIsWatched(root: Listing, skip: set<Path>, f: Path, k: nat)
    requires Distinct(root) && HasFile(root, f) && Open([], f, skip) && k < |f| && Clean(root, [], f[..k], skip)
    ensures exists d :: d in Watched(root, [], skip) && d <= f
  {
    var d := f[..k];
    FolderOfStart(root, f, k);
    assert forall j | 0 <= j <= k :: d[..j] == f[..j];
    hide Watched, Clean;
    var top := FoldersCover(root, skip, d);
    assert top in Watched(root, [], skip) && top <= f;
  }

  /** A file of the walk is under a folder watched just when a folder it is in is
      clean; else it is watched on its own. */
  lemma WalkedIsWatchedIff(root: Listing, skip: set<Path>, f: Path)
    requires Distinct(root) && f in Walked(root, [], skip)
    ensures (exists d :: d in Watched(root, [], skip) && d <= f)
            <==> exists k :: 0 <= k < |f| && Clean(root, [], f[..k], skip)
  {
    assert [] + f == f;
    WalkIsExact(root, [], skip, f);
    hide Distinct, Watched, Walked, Clean, Open;
    if d :| d in Watched(root, [], skip) && d <= f {
      WatchedIsClean(root, skip, f, d);
    }
    if k :| 0 <= k < |f| && Clean(root, [], f[..k], skip) {
      CleanIsWatched(root, skip, f, k);
    }
  }
}
