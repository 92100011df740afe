/**
 Which bundles ship which third-party package: a depth-first walk of the dependency graph
 from the manifest of each bundle.  Directories stand for package roots; which directory a
 dependency name resolves to, and what its manifest says, is given.
 */
module DependencyLicenses {
  import opened Wrappers

  type Dir = nat

  /** The parts of a manifest that matter; `base` is the last component of the package root. */
  datatype Package = Package(base: string, name: Option<string>, version: Option<string>, dependencies: set<string>)

  /** Readable manifests, and where each of their dependencies resolves to, if anywhere. */
  datatype Repository = Repository(packages: map<Dir, Package>, links: map<(Dir, string), Dir>)

  const FIRST_PARTY_PREFIX := "@awen/"

  predicate FirstParty(name: string) {
    FIRST_PARTY_PREFIX <= name
  }

  function NameOf(p: Package): string {
    if p.name.Some? then p.name.value else p.base
  }

  function VersionOf(p: Package): string {
    if p.version.Some? then p.version.value else "unknown"
  }

  function PackageIdentity(p: Package): string {
    NameOf(p) + "@" + VersionOf(p)
  }

  /** The identity tells names and versions apart; names may hold an "@", as scoped ones do, versions do not. */
  lemma IdentityTellsApart(p: Package, q: Package)
    requires '@' !in VersionOf(p) && '@' !in VersionOf(q)
    ensures PackageIdentity(p) == PackageIdentity(q) <==> NameOf(p) == NameOf(q) && VersionOf(p) == VersionOf(q)
  {
    if PackageIdentity(p) == PackageIdentity(q) {
      var s, m, n := PackageIdentity(p), |NameOf(p)|, |NameOf(q)|;
      assert s[m] == '@' && s[n] == '@';
      assert forall k :: m < k < |s| ==> s[k] == VersionOf(p)[k - m - 1];
      assert forall k :: n < k < |s| ==> s[k] == VersionOf(q)[k - n - 1];
      assert m == n;
      assert s[..m] == NameOf(p) && s[..n] == NameOf(q);
      assert s[m + 1..] == VersionOf(p) && s[n + 1..] == VersionOf(q);
    }
  }

  /** With an "@" in a version it does not. */
  lemma VersionWithAt()
    ensures exists p: Package, q: Package :: p.name != q.name && p.version.Some? && q.version.Some? &&
                                             PackageIdentity(p) == PackageIdentity(q)
  {
    var p := Package("", Some("a"), Some("1@2"), {});
    var q := Package("", Some("a@1"), Some("2"), {});
    assert PackageIdentity(p) == "a@1@2" == PackageIdentity(q);
  }

  /** Resolution only accepts a package that has the name asked for. */
  ghost predicate ResolvesByName(r: Repository) {
    forall from, dep :: (from, dep) in r.links && r.links[(from, dep)] in r.packages ==>
      r.packages[r.links[(from, dep)]].name == Some(dep)
  }

  /** A direct dependency. */
  predicate DependsOn(r: Repository, from: Dir, to: Dir) {
    && from in r.packages
    && exists dep <- r.packages[from].dependencies :: (from, dep) in r.links && r.links[(from, dep)] == to
  }

  /** A chain of one or more direct dependencies. */
  predicate Chain(r: Repository, from: Dir, via: seq<Dir>, to: Dir)
    decreases |via|
  {
    if via == [] then DependsOn(r, from, to)
    else DependsOn(r, from, via[0]) && Chain(r, via[0], via[1..], to)
  }

  ghost predicate Reaches(r: Repository, from: Dir, to: Dir) {
    exists via :: Chain(r, from, via, to)
  }

  lemma {:induction false} ChainExtends(r: Repository, from: Dir, via: seq<Dir>, mid: Dir, to: Dir)
    requires Chain(r, from, via, mid) && DependsOn(r, mid, to)
    ensures Chain(r, from, via + [mid], to)
    decreases |via|
  {
    if via == [] {
      assert [mid][1..] == [];
    } else {
      ChainExtends(r, via[0], via[1..], mid, to);
      assert (via + [mid])[1..] == via[1..] + [mid];
    }
  }

  /** A third-party package with this identity. */
  predicate IsThirdParty(r: Repository, d: Dir, identity: string) {
    && d in r.packages && r.packages[d].name.Some? && !FirstParty(r.packages[d].name.value)
    && PackageIdentity(r.packages[d]) == identity
  }

  datatype Manifest = Manifest(dir: Dir, bundle: string)

  /** From the manifest of some part of the bundle a package root with this identity is reachable. */
  ghost predicate Ships(r: Repository, manifests: seq<Manifest>, bundle: string, identity: string) {
    exists m <- manifests, d: Dir :: m.bundle == bundle && Reaches(r, m.dir, d) && IsThirdParty(r, d, identity)
  }

  class Collection {
    const repo: Repository
    var visited: set<(string, Dir)>
    var byIdentity: map<string, set<string>>

    constructor (r: Repository)
      ensures repo == r && visited == {} && byIdentity == map[]
    {
      repo, visited, byIdentity := r, {}, map[];
    }

    predicate Listed(identity: string, bundle: string)
      reads this
    {
      identity in byIdentity && bundle in byIdentity[identity]
    }

    /** The collection lists exactly the third-party packages visited so far. */
    ghost predicate ListsVisited()
      reads this
    {
      && (forall identity, bundle :: Listed(identity, bundle) <==>
            exists d :: (bundle, d) in visited && IsThirdParty(repo, d, identity))
      && (forall identity <- byIdentity :: byIdentity[identity] != {})
    }

    /** The manifest of a directory was read and all its dependencies have been visited for the bundle. */
    ghost predicate DependenciesVisited(bundle: string, d: Dir)
      reads this
    {
      d in repo.packages && forall to: Dir :: DependsOn(repo, d, to) ==> (bundle, to) in visited
    }

    /** `scope` holds the dependencies of `d` and of all its own members. */
    ghost predicate Scope(scope: set<Dir>, d: Dir) {
      && (forall to :: DependsOn(repo, d, to) ==> to in scope)
      && (forall from, to :: from in scope && DependsOn(repo, from, to) ==> to in scope)
    }

    /** What remains to be visited for a bundle. */
    ghost function Unvisited(bundle: string): set<Dir>
      reads this
    {
      set d | d in repo.links.Values && (bundle, d) !in visited
    }

    /** Record one package root just marked as visited. */
    method Record(d: Dir, name: string, bundle: string)
      requires (bundle, d) !in visited && (d in repo.packages ==> repo.packages[d].name == Some(name))
      requires ListsVisited()
      modifies this
      ensures visited == old(visited) + {(bundle, d)} && ListsVisited()
    {
      visited := visited + {(bundle, d)};
      if d in repo.packages && !FirstParty(name) {
        var identity := PackageIdentity(repo.packages[d]);
        byIdentity := byIdentity[identity := (if identity in byIdentity then byIdentity[identity] else {}) + {bundle}];
      }
      forall identity, b
        ensures Listed(identity, b) <==> exists d' :: (b, d') in visited && IsThirdParty(repo, d', identity)
      {
        assert old(Listed(identity, b)) <==> exists d' :: (b, d') in old(visited) && IsThirdParty(repo, d', identity);
        if b == bundle && IsThirdParty(repo, d, identity) {
          assert (b, d) in visited;
        }
      }
    }

    /** Visit a manifest; false if some manifest on the way cannot be read. */
    method VisitManifest(d: Dir, bundle: string, ghost scope: set<Dir>) returns (ok: bool)
      requires ResolvesByName(repo) && ListsVisited() && Scope(scope, d)
      modifies this
      ensures ListsVisited() && old(visited) <= visited
      ensures forall b, x :: (b, x) in visited && (b, x) !in old(visited) ==> b == bundle && x in scope
      ensures ok ==> DependenciesVisited(bundle, d)
      ensures ok ==> forall x :: (bundle, x) in visited && (bundle, x) !in old(visited) ==>
                DependenciesVisited(bundle, x)
      ensures !ok ==> exists x :: (x == d || x in scope) && x !in repo.packages
      decreases Unvisited(bundle)
    {
      if d !in repo.packages {
        return false;
      }
      var names := repo.packages[d].dependencies;
      while names != {}
        invariant names <= repo.packages[d].dependencies
        invariant ListsVisited() && old(visited) <= visited
        invariant forall b, x :: (b, x) in visited && (b, x) !in old(visited) ==> b == bundle && x in scope
        invariant forall name <- repo.packages[d].dependencies - names ::
                    (d, name) in repo.links ==> (bundle, repo.links[(d, name)]) in visited
        invariant forall x :: (bundle, x) in visited && (bundle, x) !in old(visited) ==> DependenciesVisited(bundle, x)
        decreases names
      {
        var name :| name in names;
        names := names - {name};
        if (d, name) in repo.links && (bundle, repo.links[(d, name)]) !in visited {
          var to := repo.links[(d, name)];
          assert DependsOn(repo, d, to);
          Record(to, name, bundle);
          assert to in old(Unvisited(bundle)) && to !in Unvisited(bundle);
          ok := VisitManifest(to, bundle, scope);
          if !ok {
            return;
          }
        }
      }
      ok := true;
    }
  }

  /** Everything reachable from the manifests of a bundle. */
  ghost function Reachable(r: Repository, manifests: seq<Manifest>, bundle: string): set<Dir> {
    set d | d in r.links.Values && exists m <- manifests :: m.bundle == bundle && Reaches(r, m.dir, d)
  }

  lemma ReachableIsScope(c: Collection, manifests: seq<Manifest>, m: Manifest)
    requires m in manifests
    ensures c.Scope(Reachable(c.repo, manifests, m.bundle), m.dir)
  {
    var scope := Reachable(c.repo, manifests, m.bundle);
    forall to | DependsOn(c.repo, m.dir, to)
      ensures to in scope
    {
      assert Chain(c.repo, m.dir, [], to);
    }
    forall from, to | from in scope && DependsOn(c.repo, from, to)
      ensures to in scope
    {
      var n :| n in manifests && n.bundle == m.bundle && Reaches(c.repo, n.dir, from);
      var via :| Chain(c.repo, n.dir, via, from);
      ChainExtends(c.repo, n.dir, via, from, to);
    }
  }

  lemma {:induction false} ClosedHoldsChain(c: Collection, bundle: string, from: Dir, via: seq<Dir>, to: Dir)
    requires Chain(c.repo, from, via, to) && c.DependenciesVisited(bundle, from)
    requires forall x :: (bundle, x) in c.visited ==> c.DependenciesVisited(bundle, x)
    ensures (bundle, to) in c.visited
    decreases |via|
  {
    if via != [] {
      ClosedHoldsChain(c, bundle, via[0], via[1..], to);
    }
  }

  /**
   Each identity is listed with exactly the bundles that ship it, also when the graph has cycles; the collection
   fails exactly if the manifest of a bundle or of something reachable from it cannot be read.
   */
  method CollectProductionDependencyPackages(r: Repository, manifests: seq<Manifest>)
    returns (ok: bool, c: Collection)
    requires ResolvesByName(r)
    ensures fresh(c) && c.repo == r
    ensures ok ==> forall identity, bundle :: c.Listed(identity, bundle) <==> Ships(r, manifests, bundle, identity)
    ensures ok ==> forall identity <- c.byIdentity :: c.byIdentity[identity] != {}
    ensures !ok <==> exists m <- manifests, d: Dir :: (d == m.dir || Reaches(r, m.dir, d)) && d !in r.packages
  {
    c := new Collection(r);
    for i := 0 to |manifests|
      invariant c.ListsVisited()
      invariant forall b, x :: (b, x) in c.visited ==> x in Reachable(r, manifests, b)
      invariant forall b, x :: (b, x) in c.visited ==> c.DependenciesVisited(b, x)
      invariant forall j :: 0 <= j < i ==> c.DependenciesVisited(manifests[j].bundle, manifests[j].dir)
    {
      var m := manifests[i];
      ReachableIsScope(c, manifests, m);
      ok := c.VisitManifest(m.dir, m.bundle, Reachable(r, manifests, m.bundle));
      if !ok {
        return;
      }
    }
    ok := true;
    forall m, d: Dir | m in manifests && Reaches(r, m.dir, d)
      ensures (m.bundle, d) in c.visited
    {
      var via :| Chain(r, m.dir, via, d);
      var j :| 0 <= j < |manifests| && manifests[j] == m;
      ClosedHoldsChain(c, m.bundle, m.dir, via, d);
    }
    forall identity, bundle
      ensures c.Listed(identity, bundle) <==> Ships(r, manifests, bundle, identity)
    {
      if Ships(r, manifests, bundle, identity) {
        var m, d: Dir :| m in manifests && m.bundle == bundle && Reaches(r, m.dir, d) && IsThirdParty(r, d, identity);
        assert (bundle, d) in c.visited;
      }
    }
  }
}
