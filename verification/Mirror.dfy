/** Applying an extracted bundle to the destination directory (mdm-client/.../BundleSync.kt).
    A tree maps the relative path of every entry below a root to what is there; contents are
    opaque. Operations on single files succeed; a directory is removed only if it is empty. */
module Mirror {

  type Path = seq<string>

  datatype Node = File(content: string) | Dir | Link

  type Tree = map<Path, Node>

  /** What stands where a root directory should be. */
  datatype Root = Absent | Directory | SymbolicLink | OtherFile

  datatype Outcome = Synced(added: nat, updated: nat, deleted: nat) | Failed

  /** Every entry hangs below the root through ordinary directories. */
  ghost predicate Grounded(t: Tree) {
    forall p :: p in t ==> p != [] && forall n :: 0 < n < |p| ==> p[..n] in t && t[p[..n]].Dir?
  }

  predicate IsFile(t: Tree, p: Path) {
    p in t && t[p].File?
  }

  function Files(t: Tree): map<Path, string> {
    map p | p in t && t[p].File? :: t[p].content
  }

  /** A listing of all entries, each once. */
  ghost predicate Lists(t: Tree, walk: seq<Path>) {
    && (forall p :: p in walk <==> p in t)
    && (forall i, j :: 0 <= i < j < |walk| ==> walk[i] != walk[j])
  }

  predicate Empty(t: Tree, p: Path) {
    forall q :: q in t ==> !(p < q)
  }

  /** The copy of one file succeeds: ordinary directories or nothing above it, and at its own
      place nothing, a file, or a directory that can be removed because it is empty. */
  predicate Copyable(t: Tree, p: Path) {
    && p != [] && (forall n :: 0 < n < |p| && p[..n] in t ==> t[p[..n]].Dir?)
    && (p in t ==> t[p].File? || (t[p].Dir? && Empty(t, p)))
  }

  predicate Above(q: Path, files: set<Path>) {
    q != [] && exists p :: p in files && q < p
  }

  function Prefixes(p: Path): set<Path> {
    set n | 0 < n < |p| :: p[..n]
  }

  function AllPrefixes(files: set<Path>): set<Path> {
    set p, n | p in files && 0 < n < |p| :: p[..n]
  }

  /** `t` with these files and the directories above them. */
  function Overlaid(t: Tree, files: map<Path, string>): Tree {
    map q | q in t.Keys + files.Keys + AllPrefixes(files.Keys) ::
      if q in files then File(files[q]) else if q in t then t[q] else Dir
  }

  function Put(t: Tree, p: Path, content: string): Tree {
    map q | q in t.Keys + {p} + Prefixes(p) :: if q == p then File(content) else if q in t then t[q] else Dir
  }

  // ---- What the deletion keeps ----

  /** What the two sets of staged names admit at a destination entry. */
  predicate Kept(files: set<Path>, dirs: set<Path>, p: Path, node: Node) {
    (node.File? && p in files) || (node.Dir? && p in dirs)
  }

  function StagedFiles(staging: Tree): set<Path> {
    Files(staging).Keys
  }

  function StagedDirs(staging: Tree): set<Path> {
    OwnDirs(staging) + AllPrefixes(StagedFiles(staging))
  }

  function OwnDirs(staging: Tree): set<Path> {
    set p | p in staging && staging[p].Dir?
  }

  function Pruned(t: Tree, files: set<Path>, dirs: set<Path>): Tree {
    map q | q in t && Kept(files, dirs, q, t[q]) :: t[q]
  }

  predicate NoLinks(t: Tree) {
    forall p :: p in t ==> !t[p].Link?
  }

  /** Every staged file can be copied. */
  predicate Acceptable(staging: Tree, t: Tree) {
    NoLinks(staging) && forall p :: p in Files(staging) ==> Copyable(t, p)
  }

  /** A link sits where the bundle has an entry. */
  predicate Blocked(t: Tree, files: set<Path>, dirs: set<Path>) {
    exists p :: p in t && t[p].Link? && (p in files || p in dirs)
  }

  function Synchronised(staging: Tree, t: Tree, deleteExtras: bool): Tree {
    var copied := Overlaid(t, Files(staging));
    if deleteExtras then Pruned(copied, StagedFiles(staging), StagedDirs(staging)) else copied
  }

  // ---- Copying ----

  function Part(files: map<Path, string>, done: set<Path>): map<Path, string> {
    map p | p in files && p in done :: files[p]
  }

  lemma PrefixOfPrefix(p: Path, q: Path)
    requires q < p
    ensures p[..|q|] == q
  {
  }

  lemma InAllPrefixes(files: set<Path>, q: Path)
    ensures q in AllPrefixes(files) <==> Above(q, files)
  {
    if Above(q, files) {
      var p :| p in files && q < p;
      PrefixOfPrefix(p, q);
      assert q == p[..|q|] && 0 < |q| < |p|;
    }
  }

  /** No staged file lies above another. */
  lemma FilesAreLeaves(staging: Tree, p: Path, q: Path)
    requires Grounded(staging) && p in Files(staging) && q in Files(staging)
    ensures !(p < q)
  {
    if p < q {
      PrefixOfPrefix(q, p);
    }
  }

  /** Copying some files changes nothing about whether another one can be copied, or existed. */
  lemma OthersDoNotMatter(staging: Tree, t: Tree, done: set<Path>, p: Path)
    requires Grounded(staging) && done <= Files(staging).Keys && p in Files(staging) && p !in done
    ensures var cur := Overlaid(t, Part(Files(staging), done));
      (Copyable(cur, p) <==> Copyable(t, p)) && (IsFile(cur, p) <==> IsFile(t, p))
  {
    var part := Part(Files(staging), done);
    var cur := Overlaid(t, part);
    assert part.Keys == done;
    forall q | q == p || (q < p && q != []) ensures q in t ==> q in cur && cur[q] == t[q]
      ensures q !in t && q in cur ==> q != p && cur[q].Dir?
    {
      InAllPrefixes(done, q);
      if q in done {
        FilesAreLeaves(staging, q, p);
      }
      if q == p && Above(p, done) {
        var r :| r in done && p < r;
        FilesAreLeaves(staging, p, r);
      }
    }
    assert forall n :: 0 < n < |p| ==> p[..n] < p;
    if p in t && t[p].Dir? {
      NothingAppearsBelow(staging, t, done, p);
    }
  }

  lemma NothingAppearsBelow(staging: Tree, t: Tree, done: set<Path>, p: Path)
    requires Grounded(staging) && done <= Files(staging).Keys && p in Files(staging)
    ensures Empty(Overlaid(t, Part(Files(staging), done)), p) <==> Empty(t, p)
  {
    var part := Part(Files(staging), done);
    var cur := Overlaid(t, part);
    assert part.Keys == done;
    assert t.Keys <= cur.Keys;
    if Empty(t, p) {
      forall q | q in cur ensures !(p < q) {
        if p < q && q !in t {
          InAllPrefixes(done, q);
          var r :| r in done && (r == q || q < r);
          assert p < r;
          FilesAreLeaves(staging, p, r);
        }
      }
    }
  }

  lemma PutExtends(staging: Tree, t: Tree, done: set<Path>, p: Path)
    requires Grounded(staging) && done <= Files(staging).Keys && p in Files(staging) && p !in done
    ensures Put(Overlaid(t, Part(Files(staging), done)), p, Files(staging)[p])
      == Overlaid(t, Part(Files(staging), done + {p}))
  {
    var files := Files(staging);
    var part, more := Part(files, done), Part(files, done + {p});
    assert part.Keys == done && more.Keys == done + {p};
    PutOne(t, part, more, p, files[p]);
  }

  lemma PrefixesOfOneMore(files: set<Path>, p: Path)
    ensures AllPrefixes(files + {p}) == AllPrefixes(files) + Prefixes(p)
  {
  }

  lemma PutOne(t: Tree, part: map<Path, string>, more: map<Path, string>, p: Path, content: string)
    requires p !in part && more == part[p := content]
    ensures Put(Overlaid(t, part), p, content) == Overlaid(t, more)
  {
    hide AllPrefixes, Prefixes;
    assert more.Keys == part.Keys + {p};
    PrefixesOfOneMore(part.Keys, p);
    assert Put(Overlaid(t, part), p, content).Keys == Overlaid(t, more).Keys;
  }

  // ---- What a synchronisation achieves ----

  lemma OverlaidFiles(t: Tree, files: map<Path, string>)
    ensures Files(Overlaid(t, files)) == Files(t) + files
  {
    hide AllPrefixes;
  }

  /** Ancestors of staged entries are staged directories. */
  lemma StagedAncestors(staging: Tree, p: Path, q: Path)
    requires Grounded(staging) && (p in StagedFiles(staging) || p in StagedDirs(staging)) && q < p && q != []
    ensures q in StagedDirs(staging)
  {
    StagedDirsAreItsOwn(staging);
    PrefixOfPrefix(p, q);
    assert p[..|q|] in staging;
  }

  lemma StagedDirsAreItsOwn(staging: Tree)
    requires Grounded(staging)
    ensures StagedDirs(staging) == OwnDirs(staging)
  {
    forall q | q in AllPrefixes(StagedFiles(staging)) ensures q in staging && staging[q].Dir? {
      InAllPrefixes(StagedFiles(staging), q);
      var r :| r in StagedFiles(staging) && q < r;
      PrefixOfPrefix(r, q);
      assert r[..|q|] in staging;
    }
  }

  /** The mirror: the destination has exactly the staged files with their contents, only staged
      directories, and no link. */
  lemma MirrorIsExact(staging: Tree, t: Tree)
    requires Grounded(staging)
    ensures var after := Synchronised(staging, t, true);
      && Files(after) == Files(staging) && NoLinks(after)
      && forall p :: p in after && after[p].Dir? ==> p in staging && staging[p].Dir?
  {
    hide AllPrefixes;
    OverlaidFiles(t, Files(staging));
    StagedDirsAreItsOwn(staging);
    var copied, after := Overlaid(t, Files(staging)), Synchronised(staging, t, true);
    forall p | p in Files(staging) ensures p in Files(after) && Files(after)[p] == Files(staging)[p] {
      assert copied[p] == File(Files(staging)[p]);
    }
  }

  /** Without deletion the staged files override the destination's, and nothing else goes. */
  lemma OverlayIsExact(staging: Tree, t: Tree)
    ensures var after := Synchronised(staging, t, false);
      && Files(after) == Files(t) + Files(staging)
      && (forall p :: p in t && p !in Files(staging) ==> p in after && after[p] == t[p])
      && (forall p :: p in after && p !in t ==> p in Files(staging) || Above(p, Files(staging).Keys))
  {
    OverlaidFiles(t, Files(staging));
    forall p | p in AllPrefixes(Files(staging).Keys) ensures Above(p, Files(staging).Keys) {
      InAllPrefixes(Files(staging).Keys, p);
    }
    hide AllPrefixes;
  }

  lemma OverlaidIsGrounded(staging: Tree, t: Tree)
    requires Grounded(staging) && Grounded(t) && Acceptable(staging, t)
    ensures Grounded(Overlaid(t, Files(staging)))
  {
    var files := Files(staging);
    var after := Overlaid(t, files);
    forall p, n | p in after && 0 < n < |p| ensures p[..n] in after && after[p[..n]].Dir? {
      var q := p[..n];
      InAllPrefixes(files.Keys, q);
      InAllPrefixes(files.Keys, p);
      if p in files || Above(p, files.Keys) {
        var r :| r in files && (r == p || p < r);
        assert q < r;
        assert Above(q, files.Keys);
        assert r[..n] == q;
        assert Copyable(t, r);
        if q in files {
          FilesAreLeaves(staging, q, r);
        }
      } else {
        assert p in t && q in t && t[q].Dir?;
        assert q in files ==> Copyable(t, q);
      }
    }
    forall p | p in after ensures p != [] {
      InAllPrefixes(files.Keys, p);
    }
  }

  lemma MirrorIsGrounded(staging: Tree, t: Tree)
    requires Grounded(staging) && Grounded(t) && Acceptable(staging, t)
    ensures Grounded(Synchronised(staging, t, true))
  {
    OverlaidIsGrounded(staging, t);
    var after, copied := Synchronised(staging, t, true), Overlaid(t, Files(staging));
    forall p, n | p in after && 0 < n < |p| ensures p[..n] in after && after[p[..n]].Dir? {
      StagedAncestors(staging, p, p[..n]);
    }
  }

  /** Mirroring again adds and deletes nothing. */
  lemma MirrorIsStable(staging: Tree, t: Tree)
    requires Grounded(staging) && Grounded(t) && Acceptable(staging, t)
    ensures var after := Synchronised(staging, t, true);
      Acceptable(staging, after) && Synchronised(staging, after, true) == after
  {
    var after := Synchronised(staging, t, true);
    MirrorIsExact(staging, t);
    MirrorIsGrounded(staging, t);
    forall p | p in Files(staging) ensures Copyable(after, p) {
      assert p in Files(after);
    }
    forall q | q in AllPrefixes(Files(staging).Keys) ensures q in after {
      InAllPrefixes(Files(staging).Keys, q);
      var r :| r in Files(staging) && q < r;
      PrefixOfPrefix(r, q);
      assert r in Files(after) && r[..|q|] in after;
    }
    OverlayOfItself(after, Files(staging));
  }

  lemma OverlayOfItself(t: Tree, files: map<Path, string>)
    requires Files(t) == files && AllPrefixes(files.Keys) <= t.Keys
    ensures Overlaid(t, files) == t
  {
    hide AllPrefixes;
    forall p | p in files ensures p in t && t[p] == File(files[p]) {
      assert p in Files(t);
    }
    assert files.Keys <= t.Keys;
  }

  /** A synchronisation succeeds exactly when staging holds no link, each staged file finds nothing
      but directories above it and at its place nothing, a file or an empty directory, and, if extras
      go, no link stands where anything is staged. */
  lemma SucceedsExactlyWhen(staging: Tree, t: Tree, deleteExtras: bool)
    requires Grounded(staging)
    ensures
      var succeeds := Acceptable(staging, t)
        && (deleteExtras ==> !Blocked(Overlaid(t, Files(staging)), StagedFiles(staging), StagedDirs(staging)));
      succeeds <==>
        && (forall p :: p in staging ==> staging[p] != Link)
        && (forall p, q :: p in staging && staging[p].File? && q in t && q != [] && q < p ==> t[q] == Dir)
        && (forall p :: p in staging && staging[p].File? && p in t ==>
              t[p].File? || (t[p] == Dir && forall q :: q in t ==> !(p < q)))
        && (deleteExtras ==> forall p :: p in t && t[p] == Link ==> p !in staging)
  {
    StagedDirsAreItsOwn(staging);
    CopyableExactlyWhen(staging, t);
    if Acceptable(staging, t) {
      BlockedExactlyWhen(staging, t);
    }
    hide Acceptable, Blocked, Copyable, Grounded, Overlaid;
  }

  ghost predicate Clear(t: Tree, p: Path) {
    && (forall q :: q in t && q != [] && q < p ==> t[q] == Dir)
    && (p in t ==> t[p].File? || (t[p] == Dir && forall q :: q in t ==> !(p < q)))
  }

  lemma CopyableIsClear(t: Tree, p: Path)
    requires p != []
    ensures Copyable(t, p) <==> Clear(t, p)
  {
    if Copyable(t, p) {
      forall q | q in t && q != [] && q < p ensures t[q] == Dir {
        PrefixOfPrefix(p, q);
        assert p[..|q|] in t;
      }
    }
    if Clear(t, p) {
      forall n | 0 < n < |p| && p[..n] in t ensures t[p[..n]].Dir? {
        assert p[..n] < p;
      }
    }
  }

  lemma CopyableExactlyWhen(staging: Tree, t: Tree)
    requires Grounded(staging)
    ensures Acceptable(staging, t) <==>
      && (forall p :: p in staging ==> staging[p] != Link)
      && (forall p :: p in staging && staging[p].File? ==> Clear(t, p))
  {
    hide Copyable, Clear;
    forall p | p in staging ensures Copyable(t, p) <==> Clear(t, p) {
      CopyableIsClear(t, p);
    }
    assert forall p :: p in Files(staging) <==> p in staging && staging[p].File?;
  }

  lemma BlockedExactlyWhen(staging: Tree, t: Tree)
    requires Grounded(staging) && Acceptable(staging, t)
    ensures Blocked(Overlaid(t, Files(staging)), StagedFiles(staging), StagedDirs(staging))
       <==> exists p :: p in t && t[p] == Link && p in staging
  {
    hide Grounded, AllPrefixes;
    StagedDirsAreItsOwn(staging);
    var copied := Overlaid(t, Files(staging));
    forall p | p in t && t[p] == Link && p in staging
      ensures p in copied && copied[p].Link? && p in StagedDirs(staging)
    {
      assert p in Files(staging) ==> Copyable(t, p);
    }
  }

  // ---- The deletion ----

  /** No entry comes before one that lies below it. */
  ghost predicate BottomUp(entries: seq<Path>) {
    forall i, j :: 0 <= i < j < |entries| ==> entries[i] != entries[j] && !(entries[i] < entries[j])
  }

  ghost function Below(t: Tree, dir: Path): set<Path> {
    set q | q in t && dir < q
  }

  lemma BelowShrinks(t: Tree, dir: Path, child: Path)
    requires child in t && dir < child
    ensures |Below(t, child)| < |Below(t, dir)|
  {
    SmallerSet(Below(t, child), Below(t, dir), child);
  }

  lemma SmallerSet(a: set<Path>, b: set<Path>, x: Path)
    requires a <= b && x in b && x !in a
    ensures |a| < |b|
  {
    var rest := b - {x};
    assert a <= rest && b == rest + {x};
    SubsetIsSmaller(a, rest);
  }

  lemma {:induction false} SubsetIsSmaller(a: set<Path>, b: set<Path>)
    requires a <= b
    ensures |a| <= |b|
    decreases a
  {
    if a != {} {
      var x :| x in a;
      SubsetIsSmaller(a - {x}, b - {x});
    }
  }

  /** One more subtree: its entries, then the directory itself. */
  lemma BottomUpExtends(entries: seq<Path>, sub: seq<Path>, dir: Path, child: Path)
    requires BottomUp(entries) && BottomUp(sub) && |child| == |dir| + 1
    requires forall q :: q in entries ==> |q| > |dir| && q[..|dir| + 1] != child
    requires forall q :: q in sub ==> child < q
    ensures BottomUp(entries + sub + [child])
  {
    var all := entries + sub + [child];
    forall i, j | 0 <= i < j < |all| ensures all[i] != all[j] && !(all[i] < all[j]) {
      if i < |entries| <= j {
        assert all[i] in entries;
        assert j < |entries| + |sub| ==> all[j] in sub;
        assert all[j][..|dir| + 1] == child;
      } else if |entries| <= i < |entries| + |sub| == j {
        assert all[i] in sub;
      }
    }
  }

  ghost predicate AncestorsKept(files: set<Path>, dirs: set<Path>) {
    forall p, q :: (p in files || p in dirs) && q < p && q != [] ==> q in dirs
  }

  /** `t` when everything but `todo` has been dealt with. */
  ghost function PrunedBut(t: Tree, files: set<Path>, dirs: set<Path>, todo: set<Path>): Tree {
    map q | q in t && (q in todo || Kept(files, dirs, q, t[q])) :: t[q]
  }

  ghost function Elements(s: seq<Path>): set<Path> {
    set q | q in s
  }

  lemma BelowComesFirst(entries: seq<Path>, i: nat, q: Path)
    requires BottomUp(entries) && i < |entries| && entries[i] < q
    ensures q !in Elements(entries[i..])
  {
    forall k | 0 <= k < |entries| - i ensures entries[i..][k] != q {
      assert entries[i..][k] == entries[i + k];
    }
  }

  /** A directory that goes is empty when its turn comes. */
  lemma ExtraDirectoryIsEmpty(t: Tree, files: set<Path>, dirs: set<Path>, entries: seq<Path>, i: nat)
    requires BottomUp(entries) && i < |entries| && entries[i] != [] && AncestorsKept(files, dirs) && entries[i] !in dirs
    ensures Empty(PrunedBut(t, files, dirs, Elements(entries[i..])), entries[i])
  {
    hide BottomUp, Elements;
    var p := entries[i];
    forall q | p < q ensures q !in PrunedBut(t, files, dirs, Elements(entries[i..])) {
      BelowComesFirst(entries, i, q);
    }
  }

  ghost function Gone(t: Tree, files: set<Path>, todo: set<Path>): set<Path> {
    set q | q in t && !t[q].Dir? && q !in files && q !in todo
  }

  lemma TodoShrinks(entries: seq<Path>, i: nat)
    requires BottomUp(entries) && i < |entries|
    ensures entries[i] in Elements(entries[i..])
    ensures Elements(entries[i + 1..]) == Elements(entries[i..]) - {entries[i]}
  {
    var p := entries[i];
    var rest := entries[i + 1..];
    assert entries[i..] == [p] + rest;
    forall k | 0 <= k < |rest| ensures rest[k] != p {
      assert rest[k] == entries[i + 1 + k];
    }
  }

  lemma PruneStep(t: Tree, files: set<Path>, dirs: set<Path>, todo: set<Path>, p: Path)
    requires p in t && p in todo
    ensures var before, after := PrunedBut(t, files, dirs, todo), PrunedBut(t, files, dirs, todo - {p});
      p in before && before[p] == t[p] && after == if Kept(files, dirs, p, t[p]) then before else before - {p}
    ensures |Gone(t, files, todo - {p})| == |Gone(t, files, todo)| + (if !t[p].Dir? && p !in files then 1 else 0)
  {
    assert Gone(t, files, todo - {p}) == Gone(t, files, todo) + (if !t[p].Dir? && p !in files then {p} else {});
  }

  lemma BlockedBy(t: Tree, files: set<Path>, dirs: set<Path>, p: Path)
    requires p in t && t[p].Link? && (p in files || p in dirs)
    ensures Blocked(t, files, dirs)
  {
  }

  ghost predicate Visited(t: Tree, dir: Path, done: set<Path>, entries: seq<Path>) {
    forall q :: q in entries <==> q in t && dir < q && q[..|dir| + 1] in done
  }

  /** The destination directory. */
  class Destination {
    var root: Root
    var nodes: Tree

    constructor (root: Root, t: Tree)
      ensures this.root == root && nodes == t
    {
      this.root, nodes := root, t;
    }

    /** `File.delete`. */
    method Delete(p: Path) returns (gone: bool)
      requires p in nodes
      modifies this`nodes
      ensures gone == (!old(nodes)[p].Dir? || Empty(old(nodes), p))
      ensures nodes == if gone then old(nodes) - {p} else old(nodes)
    {
      gone := !nodes[p].Dir? || Empty(nodes, p);
      if gone {
        nodes := nodes - {p};
      }
    }

    /** One file with the directories above it, or an exception. */
    method CopyFile(p: Path, content: string) returns (ok: bool)
      modifies this`nodes
      ensures ok == Copyable(old(nodes), p)
      ensures nodes == if ok then Put(old(nodes), p, content) else old(nodes)
    {
      ok := Copyable(nodes, p);
      if ok {
        nodes := Put(nodes, p, content);
      }
    }

    method CopyAll(staging: Tree, walk: seq<Path>) returns (ok: bool, added: nat, updated: nat)
      requires Grounded(staging) && Lists(staging, walk)
      modifies this`nodes
      ensures ok <==> Acceptable(staging, old(nodes))
      ensures ok ==> nodes == Overlaid(old(nodes), Files(staging))
      ensures PartlyCopied(staging, old(nodes), nodes)
      ensures ok ==> added == |StagedFiles(staging) - Files(old(nodes)).Keys|
      ensures ok ==> updated == |StagedFiles(staging) * Files(old(nodes)).Keys|
    {
      hide Part, Overlaid, Copyable, Grounded, Put, Acceptable;
      ghost var t := nodes;
      ghost var done: set<Path> := {};
      ok, added, updated := true, 0, 0;
      OverlaidByNothing(t, Files(staging));
      for i := 0 to |walk|
        invariant ok && done <= StagedFiles(staging) && nodes == Overlaid(t, Part(Files(staging), done))
        invariant forall k :: i <= k < |walk| ==> walk[k] !in done
        invariant forall k :: 0 <= k < i ==> !staging[walk[k]].Link? && (IsFile(staging, walk[k]) ==> walk[k] in done)
        invariant forall q :: q in done ==> Copyable(t, q)
        invariant added == |done - Files(t).Keys| && updated == |done * Files(t).Keys|
      {
        var p := walk[i];
        assert p in staging;
        if staging[p].Link? {
          RefusedBy(staging, t, p);
          return false, added, updated;
        }
        if staging[p].File? {
          OthersDoNotMatter(staging, t, done, p);
          PutExtends(staging, t, done, p);
          var existed := IsFile(nodes, p);
          var copied := CopyFile(p, staging[p].content);
          if !copied {
            RefusedBy(staging, t, p);
            return false, added, updated;
          }
          CountOne(done, Files(t).Keys, p);
          if existed {
            updated := updated + 1;
          } else {
            added := added + 1;
          }
          done := done + {p};
        }
      }
      AllCopied(staging, walk, t, done);
    }

    method AddParents(dirs: set<Path>, p: Path) returns (more: set<Path>)
      ensures more == dirs + Prefixes(p)
    {
      more := dirs;
      var n := |p| - 1;
      while n > 0
        invariant more == dirs + set m | n < m < |p| && m > 0 :: p[..m]
      {
        more := more + {p[..n]};
        n := n - 1;
      }
      assert (set m | n < m < |p| && m > 0 :: p[..m]) == Prefixes(p);
    }

    /** The names of the staged files and directories, with the parents of every file. */
    method CollectStaged(staging: Tree, walk: seq<Path>) returns (files: set<Path>, dirs: set<Path>)
      requires Grounded(staging) && Lists(staging, walk) && NoLinks(staging)
      ensures files == StagedFiles(staging) && dirs == StagedDirs(staging)
    {
      hide Grounded, AllPrefixes, Prefixes;
      files, dirs := {}, {};
      ghost var own: set<Path> := {};
      NoPrefixes();
      for i := 0 to |walk|
        invariant files <= StagedFiles(staging) && own <= OwnDirs(staging) && dirs == own + AllPrefixes(files)
        invariant forall k :: 0 <= k < i ==> walk[k] in files || walk[k] in own
      {
        var p := walk[i];
        assert p in staging;
        if staging[p].Dir? {
          dirs := dirs + {p};
          own := own + {p};
        } else {
          PrefixesOfOneMore(files, p);
          files := files + {p};
          dirs := AddParents(dirs, p);
        }
      }
      assert files == StagedFiles(staging) && own == OwnDirs(staging);
    }

    method EntriesBottomUp(dir: Path) returns (entries: seq<Path>)
      requires Grounded(nodes)
      ensures BottomUp(entries) && forall q :: q in entries <==> q in nodes && dir < q
      decreases |Below(nodes, dir)|
    {
      hide BottomUp, Grounded, Visited;
      var left := set q | q in nodes && |q| == |dir| + 1 && dir < q;
      ghost var done: set<Path> := {};
      ghost var children := left;
      entries := [];
      NoEntries(nodes, dir);
      while left != {}
        invariant left + done == children && left !! done && BottomUp(entries) && Visited(nodes, dir, done, entries)
        decreases |left|
      {
        var child :| child in left;
        assert child in children;
        var sub: seq<Path> := [];
        NoEntries(nodes, dir);
        OnlyDirectoriesHold(nodes, child);
        if nodes[child].Dir? {
          BelowShrinks(nodes, dir, child);
          sub := EntriesBottomUp(child);
        }
        Subtree(nodes, dir, child, done, entries, sub);
        BottomUpExtends(entries, sub, dir, child);
        entries := entries + sub + [child];
        left, done := left - {child}, done + {child};
      }
      TopLevel(nodes, dir, children, entries);
    }

    method Prune(files: set<Path>, dirs: set<Path>, entries: seq<Path>) returns (blocked: bool, deleted: nat)
      requires Grounded(nodes) && AncestorsKept(files, dirs)
      requires BottomUp(entries) && forall q :: q in entries <==> q in nodes
      modifies this`nodes
      ensures blocked <==> Blocked(old(nodes), files, dirs)
      ensures !blocked ==> nodes == Pruned(old(nodes), files, dirs)
      ensures PartlyPruned(old(nodes), nodes, files, dirs)
      ensures !blocked ==> deleted == |set p | p in old(nodes) && !old(nodes)[p].Dir? && p !in files|
    {
      hide Grounded, BottomUp, AncestorsKept, Empty, PrunedBut, Gone, Elements, Blocked;
      ghost var t := nodes;
      deleted := 0;
      NothingIsTheRoot(t);
      NothingPruned(t, files, dirs, entries);
      for i := 0 to |entries|
        invariant nodes == PrunedBut(t, files, dirs, Elements(entries[i..]))
        invariant deleted == |Gone(t, files, Elements(entries[i..]))|
        invariant forall k :: 0 <= k < i ==> !(t[entries[k]].Link? && (entries[k] in files || entries[k] in dirs))
      {
        var p := entries[i];
        ghost var todo := Elements(entries[i..]);
        assert p in t;
        TodoShrinks(entries, i);
        PruneStep(t, files, dirs, todo, p);
        if nodes[p].Link? {
          if p in files || p in dirs {
            BlockedBy(t, files, dirs, p);
            return true, deleted;
          }
          var _ := Delete(p);
          deleted := deleted + 1;
        } else if nodes[p].File? {
          if p !in files {
            var _ := Delete(p);
            deleted := deleted + 1;
          }
        } else if p !in dirs {
          ExtraDirectoryIsEmpty(t, files, dirs, entries, i);
          var _ := Delete(p);
        }
      }
      AllPruned(t, files, dirs, entries);
      blocked := false;
    }

    /** `apply` once both roots are ordinary directories. */
    method ApplyTree(staging: Tree, walk: seq<Path>, deleteExtras: bool) returns (outcome: Outcome)
      requires Grounded(staging) && Lists(staging, walk) && Grounded(nodes)
      modifies this`nodes
      ensures Reported(outcome, staging, old(nodes), nodes, deleteExtras)
    {
      hide Grounded, BottomUp, AllPrefixes, Acceptable, Blocked, Overlaid, Copyable, Pruned, PartlyCopied,
        PartlyPruned, OnlyStagedAppears, NothingLost, OnlyExtrasGo, AllInPlace, AncestorsKept, Lists;
      var ok, added, updated := CopyAll(staging, walk);
      PartlyCopiedIsSafe(staging, old(nodes), nodes);
      CopiedIsInPlace(staging, old(nodes));
      if !ok {
        return Failed;
      }
      if !deleteExtras {
        return Synced(added, updated, 0);
      }
      assert NoLinks(staging) by { AcceptableHasNoLinks(staging, old(nodes)); }
      var files, dirs := CollectStaged(staging, walk);
      OverlaidIsGrounded(staging, old(nodes));
      var entries := EntriesBottomUp([]);
      NothingIsTheRoot(nodes);
      StagedAncestorsKept(staging);
      var blocked, deleted := Prune(files, dirs, entries);
      PartlyPrunedIsSafe(staging, old(nodes), nodes);
      if blocked {
        return Failed;
      }
      ExtrasSurviveCopy(staging, old(nodes));
      return Synced(added, updated, deleted);
    }

    /** `apply`. `walk` is the listing of the staging directory, `made` whether a missing
        destination can be created. A root that is no ordinary directory fails it at once. */
    method Apply(stagingRoot: Root, staging: Tree, walk: seq<Path>, deleteExtras: bool, made: bool)
      returns (outcome: Outcome)
      requires Grounded(staging) && Lists(staging, walk) && Grounded(nodes) && (root != Directory ==> nodes == map[])
      modifies this
      ensures Usable(stagingRoot, old(root), made) ==>
        root == Directory && Reported(outcome, staging, old(nodes), nodes, deleteExtras)
      ensures !Usable(stagingRoot, old(root), made) ==> outcome == Failed && root == old(root) && nodes == old(nodes)
    {
      hide Reported;
      if stagingRoot != Directory || root == SymbolicLink {
        return Failed;
      }
      if root == Absent {
        if !made {
          return Failed;
        }
        root := Directory;
      }
      if root != Directory {
        return Failed;
      }
      outcome := ApplyTree(staging, walk, deleteExtras);
    }
  }

  predicate Usable(staging: Root, destination: Root, made: bool) {
    staging == Directory && (destination == Directory || (destination == Absent && made))
  }

  /** Some of the staged files have been copied. */
  ghost predicate PartlyCopied(staging: Tree, t: Tree, now: Tree) {
    exists done: set<Path> :: done <= StagedFiles(staging) && now == Overlaid(t, Part(Files(staging), done))
  }

  /** Some of what is not staged has been deleted. */
  ghost predicate PartlyPruned(t: Tree, now: Tree, files: set<Path>, dirs: set<Path>) {
    exists todo: set<Path> :: now == PrunedBut(t, files, dirs, todo)
  }

  /** Every entry was there before, or is a staged file, or a directory made for one. */
  ghost predicate OnlyStagedAppears(staging: Tree, t: Tree, now: Tree) {
    forall p :: p in now ==>
      || (p in t && now[p] == t[p])
      || (p in Files(staging) && now[p] == File(Files(staging)[p]))
      || (now[p] == Dir && Above(p, StagedFiles(staging)))
  }

  /** No entry has gone, and only staged paths may hold something else. */
  ghost predicate NothingLost(staging: Tree, t: Tree, now: Tree) {
    forall p :: p in t ==> p in now && (now[p] == t[p] || p in Files(staging))
  }

  /** Success, the tree and the counts. */
  ghost predicate Achieved(outcome: Outcome, staging: Tree, t: Tree, now: Tree, deleteExtras: bool) {
    var copied, files := Overlaid(t, Files(staging)), StagedFiles(staging);
    && (outcome.Synced? <==>
          (Acceptable(staging, t) && (deleteExtras ==> !Blocked(copied, files, StagedDirs(staging)))))
    && (outcome.Synced? ==>
          && now == Synchronised(staging, t, deleteExtras)
          && outcome.added == |files - Files(t).Keys| && outcome.updated == |files * Files(t).Keys|
          && outcome.deleted == if deleteExtras then |Extras(staging, t)| else 0)
  }

  ghost predicate AllInPlace(staging: Tree, now: Tree) {
    forall p :: p in Files(staging) ==> p in now && now[p] == File(Files(staging)[p])
  }

  /** What goes is no staged file and no directory that is staged. */
  ghost predicate OnlyExtrasGo(staging: Tree, t: Tree, now: Tree) {
    forall p :: p in t && p !in now ==> p !in StagedFiles(staging) && !(t[p].Dir? && p in StagedDirs(staging))
  }

  /** The whole outcome of a synchronisation of `t` that left `now`; the last four hold of a
      failed one as well. */
  ghost predicate Reported(outcome: Outcome, staging: Tree, t: Tree, now: Tree, deleteExtras: bool) {
    && Achieved(outcome, staging, t, now, deleteExtras)
    && OnlyStagedAppears(staging, t, now) && OnlyExtrasGo(staging, t, now)
    && (!deleteExtras || !Acceptable(staging, t) ==> NothingLost(staging, t, now))
    && (Acceptable(staging, t) ==> AllInPlace(staging, now))
  }

  lemma OverlaidPart(t: Tree, files: map<Path, string>, done: set<Path>, p: Path)
    ensures var now := Overlaid(t, Part(files, done));
      && (p in t ==> p in now && (now[p] == t[p] || p in files))
      && (p in now ==>
            || (p in t && now[p] == t[p]) || (p in files && now[p] == File(files[p]))
            || (now[p] == Dir && Above(p, files.Keys)))
  {
    var part := Part(files, done);
    InAllPrefixes(part.Keys, p);
    hide AllPrefixes;
    assert Above(p, part.Keys) ==> Above(p, files.Keys);
  }

  lemma PartlyCopiedIsSafe(staging: Tree, t: Tree, now: Tree)
    requires PartlyCopied(staging, t, now)
    ensures OnlyStagedAppears(staging, t, now) && NothingLost(staging, t, now) && OnlyExtrasGo(staging, t, now)
  {
    var done: set<Path> :| done <= StagedFiles(staging) && now == Overlaid(t, Part(Files(staging), done));
    hide Overlaid, Part, Files, Above, StagedDirs;
    forall p ensures p in t ==> p in now && (now[p] == t[p] || p in Files(staging))
      ensures p in now ==>
        || (p in t && now[p] == t[p]) || (p in Files(staging) && now[p] == File(Files(staging)[p]))
        || (now[p] == Dir && Above(p, StagedFiles(staging)))
    {
      OverlaidPart(t, Files(staging), done, p);
    }
  }

  lemma CopiedIsInPlace(staging: Tree, t: Tree)
    ensures AllInPlace(staging, Overlaid(t, Files(staging)))
  {
    hide AllPrefixes;
  }

  lemma PartlyPrunedIsSafe(staging: Tree, t: Tree, now: Tree)
    requires PartlyPruned(Overlaid(t, Files(staging)), now, StagedFiles(staging), StagedDirs(staging))
    ensures OnlyStagedAppears(staging, t, now) && AllInPlace(staging, now) && OnlyExtrasGo(staging, t, now)
  {
    hide OnlyStagedAppears, StagedDirs, Overlaid, AllPrefixes;
    var copied := Overlaid(t, Files(staging));
    AllCopiedIsPartly(staging, t);
    PartlyCopiedIsSafe(staging, t, copied);
    CopiedIsInPlace(staging, t);
    FewerAppear(staging, t, copied, now);
  }

  lemma AllCopiedIsPartly(staging: Tree, t: Tree)
    ensures PartlyCopied(staging, t, Overlaid(t, Files(staging)))
  {
    assert Part(Files(staging), StagedFiles(staging)) == Files(staging);
  }

  lemma FewerAppear(staging: Tree, t: Tree, more: Tree, now: Tree)
    requires OnlyStagedAppears(staging, t, more) && forall p :: p in now ==> p in more && now[p] == more[p]
    ensures OnlyStagedAppears(staging, t, now)
  {
  }

  /** Files and links of the destination that the bundle does not have as files. */
  function Extras(staging: Tree, t: Tree): set<Path> {
    set p | p in t && !t[p].Dir? && p !in StagedFiles(staging)
  }

  lemma ExtrasSurviveCopy(staging: Tree, t: Tree)
    ensures Extras(staging, Overlaid(t, Files(staging))) == Extras(staging, t)
  {
    hide AllPrefixes;
  }

  lemma OverlaidByNothing(t: Tree, files: map<Path, string>)
    ensures Overlaid(t, Part(files, {})) == t
  {
    assert Part(files, {}) == map[];
  }

  lemma RefusedBy(staging: Tree, t: Tree, p: Path)
    requires p in staging && (staging[p].Link? || (staging[p].File? && !Copyable(t, p)))
    ensures !Acceptable(staging, t)
  {
    hide Copyable;
  }

  lemma AllCopied(staging: Tree, walk: seq<Path>, t: Tree, done: set<Path>)
    requires Lists(staging, walk) && done <= StagedFiles(staging)
    requires forall k :: 0 <= k < |walk| ==> !staging[walk[k]].Link? && (IsFile(staging, walk[k]) ==> walk[k] in done)
    requires forall q :: q in done ==> Copyable(t, q)
    ensures Acceptable(staging, t) && done == StagedFiles(staging) && Part(Files(staging), done) == Files(staging)
  {
    hide Copyable;
    assert done == StagedFiles(staging);
  }

  lemma NoPrefixes()
    ensures AllPrefixes({}) == {}
  {
  }

  lemma CountOne(done: set<Path>, had: set<Path>, p: Path)
    requires p !in done
    ensures |done + {p} - had| == |done - had| + (if p in had then 0 else 1)
    ensures |(done + {p}) * had| == |done * had| + (if p in had then 1 else 0)
  {
    if p in had {
      assert done + {p} - had == done - had && (done + {p}) * had == done * had + {p};
    } else {
      assert done + {p} - had == (done - had) + {p} && (done + {p}) * had == done * had;
    }
  }

  lemma NoEntries(t: Tree, dir: Path)
    ensures BottomUp([]) && Visited(t, dir, {}, [])
  {
  }

  lemma OnlyDirectoriesHold(t: Tree, child: Path)
    requires Grounded(t) && child in t
    ensures !t[child].Dir? ==> forall q :: q in t ==> !(child < q)
  {
    forall q | q in t && child < q ensures t[child].Dir? {
      PrefixOfPrefix(q, child);
      assert child != [] && q[..|child|] in t;
    }
  }

  lemma Subtree(t: Tree, dir: Path, child: Path, done: set<Path>, entries: seq<Path>, sub: seq<Path>)
    requires child in t && dir < child && |child| == |dir| + 1 && (forall q :: q in sub <==> q in t && child < q)
    requires child !in done && Visited(t, dir, done, entries)
    ensures Visited(t, dir, done + {child}, entries + sub + [child])
    ensures forall q :: q in entries ==> |q| > |dir| && q[..|dir| + 1] != child
  {
    forall q ensures q in entries + sub + [child] <==> q in t && dir < q && q[..|dir| + 1] in done + {child} {
      if q in t && dir < q && q[..|dir| + 1] == child {
        if |q| == |child| {
          assert q[..|dir| + 1] == q;
        } else {
          assert child < q;
        }
      }
    }
  }

  lemma TopLevel(t: Tree, dir: Path, children: set<Path>, entries: seq<Path>)
    requires Grounded(t) && children == (set q | q in t && |q| == |dir| + 1 && dir < q)
    requires Visited(t, dir, children, entries)
    ensures forall q :: q in entries <==> q in t && dir < q
  {
    forall q | q in t && dir < q ensures q[..|dir| + 1] in children {
      if |q| == |dir| + 1 {
        assert q[..|dir| + 1] == q;
      } else {
        assert q[..|dir| + 1] in t && dir < q[..|dir| + 1];
      }
    }
  }

  lemma NothingPruned(t: Tree, files: set<Path>, dirs: set<Path>, entries: seq<Path>)
    requires forall q :: q in t ==> q in entries
    ensures PrunedBut(t, files, dirs, Elements(entries[0..])) == t && |Gone(t, files, Elements(entries[0..]))| == 0
  {
    assert entries[0..] == entries;
    assert Gone(t, files, Elements(entries)) == {};
  }

  lemma AllPruned(t: Tree, files: set<Path>, dirs: set<Path>, entries: seq<Path>)
    requires forall q :: q in t <==> q in entries
    requires forall k :: 0 <= k < |entries| ==> !(t[entries[k]].Link? && (entries[k] in files || entries[k] in dirs))
    ensures PrunedBut(t, files, dirs, Elements(entries[|entries|..])) == Pruned(t, files, dirs)
    ensures Gone(t, files, Elements(entries[|entries|..])) == set p | p in t && !t[p].Dir? && p !in files
    ensures !Blocked(t, files, dirs)
  {
    assert Elements(entries[|entries|..]) == {};
  }

  lemma AcceptableHasNoLinks(staging: Tree, t: Tree)
    requires Acceptable(staging, t)
    ensures NoLinks(staging)
  {
  }

  lemma NothingIsTheRoot(t: Tree)
    requires Grounded(t)
    ensures forall q :: q in t ==> [] < q
  {
  }

  lemma StagedAncestorsKept(staging: Tree)
    requires Grounded(staging)
    ensures AncestorsKept(StagedFiles(staging), StagedDirs(staging))
  {
    forall p, q | (p in StagedFiles(staging) || p in StagedDirs(staging)) && q < p && q != []
      ensures q in StagedDirs(staging)
    {
      StagedAncestors(staging, p, q);
    }
  }
}
