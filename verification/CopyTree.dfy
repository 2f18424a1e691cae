/**
 copyPath, copyFile and copyDir of internal/server/fileops.go on a file system without
 symbolic links, modes or quotas.
 */
module CopyTree {
  import opened Prelude

  type Name = string
  type Path = seq<Name>

  datatype Node = File(data: seq<byte>) | Dir

  type Tree = map<Path, Node>

  /** The root is a directory, and only directories have children. */
  ghost predicate WellFormed(t: Tree)
  {
    && [] in t && t[[]].Dir?
    && forall p | p in t && p != [] :: p[..|p| - 1] in t && t[p[..|p| - 1]].Dir?
  }

  lemma {:induction false} ParentsAreDirs(t: Tree, q: Path, p: Path)
    requires WellFormed(t) && p in t && q < p
    ensures q in t && t[q].Dir?
    decreases |p|
  {
    if q != p[..|p| - 1] {
      ParentsAreDirs(t, q, p[..|p| - 1]);
    }
  }

  ghost predicate Same(t: Tree, t': Tree, p: Path)
  {
    (p in t <==> p in t') && (p in t ==> t[p] == t'[p])
  }

  /** p and its ancestors are directories, created where missing. */
  ghost predicate Made(t: Tree, t': Tree, p: Path)
  {
    && (forall q | q <= p :: q in t' && t'[q].Dir?)
    && (forall q | !(q <= p) :: Same(t, t', q))
  }

  ghost predicate Makeable(t: Tree, p: Path)
  {
    forall q | q <= p && q in t :: t[q].Dir?
  }

  /** Where in the source the copy at p comes from. */
  function Twin(src: Path, dst: Path, p: Path): Path
    requires dst <= p
  {
    src + p[|dst|..]
  }

  /** What a node becomes: a file copied onto itself is truncated before it is read. */
  function CopyOf(src: Path, dst: Path, node: Node): Node
  {
    if src == dst && node.File? then File([]) else node
  }

  /** t' is t with the copy of what is at src laid over what is at dst. */
  ghost predicate Overlay(t: Tree, t': Tree, src: Path, dst: Path)
  {
    && (forall p | dst <= p && Twin(src, dst, p) in t :: p in t' && t'[p] == CopyOf(src, dst, t[Twin(src, dst, p)]))
    && (forall p | p < dst :: p in t' && t'[p].Dir?)
    && (forall p | !(p < dst) && !(dst <= p && Twin(src, dst, p) in t) :: Same(t, t', p))
  }

  /** No file stands where a directory has to go, nor the other way round. */
  ghost predicate Compatible(t: Tree, src: Path, dst: Path)
  {
    && src in t
    && (forall p | p < dst && p in t :: t[p].Dir?)
    && Matching(t, src, dst)
  }

  ghost predicate Matching(t: Tree, src: Path, dst: Path)
  {
    forall p | dst <= p && p in t && Twin(src, dst, p) in t :: t[p].Dir? <==> t[Twin(src, dst, p)].Dir?
  }

  /** Only what is at dst changes, and missing ancestors of dst may appear. */
  ghost predicate Within(t: Tree, t': Tree, dst: Path)
  {
    && (forall p | !(dst <= p) && !(p < dst) :: Same(t, t', p))
    && (forall p | p < dst :: Same(t, t', p) || (p !in t && p in t' && t'[p].Dir?))
  }

  /** p is as it was, a new directory above dst, or the copy of its twin in the source. */
  ghost predicate PartlyAt(t: Tree, t': Tree, src: Path, dst: Path, p: Path)
  {
    || Same(t, t', p)
    || (p !in t && p < dst && p in t' && t'[p].Dir?)
    || (dst <= p && Twin(src, dst, p) in t && p in t' && t'[p] == CopyOf(src, dst, t[Twin(src, dst, p)]))
  }

  /** However far the copy got: nothing vanishes, and nothing without a source changes. */
  ghost predicate Partly(t: Tree, t': Tree, src: Path, dst: Path)
  {
    forall p :: PartlyAt(t, t', src, dst, p)
  }

  predicate Disjoint(src: Path, dst: Path)
  {
    !(src <= dst) && !(dst <= src)
  }

  /** Neither path is strictly inside the other. */
  predicate Placed(src: Path, dst: Path)
  {
    src == dst || Disjoint(src, dst)
  }

  ghost function Subtree(t: Tree, p: Path): set<Path>
  {
    set q | q in t && p <= q
  }

  function Children(t: Tree, p: Path): set<Name>
  {
    set q | q in t && |q| == |p| + 1 && p < q :: q[|p|]
  }

  lemma UpOne(q: Path, p: Path)
    requires p != []
    ensures q <= p <==> q == p || q <= p[..|p| - 1]
  {
  }

  lemma MakeableStep(t: Tree, p: Path)
    requires WellFormed(t)
    ensures p in t ==> (Makeable(t, p) <==> t[p].Dir?) && (t[p].Dir? ==> Made(t, t, p))
    ensures p !in t ==> p != [] && (Makeable(t, p) <==> Makeable(t, p[..|p| - 1]))
  {
    if p in t {
      forall q | q <= p && q != p
        ensures q in t && t[q].Dir?
      {
        ParentsAreDirs(t, q, p);
      }
    } else {
      forall q | q in t
        ensures q <= p <==> q <= p[..|p| - 1]
      {
        UpOne(q, p);
      }
    }
  }

  lemma MadeStep(t: Tree, t': Tree, p: Path)
    requires WellFormed(t') && p !in t && p != [] && Made(t, t', p[..|p| - 1])
    ensures WellFormed(t'[p := Dir]) && Made(t, t'[p := Dir], p)
  {
    var up, r := p[..|p| - 1], t'[p := Dir];
    UpOne(p, p);
    assert !(p <= up);
    assert p !in t' by { assert Same(t, t', p); }
    AddDirKeeps(t', p);
    hide WellFormed;
    forall q | q <= p
      ensures q in r && r[q].Dir?
    {
      UpOne(q, p);
    }
    forall q | !(q <= p)
      ensures Same(t, r, q)
    {
      UpOne(q, p);
      assert q != p && !(q <= up);
      assert Same(t, t', q);
    }
  }

  lemma AddDirKeeps(t: Tree, p: Path)
    requires WellFormed(t) && p !in t && p != [] && p[..|p| - 1] in t && t[p[..|p| - 1]].Dir?
    ensures WellFormed(t[p := Dir])
  {
  }

  function Parent(p: Path): Path
  {
    if p == [] then [] else p[..|p| - 1]
  }

  /** t' is t with a file at dst and directories above it. */
  ghost predicate Written(t: Tree, t': Tree, dst: Path, data: seq<byte>)
  {
    && dst in t' && t'[dst] == File(data)
    && (forall p | p < dst :: p in t' && t'[p].Dir?)
    && (forall p | !(p <= dst) :: Same(t, t', p))
  }

  lemma AboveOnly(p: Path, dst: Path)
    requires dst != []
    ensures p < dst <==> p <= Parent(dst)
  {
    UpOne(p, dst);
  }

  lemma WriteFile(t: Tree, made: Tree, dst: Path, data: seq<byte>)
    requires WellFormed(made) && dst != [] && Made(t, made, Parent(dst))
    requires dst in t ==> t[dst].File?
    ensures WellFormed(made[dst := File(data)]) && Written(t, made[dst := File(data)], dst, data)
  {
    var r := made[dst := File(data)];
    AboveOnly(dst, dst);
    assert Same(t, made, dst);
    AddFileKeeps(made, dst, data);
    hide WellFormed;
    forall p | p < dst
      ensures p in r && r[p].Dir?
    {
      AboveOnly(p, dst);
    }
    forall p | !(p <= dst)
      ensures Same(t, r, p)
    {
      AboveOnly(p, dst);
      assert p != dst;
      assert Same(t, made, p);
    }
  }

  lemma AddFileKeeps(t: Tree, p: Path, data: seq<byte>)
    requires WellFormed(t) && p != [] && Parent(p) in t && t[Parent(p)].Dir?
    requires p in t ==> t[p].File?
    ensures WellFormed(t[p := File(data)])
  {
  }

  /** A file has nothing below it. */
  lemma FileIsLeaf(t: Tree, src: Path, dst: Path, p: Path)
    requires WellFormed(t) && src in t && t[src].File? && dst <= p && Twin(src, dst, p) in t
    ensures p == dst
  {
    if p != dst {
      assert src < Twin(src, dst, p);
      ParentsAreDirs(t, src, Twin(src, dst, p));
    }
  }

  lemma FileOverlay(t: Tree, src: Path, dst: Path)
    requires WellFormed(t) && src in t && t[src].File?
    ensures Compatible(t, src, dst) <==> Makeable(t, Parent(dst)) && (dst in t ==> t[dst].File?)
    ensures var data := if src == dst then [] else t[src].data;
            dst != [] ==> forall t' | Written(t, t', dst, data) :: Overlay(t, t', src, dst)
  {
    if dst == [] {
      assert Twin(src, dst, dst) == src;
      return;
    }
    hide WellFormed;
    var data := if src == dst then [] else t[src].data;
    assert Twin(src, dst, dst) == src;
    forall p | dst <= p && Twin(src, dst, p) in t
      ensures p == dst
    {
      FileIsLeaf(t, src, dst, p);
    }
    forall t' | Written(t, t', dst, data)
      ensures Overlay(t, t', src, dst)
    {
      forall p | !(p < dst) && !(dst <= p && Twin(src, dst, p) in t)
        ensures Same(t, t', p)
      {
        assert p != dst;
      }
    }
    assert Makeable(t, Parent(dst)) <==> forall p | p < dst && p in t :: t[p].Dir? by {
      forall p | p in t
        ensures p < dst <==> p <= Parent(dst)
      {
        AboveOnly(p, dst);
      }
    }
  }

  lemma FileKept(t: Tree, made: Tree, src: Path, p: Path)
    requires Makeable(t, p) && Made(t, made, p) && src in t && t[src].File?
    ensures src in made && made[src] == t[src]
  {
    assert !(src <= p);
    assert Same(t, made, src);
  }

  lemma DstKept(t: Tree, made: Tree, dst: Path)
    requires WellFormed(t) && WellFormed(made) && Made(t, made, Parent(dst))
    ensures dst in made && made[dst].File? <==> dst in t && t[dst].File?
    ensures dst in made <==> dst in t
    ensures dst == [] ==> made[dst].Dir?
  {
    if dst != [] {
      AboveOnly(dst, dst);
      assert Same(t, made, dst);
    }
  }

  // ---------------------------------------------------------------------
  // Directories

  /** p comes from one of the entries in done. */
  ghost predicate Copied(t: Tree, src: Path, dst: Path, done: set<Name>, p: Path)
  {
    dst < p && p[|dst|] in done && Twin(src, dst, p) in t
  }

  /** t' is t with dst a directory and the entries in done laid over it. */
  ghost predicate PartCopied(t: Tree, t': Tree, src: Path, dst: Path, done: set<Name>)
  {
    && (forall p | Copied(t, src, dst, done, p) :: p in t' && t'[p] == CopyOf(src, dst, t[Twin(src, dst, p)]))
    && (forall p | p <= dst :: p in t' && t'[p].Dir?)
    && (forall p | !(p <= dst) && !Copied(t, src, dst, done, p) :: Same(t, t', p))
  }

  lemma MadeIsPart(t: Tree, t': Tree, src: Path, dst: Path)
    requires Makeable(t, dst) && Made(t, t', dst)
    ensures PartCopied(t, t', src, dst, {}) && Within(t, t', dst)
  {
  }

  lemma Comparable(a: Path, b: Path, q: Path)
    requires a <= q
    ensures b <= q ==> a <= b || b <= a
    ensures q <= b ==> a <= b
    ensures a <= b && b <= q ==> a <= q
  {
  }

  /** Copying to dst leaves the source alone. */
  lemma SourceKept(t: Tree, t': Tree, src: Path, dst: Path, q: Path)
    requires Disjoint(src, dst) && Within(t, t', dst) && src <= q
    ensures Same(t, t', q)
  {
    Comparable(src, dst, q);
  }

  lemma TwinBelow(src: Path, dst: Path, n: Name, p: Path)
    requires dst + [n] <= p
    ensures dst < p && p[|dst|] == n && Twin(src + [n], dst + [n], p) == Twin(src, dst, p)
    ensures src + [n] <= Twin(src, dst, p)
  {
    assert p[|dst|..] == [n] + p[|dst| + 1..];
  }

  lemma SameEntry(src: Path, dst: Path, n: Name)
    ensures src + [n] == dst + [n] <==> src == dst
  {
    assert (src + [n])[..|src|] == src && (dst + [n])[..|dst|] == dst;
  }

  lemma BelowEntry(dst: Path, p: Path)
    requires dst < p
    ensures dst + [p[|dst|]] <= p
  {
  }

  /** What belongs to entries not copied yet is as it was, on either side. */
  lemma RestKept(t: Tree, t1: Tree, src: Path, dst: Path, done: set<Name>, n: Name, q: Path)
    requires Placed(src, dst) && n !in done && src + [n] <= q
    requires PartCopied(t, t1, src, dst, done) && Within(t, t1, dst)
    ensures Same(t, t1, q)
  {
    assert (src + [n])[..|src|] == src && src <= q;
    if src == dst {
      assert !(q <= dst) && q[|dst|] == n;
      assert !Copied(t, src, dst, done, q);
    } else {
      SourceKept(t, t1, src, dst, q);
    }
  }

  lemma PartGrows(t: Tree, t1: Tree, t2: Tree, src: Path, dst: Path, done: set<Name>, n: Name)
    requires Placed(src, dst) && n !in done
    requires PartCopied(t, t1, src, dst, done) && Within(t, t1, dst)
    requires Overlay(t1, t2, src + [n], dst + [n])
    ensures PartCopied(t, t2, src, dst, done + {n})
  {
    forall p
      ensures p <= dst ==> p in t2 && t2[p].Dir?
      ensures Copied(t, src, dst, done + {n}, p) ==> p in t2 && t2[p] == CopyOf(src, dst, t[Twin(src, dst, p)])
      ensures !(p <= dst) && !Copied(t, src, dst, done + {n}, p) ==> Same(t, t2, p)
    {
      PartGrowsAt(t, t1, t2, src, dst, done, n, p);
    }
  }

  lemma PartGrowsAt(t: Tree, t1: Tree, t2: Tree, src: Path, dst: Path, done: set<Name>, n: Name, p: Path)
    requires Placed(src, dst) && n !in done
    requires PartCopied(t, t1, src, dst, done) && Within(t, t1, dst)
    requires Overlay(t1, t2, src + [n], dst + [n])
    ensures p <= dst ==> p in t2 && t2[p].Dir?
    ensures Copied(t, src, dst, done + {n}, p) ==> p in t2 && t2[p] == CopyOf(src, dst, t[Twin(src, dst, p)])
    ensures !(p <= dst) && !Copied(t, src, dst, done + {n}, p) ==> Same(t, t2, p)
  {
    hide Within;
    UpOne(p, dst + [n]);
    assert (dst + [n])[..|dst|] == dst;
    SameEntry(src, dst, n);
    if p <= dst {
      assert p < dst + [n];
    } else if dst + [n] <= p {
      TwinBelow(src, dst, n, p);
      RestKept(t, t1, src, dst, done, n, Twin(src, dst, p));
      assert Same(t, t1, p);
      assert !(p < dst + [n]);
    } else {
      assert !(p < dst + [n]);
      assert Same(t1, t2, p);
      if dst < p {
        BelowEntry(dst, p);
        assert p[|dst|] != n;
      }
      assert Copied(t, src, dst, done + {n}, p) <==> Copied(t, src, dst, done, p);
      assert Copied(t, src, dst, done, p) || Same(t, t1, p);
    }
  }

  lemma WithinGrows(t: Tree, t1: Tree, t2: Tree, src: Path, dst: Path, done: set<Name>, n: Name)
    requires PartCopied(t, t1, src, dst, done) && Within(t, t1, dst) && Within(t1, t2, dst + [n])
    ensures Within(t, t2, dst)
  {
    assert (dst + [n])[..|dst|] == dst;
    forall p | !(dst <= p)
      ensures Same(t1, t2, p)
    {
      UpOne(p, dst + [n]);
      assert dst + [n] <= p ==> dst <= p;
      assert Same(t1, t2, p) || p !in t1;
    }
    forall p | !(dst <= p) && !(p < dst)
      ensures Same(t, t2, p)
    {
      assert Same(t, t1, p) && Same(t1, t2, p);
    }
  }

  lemma PartIsPartly(t: Tree, t': Tree, src: Path, dst: Path, done: set<Name>)
    requires src in t && t[src].Dir?
    requires PartCopied(t, t', src, dst, done) && Within(t, t', dst)
    ensures Partly(t, t', src, dst)
  {
    assert Twin(src, dst, dst) == src;
    forall p
      ensures PartlyAt(t, t', src, dst, p)
    {
      assert p < dst || p == dst || Copied(t, src, dst, done, p) || Same(t, t', p);
    }
  }

  lemma PartlyGrows(t: Tree, t1: Tree, t2: Tree, src: Path, dst: Path, done: set<Name>, n: Name)
    requires Placed(src, dst) && n !in done && src in t && t[src].Dir?
    requires PartCopied(t, t1, src, dst, done) && Within(t, t1, dst)
    requires Partly(t1, t2, src + [n], dst + [n])
    ensures Partly(t, t2, src, dst)
  {
    PartIsPartly(t, t1, src, dst, done);
    SameEntry(src, dst, n);
    forall p
      ensures PartlyAt(t, t2, src, dst, p)
    {
      PartlyGrowsAt(t, t1, t2, src, dst, done, n, p);
    }
  }

  lemma PartlyGrowsAt(t: Tree, t1: Tree, t2: Tree, src: Path, dst: Path, done: set<Name>, n: Name, p: Path)
    requires Placed(src, dst) && n !in done
    requires PartCopied(t, t1, src, dst, done) && Within(t, t1, dst)
    requires PartlyAt(t, t1, src, dst, p) && PartlyAt(t1, t2, src + [n], dst + [n], p)
    ensures PartlyAt(t, t2, src, dst, p)
  {
    UpOne(p, dst + [n]);
    assert (dst + [n])[..|dst|] == dst;
    SameEntry(src, dst, n);
    if !Same(t1, t2, p) {
      assert p < dst + [n] ==> p in t1;
      TwinBelow(src, dst, n, p);
      RestKept(t, t1, src, dst, done, n, Twin(src, dst, p));
    }
  }

  lemma OverlayIsPartly(t: Tree, t': Tree, src: Path, dst: Path)
    requires Overlay(t, t', src, dst) && Within(t, t', dst)
    ensures Partly(t, t', src, dst)
  {
    forall p
      ensures PartlyAt(t, t', src, dst, p)
    {
      assert p < dst || (dst <= p && Twin(src, dst, p) in t) || Same(t, t', p);
    }
  }

  lemma MadeIsPartly(t: Tree, t': Tree, src: Path, dst: Path)
    requires WellFormed(t)
    requires t == t' || (Makeable(t, Parent(dst)) && Made(t, t', Parent(dst)))
    ensures Partly(t, t', src, dst)
  {
    forall p
      ensures PartlyAt(t, t', src, dst, p)
    {
      if t != t' && dst != [] {
        AboveOnly(p, dst);
      }
    }
  }

  lemma PartlySelf(t: Tree, src: Path, dst: Path)
    ensures Partly(t, t, src, dst)
  {
  }

  lemma OverlayIsWithin(t: Tree, t': Tree, src: Path, dst: Path)
    requires WellFormed(t) && Compatible(t, src, dst) && Overlay(t, t', src, dst)
    ensures Within(t, t', dst)
  {
  }

  lemma PartIsAll(t: Tree, t': Tree, src: Path, dst: Path)
    requires WellFormed(t) && src in t && t[src].Dir?
    requires PartCopied(t, t', src, dst, Children(t, src))
    ensures Overlay(t, t', src, dst)
  {
    assert Twin(src, dst, dst) == src;
    forall p | dst < p && Twin(src, dst, p) in t
      ensures Copied(t, src, dst, Children(t, src), p)
    {
      EntryExists(t, src, Twin(src, dst, p));
    }
    hide WellFormed, Children;
    forall p | !(p < dst) && !(dst <= p && Twin(src, dst, p) in t)
      ensures Same(t, t', p)
    {
      assert p != dst && !(p <= dst);
      assert !Copied(t, src, dst, Children(t, src), p);
    }
  }

  lemma EntryExists(t: Tree, src: Path, q: Path)
    requires WellFormed(t) && q in t && src < q
    ensures q[|src|] in Children(t, src)
  {
    var e := q[..|src| + 1];
    if e != q {
      ParentsAreDirs(t, e, q);
    }
    assert e in t && |e| == |src| + 1 && src < e && e[|src|] == q[|src|];
  }

  /** The entries not copied yet can be copied now exactly when they could at first. */
  lemma EntryCompatible(t: Tree, t1: Tree, src: Path, dst: Path, done: set<Name>, n: Name)
    requires Placed(src, dst) && n !in done && src + [n] in t
    requires PartCopied(t, t1, src, dst, done) && Within(t, t1, dst)
    ensures src + [n] in t1 && t1[src + [n]] == t[src + [n]]
    ensures Compatible(t1, src + [n], dst + [n]) <==> Matching(t, src + [n], dst + [n])
  {
    RestKept(t, t1, src, dst, done, n, src + [n]);
    assert (dst + [n])[..|dst|] == dst;
    forall p | p < dst + [n]
      ensures p in t1 && t1[p].Dir?
    {
      UpOne(p, dst + [n]);
    }
    forall p | dst + [n] <= p
      ensures Same(t, t1, p) && Same(t, t1, Twin(src + [n], dst + [n], p))
    {
      TwinBelow(src, dst, n, p);
      RestKept(t, t1, src, dst, done, n, Twin(src, dst, p));
      assert !(p <= dst) && !Copied(t, src, dst, done, p);
    }
    hide Within, PartCopied;
    SameMatching(t, t1, src + [n], dst + [n]);
  }

  lemma SameMatching(t: Tree, t1: Tree, src: Path, dst: Path)
    requires forall p | dst <= p :: Same(t, t1, p) && Same(t, t1, Twin(src, dst, p))
    ensures Matching(t, src, dst) <==> Matching(t1, src, dst)
  {
    forall p | dst <= p
      ensures p in t && Twin(src, dst, p) in t <==> p in t1 && Twin(src, dst, p) in t1
      ensures p in t && Twin(src, dst, p) in t ==> t[p] == t1[p] && t[Twin(src, dst, p)] == t1[Twin(src, dst, p)]
    {
      assert Same(t, t1, p) && Same(t, t1, Twin(src, dst, p));
    }
  }

  lemma MakeableSplit(t: Tree, p: Path)
    ensures Makeable(t, p) <==> (forall q | q < p && q in t :: t[q].Dir?) && (p in t ==> t[p].Dir?)
  {
    if Makeable(t, p) {
      assert p <= p;
      assert forall q | q < p && q in t :: q <= p;
    }
    if (forall q | q < p && q in t :: t[q].Dir?) && (p in t ==> t[p].Dir?) {
      forall q | q <= p && q in t
        ensures t[q].Dir?
      {
        assert q == p || q < p;
      }
    }
  }

  lemma CompatibleByEntries(t: Tree, src: Path, dst: Path)
    requires WellFormed(t) && src in t && t[src].Dir?
    ensures Compatible(t, src, dst) <==>
              Makeable(t, dst) && forall n | n in Children(t, src) :: Matching(t, src + [n], dst + [n])
  {
    assert Twin(src, dst, dst) == src;
    MakeableSplit(t, dst);
    if Matching(t, src, dst) {
      forall n, p | n in Children(t, src) && dst + [n] <= p && p in t && Twin(src + [n], dst + [n], p) in t
        ensures t[p].Dir? <==> t[Twin(src + [n], dst + [n], p)].Dir?
      {
        TwinBelow(src, dst, n, p);
      }
    }
    if dst in t ==> t[dst].Dir? {
      if forall n | n in Children(t, src) :: Matching(t, src + [n], dst + [n]) {
        forall p | dst <= p && p in t && Twin(src, dst, p) in t
          ensures t[p].Dir? <==> t[Twin(src, dst, p)].Dir?
        {
          if p != dst {
            EntryExists(t, src, Twin(src, dst, p));
            BelowEntry(dst, p);
            TwinBelow(src, dst, p[|dst|], p);
          }
        }
      }
    }
  }

  /** The measure: what is below an entry is less than what is below its directory. */
  lemma EntryIsSmaller(t: Tree, t1: Tree, src: Path, dst: Path, done: set<Name>, n: Name)
    requires Placed(src, dst) && n !in done && src in t
    requires PartCopied(t, t1, src, dst, done) && Within(t, t1, dst)
    ensures |Subtree(t1, src + [n])| < |Subtree(t, src)|
  {
    forall q | q in Subtree(t1, src + [n])
      ensures q in Subtree(t, src) && q != src
    {
      RestKept(t, t1, src, dst, done, n, q);
      assert (src + [n])[..|src|] == src && src <= q;
    }
    assert src in Subtree(t, src);
    Smaller(Subtree(t1, src + [n]), Subtree(t, src), src);
  }

  lemma Smaller(a: set<Path>, b: set<Path>, x: Path)
    requires a <= b && x in b && x !in a
    ensures |a| < |b|
  {
    assert a <= b - {x};
    Fewer(a, b - {x});
  }

  lemma {:induction false} Fewer(a: set<Path>, b: set<Path>)
    requires a <= b
    ensures |a| <= |b|
  {
    if a != {} {
      var x :| x in a;
      Fewer(a - {x}, b - {x});
    }
  }

  lemma WithinSelf(t: Tree, dst: Path)
    ensures Within(t, t, dst)
  {
  }

  lemma SameChildren(t: Tree, t': Tree, src: Path, dst: Path)
    requires Placed(src, dst) && Made(t, t', dst)
    ensures Children(t', src) == Children(t, src)
  {
    forall q | src < q
      ensures Same(t, t', q)
    {
      Comparable(src, dst, q);
    }
    forall n
      ensures n in Children(t, src) <==> src + [n] in t
      ensures n in Children(t', src) <==> src + [n] in t'
    {
      ChildIsEntry(t, src, n);
      ChildIsEntry(t', src, n);
    }
    forall n
      ensures n in Children(t, src) <==> n in Children(t', src)
    {
      assert src < src + [n];
      assert Same(t, t', src + [n]);
    }
  }

  lemma ChildIsEntry(t: Tree, src: Path, n: Name)
    ensures n in Children(t, src) <==> src + [n] in t
  {
    if n in Children(t, src) {
      var q :| q in t && |q| == |src| + 1 && src < q && q[|src|] == n;
      assert q == src + [n];
    }
    if src + [n] in t {
      assert src < src + [n] && (src + [n])[|src|] == n;
    }
  }

  lemma ChildExists(t: Tree, src: Path, dst: Path, n: Name)
    requires n in Children(t, src) && Placed(src, dst)
    ensures src + [n] in t && Placed(src + [n], dst + [n])
  {
    ChildIsEntry(t, src, n);
    assert (src + [n])[..|src|] == src && (dst + [n])[..|dst|] == dst;
  }

  lemma FileWithin(t: Tree, t': Tree, src: Path, dst: Path)
    requires WellFormed(t) && src in t && t[src].File?
    requires t == t'
             || (Makeable(t, Parent(dst))
                 && (Made(t, t', Parent(dst)) || Written(t, t', dst, if src == dst then [] else t[src].data)))
    ensures Within(t, t', dst)
  {
    if dst != [] {
      forall p | p in t || p in t'
        ensures p < dst <==> p <= Parent(dst)
      {
        AboveOnly(p, dst);
      }
    }
  }

  // ---------------------------------------------------------------------
  // The order of the entries, and what a failed copy leaves

  /** os.ReadDir sorts by name. */
  predicate Less(a: Name, b: Name)
  {
    b != [] && (a == [] || a[0] < b[0] || (a[0] == b[0] && Less(a[1..], b[1..])))
  }

  lemma {:induction false} LessIsTotal(a: Name, b: Name)
    ensures Less(a, b) || Less(b, a) || a == b
    ensures !(Less(a, b) && Less(b, a)) && !Less(a, a)
  {
    if a != [] {
      LessIsTotal(a[1..], a[1..]);
      if b != [] {
        LessIsTotal(a[1..], b[1..]);
        assert a == [a[0]] + a[1..] && b == [b[0]] + b[1..];
      }
    }
  }

  lemma {:induction false} LessIsTransitive(a: Name, b: Name, c: Name)
    requires Less(a, b) && Less(b, c)
    ensures Less(a, c)
  {
    if a != [] && a[0] == b[0] == c[0] {
      LessIsTransitive(a[1..], b[1..], c[1..]);
    }
  }

  method Least(names: set<Name>) returns (n: Name)
    requires names != {}
    ensures n in names && forall m | m in names && m != n :: Less(n, m)
  {
    n :| n in names;
    var rest := names - {n};
    while rest != {}
      invariant n in names && rest <= names
      invariant forall m | m in names && m != n && m !in rest :: Less(n, m)
    {
      var m :| m in rest;
      LessIsTotal(m, n);
      if Less(m, n) {
        forall k | k in names && k != m && k !in rest
          ensures Less(m, k)
        {
          if k != n {
            LessIsTransitive(m, n, k);
          }
        }
        n := m;
      }
      rest := rest - {m};
    }
  }

  /** The names in done come before those in rest, and together they are all. */
  ghost predicate Sorted(all: set<Name>, done: set<Name>, rest: set<Name>)
  {
    done + rest == all && done !! rest && forall m, k | m in done && k in rest :: Less(m, k)
  }

  lemma SortedNext(all: set<Name>, done: set<Name>, rest: set<Name>, n: Name)
    requires Sorted(all, done, rest) && n in rest && (forall m | m in rest && m != n :: Less(n, m))
    ensures n !in done && n in all && UpTo(all, done, n) && Sorted(all, done + {n}, rest - {n})
  {
    forall m | m in rest
      ensures !Less(m, n)
    {
      LessIsTotal(m, n);
    }
  }

  /** done are the names before n. */
  ghost predicate UpTo(all: set<Name>, done: set<Name>, n: Name)
  {
    forall m | m in all :: m in done <==> Less(m, n)
  }

  ghost predicate AllMatching(t: Tree, src: Path, dst: Path, done: set<Name>)
  {
    forall m | m in done :: Matching(t, src + [m], dst + [m])
  }

  lemma NextMatching(t: Tree, src: Path, dst: Path, done: set<Name>, n: Name)
    requires AllMatching(t, src, dst, done)
    ensures AllMatching(t, src, dst, {}) && (Matching(t, src + [n], dst + [n]) ==> AllMatching(t, src, dst, done + {n}))
  {
  }

  /** Among the paths below one directory, the walk comes to q before it comes to at. */
  predicate Before(q: Path, at: Path)
  {
    at != [] && (q == [] || Less(q[0], at[0]) || (q[0] == at[0] && Before(q[1..], at[1..])))
  }

  /** A file on one side and a directory on the other. */
  ghost predicate Clash(t: Tree, src: Path, dst: Path, q: Path)
  {
    src + q in t && dst + q in t && t[src + q].Dir? != t[dst + q].Dir?
  }

  ghost predicate FirstClash(t: Tree, src: Path, dst: Path, at: Path)
  {
    Clash(t, src, dst, at) && forall q | Before(q, at) :: !Clash(t, src, dst, q)
  }

  ghost predicate LeftAt(t: Tree, t': Tree, src: Path, dst: Path, at: Path, p: Path)
  {
    if p < dst then p in t' && t'[p].Dir?
    else if dst <= p && Twin(src, dst, p) in t && Before(p[|dst|..], at)
    then p in t' && t'[p] == CopyOf(src, dst, t[Twin(src, dst, p)])
    else Same(t, t', p)
  }

  /** t' is t with everything copied that the walk meets before at, and nothing else. */
  ghost predicate LeftBy(t: Tree, t': Tree, src: Path, dst: Path, at: Path)
  {
    forall p :: LeftAt(t, t', src, dst, at, p)
  }

  ghost predicate Blocked(t: Tree, src: Path, dst: Path)
  {
    src !in t || exists p :: p < dst && p in t && t[p].File?
  }

  /** What a failed copy leaves: everything as it was if there was nothing to copy, or a file
      where a directory above dst has to be; else the copy as far as the first clash. */
  ghost predicate Failed(t: Tree, t': Tree, src: Path, dst: Path)
  {
    (Blocked(t, src, dst) && t' == t)
    || exists at :: FirstClash(t, src, dst, at) && LeftBy(t, t', src, dst, at)
  }

  lemma ClashHere(t: Tree, t': Tree, src: Path, dst: Path)
    requires src in t && dst in t && t[src].Dir? != t[dst].Dir?
    requires forall p | p < dst :: p in t' && t'[p].Dir?
    requires forall p | !(p < dst) :: Same(t, t', p)
    ensures Failed(t, t', src, dst)
  {
    assert src + [] == src && dst + [] == dst;
    assert FirstClash(t, src, dst, []);
    forall p
      ensures LeftAt(t, t', src, dst, [], p)
    {
    }
  }

  lemma DirBlocked(t: Tree, src: Path, dst: Path)
    requires WellFormed(t) && src in t && t[src].Dir? && !Makeable(t, dst)
    ensures Failed(t, t, src, dst)
  {
    var q :| q <= dst && q in t && t[q].File?;
    if q == dst {
      forall p | p < dst
        ensures p in t && t[p].Dir?
      {
        ParentsAreDirs(t, p, dst);
      }
      ClashHere(t, t, src, dst);
    } else {
      assert q < dst;
    }
  }

  lemma FileBlocked(t: Tree, t': Tree, src: Path, dst: Path)
    requires WellFormed(t) && src in t && t[src].File?
    requires !(Makeable(t, Parent(dst)) && (dst in t ==> t[dst].File?))
    requires t' == t || (Makeable(t, Parent(dst)) && Made(t, t', Parent(dst)))
    ensures Failed(t, t', src, dst)
  {
    if Makeable(t, Parent(dst)) {
      forall p | p < dst
        ensures p in t && t[p].Dir?
      {
        ParentsAreDirs(t, p, dst);
      }
      forall p
        ensures p < dst ==> p in t' && t'[p].Dir?
        ensures !(p < dst) ==> Same(t, t', p)
      {
        if dst != [] {
          AboveOnly(p, dst);
        }
      }
      ClashHere(t, t', src, dst);
    } else {
      var q :| q <= Parent(dst) && q in t && t[q].File?;
      assert q < dst;
    }
  }

  lemma BeforeBelow(n: Name, q: Path, at: Path)
    ensures Before([n] + q, [n] + at) <==> Before(q, at)
  {
    LessIsTotal(n, n);
    assert ([n] + q)[1..] == q && ([n] + at)[1..] == at;
  }

  /** A failure below an entry, seen from its directory. */
  lemma FailsBelow(t: Tree, t1: Tree, t2: Tree, src: Path, dst: Path, done: set<Name>, n: Name)
    requires WellFormed(t) && Placed(src, dst) && src in t && t[src].Dir? && src + [n] in t
    requires UpTo(Children(t, src), done, n)
    requires n !in done && PartCopied(t, t1, src, dst, done) && Within(t, t1, dst)
    requires AllMatching(t, src, dst, done)
    requires Failed(t1, t2, src + [n], dst + [n]) && (dst in t ==> t[dst].Dir?)
    ensures Failed(t, t2, src, dst)
  {
    NotBlockedBelow(t, t1, src, dst, done, n);
    var at :| FirstClash(t1, src + [n], dst + [n], at) && LeftBy(t1, t2, src + [n], dst + [n], at);
    hide Failed, Blocked, FirstClash, LeftBy, WellFormed, Children, Placed, PartCopied, Within, Matching;
    FirstBelow(t, t1, src, dst, done, n, at);
    assert LeftBy(t, t2, src, dst, [n] + at) by {
      LeftBelow(t, t1, t2, src, dst, done, n, at);
    }
    FailedAt(t, t2, src, dst, [n] + at);
  }

  lemma NothingCopied(t: Tree, src: Path, dst: Path)
    requires WellFormed(t) && src in t && t[src].Dir? && !Makeable(t, dst)
    ensures Within(t, t, dst) && Partly(t, t, src, dst) && Failed(t, t, src, dst) && !Compatible(t, src, dst)
  {
    WithinSelf(t, dst);
    PartlySelf(t, src, dst);
    DirBlocked(t, src, dst);
    CompatibleByEntries(t, src, dst);
  }

  lemma StartOfCopy(t: Tree, t': Tree, src: Path, dst: Path)
    requires WellFormed(t) && Placed(src, dst) && Makeable(t, dst) && Made(t, t', dst)
    ensures Within(t, t', dst) && PartCopied(t, t', src, dst, {}) && AllMatching(t, src, dst, {})
    ensures Children(t', src) == Children(t, src) && Sorted(Children(t, src), {}, Children(t, src))
  {
    MadeIsPart(t, t', src, dst);
    SameChildren(t, t', src, dst);
  }

  lemma EndOfCopy(t: Tree, t': Tree, src: Path, dst: Path, done: set<Name>)
    requires WellFormed(t) && src in t && t[src].Dir? && Makeable(t, dst) && Within(t, t', dst)
    requires Sorted(Children(t, src), done, {}) && PartCopied(t, t', src, dst, done) && AllMatching(t, src, dst, done)
    ensures Overlay(t, t', src, dst) && Partly(t, t', src, dst) && Compatible(t, src, dst)
  {
    hide Overlay, Partly, Compatible, Matching, PartCopied, Children, WellFormed, Makeable, Within;
    assert done == Children(t, src);
    CompatibleByEntries(t, src, dst);
    PartIsAll(t, t', src, dst);
    OverlayIsPartly(t, t', src, dst);
  }

  lemma FailedAt(t: Tree, t': Tree, src: Path, dst: Path, at: Path)
    requires FirstClash(t, src, dst, at) && LeftBy(t, t', src, dst, at)
    ensures Failed(t, t', src, dst)
  {
  }

  lemma NotBlockedBelow(t: Tree, t1: Tree, src: Path, dst: Path, done: set<Name>, n: Name)
    requires Placed(src, dst) && n !in done && src + [n] in t
    requires PartCopied(t, t1, src, dst, done) && Within(t, t1, dst)
    ensures !Blocked(t1, src + [n], dst + [n])
  {
    RestKept(t, t1, src, dst, done, n, src + [n]);
    forall p | p < dst + [n]
      ensures p in t1 && t1[p].Dir?
    {
      UpOne(p, dst + [n]);
      assert (dst + [n])[..|dst|] == dst;
    }
  }

  /** Below an entry not copied yet, nothing has changed on either side. */
  lemma ClashBelow(t: Tree, t1: Tree, src: Path, dst: Path, done: set<Name>, n: Name, q: Path)
    requires Placed(src, dst) && n !in done
    requires PartCopied(t, t1, src, dst, done) && Within(t, t1, dst)
    ensures Clash(t, src, dst, [n] + q) <==> Clash(t1, src + [n], dst + [n], q)
  {
    var a, b := src + [n] + q, dst + [n] + q;
    assert a == src + ([n] + q) && b == dst + ([n] + q);
    RestKept(t, t1, src, dst, done, n, a);
    assert dst < b && b[|dst|] == n && !(b <= dst) && !Copied(t, src, dst, done, b);
    assert Same(t, t1, b);
  }

  lemma FirstBelow(t: Tree, t1: Tree, src: Path, dst: Path, done: set<Name>, n: Name, at: Path)
    requires WellFormed(t) && Placed(src, dst) && n !in done && src in t && t[src].Dir?
    requires UpTo(Children(t, src), done, n)
    requires PartCopied(t, t1, src, dst, done) && Within(t, t1, dst)
    requires AllMatching(t, src, dst, done)
    requires FirstClash(t1, src + [n], dst + [n], at) && (dst in t ==> t[dst].Dir?)
    ensures FirstClash(t, src, dst, [n] + at)
  {
    ClashBelow(t, t1, src, dst, done, n, at);
    forall q | Before(q, [n] + at)
      ensures !Clash(t, src, dst, q)
    {
      NoClashBefore(t, t1, src, dst, done, n, at, q);
    }
  }

  lemma NoClashBefore(t: Tree, t1: Tree, src: Path, dst: Path, done: set<Name>, n: Name, at: Path, q: Path)
    requires WellFormed(t) && Placed(src, dst) && n !in done && src in t && t[src].Dir?
    requires UpTo(Children(t, src), done, n)
    requires PartCopied(t, t1, src, dst, done) && Within(t, t1, dst)
    requires AllMatching(t, src, dst, done)
    requires FirstClash(t1, src + [n], dst + [n], at) && Before(q, [n] + at) && (dst in t ==> t[dst].Dir?)
    ensures !Clash(t, src, dst, q)
  {
    hide WellFormed, Children, Matching, PartCopied, Within, Less, Placed;
    if q == [] {
      assert src + q == src && dst + q == dst;
    } else if q[0] == n {
      assert q == [n] + q[1..];
      BeforeBelow(n, q[1..], at);
      ClashBelow(t, t1, src, dst, done, n, q[1..]);
    } else if src + q in t {
      OtherEntry(q, n, at);
      NoClashInEntry(t, src, dst, q);
    }
  }

  lemma NoClashInEntry(t: Tree, src: Path, dst: Path, q: Path)
    requires WellFormed(t) && q != [] && src + q in t
    ensures q[0] in Children(t, src)
    ensures Matching(t, src + [q[0]], dst + [q[0]]) ==> !Clash(t, src, dst, q)
  {
    var m, p := q[0], dst + q;
    EntryExists(t, src, src + q);
    assert (src + q)[|src|] == m;
    assert q == [m] + q[1..] && p == dst + [m] + q[1..] && dst + [m] <= p;
    TwinBelow(src, dst, m, p);
    assert Twin(src, dst, p) == src + q;
  }

  lemma LeftBelow(t: Tree, t1: Tree, t2: Tree, src: Path, dst: Path, done: set<Name>, n: Name, at: Path)
    requires WellFormed(t) && Placed(src, dst) && n !in done && src in t && t[src].Dir?
    requires UpTo(Children(t, src), done, n)
    requires PartCopied(t, t1, src, dst, done) && Within(t, t1, dst)
    requires LeftBy(t1, t2, src + [n], dst + [n], at)
    ensures LeftBy(t, t2, src, dst, [n] + at)
  {
    forall p
      ensures LeftAt(t, t2, src, dst, [n] + at, p)
    {
      assert LeftAt(t1, t2, src + [n], dst + [n], at, p);
      LeftBelowAt(t, t1, t2, src, dst, done, n, at, p);
    }
  }

  lemma LeftBelowAt(t: Tree, t1: Tree, t2: Tree, src: Path, dst: Path, done: set<Name>, n: Name, at: Path, p: Path)
    requires WellFormed(t) && Placed(src, dst) && n !in done && src in t && t[src].Dir?
    requires UpTo(Children(t, src), done, n)
    requires PartCopied(t, t1, src, dst, done) && Within(t, t1, dst)
    requires LeftAt(t1, t2, src + [n], dst + [n], at, p)
    ensures LeftAt(t, t2, src, dst, [n] + at, p)
  {
    hide Within, WellFormed, Before, Less, Children;
    UpOne(p, dst + [n]);
    assert (dst + [n])[..|dst|] == dst;
    SameEntry(src, dst, n);
    if p <= dst {
      assert p < dst + [n];
      if p == dst {
        assert Twin(src, dst, p) == src && p[|dst|..] == [];
        FirstBefore(n, at);
      }
    } else if dst + [n] <= p {
      TwinBelow(src, dst, n, p);
      RestKept(t, t1, src, dst, done, n, Twin(src, dst, p));
      assert Same(t, t1, p);
      var q := p[|dst + [n]|..];
      assert p[|dst|..] == [n] + q;
      BeforeBelow(n, q, at);
      assert !(p < dst + [n]) && !(p < dst);
    } else {
      assert !(p < dst + [n]) && !(p < dst);
      assert Same(t1, t2, p);
      if dst < p && Twin(src, dst, p) in t {
        EntryExists(t, src, Twin(src, dst, p));
        BelowEntry(dst, p);
        OtherEntry(p[|dst|..], n, at);
        assert Twin(src, dst, p)[|src|] == p[|dst|];
      }
      assert Copied(t, src, dst, done, p) || Same(t, t1, p);
    }
  }

  lemma FirstBefore(n: Name, at: Path)
    ensures Before([], [n] + at)
  {
  }

  lemma OtherEntry(q: Path, n: Name, at: Path)
    requires q != [] && q[0] != n
    ensures Before(q, [n] + at) <==> Less(q[0], n)
  {
  }

  lemma {:induction false} BeforeIsTotal(q: Path, at: Path)
    ensures Before(q, at) || Before(at, q) || q == at
  {
    if q != [] && at != [] {
      LessIsTotal(q[0], at[0]);
      BeforeIsTotal(q[1..], at[1..]);
      assert q == [q[0]] + q[1..] && at == [at[0]] + at[1..];
    }
  }

  lemma NoClashWhenBlocked(t: Tree, src: Path, dst: Path, at: Path)
    requires WellFormed(t) && Blocked(t, src, dst)
    ensures !Clash(t, src, dst, at)
  {
    if Clash(t, src, dst, at) {
      if src !in t {
        assert at == [] ==> src + at == src;
        ParentsAreDirs(t, src, src + at);
      } else {
        var p :| p < dst && p in t && t[p].File?;
        ParentsAreDirs(t, p, dst + at);
      }
    }
  }

  /** What a failed copy leaves is one definite tree. */
  lemma FailureIsExact(t: Tree, t1: Tree, t2: Tree, src: Path, dst: Path)
    requires WellFormed(t) && Failed(t, t1, src, dst) && Failed(t, t2, src, dst)
    ensures t1 == t2
  {
    hide WellFormed, Blocked, Clash, LeftBy, Before;
    if a1 :| FirstClash(t, src, dst, a1) && LeftBy(t, t1, src, dst, a1) {
      if Blocked(t, src, dst) {
        NoClashWhenBlocked(t, src, dst, a1);
      }
      var a2 :| FirstClash(t, src, dst, a2) && LeftBy(t, t2, src, dst, a2);
      BeforeIsTotal(a1, a2);
      SameLeft(t, t1, t2, src, dst, a1);
    } else if a2 :| FirstClash(t, src, dst, a2) && LeftBy(t, t2, src, dst, a2) {
      NoClashWhenBlocked(t, src, dst, a2);
    }
  }

  lemma SameLeft(t: Tree, t1: Tree, t2: Tree, src: Path, dst: Path, at: Path)
    requires LeftBy(t, t1, src, dst, at) && LeftBy(t, t2, src, dst, at)
    ensures t1 == t2
  {
    forall p
      ensures Same(t1, t2, p)
    {
      assert LeftAt(t, t1, src, dst, at, p) && LeftAt(t, t2, src, dst, at, p);
    }
    assert forall p | p in t1 || p in t2 :: Same(t1, t2, p);
  }

  /** The overlay is one definite tree. */
  lemma OverlayIsExact(t: Tree, t1: Tree, t2: Tree, src: Path, dst: Path)
    requires Overlay(t, t1, src, dst) && Overlay(t, t2, src, dst)
    ensures t1 == t2
  {
    forall p
      ensures Same(t1, t2, p)
    {
      if !(p < dst) && !(dst <= p && Twin(src, dst, p) in t) {
        assert Same(t, t1, p) && Same(t, t2, p);
      }
    }
    assert forall p | p in t1 || p in t2 :: Same(t1, t2, p);
  }

  /** A copy leaves its source as it was, and copying again changes nothing. */
  lemma CopyTwice(t: Tree, t1: Tree, t2: Tree, src: Path, dst: Path)
    requires WellFormed(t) && Disjoint(src, dst) && Compatible(t, src, dst)
    requires Overlay(t, t1, src, dst) && Overlay(t1, t2, src, dst)
    ensures forall q | src <= q :: Same(t, t1, q)
    ensures t2 == t1
  {
    OverlayIsWithin(t, t1, src, dst);
    forall q | src <= q
      ensures Same(t, t1, q)
    {
      SourceKept(t, t1, src, dst, q);
    }
    hide Within, Compatible, WellFormed;
    forall p
      ensures Same(t1, t2, p)
    {
      if dst <= p {
        assert src <= Twin(src, dst, p);
        assert Same(t, t1, Twin(src, dst, p));
      }
    }
    assert forall p | p in t1 || p in t2 :: Same(t1, t2, p);
  }

  /** Copied onto itself, a tree keeps its shape and loses the contents of all its files. */
  lemma SelfCopyEmpties(t: Tree, t': Tree, src: Path)
    requires WellFormed(t)
    ensures Compatible(t, src, src) <==> src in t
    ensures src in t && Overlay(t, t', src, src) ==>
              && t'.Keys == t.Keys
              && forall p | p in t :: t'[p] == if src <= p && t[p].File? then File([]) else t[p]
  {
    SelfMatches(t, src);
    hide Overlay, Compatible, WellFormed;
    if src in t && Overlay(t, t', src, src) {
      forall p
        ensures p in t <==> p in t'
        ensures p in t ==> t'[p] == if src <= p && t[p].File? then File([]) else t[p]
      {
        if p < src {
          ParentsAreDirs(t, p, src);
        }
        SelfCopyAt(t, t', src, p);
      }
    }
  }

  lemma SelfMatches(t: Tree, src: Path)
    requires WellFormed(t)
    ensures Compatible(t, src, src) <==> src in t
  {
    forall p | src <= p
      ensures Twin(src, src, p) == p
    {
    }
    if src in t {
      forall p | p < src
        ensures p in t && t[p].Dir?
      {
        ParentsAreDirs(t, p, src);
      }
    }
  }

  lemma SelfCopyAt(t: Tree, t': Tree, src: Path, p: Path)
    requires Overlay(t, t', src, src) && (p < src ==> p in t && t[p].Dir?)
    ensures p in t <==> p in t'
    ensures p in t ==> t'[p] == if src <= p && t[p].File? then File([]) else t[p]
  {
    assert src <= p ==> Twin(src, src, p) == p;
    assert p < src || (src <= p && p in t) || Same(t, t', p);
  }

  class Disk {
    var tree: Tree

    method MkdirAll(p: Path) returns (ok: bool)
      requires WellFormed(tree)
      modifies this
      ensures WellFormed(tree)
      ensures ok <==> Makeable(old(tree), p)
      ensures ok ==> Made(old(tree), tree, p)
      ensures !ok ==> tree == old(tree)
      decreases |p|
    {
      MakeableStep(tree, p);
      if p in tree {
        return tree[p].Dir?;
      }
      ok := MkdirAll(p[..|p| - 1]);
      if !ok {
        return;
      }
      MadeStep(old(tree), tree, p);
      tree := tree[p := Dir];
    }

    /** copyFile; copied onto itself, a file is truncated before it is read. */
    method CopyFile(src: Path, dst: Path) returns (ok: bool)
      requires WellFormed(tree) && (src in tree ==> tree[src].File?)
      modifies this
      ensures WellFormed(tree)
      ensures ok <==>
                src in old(tree) && Makeable(old(tree), Parent(dst)) && (dst in old(tree) ==> old(tree)[dst].File?)
      ensures ok ==> Written(old(tree), tree, dst, if src == dst then [] else old(tree)[src].data)
      ensures !ok ==> tree == old(tree) || (Makeable(old(tree), Parent(dst)) && Made(old(tree), tree, Parent(dst)))
    {
      hide WellFormed, Makeable, Made, Written;
      if src !in tree {
        return false;
      }
      ok := MkdirAll(Parent(dst));
      if !ok {
        return;
      }
      ghost var made := tree;
      FileKept(old(tree), made, src, Parent(dst));
      DstKept(old(tree), made, dst);
      if dst in tree && tree[dst].Dir? {
        return false;
      }
      ghost var data := if src == dst then [] else old(tree)[src].data;
      WriteFile(old(tree), made, dst, data);
      TruncateAndCopy(src, dst);
    }

    method TruncateAndCopy(src: Path, dst: Path)
      requires src in tree && tree[src].File?
      modifies this
      ensures tree == old(tree)[dst := File(if src == dst then [] else old(tree)[src].data)]
    {
      tree := tree[dst := File([])];
      tree := tree[dst := File(tree[src].data)];
    }

    /** copyDir: dst is created first, then the entries are copied in order. */
    method CopyDir(src: Path, dst: Path) returns (ok: bool)
      requires WellFormed(tree) && Placed(src, dst) && src in tree && tree[src].Dir?
      modifies this
      ensures WellFormed(tree) && Within(old(tree), tree, dst) && Partly(old(tree), tree, src, dst)
      ensures ok <==> Compatible(old(tree), src, dst)
      ensures ok ==> Overlay(old(tree), tree, src, dst)
      ensures !ok ==> Failed(old(tree), tree, src, dst)
      decreases |Subtree(tree, src)|, 1
    {
      hide Failed, WellFormed, Within, Compatible, Overlay, Matching, Makeable, Made, PartCopied, Children, Subtree,
        Partly, Sorted, UpTo, AllMatching, Less, Placed;
      ghost var before := tree;
      MakeableSplit(tree, dst);
      ok := MkdirAll(dst);
      if !ok {
        NothingCopied(before, src, dst);
        return;
      }
      ghost var all := Children(before, src);
      StartOfCopy(before, tree, src, dst);
      var rest := Children(tree, src);
      ghost var done := {};
      while rest != {}
        invariant WellFormed(tree) && Within(before, tree, dst)
        invariant PartCopied(before, tree, src, dst, done)
        invariant AllMatching(before, src, dst, done)
        invariant Sorted(all, done, rest)
        decreases |rest|
      {
        var n := Least(rest);
        SortedNext(all, done, rest, n);
        ok := CopyEntry(src, dst, n, before, done);
        if !ok {
          CompatibleByEntries(before, src, dst);
          return;
        }
        NextMatching(before, src, dst, done, n);
        done, rest := done + {n}, rest - {n};
      }
      EndOfCopy(before, tree, src, dst, done);
    }

    /** The loop body of copyDir; done holds the entries copied since before. */
    method CopyEntry(src: Path, dst: Path, n: Name, ghost before: Tree, ghost done: set<Name>) returns (ok: bool)
      requires WellFormed(tree) && WellFormed(before) && Placed(src, dst) && src in before && before[src].Dir?
      requires n in Children(before, src) && n !in done && (dst in before ==> before[dst].Dir?)
      requires UpTo(Children(before, src), done, n)
      requires AllMatching(before, src, dst, done)
      requires Within(before, tree, dst) && PartCopied(before, tree, src, dst, done)
      modifies this
      ensures WellFormed(tree) && Within(before, tree, dst) && Partly(before, tree, src, dst)
      ensures ok <==> Matching(before, src + [n], dst + [n])
      ensures ok ==> PartCopied(before, tree, src, dst, done + {n})
      ensures !ok ==> Failed(before, tree, src, dst)
      decreases |Subtree(before, src)|, 0
    {
      hide WellFormed, Within, Compatible, Overlay, Matching, PartCopied, Children, Subtree, Placed, Partly, Failed,
        Less, UpTo, AllMatching;
      ghost var now := tree;
      ChildExists(before, src, dst, n);
      EntryCompatible(before, tree, src, dst, done, n);
      EntryIsSmaller(before, tree, src, dst, done, n);
      if tree[src + [n]].Dir? {
        ok := CopyDir(src + [n], dst + [n]);
      } else {
        ok := CopyFileApart(src + [n], dst + [n]);
      }
      WithinGrows(before, now, tree, src, dst, done, n);
      PartlyGrows(before, now, tree, src, dst, done, n);
      if ok {
        PartGrows(before, now, tree, src, dst, done, n);
      } else {
        FailsBelow(before, now, tree, src, dst, done, n);
      }
    }

    /** copyPath; a directory and its destination are not strictly inside each other. */
    method CopyPath(src: Path, dst: Path) returns (ok: bool)
      requires WellFormed(tree) && (src in tree && tree[src].Dir? ==> Placed(src, dst))
      modifies this
      ensures WellFormed(tree) && Within(old(tree), tree, dst) && Partly(old(tree), tree, src, dst)
      ensures ok <==> Compatible(old(tree), src, dst)
      ensures ok ==> Overlay(old(tree), tree, src, dst)
      ensures !ok ==> Failed(old(tree), tree, src, dst)
    {
      if src !in tree {
        WithinSelf(tree, dst);
        PartlySelf(tree, src, dst);
        return false;
      }
      if tree[src].Dir? {
        ok := CopyDir(src, dst);
      } else {
        ok := CopyFileApart(src, dst);
      }
    }

    /** copyFile, seen as a copy of a tree. */
    method CopyFileApart(src: Path, dst: Path) returns (ok: bool)
      requires WellFormed(tree) && src in tree && tree[src].File?
      modifies this
      ensures WellFormed(tree) && Within(old(tree), tree, dst) && Partly(old(tree), tree, src, dst)
      ensures ok <==> Compatible(old(tree), src, dst)
      ensures ok ==> Overlay(old(tree), tree, src, dst)
      ensures !ok ==> Failed(old(tree), tree, src, dst)
    {
      assert [] in tree && tree[[]].Dir?;
      hide WellFormed, Within, Compatible, Overlay, Written, Makeable, Made, Partly, Failed;
      FileOverlay(tree, src, dst);
      ok := CopyFile(src, dst);
      FileWithin(old(tree), tree, src, dst);
      if ok {
        OverlayIsPartly(old(tree), tree, src, dst);
      } else {
        MadeIsPartly(old(tree), tree, src, dst);
        FileBlocked(old(tree), tree, src, dst);
      }
    }
  }
}
