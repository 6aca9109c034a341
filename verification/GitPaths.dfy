/** The provider's tree walks: reading a path, replacing a file, flattening, comparing. */
module GitPaths {
  import opened Results
  import opened GitText
  import opened GitFormats
  import opened GitOrder
  import opened GitTrees
  import opened GitRepository

  predicate IsTree(objects: Objects, id: ObjectId) {
    id in objects && objects[id].Tree?
  }

  lemma MeaningIsStable(objects: Objects, objects': Objects, hash: nat, id: ObjectId)
    requires WellFounded(objects, hash) && WellFounded(objects', hash) && Grows(objects, objects')
    requires IsTree(objects, id)
    ensures IsTree(objects', id) && Meaning(objects', hash, id) == Meaning(objects, hash, id)
  {
    DenotesIsStable(objects, objects', hash, id, Meaning(objects, hash, id));
    DenotesIsUnique(objects', hash, id, Meaning(objects', hash, id), Meaning(objects, hash, id));
  }

  /** What a listed name stands for. */
  lemma ListedEntry(objects: Objects, hash: nat, tree: ObjectId, k: nat)
    requires WellFounded(objects, hash) && IsTree(objects, tree) && k < |objects[tree].entries|
    ensures var (node, e) := (Meaning(objects, hash, tree), objects[tree].entries[k]);
      && node.Dir? && e.path in node.children && EntryDenotes(objects, hash, e, node.children[e.path])
      && (IsTreeMode(e.mode) ==> IsTree(objects, e.id) && node.children[e.path] == Meaning(objects, hash, e.id))
      && (if IsTreeMode(e.mode) then node.children[e.path].Dir? else node.children[e.path] == Leaf(e.mode, e.id))
  {
    var node, e := Meaning(objects, hash, tree), objects[tree].entries[k];
    assert Lists(objects, hash, objects[tree].entries, node);
    if IsTreeMode(e.mode) {
      assert Denotes(objects, hash, e.id, node.children[e.path]);
      DenotesIsUnique(objects, hash, e.id, node.children[e.path], Meaning(objects, hash, e.id));
    }
  }

  lemma ListedNames(objects: Objects, hash: nat, tree: ObjectId)
    requires WellFounded(objects, hash) && IsTree(objects, tree)
    ensures var (node, entries) := (Meaning(objects, hash, tree), objects[tree].entries);
      node.Dir? && node.children.Keys == Names(entries) && Lists(objects, hash, entries, node)
  {
    assert Lists(objects, hash, objects[tree].entries, Meaning(objects, hash, tree));
  }

  /** One step of a walk. */
  lemma LookupStep(objects: Objects, hash: nat, tree: ObjectId, k: nat, components: seq<string>)
    requires WellFounded(objects, hash) && IsTree(objects, tree) && k < |objects[tree].entries| && |components| > 0
    requires objects[tree].entries[k].path == components[0]
    ensures var (e, found) := (objects[tree].entries[k], Lookup(Meaning(objects, hash, tree), components));
      && (|components| == 1 ==> found.Some? && EntryDenotes(objects, hash, e, found.value))
      && (|components| > 1 && !IsTreeMode(e.mode) ==> found == None)
      && (|components| > 1 && IsTreeMode(e.mode) ==>
            IsTree(objects, e.id) && found == Lookup(Meaning(objects, hash, e.id), components[1..]))
  {
    ListedEntry(objects, hash, tree, k);
    var child := Meaning(objects, hash, tree).children[components[0]];
    hide WellFounded, Denotes, EntryDenotes;
    if |components| > 1 && child.Leaf? {
      assert Lookup(child, components[1..]) == None;
    }
  }

  lemma LookupMissing(objects: Objects, hash: nat, tree: ObjectId, components: seq<string>)
    requires WellFounded(objects, hash) && IsTree(objects, tree) && |components| > 0
    requires forall k | 0 <= k < |objects[tree].entries| :: objects[tree].entries[k].path != components[0]
    ensures Lookup(Meaning(objects, hash, tree), components) == None
  {
    ListedNames(objects, hash, tree);
    hide WellFounded, Lists, Denotes;
  }

  /** readPath: finds what is there, file or directory. */
  method ReadPath(repo: Repository, tree: ObjectId, components: seq<string>) returns (r: Option<TreeEntry>)
    requires repo.Valid() && |components| > 0
    modifies repo
    ensures repo.Valid() && Watched(old(repo.Snapshot()), repo.Snapshot())
    ensures r.Some? ==> IsTree(repo.objects, tree) && r.value.path == components[|components| - 1]
    ensures r.Some? ==> Finds(repo.objects, repo.hash, tree, components, r.value)
    ensures Undisturbed(old(repo.Snapshot()), repo.Snapshot()) && IsTree(old(repo.objects), tree) ==>
              (r.Some? <==> Lookup(Meaning(old(repo.objects), repo.hash, tree), components).Some?)
    decreases |components|
  {
    ghost var hash, s0 := repo.hash, repo.Snapshot();
    var entries := repo.ReadTree(tree);
    ghost var s1 := repo.Snapshot();
    if entries.None? {
      return None;
    }
    hide OwnMoves, Chained, WellFounded, WellFormed, Lists, Denotes, EntryDenotes, Lookup, Grows, Later, Watched;
    WatchedGrows(s0, s1);
    if IsTree(s0.objects, tree) {
      MeaningIsStable(s0.objects, s1.objects, hash, tree);
    }
    for i := 0 to |entries.value|
      invariant forall k | 0 <= k < i :: entries.value[k].path != components[0]
      invariant repo.Snapshot() == s1
    {
      var e := entries.value[i];
      if e.path != components[0] {
        continue;
      }
      LookupStep(s1.objects, hash, tree, i, components);
      if |components| == 1 {
        return Some(e);
      }
      if !IsTreeMode(e.mode) {
        return None;
      }
      r := ReadPath(repo, e.id, components[1..]);
      WatchedThen(s0, s1, repo.Snapshot());
      WatchedGrows(s1, repo.Snapshot());
      MeaningIsStable(s1.objects, repo.objects, hash, tree);
      MeaningIsStable(s1.objects, repo.objects, hash, e.id);
      return;
    }
    LookupMissing(s1.objects, hash, tree, components);
    r := None;
  }

  /** The entry stands for what is at the path. */
  ghost predicate Finds(objects: Objects, hash: nat, tree: ObjectId, components: seq<string>, e: TreeEntry)
    requires WellFounded(objects, hash) && IsTree(objects, tree) && |components| > 0
  {
    var found := Lookup(Meaning(objects, hash, tree), components);
    found.Some? && EntryDenotes(objects, hash, e, found.value)
  }

  /** `r` is `tree` with `leaf` at the path of an existing regular file. */
  ghost predicate Replaced(objects: Objects, hash: nat, tree: ObjectId, components: seq<string>, leaf: Node,
                           r: ObjectId)
    requires WellFounded(objects, hash) && |components| > 0
  {
    && HasFile(objects, hash, tree, components) && IsTree(objects, r)
    && Meaning(objects, hash, r) == Replace(Meaning(objects, hash, tree), components, leaf)
  }

  /** A regular file is at the path. */
  ghost predicate HasFile(objects: Objects, hash: nat, tree: ObjectId, components: seq<string>)
    requires WellFounded(objects, hash) && |components| > 0
  {
    && IsTree(objects, tree)
    && var found := LookupLeaf(Meaning(objects, hash, tree), components);
       found.Some? && IsFileMode(found.value.mode)
  }

  lemma HereIsFile(objects: Objects, hash: nat, tree: ObjectId, k: nat, components: seq<string>)
    requires WellFounded(objects, hash) && IsTree(objects, tree) && k < |objects[tree].entries| && |components| == 1
    requires objects[tree].entries[k].path == components[0]
    ensures HasFile(objects, hash, tree, components) <==> IsFileMode(objects[tree].entries[k].mode)
  {
    ListedEntry(objects, hash, tree, k);
    hide WellFounded, Denotes, EntryDenotes;
  }

  lemma FileIsBelow(objects: Objects, hash: nat, tree: ObjectId, k: nat, components: seq<string>)
    requires WellFounded(objects, hash) && IsTree(objects, tree) && k < |objects[tree].entries| && |components| > 1
    requires objects[tree].entries[k].path == components[0]
    ensures var e := objects[tree].entries[k];
      HasFile(objects, hash, tree, components) <==> IsTreeMode(e.mode) && HasFile(objects, hash, e.id, components[1..])
  {
    LookupStep(objects, hash, tree, k, components);
    hide WellFounded, Lookup;
  }

  lemma FileIsMissing(objects: Objects, hash: nat, tree: ObjectId, components: seq<string>)
    requires WellFounded(objects, hash) && IsTree(objects, tree) && |components| > 0
    requires forall k | 0 <= k < |objects[tree].entries| :: objects[tree].entries[k].path != components[0]
    ensures !HasFile(objects, hash, tree, components)
  {
    LookupMissing(objects, hash, tree, components);
  }

  lemma HasFileIsStable(objects: Objects, objects': Objects, hash: nat, tree: ObjectId, components: seq<string>)
    requires WellFounded(objects, hash) && WellFounded(objects', hash) && Grows(objects, objects') && |components| > 0
    requires HasFile(objects, hash, tree, components)
    ensures IsTree(objects, tree) && HasFile(objects', hash, tree, components)
  {
    MeaningIsStable(objects, objects', hash, tree);
  }

  lemma TreeNameIsValid(objects: Objects, hash: nat, id: ObjectId)
    requires WellFounded(objects, hash) && IsTree(objects, id)
    ensures ValidObject(id, hash)
  {
  }

  lemma GrowsKeeps(objects: Objects, objects': Objects, id: ObjectId)
    requires Grows(objects, objects') && id in objects
    ensures id in objects' && objects'[id] == objects[id]
  {
  }

  lemma ReplacedIsStable(objects: Objects, objects': Objects, hash: nat, tree: ObjectId, components: seq<string>,
                         leaf: Node, r: ObjectId)
    requires WellFounded(objects, hash) && WellFounded(objects', hash) && Grows(objects, objects') && |components| > 0
    requires Replaced(objects, hash, tree, components, leaf, r)
    ensures Replaced(objects', hash, tree, components, leaf, r)
  {
    MeaningIsStable(objects, objects', hash, tree);
    MeaningIsStable(objects, objects', hash, r);
  }

  lemma CanonicalAlready(entries: seq<TreeEntry>, sorted: seq<TreeEntry>, hash: nat)
    requires multiset(sorted) == multiset(entries) && forall i | 0 <= i < |entries| :: WellFormedEntry(entries[i], hash)
    ensures Canonicals(sorted) == sorted
  {
    hide Printable;
    forall i | 0 <= i < |sorted| ensures Canonical(sorted[i]) == sorted[i] {
      assert sorted[i] in multiset(entries);
      var k :| 0 <= k < |entries| && entries[k] == sorted[i];
      assert WellFormedEntry(entries[k], hash);
    }
  }

  /** What a tree written with one entry exchanged denotes. */
  lemma WrittenListing(objects: Objects, hash: nat, tree: ObjectId, k: nat, e: TreeEntry, child: Node,
                       sorted: seq<TreeEntry>, r: ObjectId)
    requires WellFounded(objects, hash) && IsTree(objects, tree) && k < |objects[tree].entries|
    requires e.path == objects[tree].entries[k].path && WellFormedEntry(e, hash)
    requires EntryDenotes(objects, hash, e, child)
    requires multiset(sorted) == multiset(objects[tree].entries[k := e])
    requires IsTree(objects, r) && objects[r].entries == Canonicals(sorted)
    ensures Meaning(objects, hash, tree).Dir?
    ensures Meaning(objects, hash, r) == Dir(Meaning(objects, hash, tree).children[e.path := child])
  {
    var entries, node := objects[tree].entries, Meaning(objects, hash, tree);
    ListedNames(objects, hash, tree);
    UpdatedListing(objects, hash, entries, node, k, e, child);
    var node' := Dir(node.children[e.path := child]);
    PermutedListing(objects, hash, entries[k := e], sorted, node');
    CanonicalAlready(entries[k := e], sorted, hash);
    assert Denotes(objects, hash, r, node');
    DenotesIsUnique(objects, hash, r, node', Meaning(objects, hash, r));
  }

  lemma FileEntryIsWellFormed(objects: Objects, o: TreeEntry, mode: string, blob: ObjectId, hash: nat)
    requires WellFormedEntry(o, hash) && IsFileMode(mode) && ValidObject(blob, hash)
    ensures WellFormedEntry(TreeEntry(mode, blob, o.path), hash)
    ensures EntryDenotes(objects, hash, TreeEntry(mode, blob, o.path), Leaf(mode, blob))
  {
    ValidModeIsPlain(mode);
    hide ValidObject;
  }

  lemma ValidModeIsPlain(mode: string)
    requires ValidMode(mode)
    ensures NUL !in mode && TAB !in mode && ' ' !in mode
  {
  }

  lemma ReplacedHere(objects: Objects, hash: nat, tree: ObjectId, k: nat, components: seq<string>, leaf: Node,
                     r: ObjectId)
    requires WellFounded(objects, hash) && IsTree(objects, tree) && k < |objects[tree].entries| && |components| == 1
    requires objects[tree].entries[k].path == components[0] && IsFileMode(objects[tree].entries[k].mode)
    requires Meaning(objects, hash, tree).Dir? && IsTree(objects, r)
    requires Meaning(objects, hash, r) == Dir(Meaning(objects, hash, tree).children[components[0] := leaf])
    ensures Replaced(objects, hash, tree, components, leaf, r)
  {
    HereIsFile(objects, hash, tree, k, components);
    hide WellFounded;
  }

  lemma SubtreeEntry(objects: Objects, hash: nat, o: TreeEntry, components: seq<string>, leaf: Node, below: ObjectId)
    requires WellFounded(objects, hash) && WellFormedEntry(o, hash) && IsTreeMode(o.mode) && |components| > 0
    requires Replaced(objects, hash, o.id, components, leaf, below)
    ensures IsTree(objects, below) && WellFormedEntry(o.(id := below), hash)
    ensures EntryDenotes(objects, hash, o.(id := below), Meaning(objects, hash, below))
  {
    TreeNameIsValid(objects, hash, below);
  }

  lemma ReplacedBelow(objects: Objects, hash: nat, tree: ObjectId, k: nat, components: seq<string>, leaf: Node,
                      below: ObjectId, r: ObjectId)
    requires WellFounded(objects, hash) && IsTree(objects, tree) && k < |objects[tree].entries| && |components| > 1
    requires var o := objects[tree].entries[k];
      && o.path == components[0] && IsTreeMode(o.mode) && Replaced(objects, hash, o.id, components[1..], leaf, below)
    requires Meaning(objects, hash, tree).Dir? && IsTree(objects, r)
    requires Meaning(objects, hash, r) ==
               Dir(Meaning(objects, hash, tree).children[components[0] := Meaning(objects, hash, below)])
    ensures Replaced(objects, hash, tree, components, leaf, r)
  {
    ListedEntry(objects, hash, tree, k);
    hide WellFounded, Denotes, EntryDenotes;
  }

  /** Every listing on the way to the path has only entries that WriteTree accepts. */
  ghost predicate Rewritable(objects: Objects, hash: nat, tree: ObjectId, components: seq<string>)
    requires |components| > 0
    decreases |components|, 0
  {
    && IsTree(objects, tree) && AllValid(objects[tree].entries, hash)
    && forall i | 0 <= i < |objects[tree].entries| && |components| > 1 ::
         RewritableBelow(objects, hash, objects[tree].entries[i], components)
  }

  ghost predicate RewritableBelow(objects: Objects, hash: nat, e: TreeEntry, components: seq<string>)
    requires |components| > 1
    decreases |components| - 1, 1
  {
    e.path == components[0] && IsTreeMode(e.mode) ==> Rewritable(objects, hash, e.id, components[1..])
  }

  lemma RewritableStep(objects: Objects, hash: nat, tree: ObjectId, k: nat, components: seq<string>)
    requires |components| > 0 && Rewritable(objects, hash, tree, components) && k < |objects[tree].entries|
    ensures AllValid(objects[tree].entries, hash)
    ensures var e := objects[tree].entries[k];
      |components| > 1 && e.path == components[0] && IsTreeMode(e.mode) ==>
        Rewritable(objects, hash, e.id, components[1..])
  {
    hide AllValid;
    assert |components| > 1 ==> RewritableBelow(objects, hash, objects[tree].entries[k], components);
  }

  lemma {:induction false} RewritableIsStable(objects: Objects, objects': Objects, hash: nat, tree: ObjectId,
                                              components: seq<string>)
    requires Grows(objects, objects') && |components| > 0 && Rewritable(objects, hash, tree, components)
    ensures Rewritable(objects', hash, tree, components)
    decreases |components|
  {
    var entries := objects[tree].entries;
    forall i | 0 <= i < |entries| && |components| > 1 ensures RewritableBelow(objects', hash, entries[i], components) {
      assert RewritableBelow(objects, hash, entries[i], components);
      if entries[i].path == components[0] && IsTreeMode(entries[i].mode) {
        RewritableIsStable(objects, objects', hash, entries[i].id, components[1..]);
      }
    }
  }

  /** A stored listing with one entry exchanged for a valid one passes all of WriteTree's checks. */
  lemma UpdatedIsAccepted(objects: Objects, hash: nat, tree: ObjectId, k: nat, e: TreeEntry)
    requires WellFounded(objects, hash) && IsTree(objects, tree) && k < |objects[tree].entries|
    requires e.path == objects[tree].entries[k].path && (IsTreeMode(e.mode) ==> IsTree(objects, e.id))
    ensures Distinct(objects[tree].entries[k := e]) && Accepted(objects, objects[tree].entries[k := e])
    ensures AllValid(objects[tree].entries, hash) && ValidMode(e.mode) && ValidObject(e.id, hash) ==>
              AllValid(objects[tree].entries[k := e], hash)
  {
    var entries := objects[tree].entries;
    var entries' := entries[k := e];
    ListedNames(objects, hash, tree);
    forall i | 0 <= i < |entries'| && IsTreeMode(entries'[i].mode) ensures IsTree(objects, entries'[i].id) {
      if i != k {
        ListedEntry(objects, hash, tree, i);
      }
    }
    hide WellFounded, Lists, ValidMode, ValidObject;
  }

  /** A listing written again with one entry exchanged. */
  method WriteUpdated(repo: Repository, tree: ObjectId, k: nat, entries: seq<TreeEntry>, ghost child: Node)
    returns (r: Option<ObjectId>)
    requires repo.Valid() && IsTree(repo.objects, tree) && k < |repo.objects[tree].entries|
    requires k < |entries| && entries == repo.objects[tree].entries[k := entries[k]]
    requires entries[k].path == repo.objects[tree].entries[k].path
    requires WellFormedEntry(entries[k], repo.hash) && EntryDenotes(repo.objects, repo.hash, entries[k], child)
    modifies repo
    ensures repo.Valid() && Watched(old(repo.Snapshot()), repo.Snapshot())
    ensures r.Some? ==>
      && IsTree(repo.objects, tree) && IsTree(repo.objects, r.value) && Meaning(repo.objects, repo.hash, tree).Dir?
      && Meaning(repo.objects, repo.hash, r.value) ==
         Dir(Meaning(repo.objects, repo.hash, tree).children[entries[k].path := child])
    ensures AllValid(old(repo.objects)[tree].entries, repo.hash) && ValidMode(entries[k].mode) ==>
              (r.Some? <==> repo.failures == old(repo.failures))
  {
    ghost var hash, s0, e := repo.hash, repo.Snapshot(), entries[k];
    assert ValidObject(e.id, hash) && (IsTreeMode(e.mode) ==> Denotes(s0.objects, hash, e.id, child));
    hide OwnMoves, Chained, WellFounded, Lists, Denotes, EntryDenotes, Grows, Later, Watched, WellFormedEntry,
      AllValid, Distinct, Accepted, Sorted, ValidMode, ValidObject;
    UpdatedIsAccepted(s0.objects, hash, tree, k, e);
    ghost var sorted;
    r, sorted := repo.WriteTree(entries);
    if r.Some? {
      ghost var s1 := repo.Snapshot();
      WatchedGrows(s0, s1);
      GrowsKeeps(s0.objects, s1.objects, tree);
      EntryIsStable(s0.objects, s1.objects, hash, e, child);
      WrittenListing(s1.objects, hash, tree, k, e, child, sorted, r.value);
    }
  }

  /** replacePath: only the leaf at the path is exchanged. The listings on the way are written
      again, in Git's order. Undisturbed, it succeeds on every existing regular file, if the
      listings on the way can be written again. */
  method ReplacePath(repo: Repository, tree: ObjectId, components: seq<string>, blob: ObjectId, mode: string)
    returns (r: Option<ObjectId>)
    requires repo.Valid() && |components| > 0 && IsFileMode(mode) && ValidObject(blob, repo.hash)
    modifies repo
    ensures repo.Valid() && Watched(old(repo.Snapshot()), repo.Snapshot())
    ensures r.Some? ==> Replaced(repo.objects, repo.hash, tree, components, Leaf(mode, blob), r.value)
    ensures Undisturbed(old(repo.Snapshot()), repo.Snapshot())
            && Rewritable(old(repo.objects), repo.hash, tree, components) ==>
              (HasFile(old(repo.objects), repo.hash, tree, components) ==> r.Some?)
    decreases |components|
  {
    ghost var hash, s0 := repo.hash, repo.Snapshot();
    ghost var good := Rewritable(s0.objects, hash, tree, components) && HasFile(s0.objects, hash, tree, components);
    var listing := repo.ReadTree(tree);
    ghost var s1 := repo.Snapshot();
    hide OwnMoves, Chained, WellFounded, Lists, Denotes, Grows, Later, Watched, AllValid, Distinct, SlashFree, Lookup,
      ValidObject, Replaced, HasFile, Rewritable, WellFormedEntry, EntryDenotes;
    WatchedGrows(s0, s1);
    if good {
      RewritableIsStable(s0.objects, s1.objects, hash, tree, components);
      HasFileIsStable(s0.objects, s1.objects, hash, tree, components);
    }
    if listing.None? {
      return None;
    }
    var entries := listing.value;
    for i := 0 to |entries|
      invariant entries == listing.value && repo.Snapshot() == s1
      invariant forall k | 0 <= k < i :: entries[k].path != components[0]
    {
      if entries[i].path != components[0] {
        continue;
      }
      if good {
        RewritableStep(s1.objects, hash, tree, i, components);
      }
      if |components| == 1 {
        HereIsFile(s1.objects, hash, tree, i, components);
        if !IsFileMode(entries[i].mode) {
          return None;
        }
        FileEntryIsWellFormed(s1.objects, entries[i], mode, blob, hash);
        entries := entries[i := TreeEntry(mode, blob, entries[i].path)];
        r := WriteUpdated(repo, tree, i, entries, Leaf(mode, blob));
        WatchedThen(s0, s1, repo.Snapshot());
        WatchedGrows(s1, repo.Snapshot());
        GrowsKeeps(s1.objects, repo.objects, tree);
        if r.Some? {
          ReplacedHere(repo.objects, hash, tree, i, components, Leaf(mode, blob), r.value);
        }
        return;
      }
      FileIsBelow(s1.objects, hash, tree, i, components);
      if !IsTreeMode(entries[i].mode) {
        return None;
      }
      var below := ReplacePath(repo, entries[i].id, components[1..], blob, mode);
      ghost var s2, o := repo.Snapshot(), entries[i];
      WatchedThen(s0, s1, s2);
      if below.None? {
        return None;
      }
      WatchedGrows(s1, s2);
      GrowsKeeps(s1.objects, s2.objects, tree);
      SubtreeEntry(s2.objects, hash, o, components[1..], Leaf(mode, blob), below.value);
      entries := entries[i := entries[i].(id := below.value)];
      r := WriteUpdated(repo, tree, i, entries, Meaning(s2.objects, hash, below.value));
      ghost var s3 := repo.Snapshot();
      WatchedThen(s0, s2, s3);
      WatchedGrows(s2, s3);
      GrowsKeeps(s2.objects, s3.objects, tree);
      if r.Some? {
        ReplacedIsStable(s2.objects, s3.objects, hash, o.id, components[1..], Leaf(mode, blob), below.value);
        MeaningIsStable(s2.objects, s3.objects, hash, below.value);
        ReplacedBelow(s3.objects, hash, tree, i, components, Leaf(mode, blob), below.value, r.value);
      }
      return;
    }
    FileIsMissing(s1.objects, hash, tree, components);
    r := None;
  }

  /** The children whose names are among the first `i` entries. */
  ghost function Part(children: map<string, Node>, entries: seq<TreeEntry>, i: nat): map<string, Node>
    requires i <= |entries|
  {
    map n | n in children && n in Names(entries[..i]) :: children[n]
  }

  lemma ListedName(objects: Objects, hash: nat, tree: ObjectId, i: nat)
    requires WellFounded(objects, hash) && IsTree(objects, tree) && i < |objects[tree].entries|
    ensures var (node, entries) := (Meaning(objects, hash, tree), objects[tree].entries);
      var name := entries[i].path;
      && node.Dir? && name in node.children && name != "" && '/' !in name
      && forall k | 0 <= k < i :: entries[k].path != name
  {
    ListedNames(objects, hash, tree);
    assert WellFormedEntry(objects[tree].entries[i], hash);
    assert objects[tree].entries[i].path in Names(objects[tree].entries);
  }

  lemma NextPart(objects: Objects, hash: nat, tree: ObjectId, i: nat)
    requires WellFounded(objects, hash) && IsTree(objects, tree) && i < |objects[tree].entries|
    ensures var (node, entries) := (Meaning(objects, hash, tree), objects[tree].entries);
      var name := entries[i].path;
      && node.Dir? && name in node.children && name != "" && '/' !in name
      && name !in Part(node.children, entries, i)
      && Part(node.children, entries, i + 1) == Part(node.children, entries, i)[name := node.children[name]]
  {
    hide WellFounded, Denotes;
    var entries := objects[tree].entries;
    ListedName(objects, hash, tree, i);
    assert entries[..i + 1] == entries[..i] + [entries[i]];
    assert Names(entries[..i + 1]) == Names(entries[..i]) + {entries[i].path};
  }

  lemma WholePart(objects: Objects, hash: nat, tree: ObjectId)
    requires WellFounded(objects, hash) && IsTree(objects, tree)
    ensures var (node, entries) := (Meaning(objects, hash, tree), objects[tree].entries);
      node.Dir? && Part(node.children, entries, |entries|) == node.children && Part(node.children, entries, 0) == map[]
  {
    ListedNames(objects, hash, tree);
    assert objects[tree].entries[..|objects[tree].entries|] == objects[tree].entries;
  }

  /** flattenTree: every leaf below the tree, by its full path. The tree's meaning, when the
      caller knows it, bounds the recursion. */
  method FlattenTree(repo: Repository, tree: ObjectId, prefix: string, ghost bound: Option<Node>)
    returns (r: Option<map<string, TreeEntry>>)
    requires repo.Valid()
    requires bound.Some? ==> IsTree(repo.objects, tree) && bound.value == Meaning(repo.objects, repo.hash, tree)
    modifies repo
    ensures repo.Valid() && Watched(old(repo.Snapshot()), repo.Snapshot())
    ensures r.Some? ==> IsTree(repo.objects, tree) && IsIndex(r.value, Meaning(repo.objects, repo.hash, tree), prefix)
    ensures Undisturbed(old(repo.Snapshot()), repo.Snapshot()) && IsTree(old(repo.objects), tree) ==> r.Some?
    decreases if bound.None? then 1 else 0, if bound.Some? then bound.value else Dir(map[])
  {
    ghost var hash, s0 := repo.hash, repo.Snapshot();
    var listing := repo.ReadTree(tree);
    if listing.None? {
      return None;
    }
    var entries := listing.value;
    ghost var s1 := repo.Snapshot();
    ghost var node := Meaning(s1.objects, hash, tree);
    hide OwnMoves, Chained, WellFounded, Lists, Denotes, Grows, WellFormed, Part, IsIndex, Later, Watched,
      EntryDenotes, Indexed, FullPath;
    WatchedGrows(s0, s1);
    if IsTree(s0.objects, tree) {
      MeaningIsStable(s0.objects, s1.objects, hash, tree);
    }
    WatchedSelf(s1);
    WholePart(s1.objects, hash, tree);
    EmptyIndex(prefix);
    var flat: map<string, TreeEntry> := map[];
    for i := 0 to |entries|
      invariant repo.Valid() && Watched(s0, repo.Snapshot()) && Watched(s1, repo.Snapshot())
      invariant IsIndex(flat, Dir(Part(node.children, entries, i)), prefix)
    {
      var e := entries[i];
      var fullPath := FullPath(prefix, e.path);
      NextPart(s1.objects, hash, tree, i);
      ListedEntry(s1.objects, hash, tree, i);
      ghost var done, child := Part(node.children, entries, i), node.children[e.path];
      if IsTreeMode(e.mode) {
        ghost var s2 := repo.Snapshot();
        WatchedGrows(s1, s2);
        MeaningIsStable(s1.objects, s2.objects, hash, e.id);
        assert child < node;
        var nested := FlattenTree(repo, e.id, fullPath, Some(child));
        WatchedThen(s0, s2, repo.Snapshot());
        WatchedThen(s1, s2, repo.Snapshot());
        if nested.None? {
          return None;
        }
        WatchedGrows(s2, repo.Snapshot());
        MeaningIsStable(s2.objects, repo.objects, hash, e.id);
        IndexWithDir(flat, nested.value, done, prefix, e.path, child);
        flat := flat + nested.value;
      } else {
        IndexWithLeaf(flat, done, prefix, e.path, child);
        flat := flat[fullPath := e.(path := fullPath)];
      }
    }
    WatchedGrows(s1, repo.Snapshot());
    MeaningIsStable(s1.objects, repo.objects, hash, tree);
    r := Some(flat);
  }

  lemma EmptyIndex(prefix: string)
    ensures IsIndex(map[], Dir(map[]), prefix)
  {
  }

  lemma WatchedSelf(a: Store)
    ensures Watched(a, a)
  {
  }

  lemma WatchedGrows(a: Store, b: Store)
    requires Watched(a, b)
    ensures Grows(a.objects, b.objects)
  {
  }

  /** compareTreeLeaves: the same paths, and the same entries at all of them but one. */
  method CompareTreeLeaves(before: map<string, TreeEntry>, after: map<string, TreeEntry>, target: string)
    returns (ok: bool)
    ensures ok <==> before.Keys == after.Keys && forall p | p in before && p != target :: before[p] == after[p]
  {
    var todo := before.Keys;
    while todo != {}
      invariant todo <= before.Keys
      invariant forall p | p in before && p !in todo :: p in after && (p == target || before[p] == after[p])
    {
      var path :| path in todo;
      if path !in after {
        return false;
      }
      if path != target && after[path] != before[path] {
        return false;
      }
      todo := todo - {path};
    }
    todo := after.Keys;
    while todo != {}
      invariant todo <= after.Keys
      invariant forall p | p in after && p !in todo :: p in before
    {
      var path :| path in todo;
      if path !in before {
        return false;
      }
      todo := todo - {path};
    }
    ok := true;
  }

  /** Tree replacement is exact: the flattened index of the result is that of the input with
      the target's mode and object changed, at any depth and despite the sorting. */
  lemma ReplacementIsExact(objects: Objects, hash: nat, tree: ObjectId, path: string, mode: string, blob: ObjectId,
                           r: ObjectId, flat: map<string, TreeEntry>, flat': map<string, TreeEntry>)
    requires WellFounded(objects, hash) && Replaced(objects, hash, tree, Split(path, '/'), Leaf(mode, blob), r)
    requires IsIndex(flat, Meaning(objects, hash, tree), "") && IsIndex(flat', Meaning(objects, hash, r), "")
    ensures path in flat && IsFileMode(flat[path].mode) && flat' == flat[path := TreeEntry(mode, blob, path)]
  {
    IndexAfterReplace(flat, flat', Meaning(objects, hash, tree), path, Leaf(mode, blob));
    assert Indexed(Meaning(objects, hash, tree), "", path) == Some(flat[path]);
  }

  /** Only entries that are not directories stand for leaves. */
  lemma {:induction false} LeavesAreNoTrees(objects: Objects, hash: nat, tree: ObjectId, node: Node,
                                            components: seq<string>)
    requires Denotes(objects, hash, tree, node) && |components| > 0 && LookupLeaf(node, components).Some?
    ensures !IsTreeMode(LookupLeaf(node, components).value.mode)
    decreases |components|
  {
    var entries := objects[tree].entries;
    assert Lists(objects, hash, entries, node) && components[0] in Names(entries);
    var i :| 0 <= i < |entries| && entries[i].path == components[0];
    var child := node.children[components[0]];
    assert EntryDenotes(objects, hash, entries[i], child);
    assert Lookup(node, components) == if |components| == 1 then Some(child) else Lookup(child, components[1..]);
    assert IsTreeMode(entries[i].mode) ==> Denotes(objects, hash, entries[i].id, child);
    assert IsTreeMode(entries[i].mode) <==> child.Dir?;
    if |components| > 1 {
      assert Lookup(child, components[1..]).Some?;
      assert Denotes(objects, hash, entries[i].id, child);
      LeavesAreNoTrees(objects, hash, entries[i].id, child, components[1..]);
    }
  }

  /** Reading a path agrees with the flattened index: the index has a path exactly when it
      reads as an entry that is not a directory, and then with that mode and object. */
  lemma ReadingAgreesWithIndex(objects: Objects, hash: nat, tree: ObjectId, path: string, flat: map<string, TreeEntry>)
    requires WellFounded(objects, hash) && IsTree(objects, tree) && IsIndex(flat, Meaning(objects, hash, tree), "")
    ensures path in flat ==> Finds(objects, hash, tree, Split(path, '/'), flat[path])
    ensures forall e | Finds(objects, hash, tree, Split(path, '/'), e) ::
              if IsTreeMode(e.mode) then path !in flat else path in flat && flat[path] == TreeEntry(e.mode, e.id, path)
  {
    var node, parts := Meaning(objects, hash, tree), Split(path, '/');
    assert Indexed(node, "", path) == if path in flat then Some(flat[path]) else None;
    if path in flat {
      LeavesAreNoTrees(objects, hash, tree, node, parts);
    }
    hide WellFounded, Lists, Lookup, Split, IsIndex;
    forall e | Finds(objects, hash, tree, parts, e)
      ensures if IsTreeMode(e.mode) then path !in flat else path in flat && flat[path] == TreeEntry(e.mode, e.id, path)
    {
      var found := Lookup(node, parts).value;
      assert EntryDenotes(objects, hash, e, found);
      assert IsTreeMode(e.mode) ==> Denotes(objects, hash, e.id, found) && found.Dir?;
    }
  }
}
