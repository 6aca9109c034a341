/**
 What the Git file provider claims about commits: fingerprints, tokens and messages,
 the file at a commit, and a commit that changes one file on top of another commit.
 */
module GitClaims {
  import opened Results
  import opened GitText
  import opened GitFormats
  import opened GitTrees
  import opened GitRepository
  import opened GitPaths

  /** A symbolic SHA-256: equal exactly when the hashed bytes are. */
  datatype Fingerprint =
    | Text(text: string)
    | Sha256(preimage: string)

  // ---- Names and messages ----

  const TIP_PREFIX: string := "git-tip-v1:"

  function TipToken(tip: ObjectId): string {
    TIP_PREFIX + tip
  }

  function ParseTip(token: string, hash: nat): Option<ObjectId> {
    if TIP_PREFIX <= token && ValidObject(token[|TIP_PREFIX|..], hash) then Some(token[|TIP_PREFIX|..]) else None
  }

  /** A token is read back as the one tip it was made for. */
  lemma TipTokenRoundTrip(token: string, tip: ObjectId, hash: nat)
    ensures ParseTip(token, hash) == Some(tip) <==> token == TipToken(tip) && ValidObject(tip, hash)
  {
    if TIP_PREFIX <= token {
      assert token == TIP_PREFIX + token[|TIP_PREFIX|..];
    }
    assert TipToken(tip)[|TIP_PREFIX|..] == tip;
  }

  const MESSAGE_HEAD: string := "ackOS: replace tracked file\n\nAck-Execution-Id: "

  function ExecutionCommitMessage(executionId: string): string {
    MESSAGE_HEAD + executionId + "\n"
  }

  /** The commit message binds the commit to one execution ID. */
  lemma MessageBindsExecution(a: string, b: string)
    ensures ExecutionCommitMessage(a) == ExecutionCommitMessage(b) <==> a == b
  {
    var m, n := ExecutionCommitMessage(a), ExecutionCommitMessage(b);
    assert m[|MESSAGE_HEAD|..|m| - 1] == a && n[|MESSAGE_HEAD|..|n| - 1] == b;
  }

  function FileStateFingerprint(mode: string, content: string): Option<Fingerprint> {
    if IsFileMode(mode) then Some(Sha256("git-file-v1\0" + mode + "\0" + content)) else None
  }

  /** Mode and bytes cannot be traded against each other under one fingerprint. */
  lemma FingerprintIsUnambiguous(mode: string, content: string, mode': string, content': string)
    requires IsFileMode(mode)
    ensures FileStateFingerprint(mode, content) == FileStateFingerprint(mode', content') <==>
              mode == mode' && content == content'
  {
    if FileStateFingerprint(mode, content) == FileStateFingerprint(mode', content') {
      var head := "git-file-v1\0";
      var p, p' := head + mode + "\0" + content, head + mode' + "\0" + content';
      assert |mode| == 6 == |mode'|;
      assert p[|head|..|head| + 6] == mode && p'[|head|..|head| + 6] == mode';
      assert p[|head| + 7..] == content && p'[|head| + 7..] == content';
    }
  }

  // ---- What the store says ----

  function LeafAt(node: Node, path: string): Option<Node> {
    LookupLeaf(node, Split(path, '/'))
  }

  /** The commit has a regular file with this fingerprint at the path. */
  ghost predicate Matches(objects: Objects, hash: nat, commit: ObjectId, path: string, fingerprint: Fingerprint)
    requires WellFounded(objects, hash)
  {
    exists mode, content ::
      FileIs(objects, hash, commit, path, mode, content) && FileStateFingerprint(mode, content) == Some(fingerprint)
  }

  ghost predicate FileIs(objects: Objects, hash: nat, commit: ObjectId, path: string, mode: string, content: string)
    requires WellFounded(objects, hash)
  {
    && CommitAt(objects, hash, commit).Some?
    && var tree := CommitAt(objects, hash, commit).value.tree;
       && IsTree(objects, tree)
       && var leaf := LeafAt(Meaning(objects, hash, tree), path);
          && leaf.Some? && leaf.value.mode == mode
          && leaf.value.id in objects && objects[leaf.value.id] == Blob(content)
  }

  /** No file but the target differs, and none is added or removed. */
  ghost predicate SameElsewhere(a: Node, b: Node, target: string) {
    && (forall path | path != target :: LeafAt(a, path) == LeafAt(b, path))
    && (LeafAt(a, target).Some? <==> LeafAt(b, target).Some?)
  }

  /** `result` is the execution's commit: the only parent is the authorised tip, the message
      names the execution, nothing but the target differs, and the target is as desired. */
  ghost predicate Accomplished(objects: Objects, hash: nat, path: string, before: ObjectId, result: ObjectId,
                               executionId: string, desired: Fingerprint)
    requires WellFounded(objects, hash)
  {
    && CommitAt(objects, hash, before).Some? && CommitAt(objects, hash, result).Some?
    && var (b, r) := (CommitAt(objects, hash, before).value, CommitAt(objects, hash, result).value);
       && r.parents == [before] && r.message == ExecutionCommitMessage(executionId)
       && IsTree(objects, b.tree) && IsTree(objects, r.tree)
       && SameElsewhere(Meaning(objects, hash, b.tree), Meaning(objects, hash, r.tree), path)
       && Matches(objects, hash, result, path, desired)
  }

  lemma FileIsStable(objects: Objects, objects': Objects, hash: nat, commit: ObjectId, path: string, mode: string,
                     content: string)
    requires WellFounded(objects, hash) && WellFounded(objects', hash) && Grows(objects, objects')
    requires FileIs(objects, hash, commit, path, mode, content)
    ensures FileIs(objects', hash, commit, path, mode, content)
  {
    CommitIsStable(objects, objects', hash, commit);
    MeaningIsStable(objects, objects', hash, CommitAt(objects, hash, commit).value.tree);
    hide WellFounded, LeafAt, ParseCommit;
  }

  lemma MatchesIsStable(objects: Objects, objects': Objects, hash: nat, commit: ObjectId, path: string, f: Fingerprint)
    requires WellFounded(objects, hash) && WellFounded(objects', hash) && Grows(objects, objects')
    requires Matches(objects, hash, commit, path, f)
    ensures Matches(objects', hash, commit, path, f)
  {
    hide FileIs;
    var mode, content :|
      FileIs(objects, hash, commit, path, mode, content) && FileStateFingerprint(mode, content) == Some(f);
    FileIsStable(objects, objects', hash, commit, path, mode, content);
  }

  lemma AccomplishedIsStable(objects: Objects, objects': Objects, hash: nat, path: string, before: ObjectId,
                             result: ObjectId, executionId: string, desired: Fingerprint)
    requires WellFounded(objects, hash) && WellFounded(objects', hash) && Grows(objects, objects')
    requires Accomplished(objects, hash, path, before, result, executionId, desired)
    ensures Accomplished(objects', hash, path, before, result, executionId, desired)
  {
    hide Matches, SameElsewhere, ParseCommit;
    CommitIsStable(objects, objects', hash, before);
    CommitIsStable(objects, objects', hash, result);
    MeaningIsStable(objects, objects', hash, CommitAt(objects, hash, before).value.tree);
    MeaningIsStable(objects, objects', hash, CommitAt(objects, hash, result).value.tree);
    MatchesIsStable(objects, objects', hash, result, path, desired);
  }

  /** The file behind a fingerprint is one file. */
  lemma MatchedFileIsExact(objects: Objects, hash: nat, commit: ObjectId, path: string, mode: string, content: string,
                           f: Fingerprint)
    requires WellFounded(objects, hash) && FileStateFingerprint(mode, content) == Some(f)
    ensures Matches(objects, hash, commit, path, f) <==> FileIs(objects, hash, commit, path, mode, content)
  {
    hide FileIs;
    if Matches(objects, hash, commit, path, f) {
      var m, c :| FileIs(objects, hash, commit, path, m, c) && FileStateFingerprint(m, c) == Some(f);
      FingerprintIsUnambiguous(m, c, mode, content);
    }
  }

  /** A replaced path under a bound commit is what was asked for. */
  lemma ReplacementAccomplishes(objects: Objects, hash: nat, path: string, before: ObjectId, result: ObjectId,
                                executionId: string, mode: string, content: string, blob: ObjectId, newTree: ObjectId)
    requires WellFounded(objects, hash) && CommitAt(objects, hash, before).Some? && IsFileMode(mode)
    requires Replaced(objects, hash, CommitAt(objects, hash, before).value.tree, Split(path, '/'), Leaf(mode, blob),
                      newTree)
    requires blob in objects && objects[blob] == Blob(content)
    requires CommitAt(objects, hash, result) == Some(Commit(newTree, [before], ExecutionCommitMessage(executionId)))
    ensures Accomplished(objects, hash, path, before, result, executionId, FileStateFingerprint(mode, content).value)
  {
    var node := Meaning(objects, hash, CommitAt(objects, hash, before).value.tree);
    var parts, leaf := Split(path, '/'), Leaf(mode, blob);
    forall p ensures LeafAt(Replace(node, parts, leaf), p) == if p == path then Some(leaf) else LeafAt(node, p) {
      ReplaceIsExact(node, parts, leaf, Split(p, '/'));
      JoinSplit(p, '/');
      JoinSplit(path, '/');
    }
    assert LeafAt(node, path).Some?;
    hide WellFounded, LeafAt, ParseCommit, Lookup, Replace, Split;
    assert FileIs(objects, hash, result, path, mode, content);
  }

  /** compareTreeLeaves on two indexes is the comparison of the trees. */
  lemma ComparingIndexes(a: Node, b: Node, flatA: map<string, TreeEntry>, flatB: map<string, TreeEntry>, target: string)
    requires IsIndex(flatA, a, "") && IsIndex(flatB, b, "")
    ensures (flatA.Keys == flatB.Keys && forall p | p in flatA && p != target :: flatA[p] == flatB[p])
            <==> SameElsewhere(a, b, target)
  {
    forall p
      ensures (p in flatA <==> LeafAt(a, p).Some?) && (p in flatB <==> LeafAt(b, p).Some?)
      ensures p in flatA && p in flatB ==> (flatA[p] == flatB[p] <==> LeafAt(a, p) == LeafAt(b, p))
    {
      IndexedLeaf(a, flatA, p);
      IndexedLeaf(b, flatB, p);
    }
    hide IsIndex, LeafAt;
    if flatA.Keys == flatB.Keys && forall p | p in flatA && p != target :: flatA[p] == flatB[p] {
      forall p | p != target ensures LeafAt(a, p) == LeafAt(b, p) {
        assert p in flatA <==> p in flatB;
      }
    }
    if SameElsewhere(a, b, target) {
      forall p ensures p in flatA <==> p in flatB {
        assert p != target ==> LeafAt(a, p) == LeafAt(b, p);
      }
    }
  }

  lemma IndexedLeaf(node: Node, flat: map<string, TreeEntry>, path: string)
    requires IsIndex(flat, node, "")
    ensures path in flat <==> LeafAt(node, path).Some?
    ensures path in flat ==> LeafAt(node, path) == Some(Leaf(flat[path].mode, flat[path].id)) && flat[path].path == path
  {
    assert Indexed(node, "", path) == if path in flat then Some(flat[path]) else None;
    hide Split, Lookup;
  }

  lemma WhatWasRead(o1: Objects, o2: Objects, o3: Objects, hash: nat, commit: ObjectId, c: Commit, path: string,
                    e: TreeEntry, content: string)
    requires WellFounded(o2, hash) && WellFounded(o3, hash) && Grows(o1, o2) && Grows(o2, o3)
    requires CommitAt(o1, hash, commit) == Some(c) && IsTree(o2, c.tree) && Finds(o2, hash, c.tree, Split(path, '/'), e)
    requires IsFileMode(e.mode) && e.id in o3 && o3[e.id] == Blob(content)
    ensures CommitAt(o3, hash, commit) == Some(c) && FileIs(o3, hash, commit, path, e.mode, content)
  {
    CommitIsStable(o1, o2, hash, commit);
    CommitIsStable(o2, o3, hash, commit);
    MeaningIsStable(o2, o3, hash, c.tree);
    hide WellFounded, Grows, ParseCommit, Denotes, Split;
  }

  /** What is there will be found. */
  lemma WhatWillBeRead(o0: Objects, o1: Objects, hash: nat, commit: ObjectId, path: string, mode: string,
                       content: string)
    requires WellFounded(o0, hash) && WellFounded(o1, hash) && Grows(o0, o1)
    requires FileIs(o0, hash, commit, path, mode, content)
    ensures CommitAt(o0, hash, commit).Some? && CommitAt(o1, hash, commit) == CommitAt(o0, hash, commit)
    ensures var tree := CommitAt(o0, hash, commit).value.tree;
      && IsTree(o1, tree) && Lookup(Meaning(o1, hash, tree), Split(path, '/')).Some?
      && forall e | Finds(o1, hash, tree, Split(path, '/'), e) ::
           e.mode == mode && e.id in o1 && o1[e.id] == Blob(content)
  {
    FileIsStable(o0, o1, hash, commit, path, mode, content);
    CommitIsStable(o0, o1, hash, commit);
    var tree := CommitAt(o0, hash, commit).value.tree;
    hide WellFounded, Grows, ParseCommit, Split, Lists;
    forall e | Finds(o1, hash, tree, Split(path, '/'), e)
      ensures e.mode == mode && e.id in o1 && o1[e.id] == Blob(content)
    {
      var found := Lookup(Meaning(o1, hash, tree), Split(path, '/')).value;
      assert found.Leaf? && EntryDenotes(o1, hash, e, found);
      assert IsTreeMode(e.mode) ==> Denotes(o1, hash, e.id, found);
    }
  }

  lemma HeldNow(a: Store, b: Store, id: ObjectId)
    requires Later(a, b) && b.tip == Some(id) && Chained(b)
    ensures Held(a, b, id)
  {
    if |a.moves| < |b.moves| {
      assert b.moves[|b.moves| - 1].to == Some(id);
    } else {
      assert a.moves == b.moves;
    }
  }

  lemma HeldBefore(a: Store, b: Store, c: Store, id: ObjectId)
    requires Held(a, b, id) && Later(b, c)
    ensures Held(a, c, id)
  {
    if a.tip != Some(id) {
      var i :| |a.moves| <= i < |b.moves| && b.moves[i].to == Some(id);
      assert c.moves[i] == b.moves[i];
    }
  }

  /** The parts of an accomplished execution, as Verify meets them. */
  lemma Accomplishment(objects: Objects, hash: nat, path: string, before: ObjectId, result: ObjectId,
                       executionId: string, desired: Fingerprint)
    requires WellFounded(objects, hash) && Accomplished(objects, hash, path, before, result, executionId, desired)
    ensures CommitAt(objects, hash, before).Some? && CommitAt(objects, hash, result).Some?
    ensures var (b, r) := (CommitAt(objects, hash, before).value, CommitAt(objects, hash, result).value);
      && r.parents == [before] && r.message == ExecutionCommitMessage(executionId)
      && IsTree(objects, b.tree) && IsTree(objects, r.tree)
      && SameElsewhere(Meaning(objects, hash, b.tree), Meaning(objects, hash, r.tree), path)
      && var leaf := LeafAt(Meaning(objects, hash, r.tree), path);
         && leaf.Some? && leaf.value.id in objects && objects[leaf.value.id].Blob?
         && FileStateFingerprint(leaf.value.mode, objects[leaf.value.id].content) == Some(desired)
  {
    hide WellFounded, SameElsewhere, LeafAt, ParseCommit;
  }

  lemma WhatWasChecked(o1: Objects, o2: Objects, o3: Objects, o4: Objects, hash: nat, path: string,
                       before: ObjectId, result: ObjectId, executionId: string, b: Commit, r: Commit, e: TreeEntry,
                       content: string, authorised: Fingerprint, desired: Fingerprint)
    requires WellFounded(o1, hash) && WellFounded(o2, hash) && WellFounded(o3, hash) && WellFounded(o4, hash)
    requires Grows(o1, o2) && Grows(o2, o3) && Grows(o3, o4)
    requires CommitAt(o1, hash, before) == Some(b) && Matches(o1, hash, before, path, authorised)
    requires CommitAt(o2, hash, result) == Some(r) && r.parents == [before]
    requires r.message == ExecutionCommitMessage(executionId)
    requires IsTree(o3, b.tree) && IsTree(o3, r.tree)
    requires SameElsewhere(Meaning(o3, hash, b.tree), Meaning(o3, hash, r.tree), path)
    requires LeafAt(Meaning(o3, hash, r.tree), path) == Some(Leaf(e.mode, e.id))
    requires e.id in o4 && o4[e.id] == Blob(content) && FileStateFingerprint(e.mode, content) == Some(desired)
    ensures Matches(o4, hash, before, path, authorised)
    ensures Accomplished(o4, hash, path, before, result, executionId, desired)
  {
    assert Grows(o1, o4) && Grows(o2, o4);
    MatchesIsStable(o1, o4, hash, before, path, authorised);
    CommitIsStable(o1, o4, hash, before);
    CommitIsStable(o2, o4, hash, result);
    MeaningIsStable(o3, o4, hash, b.tree);
    MeaningIsStable(o3, o4, hash, r.tree);
    hide WellFounded, Grows, SameElsewhere, LeafAt, ParseCommit, FileStateFingerprint;
    assert FileIs(o4, hash, result, path, e.mode, content);
  }

  lemma StableIfTree(objects: Objects, objects': Objects, hash: nat, tree: ObjectId)
    requires WellFounded(objects, hash) && WellFounded(objects', hash) && Grows(objects, objects')
    ensures IsTree(objects, tree) ==>
              IsTree(objects', tree) && Meaning(objects', hash, tree) == Meaning(objects, hash, tree)
  {
    if IsTree(objects, tree) {
      MeaningIsStable(objects, objects', hash, tree);
    }
  }

  lemma HeldLater(a: Store, b: Store, c: Store, id: ObjectId)
    requires Later(a, b) && Held(b, c, id) && Later(b, c) && Chained(b)
    ensures Held(a, c, id)
  {
    if b.tip == Some(id) {
      HeldNow(a, b, id);
      HeldBefore(a, b, c, id);
    }
  }

  /** A matched commit is an object of the store. */
  lemma MatchedIsValid(s: Store, hash: nat, path: string)
    requires WellFounded(s.objects, hash)
    ensures forall tip, f | s.tip == Some(tip) && Matches(s.objects, hash, tip, path, f) :: ValidObject(tip, hash)
  {
    forall tip, f | s.tip == Some(tip) && Matches(s.objects, hash, tip, path, f) ensures ValidObject(tip, hash) {
      hide ValidObject, IsTree, LeafAt, ParseCommit;
      assert tip in s.objects;
    }
  }

  lemma MatchesEverywhere(objects: Objects, objects': Objects, hash: nat, commit: ObjectId, path: string)
    requires WellFounded(objects, hash) && WellFounded(objects', hash) && Grows(objects, objects')
    ensures forall f | Matches(objects, hash, commit, path, f) :: Matches(objects', hash, commit, path, f)
  {
    hide Matches;
    forall f | Matches(objects, hash, commit, path, f) ensures Matches(objects', hash, commit, path, f) {
      MatchesIsStable(objects, objects', hash, commit, path, f);
    }
  }

  /** A file with a fingerprint is a regular file. */
  lemma MatchedHasFile(objects: Objects, hash: nat, commit: ObjectId, path: string, f: Fingerprint)
    requires WellFounded(objects, hash) && Matches(objects, hash, commit, path, f)
    ensures CommitAt(objects, hash, commit).Some?
    ensures HasFile(objects, hash, CommitAt(objects, hash, commit).value.tree, Split(path, '/'))
  {
    hide WellFounded, ParseCommit;
  }

  lemma ReplacedIsTree(objects: Objects, hash: nat, tree: ObjectId, components: seq<string>, leaf: Node, r: ObjectId)
    requires WellFounded(objects, hash) && |components| > 0 && Replaced(objects, hash, tree, components, leaf, r)
    ensures IsTree(objects, r) && ValidObject(r, hash)
  {
  }
}
