/**
 A repository and one of its branches, as the git commands see them. Other writers may
 add objects and move the branch before any command; any command may fail.
 */
module GitRepository {
  import opened Results
  import opened GitFormats
  import opened GitOrder
  import opened GitTrees

  /** One change of the branch: by this process or by somebody else. */
  datatype Move = Move(own: bool, from: Option<ObjectId>, to: Option<ObjectId>)

  datatype Store = Store(objects: Objects, tip: Option<ObjectId>, moves: seq<Move>, failures: nat)

  predicate Null(id: ObjectId) {
    forall i | 0 <= i < |id| :: id[i] == '0'
  }

  /** git update-ref reads the null object name as "no ref". */
  function RefValue(id: ObjectId): Option<ObjectId> {
    if Null(id) then None else Some(id)
  }

  ghost predicate HasMeaning(objects: Objects, hash: nat, id: ObjectId) {
    exists node :: Denotes(objects, hash, id, node)
  }

  ghost predicate WellFounded(objects: Objects, hash: nat) {
    && (forall id | id in objects :: ValidObject(id, hash) && !Null(id))
    && (forall id | id in objects && objects[id].Tree? :: HasMeaning(objects, hash, id))
  }

  /** Each move starts from what the move before it left. */
  ghost predicate Chained(s: Store) {
    && (forall i | 0 < i < |s.moves| :: s.moves[i].from == s.moves[i - 1].to)
    && (s.moves != [] ==> s.moves[|s.moves| - 1].to == s.tip)
  }

  ghost function OwnMoves(moves: seq<Move>): seq<Move> {
    if moves == [] then []
    else
      var last := moves[|moves| - 1];
      OwnMoves(moves[..|moves| - 1]) + if last.own then [last] else []
  }

  ghost predicate Later(a: Store, b: Store) {
    && Grows(a.objects, b.objects) && a.moves <= b.moves && a.failures <= b.failures
    && (a.moves == b.moves ==> a.tip == b.tip)
    && (|a.moves| < |b.moves| ==> b.moves[|a.moves|].from == a.tip)
  }

  /** Only other writers moved the branch. */
  ghost predicate Watched(a: Store, b: Store) {
    Later(a, b) && OwnMoves(b.moves) == OwnMoves(a.moves)
  }

  /** No command failed and the branch did not move. */
  ghost predicate Undisturbed(a: Store, b: Store) {
    a.moves == b.moves && a.failures == b.failures
  }

  /** Nobody else moved the branch. */
  ghost predicate Alone(a: Store, b: Store) {
    a.moves <= b.moves && forall i | |a.moves| <= i < |b.moves| :: b.moves[i].own
  }

  /** The branch pointed to `id` at some moment from `a` to `b`. */
  ghost predicate Held(a: Store, b: Store, id: ObjectId) {
    a.tip == Some(id) || exists i :: |a.moves| <= i < |b.moves| && b.moves[i].to == Some(id)
  }

  /** What reading the branch promises: the tip at that moment, or an error. */
  ghost predicate ReadRan(a: Store, b: Store, hash: nat, r: Option<ObjectId>) {
    && Watched(a, b)
    && (r.Some? ==> r == b.tip && ValidObject(r.value, hash))
    && (Undisturbed(a, b) && b.tip.Some? && ValidObject(b.tip.value, hash) ==> r == b.tip)
  }

  /** What the compare-and-swap promises. It has three outcomes: moved and nil, not moved and an error,
      moved and an error. It moves the branch only from the expected value. */
  ghost predicate UpdateRan(a: Store, b: Store, hash: nat, newValue: ObjectId, expectedOld: ObjectId, ok: bool,
                            moved: bool) {
    var move := Move(true, RefValue(expectedOld), RefValue(newValue));
    && Later(a, b)
    && OwnMoves(b.moves) == OwnMoves(a.moves) + (if moved then [move] else [])
    && (ok ==> moved)
    && (moved && !Null(newValue) ==> Held(a, b, newValue))
    && (ValidObject(newValue, hash) && ValidObject(expectedOld, hash) && b.failures == a.failures ==> ok)
    && (ok && Alone(a, b) ==> b.tip == move.to && b.moves == a.moves + [move])
  }

  lemma WatchedThen(a: Store, b: Store, c: Store)
    requires Watched(a, b) && Watched(b, c)
    ensures Watched(a, c)
    ensures Undisturbed(a, c) ==> Undisturbed(a, b) && Undisturbed(b, c)
  {
    LaterThen(a, b, c);
    hide OwnMoves;
  }

  lemma LaterThen(a: Store, b: Store, c: Store)
    requires Later(a, b) && Later(b, c)
    ensures Later(a, c)
    ensures Undisturbed(a, c) ==> Undisturbed(a, b) && Undisturbed(b, c)
  {
    assert c.moves[..|a.moves|] == b.moves[..|a.moves|];
    if a.moves == c.moves {
      assert a.moves == b.moves;
    } else if |a.moves| < |b.moves| {
      assert c.moves[|a.moves|] == b.moves[|a.moves|];
    } else {
      assert a.moves == b.moves;
    }
  }

  lemma WatchedItself(s: Store)
    ensures Watched(s, s)
  {
  }

  lemma WatchedIsLater(a: Store, b: Store)
    requires Watched(a, b)
    ensures Later(a, b)
  {
  }

  lemma LaterItself(s: Store)
    ensures Later(s, s)
  {
  }

  lemma AnotherMove(moves: seq<Move>, m: Move)
    ensures OwnMoves(moves + [m]) == OwnMoves(moves) + if m.own then [m] else []
  {
    assert (moves + [m])[..|moves|] == moves;
  }

  lemma {:induction false} OwnSuffix(moves: seq<Move>, more: seq<Move>)
    requires forall i | 0 <= i < |more| :: more[i].own
    ensures OwnMoves(moves + more) == OwnMoves(moves) + more
    decreases |more|
  {
    hide OwnMoves;
    if more == [] {
      assert moves + more == moves;
    } else {
      var k := |more| - 1;
      assert more == more[..k] + [more[k]];
      OwnSuffix(moves, more[..k]);
      AnotherMove(moves + more[..k], more[k]);
      assert moves + more == moves + more[..k] + [more[k]];
    }
  }

  /** While nobody else moves the branch, commands that only watch it leave it where it is. */
  lemma AloneBetween(start: Store, a: Store, b: Store, end: Store)
    requires Alone(start, end) && start.moves <= a.moves && Watched(a, b) && b.moves <= end.moves
    ensures a.moves == b.moves && a.tip == b.tip
  {
    var more := b.moves[|a.moves|..];
    assert b.moves == a.moves + more;
    forall i | 0 <= i < |more| ensures more[i].own {
      assert end.moves[|a.moves| + i] == more[i];
    }
    OwnSuffix(a.moves, more);
  }

  /** The move that update-ref makes, and what others do next, when its answer is an error. */
  lemma HiddenMove(a: Store, hash: nat, before: ObjectId, result: ObjectId, later: Option<ObjectId>)
    returns (b: Store, c: Store)
    requires a.tip == RefValue(before) && Chained(a) && !Null(result)
    ensures b == Store(a.objects, Some(result), a.moves + [Move(true, a.tip, Some(result))], a.failures + 1)
    ensures c == Store(a.objects, later, b.moves + [Move(false, Some(result), later)], b.failures + 1)
    ensures Chained(b) && UpdateRan(a, b, hash, result, before, false, true)
    ensures Chained(c) && Watched(b, c) && c.failures > b.failures
  {
    var own, other := Move(true, a.tip, Some(result)), Move(false, Some(result), later);
    b := Store(a.objects, Some(result), a.moves + [own], a.failures + 1);
    c := Store(a.objects, later, b.moves + [other], b.failures + 1);
    FailedMove(a, own, b);
    FailedMove(b, other, c);
    hide OwnMoves, Later, Chained;
    assert b.moves[|a.moves|].to == Some(result);
    assert b.failures > a.failures;
  }

  /** One more move, during a command that fails. */
  lemma FailedMove(a: Store, m: Move, b: Store)
    requires Chained(a) && m.from == a.tip && b == Store(a.objects, m.to, a.moves + [m], a.failures + 1)
    ensures Chained(b) && Later(a, b) && OwnMoves(b.moves) == OwnMoves(a.moves) + if m.own then [m] else []
  {
    AnotherMove(a.moves, m);
    assert b.moves != a.moves;
    hide OwnMoves;
  }

  function CommitAt(objects: Objects, hash: nat, id: ObjectId): Option<Commit> {
    if id in objects && objects[id].CommitObject? then ParseCommit(objects[id].text, hash) else None
  }

  lemma CommitIsStable(objects: Objects, objects': Objects, hash: nat, id: ObjectId)
    requires Grows(objects, objects') && CommitAt(objects, hash, id).Some?
    ensures CommitAt(objects', hash, id) == CommitAt(objects, hash, id)
  {
  }

  lemma CommitIsNamed(objects: Objects, hash: nat, id: ObjectId)
    requires WellFounded(objects, hash) && CommitAt(objects, hash, id).Some?
    ensures ValidObject(id, hash) && !Null(id)
  {
  }

  /** A tree's meaning, for any tree of a well-founded store. */
  ghost function Meaning(objects: Objects, hash: nat, id: ObjectId): (node: Node)
    requires WellFounded(objects, hash) && id in objects && objects[id].Tree?
    ensures Denotes(objects, hash, id, node)
  {
    assert HasMeaning(objects, hash, id);
    var node :| Denotes(objects, hash, id, node);
    node
  }

  function Canonical(e: TreeEntry): TreeEntry {
    if IsTreeMode(e.mode) then e.(mode := "040000") else e
  }

  function Canonicals(s: seq<TreeEntry>): (r: seq<TreeEntry>)
    ensures |r| == |s| && forall i | 0 <= i < |s| :: r[i] == Canonical(s[i])
  {
    seq(|s|, i requires 0 <= i < |s| => Canonical(s[i]))
  }

  /** What git mktree adds to the caller's checks. */
  predicate Accepted(objects: Objects, entries: seq<TreeEntry>) {
    SlashFree(entries)
    && forall i | 0 <= i < |entries| && IsTreeMode(entries[i].mode) ::
         entries[i].id in objects && objects[entries[i].id].Tree?
  }

  lemma CanonicalIsWellFormed(entries: seq<TreeEntry>, hash: nat)
    requires AllValid(entries, hash) && Distinct(entries) && SlashFree(entries)
    ensures WellFormed(Canonicals(entries), hash)
  {
    var s := Canonicals(entries);
    forall i | 0 <= i < |s| ensures WellFormedEntry(s[i], hash) && s[i].path == entries[i].path {
      assert ValidEntry(entries[i], hash);
      ValidIsPrintable(entries[i], hash);
    }
    hide WellFormedEntry, Canonical;
  }

  /** A well-formed listing whose subtrees are there denotes a directory. */
  lemma {:induction false} ListingHasMeaning(objects: Objects, hash: nat, entries: seq<TreeEntry>) returns (node: Node)
    requires WellFounded(objects, hash) && WellFormed(entries, hash) && Accepted(objects, entries)
    ensures node.Dir? && Lists(objects, hash, entries, node)
    decreases |entries|
  {
    if entries == [] {
      node := Dir(map[]);
    } else {
      var k := |entries| - 1;
      var e := entries[k];
      assert entries == entries[..k] + [e];
      var rest := ListingHasMeaning(objects, hash, entries[..k]);
      var child := if IsTreeMode(e.mode) then Meaning(objects, hash, e.id) else Leaf(e.mode, e.id);
      node := Dir(rest.children[e.path := child]);
      assert EntryDenotes(objects, hash, e, child);
      hide EntryDenotes, Denotes;
      assert Names(entries) == Names(entries[..k]) + {e.path};
      forall i | 0 <= i < |entries|
        ensures entries[i].path in node.children
        ensures EntryDenotes(objects, hash, entries[i], node.children[entries[i].path])
      {
        if i < k {
          assert entries[..k][i] == entries[i] && entries[i].path != e.path;
        }
      }
    }
  }

  lemma ListsIsStable(objects: Objects, objects': Objects, hash: nat, entries: seq<TreeEntry>, node: Node)
    requires node.Dir? && Lists(objects, hash, entries, node) && Grows(objects, objects')
    ensures Lists(objects', hash, entries, node)
  {
    forall i | 0 <= i < |entries| ensures EntryDenotes(objects', hash, entries[i], node.children[entries[i].path]) {
      EntryIsStable(objects, objects', hash, entries[i], node.children[entries[i].path]);
    }
  }

  /** A new object leaves every tree its meaning. */
  lemma AddedObject(objects: Objects, hash: nat, id: ObjectId, o: Object)
    requires WellFounded(objects, hash) && ValidObject(id, hash) && !Null(id) && (id in objects ==> objects[id] == o)
    requires o.Tree? ==> WellFormed(o.entries, hash) && Accepted(objects, o.entries)
    ensures WellFounded(objects[id := o], hash) && Grows(objects, objects[id := o])
  {
    var objects' := objects[id := o];
    forall other | other in objects' && objects'[other].Tree? ensures HasMeaning(objects', hash, other) {
      if other in objects {
        DenotesIsStable(objects, objects', hash, other, Meaning(objects, hash, other));
      } else {
        var node := ListingHasMeaning(objects, hash, o.entries);
        ListsIsStable(objects, objects', hash, o.entries, node);
        assert Denotes(objects', hash, id, node);
      }
    }
  }

  lemma StoredTreeIsReadable(objects: Objects, hash: nat, id: ObjectId)
    requires WellFounded(objects, hash) && id in objects && objects[id].Tree?
    ensures WellFormed(objects[id].entries, hash)
    ensures ParseTreeText(TreeText(objects[id].entries), hash) == Some(objects[id].entries)
  {
    var entries, node := objects[id].entries, Meaning(objects, hash, id);
    assert Lists(objects, hash, entries, node);
    forall i | 0 <= i < |entries| ensures Printable(entries[i], hash) {
      assert WellFormedEntry(entries[i], hash);
    }
    TreeTextRoundTrip(entries, hash);
  }

  class Repository {
    const hash: nat
    var objects: Objects
    var tip: Option<ObjectId>
    ghost var moves: seq<Move>
    ghost var failures: nat

    ghost function Snapshot(): Store
      reads this
    {
      Store(objects, tip, moves, failures)
    }

    ghost predicate Valid()
      reads this
    {
      WellFounded(objects, hash) && Chained(Snapshot()) && hash > 0
    }

    constructor (hash: nat, tip: Option<ObjectId>)
      requires hash == 40 || hash == 64
      ensures Valid() && this.hash == hash && this.tip == tip && objects == map[] && moves == []
    {
      this.hash, this.tip, objects := hash, tip, map[];
      moves, failures := [], 0;
    }

    /** The branch is moved or deleted, by this process or by somebody else. */
    method MoveTo(own: bool, to: Option<ObjectId>)
      requires Valid()
      modifies this
      ensures Valid() && Later(old(Snapshot()), Snapshot()) && tip == to && objects == old(objects)
      ensures moves == old(moves) + [Move(own, old(tip), to)] && failures == old(failures)
      ensures OwnMoves(moves) == OwnMoves(old(moves)) + if own then [Move(own, old(tip), to)] else []
    {
      AnotherMove(moves, Move(own, tip, to));
      hide OwnMoves;
      moves := moves + [Move(own, tip, to)];
      tip := to;
    }

    /** What precedes any command: whatever others do meanwhile; then it runs or fails. The
        body shows only some of it; callers rely on the contract. */
    method Exec() returns (ok: bool)
      requires Valid()
      modifies this
      ensures Valid() && Watched(old(Snapshot()), Snapshot())
      ensures failures == old(failures) + if ok then 0 else 1
    {
      var others: seq<Option<ObjectId>> := *;
      label Start:
      for i := 0 to |others|
        invariant Valid() && Watched(old(Snapshot()), Snapshot()) && failures == old(failures)
      {
        ghost var before := Snapshot();
        MoveTo(false, others[i]);
        WatchedThen(old(Snapshot()), before, Snapshot());
      }
      ok := *;
      if !ok {
        failures := failures + 1;
      }
    }

    /** A command that ran but found nothing usable. */
    ghost method Fail()
      requires Valid()
      modifies this`failures
      ensures Valid() && failures == old(failures) + 1
    {
      failures := failures + 1;
    }

    method ReadRef() returns (r: Option<ObjectId>)
      requires Valid()
      modifies this
      ensures Valid() && ReadRan(old(Snapshot()), Snapshot(), hash, r)
    {
      var ok := Exec();
      if !ok || tip.None? || !ValidObject(tip.value, hash) {
        return None;
      }
      r := tip;
    }

    method ReadCommit(id: ObjectId) returns (r: Option<Commit>)
      requires Valid()
      modifies this
      ensures Valid() && Watched(old(Snapshot()), Snapshot())
      ensures r.Some? ==> CommitAt(objects, hash, id) == r
      ensures Undisturbed(old(Snapshot()), Snapshot()) && ValidObject(id, hash)
              && CommitAt(old(objects), hash, id).Some? ==>
                r == CommitAt(old(objects), hash, id)
    {
      if !ValidObject(id, hash) {
        return None;
      }
      var ok := Exec();
      if !ok || id !in objects || !objects[id].CommitObject? {
        return None;
      }
      r := ReadHeaders(objects[id].text, hash);
    }

    method ReadTree(id: ObjectId) returns (r: Option<seq<TreeEntry>>)
      requires Valid()
      modifies this
      ensures Valid() && Watched(old(Snapshot()), Snapshot())
      ensures r.Some? ==> id in objects && objects[id] == Tree(r.value) && WellFormed(r.value, hash)
      ensures Undisturbed(old(Snapshot()), Snapshot()) && id in old(objects) && old(objects)[id].Tree? ==> r.Some?
    {
      if !ValidObject(id, hash) {
        return None;
      }
      var ok := Exec();
      if !ok || id !in objects || !objects[id].Tree? {
        return None;
      }
      label Typed:
      ok := Exec();
      WatchedThen(old(Snapshot()), old@Typed(Snapshot()), Snapshot());
      if !ok {
        return None;
      }
      StoredTreeIsReadable(objects, hash, id);
      hide WellFormed, WellFounded, Chained, OwnMoves;
      r := ReadRecords(TreeText(objects[id].entries), hash);
    }

    method ReadBlob(id: ObjectId) returns (r: Option<string>)
      requires Valid()
      modifies this
      ensures Valid() && Watched(old(Snapshot()), Snapshot())
      ensures r.Some? ==> id in objects && objects[id] == Blob(r.value)
      ensures Undisturbed(old(Snapshot()), Snapshot()) && id in old(objects) && old(objects)[id].Blob? ==> r.Some?
    {
      if !ValidObject(id, hash) {
        return None;
      }
      var ok := Exec();
      if !ok || id !in objects || !objects[id].Blob? {
        return None;
      }
      label Typed:
      ok := Exec();
      WatchedThen(old(Snapshot()), old@Typed(Snapshot()), Snapshot());
      if !ok {
        return None;
      }
      r := Some(objects[id].content);
    }

    /** Git's object writer: any name that is free, or already that of the same object. */
    method Add(o: Object) returns (r: Option<ObjectId>)
      requires Valid()
      requires o.Tree? ==> WellFormed(o.entries, hash) && Accepted(objects, o.entries)
      modifies this
      ensures Valid() && Watched(old(Snapshot()), Snapshot())
      ensures r.Some? ==> ValidObject(r.value, hash) && !Null(r.value) && r.value in objects && objects[r.value] == o
      ensures r.Some? <==> failures == old(failures)
    {
      var id: ObjectId := *;
      if !ValidObject(id, hash) || Null(id) || (id in objects && objects[id] != o) {
        Fail();
        return None;
      }
      AddedObject(objects, hash, id, o);
      objects := objects[id := o];
      r := Some(id);
    }

    method WriteBlob(content: string) returns (r: Option<ObjectId>)
      requires Valid()
      modifies this
      ensures Valid() && Watched(old(Snapshot()), Snapshot())
      ensures r.Some? ==> ValidObject(r.value, hash) && r.value in objects && objects[r.value] == Blob(content)
      ensures r.Some? <==> failures == old(failures)
    {
      var ok := Exec();
      if !ok {
        return None;
      }
      label Ran:
      r := Add(Blob(content));
      WatchedThen(old(Snapshot()), old@Ran(Snapshot()), Snapshot());
    }

    /** The tree that is written lists the given entries, in Git's order. */
    method WriteTree(entries: seq<TreeEntry>) returns (r: Option<ObjectId>, ghost sorted: seq<TreeEntry>)
      requires Valid()
      modifies this
      ensures Valid() && Watched(old(Snapshot()), Snapshot())
      ensures r.Some? ==> AllValid(entries, hash) && Distinct(entries)
      ensures r.Some? ==> Sorted(sorted) && multiset(sorted) == multiset(entries)
      ensures r.Some? ==>
                ValidObject(r.value, hash) && r.value in objects && objects[r.value] == Tree(Canonicals(sorted))
      ensures AllValid(entries, hash) && Distinct(entries) && Accepted(old(objects), entries) ==>
                (r.Some? <==> failures == old(failures))
    {
      hide Sorted, TreeText, ParseTreeText, OwnMoves, Chained, WellFounded, ValidObject, Null;
      sorted := [];
      var fine := CheckEntries(entries, hash);
      if !fine {
        return None, sorted;
      }
      var copy := Sort(entries);
      sorted := copy;
      var text := Print(copy);
      WrittenTreeReadsBack(entries, copy, hash);
      PermutationIsDistinct(entries, copy);
      PermutationIsValid(entries, copy, hash);
      var ok := Exec();
      if !ok {
        return None, sorted;
      }
      label Ran:
      if Accepted(old(objects), entries) {
        PermutationIsAccepted(old(objects), objects, entries, copy);
      }
      var stored := ReadRecords(text, hash);
      if stored.None? || !Accepted(objects, stored.value) {
        Fail();
        return None, sorted;
      }
      CanonicalIsWellFormed(copy, hash);
      hide WellFormed, AllValid;
      r := Add(Tree(Canonicals(stored.value)));
      WatchedThen(old(Snapshot()), old@Ran(Snapshot()), Snapshot());
    }

    method CommitTree(tree: ObjectId, parents: seq<ObjectId>, message: string, author: Identity, committer: Identity)
      returns (r: Option<ObjectId>)
      requires Valid()
      modifies this
      ensures Valid() && Watched(old(Snapshot()), Snapshot())
      ensures r.Some? ==> ValidObject(r.value, hash) && !Null(r.value)
      ensures r.Some? ==> CommitAt(objects, hash, r.value) == Some(Commit(tree, parents, message))
      ensures r.Some? ==> ValidIdentity(author) && ValidIdentity(committer) && message != ""
      ensures ValidObject(tree, hash) && message != ""
              && (forall i | 0 <= i < |parents| :: ValidObject(parents[i], hash))
              && ValidIdentity(author) && ValidIdentity(committer) ==>
                (r.Some? <==> failures == old(failures))
    {
      if !ValidObject(tree, hash) || message == "" || !ValidIdentity(author) || !ValidIdentity(committer) {
        return None;
      }
      for i := 0 to |parents|
        invariant forall k | 0 <= k < i :: ValidObject(parents[k], hash)
      {
        if !ValidObject(parents[i], hash) {
          return None;
        }
      }
      var ok := Exec();
      if !ok {
        return None;
      }
      label Ran:
      var authored: string, committed: string := *, *;  // how git writes the dates
      if NEWLINE in authored || NEWLINE in committed {
        Fail();
        return None;
      }
      IdentityLineIsExtra("author", author, authored);
      IdentityLineIsExtra("committer", committer, committed);
      hide ExtraLine, IdentityLine, ValidIdentity;
      var extra := [IdentityLine("author", author, authored), IdentityLine("committer", committer, committed)];
      CommitRoundTrip(tree, parents, extra, message, hash);
      hide CommitText, ParseCommit;
      r := Add(CommitObject(CommitText(tree, parents, extra, message)));
      WatchedThen(old(Snapshot()), old@Ran(Snapshot()), Snapshot());
    }

    /** The compare-and-swap; `moved` says what it did to the branch, which its answer may not. */
    method UpdateRef(newValue: ObjectId, expectedOld: ObjectId) returns (ok: bool, ghost moved: bool)
      requires Valid()
      modifies this
      ensures Valid() && UpdateRan(old(Snapshot()), Snapshot(), hash, newValue, expectedOld, ok, moved)
    {
      moved := false;
      if !ValidObject(newValue, hash) || !ValidObject(expectedOld, hash) {
        return false, false;
      }
      ok := Exec();
      if !ok {
        return;
      }
      label Ran:
      if tip != RefValue(expectedOld) {
        Fail();
        return false, false;
      }
      hide OwnMoves, WellFounded, Chained, ValidObject;
      MoveTo(true, RefValue(newValue));
      moved := true;
      assert moves[|moves| - 1].to == RefValue(newValue);
      LaterThen(old(Snapshot()), old@Ran(Snapshot()), Snapshot());
      assert old(|moves|) < |moves|;
      label Moved:
      ghost var at := |moves| - 1;
      ok := Exec();
      assert moves[at].to == RefValue(newValue);
      LaterThen(old(Snapshot()), old@Moved(Snapshot()), Snapshot());
      if Alone(old(Snapshot()), Snapshot()) {
        AloneBetween(old(Snapshot()), old(Snapshot()), old@Ran(Snapshot()), Snapshot());
        AloneBetween(old(Snapshot()), old@Moved(Snapshot()), Snapshot(), Snapshot());
      }
    }
  }

  lemma PermutationIsAccepted(objects: Objects, objects': Objects, s: seq<TreeEntry>, t: seq<TreeEntry>)
    requires multiset(s) == multiset(t) && Accepted(objects, s) && Grows(objects, objects')
    ensures Accepted(objects', t)
  {
    PermutationIsDistinct(s, t);
    forall i | 0 <= i < |t| && IsTreeMode(t[i].mode) ensures t[i].id in objects' && objects'[t[i].id].Tree? {
      assert t[i] in multiset(s);
    }
  }

  lemma PermutationIsValid(s: seq<TreeEntry>, t: seq<TreeEntry>, hash: nat)
    requires multiset(s) == multiset(t) && AllValid(s, hash)
    ensures AllValid(t, hash)
  {
    hide ValidEntry;
    forall i | 0 <= i < |t| ensures ValidEntry(t[i], hash) {
      assert t[i] in multiset(s);
    }
  }
}
