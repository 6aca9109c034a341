/**
 A repository with one file, an execution that replaces the file, and runs of it in which the
 branch is moved and yet Execute answers with an error.
 */
module GitHiddenMoves {
  import opened Results
  import opened GitText
  import opened GitFormats
  import opened GitTrees
  import opened GitRepository
  import opened GitClaims
  import opened GitProvider

  const HASH: nat := 40

  function Name(c: char): (id: ObjectId)
    requires Hex(c) && c != '0'
    ensures ValidObject(id, HASH) && !Null(id) && id[0] == c
  {
    var id := seq(HASH, _ => c);
    assert id[0] == c;
    id
  }

  const BLOB: ObjectId := Name('a')
  const TREE: ObjectId := Name('b')
  const TIP: ObjectId := Name('c')
  const NEW_BLOB: ObjectId := Name('d')
  const NEW_TREE: ObjectId := Name('e')
  const RESULT: ObjectId := Name('f')
  const THIRD: ObjectId := Name('1')

  const MODE: string := "100644"
  const PATH: string := "f"

  function File(blob: ObjectId): TreeEntry {
    TreeEntry(MODE, blob, PATH)
  }

  function Folder(blob: ObjectId): Node {
    Dir(map[PATH := Leaf(MODE, blob)])
  }

  /** A root commit with the one file. */
  function Before(): Objects {
    map[BLOB := Blob("old"), TREE := Tree([File(BLOB)]), TIP := CommitObject(CommitText(TREE, [], [], "m"))]
  }

  /** The objects of the execution on top. */
  function Prepared(): Objects {
    Before()[NEW_BLOB := Blob("new")][NEW_TREE := Tree([File(NEW_BLOB)])]
      [RESULT := CommitObject(CommitText(NEW_TREE, [TIP], [], ExecutionCommitMessage("x")))]
  }

  function FingerprintOf(content: string): Fingerprint {
    FileStateFingerprint(MODE, content).value
  }

  function Request(target: string): ExecuteRequest {
    var now, desired := ResourceRef(target, FingerprintOf("old")), ResourceRef(target, FingerprintOf("new"));
    ExecuteRequest("x", now, desired, FileSighting(now, TipToken(TIP)), Some(FilePayload(MODE, "new")))
  }

  /** A run of Execute whose error hides that the branch was moved: nothing stands in its way at `start`, it
      prepares its commit undisturbed, and update-ref moves the branch and fails. */
  ghost predicate HidingRun(p: FileProvider, req: ExecuteRequest, start: Store, prepared: Store, moved: Store,
                            end: Store, before: ObjectId, result: ObjectId, readBack: Option<ObjectId>)
  {
    && WellFounded(start.objects, p.repo.hash) && Chained(start) && p.Executable(start, req)
    && WellFounded(prepared.objects, p.repo.hash) && Watched(start, prepared) && Undisturbed(start, prepared)
    && p.Prepared(prepared.objects, req, before, result)
    && HidesMove(prepared, moved, end, p.repo.hash, before, result, readBack)
  }

  // ---- What the objects mean ----

  lemma NamesDiffer()
    ensures BLOB != TREE && TREE != TIP && BLOB != TIP
    ensures forall id | id in [NEW_BLOB, NEW_TREE, RESULT] :: id != BLOB && id != TREE && id != TIP
    ensures NEW_BLOB != NEW_TREE && NEW_TREE != RESULT && NEW_BLOB != RESULT
    ensures THIRD != TIP && THIRD != RESULT
  {
    hide Name;
  }

  lemma OnlyName(blob: ObjectId)
    ensures Names([File(blob)]) == {PATH}
  {
    var entries := [File(blob)];
    assert entries[0].path in Names(entries);
  }

  lemma FolderIsListed(objects: Objects, blob: ObjectId)
    requires ValidObject(blob, HASH)
    ensures Lists(objects, HASH, [File(blob)], Folder(blob))
  {
    OnlyName(blob);
    hide Names;
  }

  lemma FolderIsDenoted(objects: Objects, tree: ObjectId, blob: ObjectId)
    requires ValidObject(blob, HASH) && tree in objects && objects[tree] == Tree([File(blob)])
    ensures Denotes(objects, HASH, tree, Folder(blob))
  {
    FolderIsListed(objects, blob);
    hide Lists, ValidObject;
  }

  lemma FolderIsMeant(objects: Objects, tree: ObjectId, blob: ObjectId)
    requires WellFounded(objects, HASH) && ValidObject(blob, HASH) && tree in objects
    requires objects[tree] == Tree([File(blob)])
    ensures Meaning(objects, HASH, tree) == Folder(blob)
  {
    FolderIsDenoted(objects, tree, blob);
    DenotesIsUnique(objects, HASH, tree, Meaning(objects, HASH, tree), Folder(blob));
  }

  lemma PathIsOneName()
    ensures Split(PATH, '/') == [PATH]
  {
    SplitWhole(PATH, '/');
  }

  lemma FileIsValid(blob: ObjectId)
    requires ValidObject(blob, HASH)
    ensures ValidEntry(File(blob), HASH)
  {
    PathIsOneName();
    hide ValidObject, Split;
  }

  lemma StoresAreWellFounded()
    ensures WellFounded(Before(), HASH) && WellFounded(Prepared(), HASH) && Grows(Before(), Prepared())
  {
    hide Name, Denotes, ValidObject, Null;
    NamesDiffer();
    FolderIsDenoted(Before(), TREE, BLOB);
    FolderIsDenoted(Prepared(), TREE, BLOB);
    FolderIsDenoted(Prepared(), NEW_TREE, NEW_BLOB);
    assert HasMeaning(Before(), HASH, TREE);
    assert HasMeaning(Prepared(), HASH, TREE) && HasMeaning(Prepared(), HASH, NEW_TREE);
  }

  lemma CommitsAreRead()
    ensures CommitAt(Before(), HASH, TIP) == Some(Commit(TREE, [], "m"))
    ensures CommitAt(Prepared(), HASH, RESULT) == Some(Commit(NEW_TREE, [TIP], ExecutionCommitMessage("x")))
  {
    NamesDiffer();
    CommitRoundTrip(TREE, [], [], "m", HASH);
    CommitRoundTrip(NEW_TREE, [TIP], [], ExecutionCommitMessage("x"), HASH);
    hide Name, ParseCommit, CommitText, ExecutionCommitMessage, ValidObject;
  }

  // ---- The run ----

  lemma FileIsThere(objects: Objects, commit: ObjectId, tree: ObjectId, blob: ObjectId, content: string)
    requires WellFounded(objects, HASH) && CommitAt(objects, HASH, commit).Some?
    requires CommitAt(objects, HASH, commit).value.tree == tree && ValidObject(blob, HASH)
    requires tree in objects && objects[tree] == Tree([File(blob)]) && blob in objects && objects[blob] == Blob(content)
    ensures FileIs(objects, HASH, commit, PATH, MODE, content)
    ensures Matches(objects, HASH, commit, PATH, FingerprintOf(content))
  {
    FolderIsMeant(objects, tree, blob);
    PathIsOneName();
    hide WellFounded, ParseCommit, Denotes, Split, ValidObject;
    assert FileIs(objects, HASH, commit, PATH, MODE, content);
  }

  lemma StartIsExecutable(p: FileProvider, target: string, start: Store)
    requires p.repo.hash == HASH && p.Locate(target) == Some(PATH)
    requires start.objects == Before() && start.tip == Some(TIP)
    ensures WellFounded(start.objects, HASH) && p.Executable(start, Request(target))
  {
    hide Name, WellFounded, Matches, ParseCommit, CommitText, ValidObject, ValidEntry, FileProvider.Locate;
    NamesDiffer();
    StoresAreWellFounded();
    CommitsAreRead();
    RequestIsAuthorised(p, target);
    FileIsThere(Before(), TIP, TREE, BLOB, "old");
    FileIsValid(BLOB);
    PathIsOneName();
    hide Split, FileProvider.Authorised, FileStateFingerprint;
  }

  lemma RequestIsAuthorised(p: FileProvider, target: string)
    requires p.repo.hash == HASH && p.Locate(target) == Some(PATH)
    ensures p.Authorised(Request(target)) == Some((PATH, FilePayload(MODE, "new"), TIP))
  {
    hide Name, ValidObject, FileProvider.Locate;
    TipTokenRoundTrip(TipToken(TIP), TIP, HASH);
    hide TipToken, ParseTip;
  }

  lemma CommitIsPrepared(p: FileProvider, target: string)
    requires p.repo.hash == HASH && p.Locate(target) == Some(PATH)
    ensures WellFounded(Prepared(), HASH) && p.Prepared(Prepared(), Request(target), TIP, RESULT)
  {
    hide Name, WellFounded, Grows, Matches, ParseCommit, CommitText, ValidObject, FileProvider.Locate, Accomplished;
    NamesDiffer();
    StoresAreWellFounded();
    CommitsAreRead();
    CommitIsStable(Before(), Prepared(), HASH, TIP);
    FileIsThere(Prepared(), TIP, TREE, BLOB, "old");
    CommitAccomplishes();
    TipTokenRoundTrip(TipToken(TIP), TIP, HASH);
    hide CommitAt, TipToken, ParseTip, FileStateFingerprint, ExecutionCommitMessage;
  }

  lemma CommitAccomplishes()
    ensures WellFounded(Prepared(), HASH)
    ensures Accomplished(Prepared(), HASH, PATH, TIP, RESULT, "x", FingerprintOf("new"))
  {
    hide Name, WellFounded, Grows, ParseCommit, CommitText, ValidObject, Accomplished;
    NamesDiffer();
    StoresAreWellFounded();
    CommitsAreRead();
    CommitIsStable(Before(), Prepared(), HASH, TIP);
    FolderIsMeant(Prepared(), TREE, BLOB);
    FolderIsMeant(Prepared(), NEW_TREE, NEW_BLOB);
    PathIsOneName();
    assert Replace(Folder(BLOB), [PATH], Leaf(MODE, NEW_BLOB)) == Folder(NEW_BLOB);
    hide Split, ExecutionCommitMessage, Meaning;
    ReplacementAccomplishes(Prepared(), HASH, PATH, TIP, RESULT, "x", MODE, "new", NEW_BLOB, NEW_TREE);
  }

  /** From a branch that has never moved, for any answer of the read after update-ref but the new commit. */
  lemma RunIsHiding(p: FileProvider, target: string, readBack: Option<ObjectId>)
    requires p.repo.hash == HASH && p.Locate(target) == Some(PATH)
    requires readBack != Some(RESULT) && (readBack.Some? ==> ValidObject(readBack.value, HASH))
    ensures var start, prepared := Store(Before(), Some(TIP), [], 0), Store(Prepared(), Some(TIP), [], 0);
      exists moved, end :: HidingRun(p, Request(target), start, prepared, moved, end, TIP, RESULT, readBack)
  {
    hide Name, Before, Prepared, Request, WellFounded, FileProvider.Executable, FileProvider.Prepared,
      FileProvider.Locate, HidesMove, ValidObject, Grows;
    var start, prepared := Store(Before(), Some(TIP), [], 0), Store(Prepared(), Some(TIP), [], 0);
    StoresAreWellFounded();
    StartIsExecutable(p, target, start);
    CommitIsPrepared(p, target);
    p.PreparedMoveMayBeHidden(prepared, Request(target), TIP, RESULT, readBack);
    var moved, end :| HidesMove(prepared, moved, end, HASH, TIP, RESULT, readBack);
    assert HidingRun(p, Request(target), start, prepared, moved, end, TIP, RESULT, readBack);
  }

  /** One such run for each of the two errors that say nothing about the move, on every provider for whose
      branch some resource ID names the file. */
  lemma FailedExecuteMayHaveMoved(p: FileProvider, target: string)
    requires p.repo.hash == HASH && p.Locate(target) == Some(PATH)
    ensures var start, prepared := Store(Before(), Some(TIP), [], 0), Store(Prepared(), Some(TIP), [], 0);
      && (exists moved, end :: HidingRun(p, Request(target), start, prepared, moved, end, TIP, RESULT, None))
      && AfterUpdate(false, None, TIP, RESULT) == Some(UpdateUnknown)
      && (exists moved, end :: HidingRun(p, Request(target), start, prepared, moved, end, TIP, RESULT, Some(THIRD)))
      && AfterUpdate(false, Some(THIRD), TIP, RESULT) == Some(OvertakenDuringUpdate)
  {
    NamesDiffer();
    RunIsHiding(p, target, None);
    RunIsHiding(p, target, Some(THIRD));
    hide Name, HidingRun;
  }
}
