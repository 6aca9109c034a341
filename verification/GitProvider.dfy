/**
 The Git file provider: Observe, Execute and Verify as command sequences against a
 branch that other writers may move at any time.
 */
module GitProvider {
  import opened Results
  import opened GitText
  import opened GitFormats
  import opened GitTrees
  import opened GitRepository
  import opened GitPaths
  import opened GitClaims

  datatype ResourceRef = ResourceRef(id: string, fingerprint: Fingerprint)

  datatype FileSighting = FileSighting(resource: ResourceRef, token: string)

  datatype FilePayload = FilePayload(mode: string, content: string)

  datatype ExecutionEvidence = ExecutionEvidence(executionId: string, beforeTip: string, resultCommit: string)

  /** `payload` and `evidence` are what the JSON decoders make of the bytes. */
  datatype ExecuteRequest = ExecuteRequest(
    executionId: string, target: ResourceRef, desired: ResourceRef, before: FileSighting, payload: Option<FilePayload>)

  datatype Execution = Execution(executionId: string, evidence: Option<ExecutionEvidence>)

  datatype VerifyRequest = VerifyRequest(
    executionId: string, expected: ResourceRef, before: FileSighting, execution: Execution)

  datatype Verification = Verification(resource: ResourceRef, token: string)

  datatype Error =
    | Refused               // a check or a command before update-ref failed
    | StaleObservation      // the branch was not at the authorised tip
    | OvertakenDuringUpdate // update-ref failed and the branch is at a third commit
    | UpdateFailed          // update-ref failed and the branch is at the authorised tip
    | UpdateUnknown         // update-ref failed and the branch could not be read
    | BranchAdvanced
    | NotVerified

  const PROVIDER_NAME: string := "ackOS Git Provider"
  const PROVIDER_EMAIL: string := "ackos-git-provider@localhost"

  /** Author and committer of every execution commit. */
  const PROVIDER: Identity := Identity(PROVIDER_NAME, PROVIDER_EMAIL, true)

  lemma NameIsValid()
    ensures ValidName(PROVIDER_NAME)
  {
    assert forall c | c in PROVIDER_NAME :: !Forbidden(c);
    assert PROVIDER_NAME[0] == 'a' && !Blank('a') && |PROVIDER_NAME| == 18 && PROVIDER_NAME[17] == 'r';
  }

  lemma EmailIsValid()
    ensures ValidName(PROVIDER_EMAIL)
  {
    assert forall c | c in PROVIDER_EMAIL :: !Forbidden(c);
    assert PROVIDER_EMAIL[0] == 'a' && !Blank('a') && |PROVIDER_EMAIL| == 28 && PROVIDER_EMAIL[27] == 't';
  }

  lemma ProviderIsValid()
    ensures ValidIdentity(PROVIDER)
  {
    NameIsValid();
    EmailIsValid();
    hide ValidName;
  }

  /** The error that follows update-ref, if any: by what it reported and what the branch read then. */
  function AfterUpdate(reported: bool, readBack: Option<ObjectId>, before: ObjectId,
                       result: ObjectId): (e: Option<Error>)
    ensures e.Some? <==> !reported && readBack != Some(result)
  {
    if reported || readBack == Some(result) then None
    else if readBack.None? then Some(UpdateUnknown)
    else if readBack == Some(before) then Some(UpdateFailed)
    else Some(OvertakenDuringUpdate)
  }

  /** update-ref moves the branch and fails, and the read that follows answers `readBack`. */
  ghost predicate HidesMove(a: Store, b: Store, c: Store, hash: nat, before: ObjectId, result: ObjectId,
                            readBack: Option<ObjectId>) {
    && UpdateRan(a, b, hash, result, before, false, true) && ReadRan(b, c, hash, readBack)
    && Chained(a) && Chained(b) && Chained(c)
    && OwnMoves(c.moves) == OwnMoves(a.moves) + [Move(true, Some(before), Some(result))]
  }

  /** From every state in which update-ref would move the branch, an error can hide the move: the branch
      is unreadable afterwards, or at a third commit, or even back at the authorised tip. */
  lemma MoveMayBeHidden(a: Store, hash: nat, before: ObjectId, result: ObjectId, readBack: Option<ObjectId>)
    requires a.tip == Some(before) && Chained(a) && !Null(before) && !Null(result)
    requires readBack != Some(result) && (readBack.Some? ==> ValidObject(readBack.value, hash))
    ensures exists b, c :: HidesMove(a, b, c, hash, before, result, readBack)
    ensures AfterUpdate(false, readBack, before, result).Some?
  {
    var b, c := HiddenMove(a, hash, before, result, readBack);
    hide OwnMoves, Null, ValidObject, Chained, Later;
    assert HidesMove(a, b, c, hash, before, result, readBack);
  }

  /** An execution ID that fits on one line of a commit message. */
  predicate PlainId(id: string) {
    id != "" && NUL !in id && '\r' !in id && '\n' !in id
  }

  class FileProvider {
    const repo: Repository
    const decode: string -> Option<string>

    constructor (repo: Repository, decode: string -> Option<string>)
      ensures this.repo == repo && this.decode == decode
    {
      this.repo := repo;
      this.decode := decode;
    }

    /** The target path that a resource ID names on this branch. */
    function Locate(id: string): Option<string> {
      var path := decode(id);
      if path.Some? && '\\' !in path.value && ValidTreePath(path.value) then path else None
    }

    /** The file at a commit, and the commit's tree: what Observe, Execute and Verify all read first. */
    method ReadFile(commit: ObjectId, path: string) returns (r: Option<(Commit, Fingerprint)>)
      requires repo.Valid()
      modifies repo
      ensures repo.Valid() && Watched(old(repo.Snapshot()), repo.Snapshot())
      ensures r.Some? ==> CommitAt(repo.objects, repo.hash, commit) == Some(r.value.0)
                          && Matches(repo.objects, repo.hash, commit, path, r.value.1)
      ensures Undisturbed(old(repo.Snapshot()), repo.Snapshot()) && ValidObject(commit, repo.hash) ==>
                forall f | Matches(old(repo.objects), repo.hash, commit, path, f) :: r.Some? && r.value.1 == f
    {
      ghost var hash, s0 := repo.hash, repo.Snapshot();
      var c := repo.ReadCommit(commit);
      ghost var s1 := repo.Snapshot();
      hide WellFounded, Chained, OwnMoves, Later, Watched, Finds, FileIs, ValidObject, Lookup, CommitAt, Split;
      WatchedGrows(s0, s1);
      forall mode, content | FileIs(s0.objects, hash, commit, path, mode, content)
        ensures Undisturbed(s0, s1) && ValidObject(commit, hash) ==>
                  c.Some? && IsTree(s1.objects, c.value.tree)
                  && Lookup(Meaning(s1.objects, hash, c.value.tree), Split(path, '/')).Some?
      {
        WhatWillBeRead(s0.objects, s1.objects, hash, commit, path, mode, content);
      }
      if c.None? {
        return None;
      }
      var e := ReadPath(repo, c.value.tree, Split(path, '/'));
      ghost var s2 := repo.Snapshot();
      WatchedThen(s0, s1, s2);
      WatchedGrows(s0, s2);
      WatchedGrows(s1, s2);
      forall mode, content | FileIs(s0.objects, hash, commit, path, mode, content)
        ensures Undisturbed(s0, s2) && ValidObject(commit, hash) ==>
                  e.Some? && e.value.mode == mode && e.value.id in s2.objects && s2.objects[e.value.id] == Blob(content)
      {
        WhatWillBeRead(s0.objects, s2.objects, hash, commit, path, mode, content);
        WhatWillBeRead(s0.objects, s1.objects, hash, commit, path, mode, content);
      }
      if e.None? {
        return None;
      }
      var content := repo.ReadBlob(e.value.id);
      ghost var s3 := repo.Snapshot();
      WatchedThen(s0, s2, s3);
      WatchedGrows(s2, s3);
      if content.None? {
        return None;
      }
      var f := FileStateFingerprint(e.value.mode, content.value);
      if f.None? {
        return None;
      }
      WhatWasRead(s1.objects, s2.objects, s3.objects, hash, commit, c.value, path, e.value, content.value);
      r := Some((c.value, f.value));
    }

    /** The file at the branch's present tip, under that tip as concurrency token. */
    method Observe(target: string) returns (r: Result<FileSighting, Error>, ghost tip: ObjectId)
      requires repo.Valid()
      modifies repo
      ensures repo.Valid() && Watched(old(repo.Snapshot()), repo.Snapshot())
      ensures r.Ok? ==>
        && Locate(target).Some? && r.value.resource.id == target && r.value.token == TipToken(tip)
        && Held(old(repo.Snapshot()), repo.Snapshot(), tip)
        && Matches(repo.objects, repo.hash, tip, Locate(target).value, r.value.resource.fingerprint)
      ensures Undisturbed(old(repo.Snapshot()), repo.Snapshot()) && Locate(target).Some? && old(repo.tip).Some? ==>
                forall f | Matches(old(repo.objects), repo.hash, old(repo.tip).value, Locate(target).value, f) ::
                  r == Ok(FileSighting(ResourceRef(target, f), TipToken(old(repo.tip).value)))
    {
      tip := "";
      ghost var s0 := repo.Snapshot();
      var path := Locate(target);
      if path.None? {
        return Err(Refused), tip;
      }
      var current := repo.ReadRef();
      ghost var s1 := repo.Snapshot();
      MatchedIsValid(s0, repo.hash, path.value);
      if current.None? {
        return Err(Refused), tip;
      }
      tip := current.value;
      HeldNow(s0, s1, tip);
      hide WellFounded, Chained, OwnMoves, Watched, Later, Held, Matches, CommitAt, ValidObject;
      WatchedGrows(s0, s1);
      MatchesEverywhere(s0.objects, s1.objects, repo.hash, tip, path.value);
      var file := ReadFile(current.value, path.value);
      ghost var s2 := repo.Snapshot();
      WatchedThen(s0, s1, s2);
      HeldBefore(s0, s1, s2, tip);
      if file.None? {
        return Err(Refused), tip;
      }
      r := Ok(FileSighting(ResourceRef(target, file.value.1), TipToken(current.value)));
    }

    /** Whether a request is well-formed: what Execute checks before it asks Git anything. */
    function Authorised(req: ExecuteRequest): Option<(string, FilePayload, ObjectId)> {
      if !PlainId(req.executionId) then None
      else if req.desired.id != req.target.id || req.before.resource.id != req.target.id then None
      else match (Locate(req.target.id), req.payload, ParseTip(req.before.token, repo.hash))
        case (Some(path), Some(payload), Some(before)) =>
          if FileStateFingerprint(payload.mode, payload.content) == Some(req.desired.fingerprint)
          then Some((path, payload, before)) else None
        case _ => None
    }

    /** Nothing stands in the way of the request: the branch is at the authorised tip, the file there is
        the authorised one, and the listings on the way to it can be written again. */
    ghost predicate Executable(store: Store, req: ExecuteRequest)
      requires WellFounded(store.objects, repo.hash)
    {
      && Authorised(req).Some?
      && var (path, _, before) := Authorised(req).value;
         && store.tip == Some(before)
         && Matches(store.objects, repo.hash, before, path, req.before.resource.fingerprint)
         && CommitAt(store.objects, repo.hash, before).Some?
         && Rewritable(store.objects, repo.hash, CommitAt(store.objects, repo.hash, before).value.tree,
                       Split(path, '/'))
    }

    /** Execute up to the new commit; the branch is only read. */
    method Prepare(req: ExecuteRequest) returns (r: Result<(ObjectId, ObjectId), Error>)
      requires repo.Valid()
      modifies repo
      ensures repo.Valid() && Watched(old(repo.Snapshot()), repo.Snapshot())
      ensures r.Err? ==> r.error == Refused || r.error == StaleObservation
      ensures r.Ok? ==> Prepared(repo.objects, req, r.value.0, r.value.1)
      ensures Undisturbed(old(repo.Snapshot()), repo.Snapshot()) && Executable(old(repo.Snapshot()), req) ==> r.Ok?
    {
      ghost var good := Executable(repo.Snapshot(), req);
      var authorised := Authorised(req);
      if authorised.None? {
        return Err(Refused);
      }
      var (path, payload, before) := authorised.value;
      ghost var hash, s0 := repo.hash, repo.Snapshot();
      var current := repo.ReadRef();
      ghost var s1 := repo.Snapshot();
      if current.None? {
        return Err(Refused);
      }
      if current.value != before {
        return Err(StaleObservation);
      }
      assert good ==> Undisturbed(s0, s1) ==> s1.tip == Some(before);
      hide WellFounded, Chained, OwnMoves, Watched, Later, Matches, ValidObject, Accomplished, Replaced, ParseCommit,
        Split, Authorised, Rewritable, HasFile;
      WatchedGrows(s0, s1);
      if good {
        ExecutableIsStable(s0.objects, s1.objects, before, path, req.before.resource.fingerprint);
      }
      var file := ReadFile(before, path);
      ghost var s2 := repo.Snapshot();
      WatchedThen(s0, s1, s2);
      WatchedGrows(s1, s2);
      if good {
        ExecutableIsStable(s1.objects, s2.objects, before, path, req.before.resource.fingerprint);
      }
      if file.None? || file.value.1 != req.before.resource.fingerprint {
        return Err(Refused);
      }
      var result := Build(before, file.value.0.tree, path, payload, req.executionId);
      WatchedThen(s0, s2, repo.Snapshot());
      if result.None? {
        return Err(Refused);
      }
      WatchedGrows(s2, repo.Snapshot());
      MatchesIsStable(s2.objects, repo.objects, hash, before, path, req.before.resource.fingerprint);
      r := Ok((before, result.value));
    }

    /** Blob and tree of the new state. */
    method WriteState(tree: ObjectId, path: string, payload: FilePayload) returns (r: Option<(ObjectId, ObjectId)>)
      requires repo.Valid() && IsFileMode(payload.mode)
      modifies repo
      ensures repo.Valid() && Watched(old(repo.Snapshot()), repo.Snapshot())
      ensures r.Some? ==>
        && r.value.0 in repo.objects && repo.objects[r.value.0] == Blob(payload.content)
        && Replaced(repo.objects, repo.hash, tree, Split(path, '/'), Leaf(payload.mode, r.value.0), r.value.1)
      ensures Undisturbed(old(repo.Snapshot()), repo.Snapshot())
              && Rewritable(old(repo.objects), repo.hash, tree, Split(path, '/')) ==>
                (HasFile(old(repo.objects), repo.hash, tree, Split(path, '/')) ==> r.Some?)
    {
      ghost var hash, s0, parts := repo.hash, repo.Snapshot(), Split(path, '/');
      ghost var good := Rewritable(s0.objects, hash, tree, parts) && HasFile(s0.objects, hash, tree, parts);
      hide Grows, WellFounded, Chained, OwnMoves, Watched, Later, Replaced, Split, ValidObject, Rewritable, HasFile;
      var blob := repo.WriteBlob(payload.content);
      if blob.None? {
        return None;
      }
      ghost var s1 := repo.Snapshot();
      WatchedGrows(s0, s1);
      if good {
        RewritableIsStable(s0.objects, s1.objects, hash, tree, parts);
        HasFileIsStable(s0.objects, s1.objects, hash, tree, parts);
      }
      var newTree := ReplacePath(repo, tree, Split(path, '/'), blob.value, payload.mode);
      ghost var s2 := repo.Snapshot();
      WatchedThen(s0, s1, s2);
      WatchedGrows(s1, s2);
      GrowsKeeps(s1.objects, s2.objects, blob.value);
      r := if newTree.None? then None else Some((blob.value, newTree.value));
    }

    /** Blob, tree and commit of the new state. */
    method Build(before: ObjectId, tree: ObjectId, path: string, payload: FilePayload, executionId: string)
      returns (r: Option<ObjectId>)
      requires repo.Valid() && IsFileMode(payload.mode)
      requires CommitAt(repo.objects, repo.hash, before).Some?
      requires CommitAt(repo.objects, repo.hash, before).value.tree == tree
      modifies repo
      ensures repo.Valid() && Watched(old(repo.Snapshot()), repo.Snapshot())
      ensures r.Some? ==> ValidObject(r.value, repo.hash) && !Null(r.value)
      ensures r.Some? ==> Accomplished(repo.objects, repo.hash, path, before, r.value, executionId,
                                       FileStateFingerprint(payload.mode, payload.content).value)
      ensures Undisturbed(old(repo.Snapshot()), repo.Snapshot())
              && Rewritable(old(repo.objects), repo.hash, tree, Split(path, '/')) ==>
                (HasFile(old(repo.objects), repo.hash, tree, Split(path, '/')) ==> r.Some?)
    {
      ghost var hash, s0 := repo.hash, repo.Snapshot();
      CommitIsNamed(s0.objects, hash, before);
      assert ExecutionCommitMessage(executionId) != "";
      hide Grows, WellFounded, Chained, OwnMoves, Watched, Later, Accomplished, Replaced, CommitAt, Split, ValidObject,
        Null, ExecutionCommitMessage, Rewritable, HasFile, ValidIdentity;
      var state := WriteState(tree, path, payload);
      if state.None? {
        return None;
      }
      ghost var s1 := repo.Snapshot();
      var (blob, newTree) := state.value;
      ReplacedIsTree(s1.objects, hash, tree, Split(path, '/'), Leaf(payload.mode, blob), newTree);
      ProviderIsValid();
      r := repo.CommitTree(newTree, [before], ExecutionCommitMessage(executionId), PROVIDER, PROVIDER);
      ghost var s2 := repo.Snapshot();
      WatchedThen(s0, s1, s2);
      if r.Some? {
        WatchedGrows(s0, s2);
        WatchedGrows(s1, s2);
        BuiltIsAccomplished(s0.objects, s1.objects, s2.objects, hash, path, before, r.value, executionId, payload,
                            blob, newTree);
      }
    }

    lemma BuiltIsAccomplished(o0: Objects, o1: Objects, o2: Objects, hash: nat, path: string, before: ObjectId,
                              result: ObjectId, executionId: string, payload: FilePayload, blob: ObjectId,
                              newTree: ObjectId)
      requires WellFounded(o1, hash) && WellFounded(o2, hash) && Grows(o0, o2) && Grows(o1, o2)
      requires CommitAt(o0, hash, before).Some? && IsFileMode(payload.mode)
      requires blob in o1 && o1[blob] == Blob(payload.content)
      requires Replaced(o1, hash, CommitAt(o0, hash, before).value.tree, Split(path, '/'), Leaf(payload.mode, blob),
                        newTree)
      requires CommitAt(o2, hash, result) == Some(Commit(newTree, [before], ExecutionCommitMessage(executionId)))
      ensures Accomplished(o2, hash, path, before, result, executionId,
                           FileStateFingerprint(payload.mode, payload.content).value)
    {
      hide WellFounded, Replaced, Accomplished, Split, ParseCommit;
      CommitIsStable(o0, o2, hash, before);
      GrowsKeeps(o1, o2, blob);
      ReplacedIsStable(o1, o2, hash, CommitAt(o0, hash, before).value.tree, Split(path, '/'), Leaf(payload.mode, blob),
                       newTree);
      ReplacementAccomplishes(o2, hash, path, before, result, executionId, payload.mode, payload.content, blob,
                              newTree);
    }

    lemma ExecutableIsStable(objects: Objects, objects': Objects, before: ObjectId, path: string, f: Fingerprint)
      requires WellFounded(objects, repo.hash) && WellFounded(objects', repo.hash) && Grows(objects, objects')
      requires Matches(objects, repo.hash, before, path, f) && CommitAt(objects, repo.hash, before).Some?
      requires Rewritable(objects, repo.hash, CommitAt(objects, repo.hash, before).value.tree, Split(path, '/'))
      ensures CommitAt(objects', repo.hash, before) == CommitAt(objects, repo.hash, before)
      ensures Matches(objects', repo.hash, before, path, f)
      ensures var tree := CommitAt(objects, repo.hash, before).value.tree;
        Rewritable(objects', repo.hash, tree, Split(path, '/')) && HasFile(objects', repo.hash, tree, Split(path, '/'))
    {
      CommitIsStable(objects, objects', repo.hash, before);
      MatchesIsStable(objects, objects', repo.hash, before, path, f);
      RewritableIsStable(objects, objects', repo.hash, CommitAt(objects, repo.hash, before).value.tree,
                         Split(path, '/'));
      MatchedHasFile(objects', repo.hash, before, path, f);
    }

    /** `result` is a commit that carries out the request on top of the authorised tip `before`. */
    ghost predicate Prepared(objects: Objects, req: ExecuteRequest, before: ObjectId, result: ObjectId)
      requires WellFounded(objects, repo.hash)
    {
      && Locate(req.target.id).Some? && req.desired.id == req.target.id == req.before.resource.id
      && req.executionId != ""
      && ParseTip(req.before.token, repo.hash) == Some(before) && ValidObject(result, repo.hash)
      && Matches(objects, repo.hash, before, Locate(req.target.id).value, req.before.resource.fingerprint)
      && Accomplished(objects, repo.hash, Locate(req.target.id).value, before, result, req.executionId,
                      req.desired.fingerprint)
    }

    /** When update-ref begins on a prepared request with the branch at the authorised tip, the move can be
        hidden behind each of the errors that `AfterUpdate` names. */
    lemma PreparedMoveMayBeHidden(
        a: Store, req: ExecuteRequest, before: ObjectId, result: ObjectId, readBack: Option<ObjectId>)
      requires WellFounded(a.objects, repo.hash) && Chained(a) && a.tip == Some(before)
      requires Prepared(a.objects, req, before, result)
      requires readBack != Some(result) && (readBack.Some? ==> ValidObject(readBack.value, repo.hash))
      ensures exists b, c :: HidesMove(a, b, c, repo.hash, before, result, readBack)
      ensures AfterUpdate(false, readBack, before, result).Some?
    {
      PreparedNames(a.objects, req, before, result);
      hide WellFounded, Chained, Prepared, HidesMove, ValidObject;
      MoveMayBeHidden(a, repo.hash, before, result, readBack);
    }

    /** Safe for the branch under any interference: an execution moves it at most once, only from
        the authorised tip, only to its own commit on top of that tip. Success means that
        the branch was at that commit during the call, even if update-ref reported an error.
        `made` is the commit that update-ref was to install, `moved` whether it did, `reported`
        whether it said so, `readBack` what the read after an error found. */
    method Execute(req: ExecuteRequest)
      returns (r: Result<Execution, Error>, ghost made: Option<(ObjectId, ObjectId)>,
               ghost moved: bool, ghost reported: bool, ghost readBack: Option<ObjectId>)
      requires repo.Valid()
      modifies repo
      ensures repo.Valid() && Later(old(repo.Snapshot()), repo.Snapshot())
      ensures made.None? ==> r.Err? && !moved && Watched(old(repo.Snapshot()), repo.Snapshot())
      ensures made.Some? ==>
        && Prepared(repo.objects, req, made.value.0, made.value.1)
        && OwnMoves(repo.moves) == OwnMoves(old(repo.moves))
           + if moved then [Move(true, Some(made.value.0), Some(made.value.1))] else []
      ensures reported ==> moved
      // when there is an error, and which
      ensures made.None? ==> r == Err(Refused) || r == Err(StaleObservation)
      ensures made.Some? ==> (r.Err? <==> !reported && readBack != Some(made.value.1))
      ensures made.Some? && r.Err? ==> Some(r.error) == AfterUpdate(reported, readBack, made.value.0, made.value.1)
      ensures readBack.Some? ==> made.Some? && repo.tip == readBack
      // exactly when an error hides a move
      ensures r.Err? && OwnMoves(repo.moves) != OwnMoves(old(repo.moves)) <==>
                made.Some? && moved && !reported && readBack != Some(made.value.1)
      ensures r.Ok? ==>
        && made.Some? && Held(old(repo.Snapshot()), repo.Snapshot(), made.value.1)
        && r.value == Execution(req.executionId, Some(ExecutionEvidence(req.executionId, made.value.0, made.value.1)))
      ensures Alone(old(repo.Snapshot()), repo.Snapshot()) && repo.failures == old(repo.failures)
              && Executable(old(repo.Snapshot()), req) ==>
                r.Ok? && repo.tip == Some(made.value.1)
                && repo.moves == old(repo.moves) + [Move(true, old(repo.tip), repo.tip)]
    {
      hide WellFounded, Chained, OwnMoves, Prepared, Grows, ValidObject, Null, Executable, AfterUpdate, Held;
      ghost var s0 := repo.Snapshot();
      made, moved, reported, readBack := None, false, false, None;
      var prepared := Prepare(req);
      ghost var s1 := repo.Snapshot();
      if prepared.Err? {
        LaterItself(s1);
        AloneThroughout(s0, s1, s1);
        r := Err(prepared.error);
        return;
      }
      var (before, result) := prepared.value;
      made := Some((before, result));
      PreparedNames(s1.objects, req, before, result);
      var failed;
      failed, moved, reported, readBack := Update(before, result);
      ghost var s2 := repo.Snapshot();
      LaterThen(s0, s1, s2);
      AloneThroughout(s0, s1, s2);
      PreparedIsStable(s1.objects, s2.objects, req, before, result);
      if failed.Some? {
        r := Err(failed.value);
      } else {
        HeldLater(s0, s1, s2, result);
        r := Ok(Execution(req.executionId, Some(ExecutionEvidence(req.executionId, before, result))));
      }
    }

    lemma AloneThroughout(a: Store, b: Store, c: Store)
      requires Watched(a, b) && Later(b, c)
      ensures Alone(a, c) && a.failures == c.failures ==>
                Undisturbed(a, b) && a.tip == b.tip && Alone(b, c) && b.failures == c.failures
    {
      if Alone(a, c) && a.failures == c.failures {
        AloneBetween(a, a, b, c);
      }
    }

    /** The end of Execute: update-ref, and when it fails a look at the branch. */
    method Update(before: ObjectId, result: ObjectId)
      returns (failed: Option<Error>, ghost moved: bool, ghost reported: bool, ghost readBack: Option<ObjectId>)
      requires repo.Valid() && ValidObject(before, repo.hash) && ValidObject(result, repo.hash)
      requires RefValue(before) == Some(before) && RefValue(result) == Some(result) && !Null(result)
      modifies repo
      ensures repo.Valid() && Later(old(repo.Snapshot()), repo.Snapshot())
      ensures OwnMoves(repo.moves) ==
                OwnMoves(old(repo.moves)) + if moved then [Move(true, Some(before), Some(result))] else []
      ensures reported ==> moved
      ensures failed == AfterUpdate(reported, readBack, before, result)
      ensures readBack.Some? ==> repo.tip == readBack
      ensures failed.None? ==> Held(old(repo.Snapshot()), repo.Snapshot(), result)
      ensures Alone(old(repo.Snapshot()), repo.Snapshot()) && repo.failures == old(repo.failures) ==>
                failed.None? && repo.tip == Some(result)
                && repo.moves == old(repo.moves) + [Move(true, Some(before), Some(result))]
    {
      hide WellFounded, Chained, OwnMoves, Grows, ValidObject, Null;
      ghost var s0 := repo.Snapshot();
      var updated;
      updated, moved := repo.UpdateRef(result, before);
      failed, reported, readBack := None, updated, None;
      if !updated {
        ghost var s1 := repo.Snapshot();
        var current := repo.ReadRef();
        readBack := current;
        ghost var s2 := repo.Snapshot();
        LaterThen(s0, s1, s2);
        if current.None? {
          failed := Some(UpdateUnknown);
        } else if current.value == result {
          HeldNow(s0, s2, result);
        } else {
          failed := Some(if current.value != before then OvertakenDuringUpdate else UpdateFailed);
        }
      }
    }

    lemma PreparedNames(objects: Objects, req: ExecuteRequest, before: ObjectId, result: ObjectId)
      requires WellFounded(objects, repo.hash) && Prepared(objects, req, before, result)
      ensures RefValue(before) == Some(before) && RefValue(result) == Some(result)
      ensures ValidObject(before, repo.hash) && ValidObject(result, repo.hash) && !Null(result)
    {
      CommitIsNamed(objects, repo.hash, before);
      CommitIsNamed(objects, repo.hash, result);
    }

    lemma PreparedIsStable(objects: Objects, objects': Objects, req: ExecuteRequest, before: ObjectId, result: ObjectId)
      requires WellFounded(objects, repo.hash) && WellFounded(objects', repo.hash) && Grows(objects, objects')
      requires Prepared(objects, req, before, result)
      ensures Prepared(objects', req, before, result)
    {
      var path := Locate(req.target.id).value;
      hide Matches, Accomplished, WellFounded, Grows, Locate;
      MatchesIsStable(objects, objects', repo.hash, before, path, req.before.resource.fingerprint);
      AccomplishedIsStable(objects, objects', repo.hash, path, before, result, req.executionId,
                           req.desired.fingerprint);
    }

    /** Verify's two flattenings and their comparison; yields the target's entry. */
    method CompareTrees(before: ObjectId, result: ObjectId, path: string) returns (r: Option<TreeEntry>)
      requires repo.Valid()
      modifies repo
      ensures repo.Valid() && Watched(old(repo.Snapshot()), repo.Snapshot())
      ensures r.Some? ==>
        && IsTree(repo.objects, before) && IsTree(repo.objects, result)
        && SameElsewhere(Meaning(repo.objects, repo.hash, before), Meaning(repo.objects, repo.hash, result), path)
        && LeafAt(Meaning(repo.objects, repo.hash, result), path) == Some(Leaf(r.value.mode, r.value.id))
      ensures Undisturbed(old(repo.Snapshot()), repo.Snapshot())
              && IsTree(old(repo.objects), before) && IsTree(old(repo.objects), result) ==>
                (r.Some? <==>
                 SameElsewhere(Meaning(old(repo.objects), repo.hash, before),
                               Meaning(old(repo.objects), repo.hash, result), path)
                 && LeafAt(Meaning(old(repo.objects), repo.hash, result), path).Some?)
    {
      ghost var hash, s0 := repo.hash, repo.Snapshot();
      var flatBefore := FlattenTree(repo, before, "", None);
      ghost var s1 := repo.Snapshot();
      hide WellFounded, Chained, OwnMoves, Later, Watched, Grows, SameElsewhere, IsIndex, LeafAt;
      if flatBefore.None? {
        return None;
      }
      var flatResult := FlattenTree(repo, result, "", None);
      ghost var s2 := repo.Snapshot();
      WatchedThen(s0, s1, s2);
      WatchedGrows(s0, s1);
      WatchedGrows(s1, s2);
      WatchedGrows(s0, s2);
      StableIfTree(s0.objects, s1.objects, hash, result);
      if flatResult.None? {
        return None;
      }
      StableIfTree(s0.objects, s2.objects, hash, before);
      StableIfTree(s0.objects, s2.objects, hash, result);
      StableIfTree(s1.objects, s2.objects, hash, before);
      ComparingIndexes(Meaning(s2.objects, hash, before), Meaning(s2.objects, hash, result),
                       flatBefore.value, flatResult.value, path);
      IndexedLeaf(Meaning(s2.objects, hash, result), flatResult.value, path);
      var same := CompareTreeLeaves(flatBefore.value, flatResult.value, path);
      if !same || path !in flatResult.value {
        return None;
      }
      r := Some(flatResult.value[path]);
    }

    /** What the request claims: the target path, the authorised tip and the result commit. */
    function Claimed(req: VerifyRequest): Option<(string, ObjectId, ObjectId)> {
      if req.executionId == "" || req.execution.executionId != req.executionId then None
      else if req.before.resource.id != req.expected.id then None
      else match (Locate(req.expected.id), ParseTip(req.before.token, repo.hash), req.execution.evidence)
        case (Some(path), Some(before), Some(e)) =>
          if e.executionId == req.executionId && e.beforeTip == before && ValidObject(e.resultCommit, repo.hash)
          then Some((path, before, e.resultCommit)) else None
        case _ => None
    }

    /** Everything that Verify is to establish, the position of the branch aside. */
    ghost predicate Confirmed(objects: Objects, req: VerifyRequest)
      requires WellFounded(objects, repo.hash)
    {
      && Claimed(req).Some?
      && var (path, before, result) := Claimed(req).value;
         && Matches(objects, repo.hash, before, path, req.before.resource.fingerprint)
         && Accomplished(objects, repo.hash, path, before, result, req.executionId, req.expected.fingerprint)
    }

    lemma ClaimedNames(req: VerifyRequest)
      requires Claimed(req).Some?
      ensures ValidObject(Claimed(req).value.1, repo.hash) && ValidObject(Claimed(req).value.2, repo.hash)
    {
    }

    /** The reads between Verify's two looks at the branch. */
    method CheckCommit(req: VerifyRequest, path: string, before: ObjectId, result: ObjectId) returns (ok: bool)
      requires repo.Valid() && Claimed(req) == Some((path, before, result))
      modifies repo
      ensures repo.Valid() && Watched(old(repo.Snapshot()), repo.Snapshot())
      ensures ok ==> Confirmed(repo.objects, req)
      ensures Undisturbed(old(repo.Snapshot()), repo.Snapshot()) && Confirmed(old(repo.objects), req) ==> ok
    {
      ghost var hash, s0 := repo.hash, repo.Snapshot();
      ghost var good := Confirmed(s0.objects, req);
      ClaimedNames(req);
      var expected := req.expected.fingerprint;
      assert good <==> Matches(s0.objects, hash, before, path, req.before.resource.fingerprint)
                       && Accomplished(s0.objects, hash, path, before, result, req.executionId, expected);
      hide WellFounded, Chained, OwnMoves, Later, Watched, Grows, SameElsewhere, LeafAt, Matches, FileIs, Accomplished,
        ParseCommit, CommitAt, Claimed, ValidObject, ExecutionCommitMessage, FileStateFingerprint;
      var file := ReadFile(before, path);
      ghost var s1 := repo.Snapshot();
      WatchedGrows(s0, s1);
      if file.None? || file.value.1 != req.before.resource.fingerprint {
        return false;
      }
      var commit := repo.ReadCommit(result);
      ghost var s2 := repo.Snapshot();
      WatchedThen(s0, s1, s2);
      WatchedGrows(s1, s2);
      WatchedGrows(s0, s2);
      if good {
        AccomplishedIsStable(s0.objects, s1.objects, hash, path, before, result, req.executionId, expected);
        AccomplishedIsStable(s0.objects, s2.objects, hash, path, before, result, req.executionId, expected);
        Accomplishment(s1.objects, hash, path, before, result, req.executionId, expected);
        Accomplishment(s2.objects, hash, path, before, result, req.executionId, expected);
        CommitIsStable(s1.objects, s2.objects, hash, before);
      }
      if commit.None? || commit.value.message != ExecutionCommitMessage(req.executionId)
         || commit.value.parents != [before] {
        return false;
      }
      var entry := CompareTrees(file.value.0.tree, commit.value.tree, path);
      ghost var s3 := repo.Snapshot();
      WatchedThen(s0, s2, s3);
      WatchedGrows(s2, s3);
      WatchedGrows(s0, s3);
      if good {
        AccomplishedIsStable(s0.objects, s3.objects, hash, path, before, result, req.executionId, expected);
        Accomplishment(s3.objects, hash, path, before, result, req.executionId, expected);
        CommitIsStable(s2.objects, s3.objects, hash, result);
      }
      if entry.None? {
        return false;
      }
      var content := repo.ReadBlob(entry.value.id);
      ghost var s4 := repo.Snapshot();
      WatchedThen(s0, s3, s4);
      WatchedGrows(s3, s4);
      if content.None? {
        return false;
      }
      ok := FileStateFingerprint(entry.value.mode, content.value) == Some(expected);
      if ok {
        WhatWasChecked(s1.objects, s2.objects, s3.objects, s4.objects, hash, path, before, result, req.executionId,
                       file.value.0, commit.value, entry.value, content.value, req.before.resource.fingerprint,
                       expected);
      }
    }

    /** Verify: it succeeds exactly when the claim is true and the branch is still at the result
        commit, provided that no command fails and nobody moves the branch meanwhile; and
        whatever happens meanwhile, success means that at the last look the branch was
        there, and that all the claim was true. */
    method Verify(req: VerifyRequest) returns (r: Result<Verification, Error>)
      requires repo.Valid()
      modifies repo
      ensures repo.Valid() && Watched(old(repo.Snapshot()), repo.Snapshot())
      ensures r.Ok? ==>
        && Confirmed(repo.objects, req) && repo.tip == Some(Claimed(req).value.2)
        && r.value == Verification(req.expected, TipToken(Claimed(req).value.2))
      ensures Undisturbed(old(repo.Snapshot()), repo.Snapshot()) && Confirmed(old(repo.objects), req) ==>
                (r.Ok? <==> old(repo.tip) == Some(Claimed(req).value.2))
    {
      var claimed := Claimed(req);
      if claimed.None? {
        return Err(NotVerified);
      }
      ClaimedNames(req);
      var (path, before, result) := claimed.value;
      ghost var s0 := repo.Snapshot();
      var current := repo.ReadRef();
      ghost var s1 := repo.Snapshot();
      hide WellFounded, Chained, OwnMoves, Later, Watched, Grows, Confirmed, Claimed, ValidObject, TipToken;
      WatchedGrows(s0, s1);
      if Confirmed(s0.objects, req) {
        ConfirmedIsStable(s0.objects, s1.objects, req);
      }
      if current.None? {
        return Err(NotVerified);
      }
      if current.value != result {
        return Err(BranchAdvanced);
      }
      var good := CheckCommit(req, path, before, result);
      ghost var s2 := repo.Snapshot();
      WatchedThen(s0, s1, s2);
      if !good {
        return Err(NotVerified);
      }
      current := repo.ReadRef();
      ghost var s3 := repo.Snapshot();
      WatchedThen(s0, s2, s3);
      WatchedGrows(s2, s3);
      ConfirmedIsStable(s2.objects, s3.objects, req);
      if current.None? {
        return Err(NotVerified);
      }
      if current.value != result {
        return Err(BranchAdvanced);
      }
      r := Ok(Verification(req.expected, TipToken(result)));
    }

    lemma ConfirmedIsStable(objects: Objects, objects': Objects, req: VerifyRequest)
      requires WellFounded(objects, repo.hash) && WellFounded(objects', repo.hash) && Grows(objects, objects')
      requires Confirmed(objects, req)
      ensures Confirmed(objects', req)
    {
      var (path, before, result) := Claimed(req).value;
      hide Matches, Accomplished, WellFounded, Grows, Claimed;
      MatchesIsStable(objects, objects', repo.hash, before, path, req.before.resource.fingerprint);
      AccomplishedIsStable(objects, objects', repo.hash, path, before, result, req.executionId,
                           req.expected.fingerprint);
    }

    /** What Verify is asked about an execution. */
    function Question(req: ExecuteRequest, execution: Execution): VerifyRequest {
      VerifyRequest(req.executionId, req.desired, req.before, execution)
    }

    /** The claim of a carried-out execution is true. */
    lemma PreparedIsConfirmed(objects: Objects, req: ExecuteRequest, before: ObjectId, result: ObjectId)
      requires WellFounded(objects, repo.hash) && Prepared(objects, req, before, result)
      ensures var e := ExecutionEvidence(req.executionId, before, result);
        var question := Question(req, Execution(req.executionId, Some(e)));
        Confirmed(objects, question) && Claimed(question) == Some((Locate(req.target.id).value, before, result))
    {
      hide WellFounded, Matches, Accomplished, Locate, ParseTip, ValidObject;
    }

    /** Execute satisfies Verify: after a successful execution, if the branch is still at its commit
        when Verify begins, nobody moves it and no command of Verify fails, Verify
        confirms the desired state under the new commit's token. */
    method ExecuteThenVerify(req: ExecuteRequest)
      returns (e: Result<Execution, Error>, v: Option<Verification>, ghost between: Store)
      requires repo.Valid()
      modifies repo
      ensures repo.Valid()
      ensures e.Ok? ==>
        && e.value.evidence.Some? && Watched(between, repo.Snapshot())
        && var result := e.value.evidence.value.resultCommit;
           && Held(old(repo.Snapshot()), between, result)
           && (v.Some? ==> v.value == Verification(req.desired, TipToken(result)) && repo.tip == Some(result))
           && (Undisturbed(between, repo.Snapshot()) ==> (v.Some? <==> between.tip == Some(result)))
    {
      v := None;
      ghost var made, moved, reported, readBack;
      e, made, moved, reported, readBack := Execute(req);
      between := repo.Snapshot();
      if e.Ok? {
        PreparedIsConfirmed(repo.objects, req, made.value.0, made.value.1);
        hide Confirmed, Claimed, Prepared, Held, Watched, WellFounded, OwnMoves;
        var r := Verify(Question(req, e.value));
        v := if r.Ok? then Some(r.value) else None;
      }
    }

    /** Verify soundness: a confirmed claim pins down mode and bytes. Whichever file the
        approved fingerprint was made of is the one in the result commit, whose only parent
        is the authorised tip and whose other files are those of that tip. */
    lemma ConfirmedIsExact(objects: Objects, req: VerifyRequest, mode: string, content: string)
      requires WellFounded(objects, repo.hash) && Confirmed(objects, req)
      requires FileStateFingerprint(mode, content) == Some(req.expected.fingerprint)
      ensures var (path, before, result) := Claimed(req).value;
        && FileIs(objects, repo.hash, result, path, mode, content)
        && CommitAt(objects, repo.hash, result).value.parents == [before]
        && forall other | ExecutionCommitMessage(other) == CommitAt(objects, repo.hash, result).value.message ::
             other == req.executionId
    {
      var (path, before, result) := Claimed(req).value;
      MatchedFileIsExact(objects, repo.hash, result, path, mode, content, req.expected.fingerprint);
      forall other | ExecutionCommitMessage(other) == CommitAt(objects, repo.hash, result).value.message
        ensures other == req.executionId
      {
        MessageBindsExecution(other, req.executionId);
      }
    }
  }
}
