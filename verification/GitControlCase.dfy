/**
 A translation that loses nothing, and a repository and a request for which nothing stands in
 the way of a controlled change.
 */
module GitControlCase {
  import opened Results
  import opened Evidence
  import opened Adapters
  import opened ControlSuccess
  import opened HostControl
  import opened GitText
  import opened GitFormats
  import opened GitRepository
  import opened GitClaims
  import opened GitHiddenMoves
  import opened GitControl

  // ---- Text for what the provider says ----

  function TextOf(f: Fingerprint): (s: string)
    ensures s != ""
  {
    match f
    case Text(text) => "t" + text
    case Sha256(preimage) => "s" + preimage
  }

  function FingerprintIn(s: string): Fingerprint {
    if s == "" then Fingerprint.Text("") else if s[0] == 's' then Sha256(s[1..]) else Fingerprint.Text(s[1..])
  }

  lemma FingerprintRoundTrip(f: Fingerprint)
    ensures FingerprintIn(TextOf(f)) == f
  {
  }

  /** A string that can be told apart from what follows it. */
  function Marked(s: string): string {
    if s == "" then "." else [',', s[0]] + Marked(s[1..])
  }

  function Unmarked(s: string): (string, string)
    decreases |s|
  {
    if |s| < 2 || s[0] == '.' then ("", if s == "" then "" else s[1..])
    else
      var (head, rest) := Unmarked(s[2..]);
      ([s[1]] + head, rest)
  }

  lemma {:induction false} MarkedRoundTrip(s: string, rest: string)
    ensures Unmarked(Marked(s) + rest) == (s, rest)
    decreases |s|
  {
    var m := Marked(s) + rest;
    if s == "" {
      assert m == ['.'] + rest && m[1..] == rest;
    } else {
      MarkedRoundTrip(s[1..], rest);
      assert m == [',', s[0]] + (Marked(s[1..]) + rest);
      assert m[2..] == Marked(s[1..]) + rest && [s[0]] + s[1..] == s;
    }
  }

  function Encoded(e: Option<Git.ExecutionEvidence>): string {
    match e
    case None => ""
    case Some(v) => Marked(v.executionId) + (Marked(v.beforeTip) + (Marked(v.resultCommit) + ""))
  }

  function Decoded(s: string): Option<Git.ExecutionEvidence> {
    if s == "" then None
    else
      var (id, s1) := Unmarked(s);
      var (before, s2) := Unmarked(s1);
      var (result, _) := Unmarked(s2);
      Some(Git.ExecutionEvidence(id, before, result))
  }

  lemma EvidenceRoundTrip(e: Option<Git.ExecutionEvidence>)
    ensures Decoded(Encoded(e)) == e
  {
    if e.Some? {
      var v := e.value;
      MarkedRoundTrip(v.executionId, Marked(v.beforeTip) + (Marked(v.resultCommit) + ""));
      MarkedRoundTrip(v.beforeTip, Marked(v.resultCommit) + "");
      MarkedRoundTrip(v.resultCommit, "");
    }
  }

  function Plain(payload: string): Option<Git.FilePayload> {
    Some(Git.FilePayload(MODE, payload))
  }

  const TRANSLATION: Translation :=
    Translation((id: Digest) => "x", s => FingerprintIn(s), f => TextOf(f), s => Plain(s), e => Encoded(e),
                s => Decoded(s))

  lemma TranslationIsFaithful()
    ensures TRANSLATION.Faithful()
  {
    forall f ensures TRANSLATION.fingerprint(TRANSLATION.text(f)) == f {
      FingerprintRoundTrip(f);
    }
    forall e ensures TRANSLATION.decode(TRANSLATION.encode(e)) == e {
      EvidenceRoundTrip(e);
    }
    assert '\r' !in "x" && '\n' !in "x" && NUL !in "x";
  }

  // ---- The change ----

  const ROOT: string := TextOf(FingerprintOf("old"))

  function Change(target: string): ControlRequest {
    ControlRequest(ResourceRef(target, ROOT), ResourceRef(target, TextOf(FingerprintOf("new"))), "new", 0, None)
  }

  /** On every provider for whose branch some resource ID names the file. */
  lemma ChangeIsPossible(c: FileControl, target: string)
    requires c.t == TRANSLATION && c.provider.repo.hash == HASH
    requires target != "" && c.provider.Locate(target) == Some(PATH)
    ensures var s := Store(Before(), Some(TIP), [], 0);
      && WellFounded(s.objects, HASH) && c.Replaceable(s, Change(target), ROOT) && c.Expected(Change(target), ROOT, TIP)
    ensures c.host.runtime.policy == AllowPolicy ==> c.Willing(Change(target), ROOT)
  {
    hide Name, WellFounded, Matches, ParseCommit, CommitText, ValidObject, ValidEntry, Git.FileProvider.Locate;
    NamesDiffer();
    StoresAreWellFounded();
    CommitsAreRead();
    TranslationIsFaithful();
    FingerprintRoundTrip(FingerprintOf("old"));
    FingerprintRoundTrip(FingerprintOf("new"));
    FileIsThere(Before(), TIP, TREE, BLOB, "old");
    FileIsValid(BLOB);
    PathIsOneName();
    ChangeIsReal();
    hide Split, FileStateFingerprint, Translation.Faithful, TextOf, FingerprintIn;
    forall o | Valid(o) && o.subject == target && o.state == ROOT
      ensures Sanctioned(o, Proposal(target, TextOf(FingerprintOf("new"))), AllowPolicy)
    {
      AllowPolicySanctions(o, Proposal(target, TextOf(FingerprintOf("new"))));
    }
  }

  lemma ChangeIsReal()
    ensures TextOf(FingerprintOf("new")) != ROOT
  {
    FingerprintIsUnambiguous(MODE, "old", MODE, "new");
    FingerprintRoundTrip(FingerprintOf("old"));
    FingerprintRoundTrip(FingerprintOf("new"));
    hide FileStateFingerprint;
    assert "old" != "new";
  }
}
