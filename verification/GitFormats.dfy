/**
 The two text formats that the Git provider writes and reads: the records of a tree
 listing, and commit objects. Go strings are byte strings; here a character is a byte.
 */
module GitFormats {
  import opened Results
  import opened GitText

  type ObjectId = string

  const NUL: char := '\0'
  const TAB: char := '\t'
  const NEWLINE: char := '\n'

  datatype TreeEntry = TreeEntry(mode: string, id: ObjectId, path: string)

  datatype Commit = Commit(tree: ObjectId, parents: seq<ObjectId>, message: string)

  predicate Hex(c: char) {
    '0' <= c <= '9' || 'a' <= c <= 'f'
  }

  /** validateObject, for a repository whose object names are `hash` characters long. */
  predicate ValidObject(id: ObjectId, hash: nat) {
    |id| == hash && forall i | 0 <= i < |id| :: Hex(id[i])
  }

  predicate IsTreeMode(mode: string) {
    mode == "040000" || mode == "40000"
  }

  predicate IsFileMode(mode: string) {
    mode == "100644" || mode == "100755"
  }

  /** validateMode */
  predicate ValidMode(mode: string) {
    IsFileMode(mode) || mode == "120000" || mode == "160000" || IsTreeMode(mode)
  }

  predicate NamesGitDir(part: string) {
    |part| == 4 && part[0] == '.' && (part[1] == 'g' || part[1] == 'G') && (part[2] == 'i' || part[2] == 'I')
    && (part[3] == 't' || part[3] == 'T')
  }

  /** validateTreePath. A trailing slash passes, so the last component may be empty. */
  predicate ValidTreePath(path: string) {
    && path != "" && NUL !in path && path[0] != '/'
    && (forall i | 0 <= i < |path| - 1 :: path[i] != '/' || path[i + 1] != '/')
    && (forall part | part in Split(path, '/') :: part != "." && part != ".." && !NamesGitDir(part))
  }

  predicate ValidEntry(e: TreeEntry, hash: nat) {
    ValidMode(e.mode) && ValidTreePath(e.path) && ValidObject(e.id, hash)
  }

  // ---- Tree listings ----

  function TypeName(mode: string): string {
    if IsTreeMode(mode) then "tree" else if mode == "160000" then "commit" else "blob"
  }

  function Meta(e: TreeEntry): string {
    e.mode + " " + TypeName(e.mode) + " " + e.id
  }

  function Record(e: TreeEntry): string {
    Meta(e) + [TAB] + e.path
  }

  function TreeText(entries: seq<TreeEntry>): string {
    if entries == [] then "" else Record(entries[0]) + [NUL] + TreeText(entries[1..])
  }

  function ParseRecord(record: string, hash: nat): Option<TreeEntry> {
    match Cut(record, [TAB])
    case None => None
    case Some((meta, path)) =>
      var fields := Split(meta, ' ');
      if |fields| != 3 || !ValidObject(fields[2], hash) then None
      else Some(TreeEntry(fields[0], fields[2], path))
  }

  /** Empty records are skipped; one bad record spoils the listing. */
  function ParseRecords(records: seq<string>, hash: nat): Option<seq<TreeEntry>> {
    if records == [] then Some([])
    else if records[0] == "" then ParseRecords(records[1..], hash)
    else
      match ParseRecord(records[0], hash)
      case None => None
      case Some(e) =>
        match ParseRecords(records[1..], hash)
        case None => None
        case Some(rest) => Some([e] + rest)
  }

  function ParseTreeText(text: string, hash: nat): Option<seq<TreeEntry>> {
    ParseRecords(Split(text, NUL), hash)
  }

  /** The reading loop of ReadTree. */
  method ReadRecords(text: string, hash: nat) returns (r: Option<seq<TreeEntry>>)
    ensures r == ParseTreeText(text, hash)
  {
    hide ParseRecord;
    var records := Split(text, NUL);
    var entries: seq<TreeEntry> := [];
    PrependNothing(records, hash);
    for i := 0 to |records|
      invariant ParseRecords(records, hash) == Prepend(entries, ParseRecords(records[i..], hash))
    {
      assert records[i..][1..] == records[i + 1..];
      if records[i] == "" {
        continue;
      }
      var e := ParseRecord(records[i], hash);
      if e.None? {
        return None;
      }
      PrependOne(entries, e.value, ParseRecords(records[i + 1..], hash));
      entries := entries + [e.value];
    }
    assert records[|records|..] == [] && entries + [] == entries;
    r := Some(entries);
  }

  ghost function Prepend(entries: seq<TreeEntry>, rest: Option<seq<TreeEntry>>): Option<seq<TreeEntry>> {
    match rest
    case None => None
    case Some(more) => Some(entries + more)
  }

  lemma PrependNothing(records: seq<string>, hash: nat)
    ensures ParseRecords(records, hash) == Prepend([], ParseRecords(records[0..], hash))
  {
    hide ParseRecords;
    assert records[0..] == records;
    var r := ParseRecords(records, hash);
    assert r.Some? ==> [] + r.value == r.value;
  }

  lemma PrependOne(entries: seq<TreeEntry>, e: TreeEntry, rest: Option<seq<TreeEntry>>)
    ensures Prepend(entries + [e], rest) == Prepend(entries, Prepend([e], rest))
  {
    assert rest.Some? ==> entries + [e] + rest.value == entries + ([e] + rest.value);
  }

  /** What the record format can carry: any name without NUL, tabs and newlines included. */
  predicate Printable(e: TreeEntry, hash: nat) {
    && NUL !in e.path && NUL !in e.mode && TAB !in e.mode && ' ' !in e.mode
    && ValidObject(e.id, hash)
  }

  lemma ValidIsPrintable(e: TreeEntry, hash: nat)
    requires ValidEntry(e, hash)
    ensures Printable(e, hash)
  {
  }

  lemma ObjectIsPlain(id: ObjectId, hash: nat, c: char)
    requires ValidObject(id, hash) && !Hex(c)
    ensures c !in id
  {
  }

  lemma {:induction false} RecordRoundTrip(e: TreeEntry, hash: nat)
    requires Printable(e, hash)
    ensures ParseRecord(Record(e), hash) == Some(e) && Record(e) != "" && NUL !in Record(e)
  {
    MetaRoundTrip(e, hash);
    hide Meta;
    CutAtChar(Meta(e), TAB, e.path);
  }

  lemma {:induction false} MetaRoundTrip(e: TreeEntry, hash: nat)
    requires Printable(e, hash)
    ensures Split(Meta(e), ' ') == [e.mode, TypeName(e.mode), e.id]
    ensures TAB !in Meta(e) && NUL !in Meta(e)
  {
    var kind := TypeName(e.mode);
    ObjectIsPlain(e.id, hash, ' ');
    ObjectIsPlain(e.id, hash, TAB);
    ObjectIsPlain(e.id, hash, NUL);
    assert NUL !in kind && TAB !in kind && ' ' !in kind;
    hide TypeName, ValidObject;
    SplitWhole(e.id, ' ');
    SplitHead(kind, e.id, ' ');
    SplitHead(e.mode, kind + [' '] + e.id, ' ');
    assert Meta(e) == e.mode + [' '] + (kind + [' '] + e.id);
  }

  /** Reading back what was written gives the same entries in the same order. */
  lemma {:induction false} TreeTextRoundTrip(entries: seq<TreeEntry>, hash: nat)
    requires forall i | 0 <= i < |entries| :: Printable(entries[i], hash)
    ensures ParseTreeText(TreeText(entries), hash) == Some(entries)
  {
    if entries == [] {
      assert TreeText([]) == "" && Split("", NUL) == [""];
      assert ParseRecords([""][1..], hash) == Some([]);
    } else {
      RecordRoundTrip(entries[0], hash);
      TreeTextRoundTrip(entries[1..], hash);
      hide Split, ParseRecord, Record;
      var rest := TreeText(entries[1..]);
      SplitHead(Record(entries[0]), rest, NUL);
      var records := [Record(entries[0])] + Split(rest, NUL);
      assert records[1..] == Split(rest, NUL);
      assert [entries[0]] + entries[1..] == entries;
    }
  }

  // ---- Commits ----

  const NO_COMMIT: Commit := Commit("", [], "")

  /** One header line: fields are a name and the rest; only two names matter. */
  function ParseLine(c: Commit, line: string): Option<Commit> {
    match Cut(line, " ")
    case None => None
    case Some((name, value)) =>
      if name == "tree" then Some(c.(tree := value))
      else if name == "parent" then Some(c.(parents := c.parents + [value]))
      else Some(c)
  }

  function ParseLines(c: Commit, lines: seq<string>): Option<Commit>
    decreases |lines|
  {
    if lines == [] then Some(c)
    else
      match ParseLine(c, lines[0])
      case None => None
      case Some(c') => ParseLines(c', lines[1..])
  }

  predicate ValidLinks(c: Commit, hash: nat) {
    ValidObject(c.tree, hash) && forall i | 0 <= i < |c.parents| :: ValidObject(c.parents[i], hash)
  }

  function ParseCommit(text: string, hash: nat): Option<Commit> {
    match Cut(text, "\n\n")
    case None => None
    case Some((header, message)) =>
      match ParseLines(NO_COMMIT, Split(header, NEWLINE))
      case None => None
      case Some(c) => if ValidLinks(c, hash) then Some(c.(message := message)) else None
  }

  /** The reading loop of ReadCommit. */
  method ReadHeaders(text: string, hash: nat) returns (r: Option<Commit>)
    ensures r == ParseCommit(text, hash)
  {
    var cut := Cut(text, "\n\n");
    if cut.None? {
      return None;
    }
    var lines := Split(cut.value.0, NEWLINE);
    var commit := NO_COMMIT;
    for i := 0 to |lines|
      invariant ParseLines(NO_COMMIT, lines) == ParseLines(commit, lines[i..])
    {
      var fields := Cut(lines[i], " ");
      if fields.None? {
        return None;
      }
      match fields.value.0 {
        case "tree" => commit := commit.(tree := fields.value.1);
        case "parent" => commit := commit.(parents := commit.parents + [fields.value.1]);
        case _ =>
      }
    }
    if !ValidObject(commit.tree, hash) {
      return None;
    }
    for i := 0 to |commit.parents|
      invariant forall k | 0 <= k < i :: ValidObject(commit.parents[k], hash)
    {
      if !ValidObject(commit.parents[i], hash) {
        return None;
      }
    }
    r := Some(commit.(message := cut.value.1));
  }

  /** Any other header line, or the space-led continuation of one. */
  predicate ExtraLine(line: string) {
    && NEWLINE !in line
    && var cut := Cut(line, " ");
       cut.Some? && cut.value.0 != "tree" && cut.value.0 != "parent"
  }

  function ParentLines(parents: seq<ObjectId>): (lines: seq<string>)
    ensures |lines| == |parents|
  {
    if parents == [] then [] else ["parent " + parents[0]] + ParentLines(parents[1..])
  }

  function CommitLines(tree: ObjectId, parents: seq<ObjectId>, extra: seq<string>): seq<string> {
    ["tree " + tree] + ParentLines(parents) + extra
  }

  /** The commit object format: header lines, an empty line, the message. */
  function CommitText(tree: ObjectId, parents: seq<ObjectId>, extra: seq<string>, message: string): string {
    Join(CommitLines(tree, parents, extra), NEWLINE) + "\n\n" + message
  }

  lemma ParentIsRead(c: Commit, parent: ObjectId, rest: seq<string>)
    ensures ParseLines(c, ["parent " + parent] + rest) == ParseLines(c.(parents := c.parents + [parent]), rest)
  {
    CutAtChar("parent", ' ', parent);
    assert "parent " + parent == "parent" + [' '] + parent;
    assert (["parent " + parent] + rest)[1..] == rest;
  }

  lemma {:induction false} ParentsAreRead(c: Commit, parents: seq<ObjectId>, rest: seq<string>)
    ensures ParseLines(c, ParentLines(parents) + rest) == ParseLines(c.(parents := c.parents + parents), rest)
    decreases |parents|
  {
    hide ParseLines;
    if parents == [] {
      assert ParentLines(parents) + rest == rest && c.parents + parents == c.parents;
    } else {
      var line, lines := "parent " + parents[0], ParentLines(parents[1..]) + rest;
      assert ParentLines(parents) == [line] + ParentLines(parents[1..]);
      hide ParentLines;
      assert ParentLines(parents) + rest == [line] + lines;
      ParentIsRead(c, parents[0], lines);
      ParentsAreRead(c.(parents := c.parents + [parents[0]]), parents[1..], rest);
      assert c.parents + [parents[0]] + parents[1..] == c.parents + parents;
    }
  }

  lemma {:induction false} ExtraLinesAreIgnored(c: Commit, extra: seq<string>)
    requires forall i | 0 <= i < |extra| :: ExtraLine(extra[i])
    ensures ParseLines(c, extra) == Some(c)
    decreases |extra|
  {
    if extra != [] {
      assert ExtraLine(extra[0]);
      ExtraLinesAreIgnored(c, extra[1..]);
    }
  }

  predicate PlainLines(lines: seq<string>) {
    forall i | 0 <= i < |lines| :: lines[i] != "" && NEWLINE !in lines[i]
  }

  lemma {:induction false} HeaderEndsAtBlankLine(lines: seq<string>)
    requires |lines| > 0 && PlainLines(lines)
    ensures FirstOccurrence(Join(lines, NEWLINE), "\n\n")
    decreases |lines|
  {
    var first, header := lines[0], Join(lines, NEWLINE);
    var text := header + "\n\n";
    if |lines| > 1 {
      HeaderEndsAtBlankLine(lines[1..]);
    }
    forall i | 0 <= i < |header| ensures !("\n\n" <= text[i..]) {
      if i < |first| {
        assert text[i..][0] == first[i];
      } else {
        var rest := Join(lines[1..], NEWLINE);
        assert header == first + [NEWLINE] + rest;
        if i == |first| {
          FirstCharacter(lines[1..]);
          assert text[i..][1] == rest[0];
        } else {
          assert text[i..] == (rest + "\n\n")[i - |first| - 1..];
        }
      }
    }
  }

  lemma FirstCharacter(lines: seq<string>)
    requires |lines| > 0 && PlainLines(lines)
    ensures Join(lines, NEWLINE) != "" && Join(lines, NEWLINE)[0] != NEWLINE
  {
    assert lines[0] != "" && lines[0][0] in lines[0];
  }

  lemma {:induction false} ParentLinesArePlain(parents: seq<ObjectId>, hash: nat)
    requires forall i | 0 <= i < |parents| :: ValidObject(parents[i], hash)
    ensures PlainLines(ParentLines(parents))
  {
    if parents != [] {
      ObjectIsPlain(parents[0], hash, NEWLINE);
      ParentLinesArePlain(parents[1..], hash);
    }
  }

  /** Parsing inverts the commit object format, whatever the extra headers and the message:
      the tree, the parents in order, the message byte for byte, and nothing from a
      continuation line. */
  lemma {:induction false} CommitRoundTrip(tree: ObjectId, parents: seq<ObjectId>, extra: seq<string>, message: string,
                                           hash: nat)
    requires ValidObject(tree, hash) && forall i | 0 <= i < |parents| :: ValidObject(parents[i], hash)
    requires forall i | 0 <= i < |extra| :: ExtraLine(extra[i])
    ensures ParseCommit(CommitText(tree, parents, extra, message), hash) == Some(Commit(tree, parents, message))
  {
    var lines := CommitLines(tree, parents, extra);
    CommitLinesArePlain(tree, parents, extra, hash);
    HeaderEndsAtBlankLine(lines);
    CommitLinesAreRead(tree, parents, extra);
    hide CommitLines, Join, Split, Cut, ParseLines, FirstOccurrence;
    CutAt(Join(lines, NEWLINE), "\n\n", message);
    SplitJoin(lines, NEWLINE);
  }

  lemma CommitLinesArePlain(tree: ObjectId, parents: seq<ObjectId>, extra: seq<string>, hash: nat)
    requires ValidObject(tree, hash) && forall i | 0 <= i < |parents| :: ValidObject(parents[i], hash)
    requires forall i | 0 <= i < |extra| :: ExtraLine(extra[i])
    ensures PlainLines(CommitLines(tree, parents, extra)) && AllFree(CommitLines(tree, parents, extra), NEWLINE)
  {
    var lines := CommitLines(tree, parents, extra);
    ObjectIsPlain(tree, hash, NEWLINE);
    ParentLinesArePlain(parents, hash);
    forall i | 0 <= i < |lines| ensures lines[i] != "" && NEWLINE !in lines[i] {
      if i > |parents| {
        assert lines[i] == extra[i - |parents| - 1] && ExtraLine(lines[i]);
      } else if i > 0 {
        assert lines[i] == ParentLines(parents)[i - 1];
      }
    }
  }

  lemma CommitLinesAreRead(tree: ObjectId, parents: seq<ObjectId>, extra: seq<string>)
    requires forall i | 0 <= i < |extra| :: ExtraLine(extra[i])
    ensures ParseLines(NO_COMMIT, CommitLines(tree, parents, extra)) == Some(Commit(tree, parents, ""))
  {
    var lines := CommitLines(tree, parents, extra);
    CutAtChar("tree", ' ', tree);
    assert lines[0] == "tree" + [' '] + tree;
    assert lines[1..] == ParentLines(parents) + extra;
    var c := NO_COMMIT.(tree := tree);
    assert ParseLine(NO_COMMIT, lines[0]) == Some(c);
    hide CommitLines, Cut, ParseLine;
    ParentsAreRead(c, parents, extra);
    assert c.parents + parents == parents;
    ExtraLinesAreIgnored(c.(parents := parents), extra);
  }

  // ---- Identities ----

  /** `dated` says that the time is not the zero time. */
  datatype Identity = Identity(name: string, email: string, dated: bool)

  predicate Blank(c: char) {
    c == ' ' || c == '\t' || c == '\n' || c == '\r' || c == '\U{000B}' || c == '\U{000C}'
  }

  /** Characters that Git would strip from the ends of a name. */
  predicate Crud(c: char) {
    c == ' ' || c == '\t' || c == ',' || c == ';' || c == ':' || c == '"' || c == '\'' || c == '\\'
  }

  predicate Forbidden(c: char) {
    c == '\r' || c == NEWLINE || c == NUL || c == '<' || c == '>'
  }

  predicate ValidName(s: string) {
    && (exists i | 0 <= i < |s| :: !Blank(s[i]))
    && (forall c | c in s :: !Forbidden(c))
    && !Crud(s[0]) && !Crud(s[|s| - 1])
  }

  /** validateIdentity */
  predicate ValidIdentity(i: Identity) {
    i.dated && ValidName(i.name) && ValidName(i.email)
  }

  function IdentityLine(role: string, i: Identity, date: string): string {
    role + " " + (i.name + " <" + i.email + "> " + date)
  }

  /** A valid identity cannot break out of its header line. */
  lemma IdentityLineIsExtra(role: string, i: Identity, date: string)
    requires ValidIdentity(i) && NEWLINE !in date && (role == "author" || role == "committer")
    ensures ExtraLine(IdentityLine(role, i, date))
  {
    var rest := i.name + " <" + i.email + "> " + date;
    assert Forbidden(NEWLINE) && NEWLINE !in i.name && NEWLINE !in i.email;
    assert NEWLINE !in rest;
    hide ValidIdentity;
    CutAtChar(role, ' ', rest);
    assert IdentityLine(role, i, date) == role + [' '] + rest;
  }
}
