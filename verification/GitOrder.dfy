/** What WriteTree hands to git mktree: entries checked, put in Git's order, printed. */
module GitOrder {
  import opened Results
  import opened GitText
  import opened GitFormats

  /** treeKey: directories sort as if their names ended in a slash. */
  function Key(e: TreeEntry): string {
    if IsTreeMode(e.mode) then e.path + "/" else e.path
  }

  /** Byte order on strings. */
  predicate Less(a: string, b: string) {
    b != "" && (a == "" || a[0] < b[0] || (a[0] == b[0] && Less(a[1..], b[1..])))
  }

  lemma {:induction false} LessIsTotal(a: string, b: string)
    ensures Less(a, b) || Less(b, a) <==> a != b
    ensures !(Less(a, b) && Less(b, a))
  {
    if a != "" && b != "" && a[0] == b[0] {
      LessIsTotal(a[1..], b[1..]);
      assert a == [a[0]] + a[1..] && b == [b[0]] + b[1..];
    }
  }

  lemma {:induction false} LessIsTransitive(a: string, b: string, c: string)
    requires !Less(b, a) && !Less(c, b)
    ensures !Less(c, a)
  {
    if a != "" && b != "" && c != "" && a[0] == b[0] == c[0] {
      LessIsTransitive(a[1..], b[1..], c[1..]);
    }
  }

  predicate InOrder(e: TreeEntry, f: TreeEntry) {
    !Less(Key(f), Key(e))
  }

  predicate Sorted(s: seq<TreeEntry>) {
    forall i, j | 0 <= i < j < |s| :: InOrder(s[i], s[j])
  }

  predicate Distinct(s: seq<TreeEntry>) {
    forall i, j | 0 <= i < j < |s| :: s[i].path != s[j].path
  }

  predicate AllValid(s: seq<TreeEntry>, hash: nat) {
    forall i | 0 <= i < |s| :: ValidEntry(s[i], hash)
  }

  predicate SlashFree(s: seq<TreeEntry>) {
    forall i | 0 <= i < |s| :: '/' !in s[i].path
  }

  /** The checking loops of WriteTree. */
  method CheckEntries(entries: seq<TreeEntry>, hash: nat) returns (ok: bool)
    ensures ok <==> AllValid(entries, hash) && Distinct(entries)
  {
    hide ValidEntry;
    for i := 0 to |entries|
      invariant AllValid(entries[..i], hash)
    {
      if !ValidEntry(entries[i], hash) {
        return false;
      }
      assert entries[..i + 1] == entries[..i] + [entries[i]];
    }
    assert entries[..|entries|] == entries;
    var seen: set<string> := {};
    for i := 0 to |entries|
      invariant seen == set k | 0 <= k < i :: entries[k].path
      invariant Distinct(entries[..i])
    {
      if entries[i].path in seen {
        return false;
      }
      seen := seen + {entries[i].path};
    }
    ok := true;
  }

  function Insert(e: TreeEntry, s: seq<TreeEntry>): seq<TreeEntry> {
    if s == [] || InOrder(e, s[0]) then [e] + s else [s[0]] + Insert(e, s[1..])
  }

  lemma InOrderThrough(e: TreeEntry, f: TreeEntry, g: TreeEntry)
    requires InOrder(e, f) && InOrder(f, g)
    ensures InOrder(e, g)
  {
    LessIsTransitive(Key(e), Key(f), Key(g));
  }

  lemma {:induction false} InsertIsSorted(e: TreeEntry, s: seq<TreeEntry>)
    requires Sorted(s)
    ensures Sorted(Insert(e, s)) && multiset(Insert(e, s)) == multiset{e} + multiset(s)
  {
    var r := Insert(e, s);
    if s == [] {
    } else if InOrder(e, s[0]) {
      forall j | 0 <= j < |s| ensures InOrder(e, s[j]) {
        if j > 0 {
          assert InOrder(s[0], s[j]);
          InOrderThrough(e, s[0], s[j]);
        }
      }
      hide InOrder;
    } else {
      LessIsTotal(Key(e), Key(s[0]));
      assert InOrder(s[0], e);
      hide InOrder;
      InsertIsSorted(e, s[1..]);
      assert s == [s[0]] + s[1..] && r == [s[0]] + Insert(e, s[1..]);
      FirstStays(s, e, r[1..]);
      hide Insert, Sorted;
      SortedFrom(s[0], r[1..]);
    }
  }

  /** What belongs before every entry of a sorted list makes it a longer sorted list. */
  lemma SortedFrom(e: TreeEntry, s: seq<TreeEntry>)
    requires Sorted(s) && forall f | f in s :: InOrder(e, f)
    ensures Sorted([e] + s)
  {
    hide InOrder;
  }

  lemma FirstStays(s: seq<TreeEntry>, e: TreeEntry, r: seq<TreeEntry>)
    requires s != [] && Sorted(s) && InOrder(s[0], e) && multiset(r) == multiset{e} + multiset(s[1..])
    ensures forall f | f in r :: InOrder(s[0], f)
  {
    hide InOrder;
    forall f | f in r ensures InOrder(s[0], f) {
      assert f in multiset(r);
      assert f == e || f in s[1..];
    }
  }

  /** A sort; callers rely on nothing but order and contents, since Go's is not stable. */
  method Sort(entries: seq<TreeEntry>) returns (sorted: seq<TreeEntry>)
    ensures Sorted(sorted) && multiset(sorted) == multiset(entries)
  {
    sorted := [];
    for i := 0 to |entries|
      invariant Sorted(sorted) && multiset(sorted) == multiset(entries[..i])
    {
      InsertIsSorted(entries[i], sorted);
      assert entries[..i + 1] == entries[..i] + [entries[i]];
      sorted := Insert(entries[i], sorted);
    }
    assert entries[..|entries|] == entries;
  }

  lemma {:induction false} TreeTextAppends(s: seq<TreeEntry>, e: TreeEntry)
    ensures TreeText(s + [e]) == TreeText(s) + Record(e) + [NUL]
  {
    hide Record;
    if s == [] {
      assert s + [e] == [e] && [e][1..] == [];
    } else {
      TreeTextAppends(s[1..], e);
      var t := s + [e];
      assert t[0] == s[0] && t[1..] == s[1..] + [e];
      assert TreeText(t) == Record(s[0]) + [NUL] + TreeText(t[1..]);
    }
  }

  /** The printing loop of WriteTree. */
  method Print(entries: seq<TreeEntry>) returns (text: string)
    ensures text == TreeText(entries)
  {
    text := "";
    for i := 0 to |entries|
      invariant text == TreeText(entries[..i])
    {
      TreeTextAppends(entries[..i], entries[i]);
      assert entries[..i + 1] == entries[..i] + [entries[i]];
      text := text + Record(entries[i]) + [NUL];
    }
    assert entries[..|entries|] == entries;
  }

  /** A directory and another entry whose name is the directory's with a slash at the end. */
  predicate HasTie(s: seq<TreeEntry>) {
    exists i, j | 0 <= i < |s| && 0 <= j < |s| :: Tie(s[i], s[j])
  }

  predicate Tie(e: TreeEntry, f: TreeEntry) {
    IsTreeMode(e.mode) && !IsTreeMode(f.mode) && f.path == e.path + "/"
  }

  predicate KeysDiffer(s: seq<TreeEntry>) {
    forall i, j | 0 <= i < j < |s| :: Key(s[i]) != Key(s[j])
  }

  lemma EqualKeys(e: TreeEntry, f: TreeEntry)
    requires e.path != f.path
    ensures Key(e) == Key(f) <==> Tie(e, f) || Tie(f, e)
  {
    if IsTreeMode(e.mode) && IsTreeMode(f.mode) {
      assert Key(e)[..|Key(e)| - 1] == e.path && Key(f)[..|Key(f)| - 1] == f.path;
    }
  }

  lemma KeysDifferExactly(s: seq<TreeEntry>)
    requires Distinct(s)
    ensures KeysDiffer(s) <==> !HasTie(s)
  {
    forall i, j | 0 <= i < j < |s| ensures Key(s[i]) == Key(s[j]) <==> Tie(s[i], s[j]) || Tie(s[j], s[i]) {
      EqualKeys(s[i], s[j]);
    }
    hide Key;
    if HasTie(s) {
      var i, j :| 0 <= i < |s| && 0 <= j < |s| && Tie(s[i], s[j]);
      assert Key(s[if i < j then i else j]) == Key(s[if i < j then j else i]);
    }
  }

  lemma SlashFreeHasNoTie(s: seq<TreeEntry>)
    requires SlashFree(s)
    ensures !HasTie(s)
  {
    forall i, j | 0 <= i < |s| && 0 <= j < |s| ensures !Tie(s[i], s[j]) {
      var name := s[i].path + "/";
      assert name[|s[i].path|] == '/';
    }
  }

  lemma SameFirst(a: seq<TreeEntry>, b: seq<TreeEntry>)
    requires Sorted(a) && Sorted(b) && multiset(a) == multiset(b) && a != [] && b != []
    requires KeysDiffer(a)
    ensures a[0] == b[0]
  {
    assert a[0] in multiset(b) && b[0] in multiset(a);
    var i :| 0 <= i < |a| && a[i] == b[0];
    var j :| 0 <= j < |b| && b[j] == a[0];
    if i > 0 && j > 0 {
      assert InOrder(a[0], a[i]) && InOrder(b[0], b[j]);
      LessIsTotal(Key(a[0]), Key(b[0]));
      assert false;
    }
  }

  /** For entries without a tie there is only one sorted order. */
  lemma {:induction false} SortedOrderIsUnique(a: seq<TreeEntry>, b: seq<TreeEntry>)
    requires Sorted(a) && Sorted(b) && multiset(a) == multiset(b)
    requires KeysDiffer(a)
    ensures a == b
  {
    assert |multiset(a)| == |a| && |multiset(b)| == |b|;
    if a != [] {
      SameFirst(a, b);
      WithoutFirst(a);
      WithoutFirst(b);
      hide Sorted, KeysDiffer;
      assert a == [a[0]] + a[1..] && b == [b[0]] + b[1..];
      SortedOrderIsUnique(a[1..], b[1..]);
    }
  }

  lemma WithoutFirst(a: seq<TreeEntry>)
    requires a != []
    ensures multiset(a[1..]) == multiset(a) - multiset{a[0]}
    ensures Sorted(a) ==> Sorted(a[1..])
    ensures KeysDiffer(a) ==> KeysDiffer(a[1..])
  {
    assert a == [a[0]] + a[1..];
    hide InOrder, Key;
  }

  predicate SortOf(a: seq<TreeEntry>, entries: seq<TreeEntry>) {
    Sorted(a) && multiset(a) == multiset(entries)
  }

  /** Whatever the sort does with the input order, the same bytes are sent. */
  ghost predicate OneText(entries: seq<TreeEntry>) {
    forall a, b | SortOf(a, entries) && SortOf(b, entries) :: TreeText(a) == TreeText(b)
  }

  lemma {:induction false} SortExists(entries: seq<TreeEntry>) returns (a: seq<TreeEntry>)
    ensures SortOf(a, entries)
  {
    if entries == [] {
      a := [];
    } else {
      var rest := SortExists(entries[1..]);
      a := Insert(entries[0], rest);
      InsertIsSorted(entries[0], rest);
      assert entries == [entries[0]] + entries[1..];
    }
  }

  function Swapped(a: seq<TreeEntry>, k: nat): (b: seq<TreeEntry>)
    requires k + 1 < |a|
    ensures multiset(b) == multiset(a)
  {
    a[k := a[k + 1]][k + 1 := a[k]]
  }

  /** Neighbours with one key may stand in either order. */
  lemma SwappedIsSorted(a: seq<TreeEntry>, k: nat)
    requires Sorted(a) && k + 1 < |a| && Key(a[k]) == Key(a[k + 1])
    ensures Sorted(Swapped(a, k))
  {
    var b := Swapped(a, k);
    forall i, j | 0 <= i < j < |b| ensures InOrder(b[i], b[j]) {
      var i', j' := if i == k + 1 then k else i, if j == k then k + 1 else j;
      assert Key(b[i]) == Key(a[i']) && Key(b[j]) == Key(a[j']);
      assert InOrder(a[i'], a[j']);
    }
  }

  /** In a sorted list equal keys stand together. */
  lemma TiedNeighbours(a: seq<TreeEntry>) returns (k: nat)
    requires Sorted(a) && !KeysDiffer(a)
    ensures k + 1 < |a| && Key(a[k]) == Key(a[k + 1])
  {
    var i, j :| 0 <= i < j < |a| && Key(a[i]) == Key(a[j]);
    k := i;
    if i + 1 < j {
      assert InOrder(a[i], a[i + 1]) && InOrder(a[i + 1], a[j]);
      LessIsTotal(Key(a[i]), Key(a[i + 1]));
    }
  }

  /** Exactly when the bytes sent to Git do not depend on the order in which the entries came. */
  lemma BytesIgnoreInputOrder(entries: seq<TreeEntry>, hash: nat)
    requires Distinct(entries) && AllValid(entries, hash)
    ensures OneText(entries) <==> !HasTie(entries)
  {
    if HasTie(entries) {
      TiesShow(entries, hash);
    } else {
      forall a, b | SortOf(a, entries) && SortOf(b, entries) ensures TreeText(a) == TreeText(b) {
        PermutationIsDistinct(entries, a);
        KeysDifferExactly(a);
        SortedOrderIsUnique(a, b);
      }
    }
  }

  /** Ordinary names, without a slash: WriteTree sends one text, whatever the order of its input. */
  lemma SlashFreeHasOneText(entries: seq<TreeEntry>, hash: nat)
    requires Distinct(entries) && AllValid(entries, hash) && SlashFree(entries)
    ensures OneText(entries)
  {
    SlashFreeHasNoTie(entries);
    BytesIgnoreInputOrder(entries, hash);
  }

  /** A tie always shows: two sorted orders with different bytes. */
  lemma TiesShow(entries: seq<TreeEntry>, hash: nat)
    requires Distinct(entries) && AllValid(entries, hash) && HasTie(entries)
    ensures !OneText(entries)
  {
    var a := SortExists(entries);
    PermutationIsDistinct(entries, a);
    PermutationIsDistinct(a, entries);
    KeysDifferExactly(a);
    var k := TiedNeighbours(a);
    var b := Swapped(a, k);
    SwappedIsSorted(a, k);
    WrittenTreeReadsBack(entries, a, hash);
    WrittenTreeReadsBack(entries, b, hash);
    assert a[k] != a[k + 1] && b[k] == a[k + 1];
    assert SortOf(a, entries) && SortOf(b, entries);
  }

  lemma CountedTwice(t: seq<TreeEntry>, m: nat, n: nat)
    requires m < n < |t| && t[m] == t[n]
    ensures multiset(t)[t[m]] >= 2
  {
    assert t == t[..m] + [t[m]] + (t[m + 1..n] + [t[n]] + t[n + 1..]);
  }

  lemma CountedOnce(s: seq<TreeEntry>, i: nat)
    requires Distinct(s) && i < |s|
    ensures multiset(s)[s[i]] == 1
  {
    assert s == s[..i] + [s[i]] + s[i + 1..];
    assert s[i] !in s[..i] && s[i] !in s[i + 1..];
  }

  lemma PermutationIsDistinct(s: seq<TreeEntry>, t: seq<TreeEntry>)
    requires multiset(s) == multiset(t)
    ensures SlashFree(s) ==> SlashFree(t)
    ensures Distinct(s) ==> Distinct(t)
    ensures HasTie(t) ==> HasTie(s)
  {
    forall j | 0 <= j < |t| ensures t[j] in s {
      assert t[j] in multiset(t);
    }
    if HasTie(t) {
      var i, j :| 0 <= i < |t| && 0 <= j < |t| && Tie(t[i], t[j]);
      var i' :| 0 <= i' < |s| && s[i'] == t[i];
      var j' :| 0 <= j' < |s| && s[j'] == t[j];
      assert Tie(s[i'], s[j']);
    }
    if Distinct(s) {
      forall m, n | 0 <= m < n < |t| ensures t[m].path != t[n].path {
        if t[m].path == t[n].path {
          var i :| 0 <= i < |s| && s[i] == t[m];
          var j :| 0 <= j < |s| && s[j] == t[n];
          assert i == j;
          CountedTwice(t, m, n);
          CountedOnce(s, i);
          assert false;
        }
      }
    }
  }

  /** Such a tie passes the path check, which lets a trailing slash through: here are two sorted
      orders with different bytes. */
  lemma TrailingSlashTies(id: ObjectId)
    ensures var (d, f) := (TreeEntry("040000", id, "a"), TreeEntry("100644", id, "a/"));
      && Sorted([d, f]) && Sorted([f, d]) && Distinct([d, f]) && TreeText([d, f]) != TreeText([f, d])
      && ValidTreePath(d.path) && ValidTreePath(f.path)
  {
    var d, f := TreeEntry("040000", id, "a"), TreeEntry("100644", id, "a/");
    LessIsTotal("a/", "a/");
    assert Key(d) == "a/" == Key(f);
    assert Record(d)[0] == '0' && Record(f)[0] == '1';
    assert TreeText([d, f])[0] == '0' && TreeText([f, d])[0] == '1';
    SplitWhole("", '/');
    SplitWhole("a", '/');
    SplitHead("a", "", '/');
    assert "a" + ['/'] + "" == "a/";
  }

  /** What ReadTree's parser makes of WriteTree's bytes: the entries in Git's order. */
  lemma WrittenTreeReadsBack(entries: seq<TreeEntry>, sorted: seq<TreeEntry>, hash: nat)
    requires AllValid(entries, hash) && Sorted(sorted) && multiset(sorted) == multiset(entries)
    ensures ParseTreeText(TreeText(sorted), hash) == Some(sorted)
  {
    forall i | 0 <= i < |sorted| ensures Printable(sorted[i], hash) {
      assert sorted[i] in multiset(entries);
      ValidIsPrintable(sorted[i], hash);
    }
    TreeTextRoundTrip(sorted, hash);
  }
}
