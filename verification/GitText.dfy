/** Splitting and joining of byte strings, as Go's bytes and strings packages do it. */
module GitText {
  import opened Results

  function Split(s: string, sep: char): (parts: seq<string>)
    ensures |parts| > 0
  {
    if s == "" then [""]
    else
      var rest := Split(s[1..], sep);
      if s[0] == sep then [""] + rest else [[s[0]] + rest[0]] + rest[1..]
  }

  function Join(parts: seq<string>, sep: char): string
    requires |parts| > 0
    decreases |parts|
  {
    if |parts| == 1 then parts[0] else parts[0] + [sep] + Join(parts[1..], sep)
  }

  predicate AllFree(parts: seq<string>, sep: char) {
    forall i | 0 <= i < |parts| :: sep !in parts[i]
  }

  lemma {:induction false} SplitWhole(a: string, sep: char)
    requires sep !in a
    ensures Split(a, sep) == [a]
  {
    if a != "" {
      SplitWhole(a[1..], sep);
      assert [a[0]] + a[1..] == a;
    }
  }

  lemma {:induction false} SplitHead(a: string, s: string, sep: char)
    requires sep !in a
    ensures Split(a + [sep] + s, sep) == [a] + Split(s, sep)
    decreases |a|
  {
    var whole := a + [sep] + s;
    if a == "" {
      assert whole[1..] == s;
    } else {
      SplitHead(a[1..], s, sep);
      assert whole[1..] == a[1..] + [sep] + s;
      assert [a[0]] + a[1..] == a;
    }
  }

  /** Splitting undoes joining. */
  lemma {:induction false} SplitJoin(parts: seq<string>, sep: char)
    requires |parts| > 0 && AllFree(parts, sep)
    ensures Split(Join(parts, sep), sep) == parts
    decreases |parts|
  {
    SplitWhole(parts[0], sep);
    if |parts| > 1 {
      SplitJoin(parts[1..], sep);
      SplitHead(parts[0], Join(parts[1..], sep), sep);
    }
  }

  /** Joining undoes splitting, and no part holds the separator. */
  lemma {:induction false} JoinSplit(s: string, sep: char)
    ensures Join(Split(s, sep), sep) == s && AllFree(Split(s, sep), sep)
  {
    if s != "" {
      JoinSplit(s[1..], sep);
      var rest := Split(s[1..], sep);
      if s[0] == sep {
        assert ([""] + rest)[1..] == rest;
        assert s == [sep] + s[1..];
      } else {
        var parts := [[s[0]] + rest[0]] + rest[1..];
        assert parts[1..] == rest[1..];
        assert s == [s[0]] + s[1..];
      }
    }
  }

  /** Names without the separator can be told apart again after joining. */
  lemma JoinInjective(a: seq<string>, b: seq<string>, sep: char)
    requires |a| > 0 && |b| > 0 && AllFree(a, sep) && AllFree(b, sep)
    ensures Join(a, sep) == Join(b, sep) <==> a == b
  {
    SplitJoin(a, sep);
    SplitJoin(b, sep);
  }

  /** The text before and after the first occurrence of `sep`. */
  function Cut(s: string, sep: string): Option<(string, string)> {
    if sep <= s then Some(("", s[|sep|..]))
    else if s == "" then None
    else match Cut(s[1..], sep)
      case None => None
      case Some((a, b)) => Some(([s[0]] + a, b))
  }

  predicate FirstOccurrence(a: string, sep: string) {
    forall i | 0 <= i < |a| :: !(sep <= (a + sep)[i..])
  }

  lemma {:induction false} CutAt(a: string, sep: string, b: string)
    requires sep != "" && FirstOccurrence(a, sep)
    ensures Cut(a + sep + b, sep) == Some((a, b))
    decreases |a|
  {
    var s := a + sep + b;
    if a == "" {
      assert s[..|sep|] == sep && s[|sep|..] == b;
    } else {
      assert (a + sep)[0..][..|sep|] == s[..|sep|];
      forall i | 0 <= i < |a[1..]| ensures !(sep <= (a[1..] + sep)[i..]) {
        assert (a[1..] + sep)[i..] == (a + sep)[i + 1..];
      }
      CutAt(a[1..], sep, b);
      assert s[1..] == a[1..] + sep + b;
      assert [a[0]] + a[1..] == a;
    }
  }

  lemma CutAtChar(a: string, sep: char, b: string)
    requires sep !in a
    ensures Cut(a + [sep] + b, [sep]) == Some((a, b))
  {
    forall i | 0 <= i < |a| ensures !([sep] <= (a + [sep])[i..]) {
      assert (a + [sep])[i..][0] == a[i];
    }
    CutAt(a, [sep], b);
  }
}
