/**
 Trees in a content-addressed object store, and what they denote: finite nested
 directories, whatever the order of their entries. Objects are never changed, only added.
 */
module GitTrees {
  import opened Results
  import opened GitText
  import opened GitFormats
  import opened GitOrder

  datatype Object =
    | Blob(content: string)
    | Tree(entries: seq<TreeEntry>)
    | CommitObject(text: string)

  type Objects = map<ObjectId, Object>

  datatype Node =
    | Leaf(mode: string, id: ObjectId)
    | Dir(children: map<string, Node>)

  /** A listing as git ls-tree gives it: unique names, neither empty nor holding a slash,
      and one spelling of the directory mode. */
  predicate WellFormed(entries: seq<TreeEntry>, hash: nat) {
    && Distinct(entries) && SlashFree(entries)
    && forall i | 0 <= i < |entries| :: WellFormedEntry(entries[i], hash)
  }

  predicate WellFormedEntry(e: TreeEntry, hash: nat) {
    Printable(e, hash) && e.path != "" && (IsTreeMode(e.mode) ==> e.mode == "040000")
  }

  function Names(entries: seq<TreeEntry>): set<string> {
    set i | 0 <= i < |entries| :: entries[i].path
  }

  ghost predicate Denotes(objects: Objects, hash: nat, id: ObjectId, node: Node)
    decreases node, 1
  {
    id in objects && objects[id].Tree? && node.Dir? && Lists(objects, hash, objects[id].entries, node)
  }

  ghost predicate Lists(objects: Objects, hash: nat, entries: seq<TreeEntry>, node: Node)
    requires node.Dir?
    decreases node, 0
  {
    && WellFormed(entries, hash)
    && node.children.Keys == Names(entries)
    && forall i | 0 <= i < |entries| ::
         entries[i].path in node.children && EntryDenotes(objects, hash, entries[i], node.children[entries[i].path])
  }

  ghost predicate EntryDenotes(objects: Objects, hash: nat, e: TreeEntry, child: Node)
    decreases child, 2
  {
    if IsTreeMode(e.mode) then Denotes(objects, hash, e.id, child) else child == Leaf(e.mode, e.id)
  }

  ghost predicate Grows(objects: Objects, objects': Objects) {
    forall id | id in objects :: id in objects' && objects'[id] == objects[id]
  }

  lemma {:induction false} DenotesIsStable(objects: Objects, objects': Objects, hash: nat, id: ObjectId, node: Node)
    requires Denotes(objects, hash, id, node) && Grows(objects, objects')
    ensures Denotes(objects', hash, id, node)
    decreases node
  {
    var entries := objects[id].entries;
    forall i | 0 <= i < |entries| ensures EntryDenotes(objects', hash, entries[i], node.children[entries[i].path]) {
      assert EntryDenotes(objects, hash, entries[i], node.children[entries[i].path]);
      if IsTreeMode(entries[i].mode) {
        DenotesIsStable(objects, objects', hash, entries[i].id, node.children[entries[i].path]);
      }
    }
  }

  lemma EntryIsStable(objects: Objects, objects': Objects, hash: nat, e: TreeEntry, child: Node)
    requires EntryDenotes(objects, hash, e, child) && Grows(objects, objects')
    ensures EntryDenotes(objects', hash, e, child)
  {
    if IsTreeMode(e.mode) {
      DenotesIsStable(objects, objects', hash, e.id, child);
    }
  }

  /** A tree denotes one directory only. */
  lemma {:induction false} DenotesIsUnique(objects: Objects, hash: nat, id: ObjectId, a: Node, b: Node)
    requires Denotes(objects, hash, id, a) && Denotes(objects, hash, id, b)
    ensures a == b
    decreases a
  {
    var entries := objects[id].entries;
    forall n | n in a.children ensures a.children[n] == b.children[n] {
      var i :| 0 <= i < |entries| && entries[i].path == n;
      assert EntryDenotes(objects, hash, entries[i], a.children[n]);
      assert EntryDenotes(objects, hash, entries[i], b.children[n]);
      if IsTreeMode(entries[i].mode) {
        DenotesIsUnique(objects, hash, entries[i].id, a.children[n], b.children[n]);
      }
    }
  }

  /** The order of a listing does not matter. */
  lemma PermutedListing(objects: Objects, hash: nat, entries: seq<TreeEntry>, sorted: seq<TreeEntry>, node: Node)
    requires node.Dir? && Lists(objects, hash, entries, node) && multiset(sorted) == multiset(entries)
    ensures Lists(objects, hash, sorted, node)
  {
    PermutationIsDistinct(entries, sorted);
    hide EntryDenotes, WellFormedEntry, Distinct, SlashFree;
    forall i | 0 <= i < |sorted| ensures sorted[i] in entries {
      assert sorted[i] in multiset(sorted);
    }
    forall i | 0 <= i < |entries| ensures entries[i] in sorted {
      assert entries[i] in multiset(entries);
    }
    assert Names(sorted) == Names(entries);
  }

  /** One entry changed in place, its name kept. */
  lemma UpdatedListing(objects: Objects, hash: nat, entries: seq<TreeEntry>, node: Node, k: nat, e: TreeEntry,
                       child: Node)
    requires node.Dir? && Lists(objects, hash, entries, node) && k < |entries| && e.path == entries[k].path
    requires WellFormedEntry(e, hash) && EntryDenotes(objects, hash, e, child)
    ensures Lists(objects, hash, entries[k := e], Dir(node.children[e.path := child]))
  {
    var entries', node' := entries[k := e], Dir(node.children[e.path := child]);
    assert forall i | 0 <= i < |entries| :: entries'[i].path == entries[i].path;
    hide EntryDenotes, WellFormedEntry;
    assert Names(entries') == Names(entries);
    assert e.path in Names(entries);
    forall i | 0 <= i < |entries'|
      ensures entries'[i].path in node'.children
              && EntryDenotes(objects, hash, entries'[i], node'.children[entries'[i].path])
    {
      if i != k {
        assert entries[i].path != e.path;
      }
    }
  }

  // ---- Paths ----

  /** What is at a path given by its components. */
  function Lookup(node: Node, components: seq<string>): Option<Node>
    requires |components| > 0
    decreases |components|
  {
    if node.Leaf? || components[0] !in node.children then None
    else
      var child := node.children[components[0]];
      if |components| == 1 then Some(child) else Lookup(child, components[1..])
  }

  function LookupLeaf(node: Node, components: seq<string>): Option<Node>
    requires |components| > 0
  {
    var found := Lookup(node, components);
    if found.Some? && found.value.Leaf? then found else None
  }

  function Replace(node: Node, components: seq<string>, leaf: Node): Node
    requires |components| > 0 && Lookup(node, components).Some?
    decreases |components|
  {
    var name := components[0];
    Dir(node.children[name := if |components| == 1 then leaf
                              else Replace(node.children[name], components[1..], leaf)])
  }

  /** Exactly one leaf changes, at any depth. */
  lemma {:induction false} ReplaceIsExact(node: Node, components: seq<string>, leaf: Node, other: seq<string>)
    requires |components| > 0 && |other| > 0 && LookupLeaf(node, components).Some? && leaf.Leaf?
    ensures LookupLeaf(Replace(node, components, leaf), other) ==
              if other == components then Some(leaf) else LookupLeaf(node, other)
    decreases |components|
  {
    var name := components[0];
    var child, node' := node.children[name], Replace(node, components, leaf);
    if |components| > 1 {
      assert node'.children == node.children[name := Replace(child, components[1..], leaf)];
      assert components == [name] + components[1..];
      assert Lookup(node, components) == Lookup(child, components[1..]) && child.Dir?;
      if other[0] == name && |other| > 1 {
        ReplaceIsExact(child, components[1..], leaf, other[1..]);
        assert other == [name] + other[1..];
      }
    } else {
      assert node'.children == node.children[name := leaf];
      assert components == [name];
      if other[0] == name && |other| > 1 {
        assert Lookup(child, other[1..]) == None == Lookup(leaf, other[1..]);
      } else if other[0] == name {
        assert other == components;
      }
    }
  }

  // ---- The flattened index ----

  function FullPath(prefix: string, name: string): string {
    if prefix == "" then name else prefix + "/" + name
  }

  /** The rest of `path` below `prefix`; the empty prefix is the root. */
  function Under(prefix: string, path: string): Option<string> {
    if prefix == "" then Some(path)
    else if prefix + "/" <= path then Some(path[|prefix| + 1..])
    else None
  }

  function Indexed(node: Node, prefix: string, path: string): Option<TreeEntry> {
    match Under(prefix, path)
    case None => None
    case Some(rest) =>
      match LookupLeaf(node, Split(rest, '/'))
      case None => None
      case Some(leaf) => if leaf.Leaf? then Some(TreeEntry(leaf.mode, leaf.id, path)) else None
  }

  /** `flat` holds exactly the leaves below `node`, by their full paths. */
  ghost predicate IsIndex(flat: map<string, TreeEntry>, node: Node, prefix: string) {
    forall path :: if path in flat then Indexed(node, prefix, path) == Some(flat[path])
                   else Indexed(node, prefix, path) == None
  }

  lemma SplitAtName(q: string, name: string)
    requires '/' !in name
    ensures name + "/" <= q ==> Split(q, '/') == [name] + Split(q[|name| + 1..], '/')
    ensures q == name ==> Split(q, '/') == [name]
    ensures Split(q, '/')[0] == name <==> q == name || name + "/" <= q
  {
    var parts := Split(q, '/');
    JoinSplit(q, '/');
    assert |parts| > 1 ==> q == parts[0] + "/" + Join(parts[1..], '/');
    if name + "/" <= q {
      SplitHead(name, q[|name| + 1..], '/');
      assert q == name + ['/'] + q[|name| + 1..];
    } else if q == name {
      SplitWhole(name, '/');
    }
  }

  lemma UnderName(prefix: string, name: string, path: string)
    requires name != ""
    ensures Under(FullPath(prefix, name), path).Some? <==>
              Under(prefix, path).Some? && name + "/" <= Under(prefix, path).value
    ensures Under(FullPath(prefix, name), path).Some? ==>
              Under(FullPath(prefix, name), path).value == Under(prefix, path).value[|name| + 1..]
    ensures path == FullPath(prefix, name) <==> Under(prefix, path) == Some(name)
  {
    if prefix != "" {
      var stem, full := prefix + "/", FullPath(prefix, name);
      assert full + "/" == stem + (name + "/");
      PrefixOfSum(stem, name + "/", path);
      PrefixOfSum(stem, name, path);
    }
  }

  lemma PrefixOfSum(a: string, b: string, s: string)
    ensures a + b <= s <==> a <= s && b <= s[|a|..]
    ensures a + b <= s ==> s[|a + b|..] == s[|a|..][|b|..]
    ensures a + b == s <==> a <= s && b == s[|a|..]
  {
    if a <= s {
      assert s == a + s[|a|..];
    }
    if a + b <= s {
      assert s[..|a|] == (a + b)[..|a|] == a;
      assert s[|a|..][..|b|] == (a + b)[|a|..] == b;
    }
  }

  lemma LookupOneMore(children: map<string, Node>, name: string, child: Node, parts: seq<string>)
    requires name !in children && |parts| > 0
    ensures LookupLeaf(Dir(children[name := child]), parts) ==
              if parts[0] != name then LookupLeaf(Dir(children), parts)
              else if |parts| > 1 then LookupLeaf(child, parts[1..])
              else if child.Leaf? then Some(child)
              else None
    ensures parts[0] == name ==> LookupLeaf(Dir(children), parts) == None
  {
  }

  /** The effect on the index of one more entry. */
  lemma IndexOneMore(children: map<string, Node>, prefix: string, name: string, child: Node, path: string)
    requires name !in children && name != "" && '/' !in name
    ensures Indexed(Dir(children[name := child]), prefix, path) ==
              if child.Leaf? && path == FullPath(prefix, name) then Some(TreeEntry(child.mode, child.id, path))
              else if child.Dir? && Under(FullPath(prefix, name), path).Some?
              then Indexed(child, FullPath(prefix, name), path)
              else Indexed(Dir(children), prefix, path)
    ensures path == FullPath(prefix, name) || Under(FullPath(prefix, name), path).Some? ==>
              Indexed(Dir(children), prefix, path) == None
  {
    UnderName(prefix, name, path);
    if Under(prefix, path).Some? {
      var q := Under(prefix, path).value;
      SplitAtName(q, name);
      LookupOneMore(children, name, child, Split(q, '/'));
    }
    hide Split, FullPath, Under, Lookup;
  }

  /** An index is determined by what it indexes, and a replacement changes it at one path only. */
  lemma IndexAfterReplace(flat: map<string, TreeEntry>, flat': map<string, TreeEntry>,
                          node: Node, path: string, leaf: Node)
    requires LookupLeaf(node, Split(path, '/')).Some? && leaf.Leaf?
    requires IsIndex(flat, node, "") && IsIndex(flat', Replace(node, Split(path, '/'), leaf), "")
    ensures path in flat && flat' == flat[path := TreeEntry(leaf.mode, leaf.id, path)]
  {
    var node', e := Replace(node, Split(path, '/'), leaf), TreeEntry(leaf.mode, leaf.id, path);
    IndexedAfterReplace(node, path, leaf, path);
    forall p ensures Indexed(node', "", p) == if p == path then Some(e) else Indexed(node, "", p) {
      IndexedAfterReplace(node, path, leaf, p);
    }
    hide *;
    IndexUpdated(flat, flat', node, node', path, e);
  }

  lemma IndexUpdated(flat: map<string, TreeEntry>, flat': map<string, TreeEntry>,
                     node: Node, node': Node, path: string, e: TreeEntry)
    requires IsIndex(flat, node, "") && IsIndex(flat', node', "") && Indexed(node, "", path).Some?
    requires forall p :: Indexed(node', "", p) == if p == path then Some(e) else Indexed(node, "", p)
    ensures path in flat && flat' == flat[path := e]
  {
    hide Indexed;
    assert path in flat;
    forall p ensures p in flat' <==> p in flat[path := e] {
      assert Indexed(node', "", p) == if p == path then Some(e) else Indexed(node, "", p);
    }
    forall p | p in flat' ensures flat'[p] == flat[path := e][p] {
      assert Indexed(node', "", p) == if p == path then Some(e) else Indexed(node, "", p);
    }
  }

  lemma IndexedAfterReplace(node: Node, path: string, leaf: Node, p: string)
    requires LookupLeaf(node, Split(path, '/')).Some? && leaf.Leaf?
    ensures Indexed(Replace(node, Split(path, '/'), leaf), "", p) ==
              if p == path then Some(TreeEntry(leaf.mode, leaf.id, path)) else Indexed(node, "", p)
    ensures Indexed(node, "", path).Some?
  {
    ReplaceIsExact(node, Split(path, '/'), leaf, Split(p, '/'));
    JoinSplit(p, '/');
    JoinSplit(path, '/');
    hide Split, Join, Replace, Lookup;
  }

  lemma IndexWithLeaf(flat: map<string, TreeEntry>, children: map<string, Node>, prefix: string, name: string,
                      leaf: Node)
    requires IsIndex(flat, Dir(children), prefix) && leaf.Leaf?
    requires name !in children && name != "" && '/' !in name
    ensures var path := FullPath(prefix, name);
      IsIndex(flat[path := TreeEntry(leaf.mode, leaf.id, path)], Dir(children[name := leaf]), prefix)
  {
    hide Indexed, FullPath, Under;
    forall path {
      IndexOneMore(children, prefix, name, leaf, path);
    }
  }

  lemma IndexWithDir(flat: map<string, TreeEntry>, nested: map<string, TreeEntry>, children: map<string, Node>,
                     prefix: string, name: string, child: Node)
    requires IsIndex(flat, Dir(children), prefix) && child.Dir? && IsIndex(nested, child, FullPath(prefix, name))
    requires name !in children && name != "" && '/' !in name
    ensures IsIndex(flat + nested, Dir(children[name := child]), prefix)
  {
    forall path
      ensures Under(FullPath(prefix, name), path).None? ==> Indexed(child, FullPath(prefix, name), path).None?
    {
    }
    hide Indexed, FullPath, Under;
    forall path {
      IndexOneMore(children, prefix, name, child, path);
    }
  }
}
