/**
 The prefix index over pinyin keys (`_build_prefix_trie`, `_prefix_matches`,
 pkg/chars_matcher/pinyin_chars_matcher.py): a tree of mutable nodes, and the plain
 definition its lookups must agree with.
 */
module PinyinTrie {

  /** The keys that have this prefix, in order. */
  function WithPrefix(keys: seq<string>, prefix: string): (r: seq<string>)
    ensures |r| <= |keys|
  {
    if keys == [] then []
    else WithPrefix(keys[..|keys| - 1], prefix) + (if prefix <= keys[|keys| - 1] then [keys[|keys| - 1]] else [])
  }

  lemma {:induction false} WithPrefixElements(keys: seq<string>, prefix: string)
    ensures forall key :: key in WithPrefix(keys, prefix) <==> key in keys && prefix <= key
  {
    if keys != [] {
      WithPrefixElements(keys[..|keys| - 1], prefix);
      assert forall key :: key in keys <==> key in keys[..|keys| - 1] || key == keys[|keys| - 1];
    }
  }

  lemma WithPrefixAppend(keys: seq<string>, key: string, prefix: string)
    ensures WithPrefix(keys + [key], prefix) == WithPrefix(keys, prefix) + (if prefix <= key then [key] else [])
  {
    assert (keys + [key])[..|keys|] == keys;
  }

  lemma {:induction false} NoneHavePrefix(keys: seq<string>, prefix: string)
    requires forall k :: 0 <= k < |keys| ==> !(prefix <= keys[k])
    ensures WithPrefix(keys, prefix) == []
  {
    if keys != [] {
      NoneHavePrefix(keys[..|keys| - 1], prefix);
    }
  }

  // ---------- paths ----------

  /** A way down the tree, one character at a time. */
  datatype Path = Root | Down(parent: Path, c: char)

  function Text(p: Path): string {
    match p
    case Root => ""
    case Down(parent, c) => Text(parent) + [c]
  }

  function PathOf(text: string): (p: Path) {
    if text == "" then Root else Down(PathOf(text[..|text| - 1]), text[|text| - 1])
  }

  lemma {:induction false} TextOfPath(text: string)
    ensures Text(PathOf(text)) == text
  {
    if text != "" {
      TextOfPath(text[..|text| - 1]);
    }
  }

  lemma {:induction false} PathOfText(p: Path)
    ensures PathOf(Text(p)) == p
  {
    if p.Down? {
      PathOfText(p.parent);
      assert Text(p)[..|Text(p)| - 1] == Text(p.parent);
    }
  }

  /** The path reaches one of the first `depth + 1` nodes on the way to `key`. */
  predicate Reaches(p: Path, key: string, depth: int) {
    Text(p) <= key && |Text(p)| <= depth
  }

  lemma ReachesNext(p: Path, key: string, depth: nat)
    requires depth < |key|
    ensures Reaches(p, key, depth + 1) <==> Reaches(p, key, depth) || p == PathOf(key[..depth + 1])
    ensures !Reaches(PathOf(key[..depth + 1]), key, depth)
    ensures PathOf(key[..depth + 1]) == Down(PathOf(key[..depth]), key[depth])
  {
    TextOfPath(key[..depth + 1]);
    PathOfText(p);
    assert key[..depth + 1][..depth] == key[..depth];
    if Reaches(p, key, depth + 1) && !Reaches(p, key, depth) {
      assert Text(p) == key[..depth + 1];
    }
  }

  // ---------- the tree ----------

  class TrieNode {
    var children: map<char, TrieNode>
    var prefixedKeys: seq<string>

    constructor ()
      ensures children == map[] && prefixedKeys == []
    {
      children, prefixedKeys := map[], [];
    }
  }

  /** The nodes of a tree, each under the path that leads to it. */
  type Nodes = map<Path, TrieNode>

  type Links = map<Path, map<char, TrieNode>>

  type Lists = map<Path, seq<string>>

  ghost function Objects(nodes: Nodes): set<TrieNode> {
    set path | path in nodes :: nodes[path]
  }

  /** The children and the keys of every node, as they are now. */
  ghost function LinksOf(nodes: Nodes): Links
    reads Objects(nodes)
  {
    map p | p in nodes :: nodes[p].children
  }

  ghost function ListsOf(nodes: Nodes): Lists
    reads Objects(nodes)
  {
    map p | p in nodes :: nodes[p].prefixedKeys
  }

  /** Different paths lead to different nodes. */
  ghost predicate Injective(nodes: Nodes) {
    forall p, q :: p in nodes && q in nodes && p != q ==> nodes[p] != nodes[q]
  }

  /** The children of a node are exactly the paths one longer. */
  ghost predicate TreeOf(nodes: Nodes, links: Links) {
    && links.Keys == nodes.Keys
    && Root in nodes
    && (forall q {:trigger IsChild(nodes, links, q)} :: q in nodes ==> IsChild(nodes, links, q))
    && (forall p {:trigger HasChildren(nodes, links, p)} :: p in nodes ==> HasChildren(nodes, links, p))
  }

  ghost predicate IsChild(nodes: Nodes, links: Links, q: Path)
    requires links.Keys == nodes.Keys && q in nodes
  {
    q.Down? ==> q.parent in nodes && q.c in links[q.parent] && links[q.parent][q.c] == nodes[q]
  }

  ghost predicate HasChildren(nodes: Nodes, links: Links, p: Path)
    requires links.Keys == nodes.Keys && p in nodes
  {
    forall c :: c in links[p] ==> Down(p, c) in nodes && links[p][c] == nodes[Down(p, c)]
  }

  /** What each node lists once `keys` are inserted and `key` is inserted down to `depth`. */
  ghost predicate ListsAt(lists: Lists, keys: seq<string>, key: string, depth: int) {
    forall p :: p in lists ==> lists[p] == WithPrefix(keys, Text(p)) + (if Reaches(p, key, depth) then [key] else [])
  }

  /** The path of every prefix of every key is in the tree. */
  ghost predicate Covers(nodes: Nodes, keys: seq<string>) {
    forall k, i :: 0 <= k < |keys| && 0 <= i <= |keys[k]| ==> PathOf(keys[k][..i]) in nodes
  }

  ghost predicate ListsAll(lists: Lists, keys: seq<string>) {
    forall p :: p in lists ==> lists[p] == WithPrefix(keys, Text(p))
  }

  /** Every node lists the keys below it, and no key lies outside the tree. */
  ghost predicate Indexes(nodes: Nodes, keys: seq<string>)
    reads Objects(nodes)
  {
    && Injective(nodes)
    && TreeOf(nodes, LinksOf(nodes))
    && Covers(nodes, keys)
    && ListsAll(ListsOf(nodes), keys)
  }

  /** `key` is being inserted, and its path is done down to `depth`. */
  ghost predicate Inserting(nodes: Nodes, keys: seq<string>, key: string, depth: int)
    reads Objects(nodes)
  {
    && Injective(nodes)
    && TreeOf(nodes, LinksOf(nodes))
    && Covers(nodes, keys)
    && (forall i :: 0 <= i <= depth && i <= |key| ==> PathOf(key[..i]) in nodes)
    && ListsAt(ListsOf(nodes), keys, key, depth)
  }

  lemma PrefixIsSlice(p: string, key: string)
    requires p <= key
    ensures p == key[..|p|]
  {
  }

  /** A path without a node is the prefix of no key. */
  lemma NoNodeNoKeys(nodes: Nodes, keys: seq<string>, p: Path)
    requires Covers(nodes, keys) && p !in nodes
    ensures WithPrefix(keys, Text(p)) == []
  {
    PathOfText(p);
    forall k | 0 <= k < |keys| && Text(p) <= keys[k] ensures false {
      PrefixIsSlice(Text(p), keys[k]);
    }
    NoneHavePrefix(keys, Text(p));
  }

  lemma ChildPath(nodes: Nodes, links: Links, p: Path, c: char)
    requires TreeOf(nodes, links) && p in nodes
    ensures c in links[p] <==> Down(p, c) in nodes
    ensures c in links[p] ==> links[p][c] == nodes[Down(p, c)]
  {
    assert HasChildren(nodes, links, p);
    assert Down(p, c) in nodes ==> IsChild(nodes, links, Down(p, c));
  }

  lemma GrownTree(nodes: Nodes, links: Links, p: Path, c: char, next: TrieNode)
    requires TreeOf(nodes, links) && p in nodes && c !in links[p]
    ensures TreeOf(nodes[Down(p, c) := next], links[p := links[p][c := next]][Down(p, c) := map[]])
  {
    var child := Down(p, c);
    ChildPath(nodes, links, p, c);
    var nodes', links' := nodes[child := next], links[p := links[p][c := next]][child := map[]];
    forall q | q in nodes' ensures IsChild(nodes', links', q) {
      assert q != child ==> IsChild(nodes, links, q);
    }
    forall q | q in nodes' ensures HasChildren(nodes', links', q) {
      assert q != child ==> HasChildren(nodes, links, q);
    }
  }

  lemma GrownLists(nodes: Nodes, lists: Lists, keys: seq<string>, key: string, depth: int, p: Path)
    requires ListsAt(lists, keys, key, depth) && Covers(nodes, keys) && p !in nodes && !Reaches(p, key, depth)
    ensures ListsAt(lists[p := []], keys, key, depth)
  {
    NoNodeNoKeys(nodes, keys, p);
  }

  lemma ExtendedLists(lists: Lists, keys: seq<string>, key: string, depth: nat)
    requires depth < |key| && ListsAt(lists, keys, key, depth) && PathOf(key[..depth + 1]) in lists
    ensures var p := PathOf(key[..depth + 1]);
      ListsAt(lists[p := lists[p] + [key]], keys, key, depth + 1)
  {
    forall q ensures Reaches(q, key, depth + 1) <==> Reaches(q, key, depth) || q == PathOf(key[..depth + 1]) {
      ReachesNext(q, key, depth);
    }
    ReachesNext(Root, key, depth);
  }

  // ---------- building and looking up ----------

  /** `children.setdefault(char, node())` when there is no such child. */
  method AddChild(ghost nodes: Nodes, ghost p: Path, node: TrieNode, c: char)
    returns (next: TrieNode)
    requires Injective(nodes) && p in nodes && nodes[p] == node && Down(p, c) !in nodes
    modifies node`children
    ensures fresh(next)
    ensures var grown := nodes[Down(p, c) := next];
      && Injective(grown)
      && LinksOf(grown) == old(LinksOf(nodes))[p := old(node.children)[c := next]][Down(p, c) := map[]]
      && ListsOf(grown) == old(ListsOf(nodes))[Down(p, c) := []]
  {
    next := new TrieNode();
    node.children := node.children[c := next];
  }

  /** `prefixed_keys.append(key)`. */
  method AppendKey(ghost nodes: Nodes, ghost p: Path, node: TrieNode, key: string)
    requires Injective(nodes) && p in nodes && nodes[p] == node
    modifies node`prefixedKeys
    ensures LinksOf(nodes) == old(LinksOf(nodes))
    ensures ListsOf(nodes) == old(ListsOf(nodes))[p := old(node.prefixedKeys) + [key]]
  {
    node.prefixedKeys := node.prefixedKeys + [key];
  }

  /** The child under a character, created when it is missing. */
  method GetOrAddChild(ghost nodes: Nodes, ghost keys: seq<string>, node: TrieNode, ghost key: string,
                       ghost depth: nat, c: char)
    returns (next: TrieNode, ghost grown: Nodes)
    requires depth < |key| && c == key[depth] && Inserting(nodes, keys, key, depth) && nodes[PathOf(key[..depth])] == node
    modifies node`children
    ensures Inserting(grown, keys, key, depth)
    ensures PathOf(key[..depth + 1]) in grown && grown[PathOf(key[..depth + 1])] == next
    ensures Root in grown && grown[Root] == nodes[Root] && fresh(Objects(grown) - Objects(nodes))
  {
    ghost var p := PathOf(key[..depth]);
    ReachesNext(p, key, depth);
    ChildPath(nodes, LinksOf(nodes), p, c);
    if c !in node.children {
      GrownLists(nodes, ListsOf(nodes), keys, key, depth, Down(p, c));
      next := AddChild(nodes, p, node, c);
      GrownTree(nodes, old(LinksOf(nodes)), p, c, next);
      grown := nodes[Down(p, c) := next];
    } else {
      next, grown := node.children[c], nodes;
    }
  }

  /** One iteration of the inner loop: go down one character and list the key there. */
  method Descend(ghost nodes: Nodes, ghost keys: seq<string>, node: TrieNode, key: string, depth: nat)
    returns (next: TrieNode, ghost grown: Nodes)
    requires depth < |key| && Inserting(nodes, keys, key, depth) && nodes[PathOf(key[..depth])] == node
    modifies Objects(nodes)
    ensures Inserting(grown, keys, key, depth + 1)
    ensures PathOf(key[..depth + 1]) in grown && grown[PathOf(key[..depth + 1])] == next
    ensures Root in grown && grown[Root] == nodes[Root] && fresh(Objects(grown) - Objects(nodes))
  {
    next, grown := GetOrAddChild(nodes, keys, node, key, depth, key[depth]);
    ExtendedLists(ListsOf(grown), keys, key, depth);
    AppendKey(grown, PathOf(key[..depth + 1]), next, key);
  }

  /** Once the whole path is done, the key is one of the inserted ones. */
  lemma InsertedAll(nodes: Nodes, lists: Lists, keys: seq<string>, key: string)
    requires ListsAt(lists, keys, key, |key|) && Covers(nodes, keys)
    requires forall i :: 0 <= i <= |key| ==> PathOf(key[..i]) in nodes
    ensures Covers(nodes, keys + [key]) && ListsAll(lists, keys + [key])
  {
    forall p | p in lists ensures lists[p] == WithPrefix(keys + [key], Text(p)) {
      WithPrefixAppend(keys, key, Text(p));
    }
  }

  lemma StartListing(lists: Lists, keys: seq<string>, key: string)
    requires Root in lists && ListsAll(lists, keys)
    ensures ListsAt(lists[Root := lists[Root] + [key]], keys, key, 0)
  {
    forall p | p in lists && p != Root ensures !Reaches(p, key, 0) {
      assert p.Down?;
    }
  }

  method ListAtRoot(ghost nodes: Nodes, ghost keys: seq<string>, root: TrieNode, key: string)
    requires Indexes(nodes, keys) && nodes[Root] == root
    modifies root`prefixedKeys
    ensures Inserting(nodes, keys, key, 0)
  {
    StartListing(ListsOf(nodes), keys, key);
    AppendKey(nodes, Root, root, key);
    assert PathOf(key[..0]) == Root;
  }

  /** One iteration of the outer loop: the key is listed at the root and at every node on its path. */
  method InsertKey(ghost nodes: Nodes, ghost keys: seq<string>, root: TrieNode,
                   key: string) returns (ghost grown: Nodes)
    requires Indexes(nodes, keys) && nodes[Root] == root
    modifies Objects(nodes)
    ensures Indexes(grown, keys + [key]) && grown[Root] == root
    ensures fresh(Objects(grown) - Objects(nodes))
  {
    ListAtRoot(nodes, keys, root, key);
    grown := DescendAll(nodes, keys, root, key);
    InsertedAll(grown, ListsOf(grown), keys, key);
  }

  /** The inner loop. */
  method DescendAll(ghost nodes: Nodes, ghost keys: seq<string>, root: TrieNode,
                    key: string) returns (ghost grown: Nodes)
    requires Inserting(nodes, keys, key, 0) && nodes[Root] == root
    modifies Objects(nodes)
    ensures Inserting(grown, keys, key, |key|) && grown[Root] == root
    ensures fresh(Objects(grown) - Objects(nodes))
  {
    var node := root;
    var depth := 0;
    grown := nodes;
    while depth < |key|
      invariant 0 <= depth <= |key|
      invariant Inserting(grown, keys, key, depth)
      invariant grown[PathOf(key[..depth])] == node
      invariant grown[Root] == root
      invariant fresh(Objects(grown) - Objects(nodes))
    {
      node, grown := Descend(grown, keys, node, key, depth);
      depth := depth + 1;
    }
  }

  lemma RootAlone(root: TrieNode)
    ensures Injective(map[Root := root]) && TreeOf(map[Root := root], map[Root := map[]])
  {
  }

  lemma SliceNext<T>(s: seq<T>, k: nat)
    requires k < |s|
    ensures s[..k] + [s[k]] == s[..k + 1]
  {
  }

  method NewRoot() returns (root: TrieNode, ghost nodes: Nodes)
    ensures Indexes(nodes, []) && nodes[Root] == root
    ensures fresh(Objects(nodes))
  {
    root := new TrieNode();
    nodes := map[Root := root];
    RootAlone(root);
    assert LinksOf(nodes) == map[Root := map[]];
  }

  /** `_build_prefix_trie`. */
  method BuildPrefixTrie(keys: seq<string>) returns (root: TrieNode, ghost nodes: Nodes)
    ensures Indexes(nodes, keys) && nodes[Root] == root
    ensures fresh(Objects(nodes))
  {
    root, nodes := NewRoot();
    ghost var inserted: seq<string> := [];
    var k := 0;
    while k < |keys|
      invariant 0 <= k <= |keys| && inserted == keys[..k]
      invariant Indexes(nodes, inserted) && nodes[Root] == root
      invariant fresh(Objects(nodes))
    {
      SliceNext(keys, k);
      nodes := InsertKey(nodes, inserted, root, keys[k]);
      inserted := inserted + [keys[k]];
      k := k + 1;
    }
    assert inserted == keys;
  }

  /** `_prefix_matches`: the walk returns exactly the keys with the prefix, in mapping order. */
  method PrefixMatches(root: TrieNode, ghost nodes: Nodes, ghost keys: seq<string>,
                       prefix: string) returns (matches: seq<string>)
    requires Indexes(nodes, keys) && nodes[Root] == root
    ensures matches == WithPrefix(keys, prefix)
    ensures Indexes(nodes, keys)
  {
    var node := root;
    var depth := 0;
    while depth < |prefix|
      invariant 0 <= depth <= |prefix|
      invariant Indexes(nodes, keys)
      invariant PathOf(prefix[..depth]) in nodes && nodes[PathOf(prefix[..depth])] == node
    {
      ghost var p := PathOf(prefix[..depth]);
      ReachesNext(p, prefix, depth);
      ChildPath(nodes, LinksOf(nodes), p, prefix[depth]);
      if prefix[depth] !in node.children {
        NoNodeNoLonger(nodes, keys, prefix, depth + 1);
        return [];
      }
      node := node.children[prefix[depth]];
      depth := depth + 1;
    }
    assert prefix[..|prefix|] == prefix;
    TextOfPath(prefix);
    assert ListsOf(nodes)[PathOf(prefix)] == WithPrefix(keys, prefix);
    return node.prefixedKeys;
  }

  /** A walk that leaves the tree early leaves it for every longer prefix. */
  lemma NoNodeNoLonger(nodes: Nodes, keys: seq<string>, prefix: string, depth: nat)
    requires depth <= |prefix| && Covers(nodes, keys) && PathOf(prefix[..depth]) !in nodes
    ensures WithPrefix(keys, prefix) == []
  {
    forall k | 0 <= k < |keys| && prefix <= keys[k] ensures false {
      SliceOfPrefix(prefix, keys[k], depth);
    }
    NoneHavePrefix(keys, prefix);
  }

  lemma SliceOfPrefix(prefix: string, key: string, depth: nat)
    requires prefix <= key && depth <= |prefix|
    ensures prefix[..depth] == key[..depth]
  {
  }

  /** A built index with the keys it was built from; it never changes again. */
  class PrefixTrie {
    const keys: seq<string>
    const root: TrieNode
    ghost const nodes: Nodes

    constructor (keys: seq<string>)
      ensures Valid() && this.keys == keys
    {
      var built, paths := BuildPrefixTrie(keys);
      this.keys, root, nodes := keys, built, paths;
    }

    ghost predicate Valid()
      reads Objects(nodes)
    {
      Indexes(nodes, keys) && nodes[Root] == root
    }

    method Matches(prefix: string) returns (matches: seq<string>)
      requires Valid()
      ensures Valid()
      ensures matches == WithPrefix(keys, prefix)
    {
      matches := PrefixMatches(root, nodes, keys, prefix);
    }
  }
}
