/** What the digests are taken over. SHA-256 is injective here by construction, so the question is
    whether the NUL-framed stream determines what was framed. */
module Digests {
  import opened Records

  predicate NulFree(s: string) {
    forall i :: 0 <= i < |s| ==> s[i] != '\0'
  }

  predicate Framable(pairs: seq<(string, string)>) {
    forall p :: p in pairs ==> NulFree(p.0) && NulFree(p.1)
  }

  function Frame(pairs: seq<(string, string)>): string {
    if pairs == [] then ""
    else pairs[0].0 + "\0" + pairs[0].1 + "\0" + Frame(pairs[1..])
  }

  lemma {:induction false} FrameConcat(a: seq<(string, string)>, b: seq<(string, string)>)
    ensures Frame(a + b) == Frame(a) + Frame(b)
  {
    if a == [] {
      assert a + b == b;
    } else {
      assert (a + b)[1..] == a[1..] + b;
      FrameConcat(a[1..], b);
    }
  }

  lemma {:induction false} CutAtNul(a: string, x: string, b: string, y: string)
    requires NulFree(a) && NulFree(b) && a + "\0" + x == b + "\0" + y
    ensures a == b && x == y
  {
    var s, t := a + "\0" + x, b + "\0" + y;
    assert s[0] == t[0];
    if a == "" && b == "" {
      assert s[1..] == x && t[1..] == y;
    } else if a != "" && b != "" {
      assert s[1..] == a[1..] + "\0" + x && t[1..] == b[1..] + "\0" + y;
      CutAtNul(a[1..], x, b[1..], y);
      assert a == [a[0]] + a[1..] && b == [b[0]] + b[1..];
    }
  }

  /** Without NUL inside a path or a text, the stream determines the pairs. */
  lemma {:induction false} FrameInjective(a: seq<(string, string)>, b: seq<(string, string)>)
    requires Framable(a) && Framable(b) && Frame(a) == Frame(b)
    ensures a == b
  {
    if a == [] || b == [] {
    } else {
      var restA, restB := Frame(a[1..]), Frame(b[1..]);
      assert a[0] in a && b[0] in b;
      assert Frame(a) == a[0].0 + "\0" + (a[0].1 + "\0" + restA);
      assert Frame(b) == b[0].0 + "\0" + (b[0].1 + "\0" + restB);
      CutAtNul(a[0].0, a[0].1 + "\0" + restA, b[0].0, b[0].1 + "\0" + restB);
      CutAtNul(a[0].1, restA, b[0].1, restB);
      FrameInjective(a[1..], b[1..]);
      assert a == [a[0]] + a[1..] && b == [b[0]] + b[1..];
    }
  }

  /** With a NUL inside, two different trees share a stream. */
  lemma FrameCollides()
    ensures Frame([("a\0b\0c", "d")]) == Frame([("a", "b"), ("c", "d")])
  {
    assert Frame([("c", "d")]) == "c\0d\0" by { assert [("c", "d")][1..] == []; }
    assert [("a", "b"), ("c", "d")][1..] == [("c", "d")];
    assert [("a\0b\0c", "d")][1..] == [];
    assert Frame([("a", "b"), ("c", "d")]) == "a\0b\0" + "c\0d\0";
    assert Frame([("a\0b\0c", "d")]) == "a\0b\0c\0d\0";
  }

  /** `tree_digest`: path, NUL, text, NUL, file by file. */
  method TreeDigest(tree: Tree) returns (digest: Digest)
    ensures digest == TreeSha(tree)
  {
    var stream: string := "";
    for i := 0 to |tree|
      invariant stream == Frame(tree[..i])
    {
      assert tree[..i + 1] == tree[..i] + [tree[i]];
      FrameConcat(tree[..i], [tree[i]]);
      stream := stream + tree[i].0;
      stream := stream + "\0";
      stream := stream + tree[i].1;
      stream := stream + "\0";
      assert Frame([tree[i]]) == tree[i].0 + "\0" + tree[i].1 + "\0" + Frame([]);
    }
    assert tree[..|tree|] == tree;
    digest := Sha256(stream);
  }

  function TreeSha(tree: Tree): Digest {
    Sha256(Frame(tree))
  }

  /** `file_digest`. */
  function FileSha(contents: string): Digest {
    Sha256(contents)
  }

  /** Two trees digest alike exactly when they are the same files in the same order. */
  lemma TreeShaDetermines(a: Tree, b: Tree)
    requires Framable(a) && Framable(b)
    ensures TreeSha(a) == TreeSha(b) <==> a == b
  {
    if TreeSha(a) == TreeSha(b) {
      FrameInjective(a, b);
    }
  }

  // ------------------------------------------------------- sorting rule identities

  predicate StrLeq(a: string, b: string) {
    a == "" || (b != "" && (a[0] < b[0] || (a[0] == b[0] && StrLeq(a[1..], b[1..]))))
  }

  predicate KeyLeq(a: (string, string), b: (string, string)) {
    if a.0 == b.0 then StrLeq(a.1, b.1) else StrLeq(a.0, b.0)
  }

  lemma {:induction false} StrTotal(a: string, b: string)
    ensures StrLeq(a, b) || StrLeq(b, a)
    ensures StrLeq(a, b) && StrLeq(b, a) ==> a == b
    ensures StrLeq(a, a)
  {
    if a != "" && b != "" {
      StrTotal(a[1..], b[1..]);
      assert a == [a[0]] + a[1..] && b == [b[0]] + b[1..];
    }
    if a != "" {
      StrTotal(a[1..], a[1..]);
    }
  }

  lemma {:induction false} StrTransitive(a: string, b: string, c: string)
    requires StrLeq(a, b) && StrLeq(b, c)
    ensures StrLeq(a, c)
  {
    if a != "" && a[0] == b[0] == c[0] {
      StrTransitive(a[1..], b[1..], c[1..]);
    }
  }

  lemma KeyOrder(a: (string, string), b: (string, string))
    ensures KeyLeq(a, b) || KeyLeq(b, a)
    ensures KeyLeq(a, b) && KeyLeq(b, a) ==> a == b
    ensures KeyLeq(a, a)
  {
    StrTotal(a.0, b.0);
    StrTotal(a.1, b.1);
  }

  lemma KeyTransitive(a: (string, string), b: (string, string), c: (string, string))
    requires KeyLeq(a, b) && KeyLeq(b, c)
    ensures KeyLeq(a, c)
  {
    StrTotal(a.0, b.0);
    StrTotal(b.0, c.0);
    StrTotal(a.0, c.0);
    if a.0 == b.0 == c.0 {
      StrTransitive(a.1, b.1, c.1);
    } else if a.0 != b.0 && b.0 != c.0 {
      StrTransitive(a.0, b.0, c.0);
    }
  }

  predicate Sorted(keys: seq<(string, string)>) {
    forall i, j :: 0 <= i < j < |keys| ==> KeyLeq(keys[i], keys[j])
  }

  function Insert(k: (string, string), keys: seq<(string, string)>): seq<(string, string)> {
    if keys == [] || KeyLeq(k, keys[0]) then [k] + keys else [keys[0]] + Insert(k, keys[1..])
  }

  function SortKeys(keys: seq<(string, string)>): seq<(string, string)> {
    if keys == [] then [] else Insert(keys[0], SortKeys(keys[1..]))
  }

  lemma {:induction false} InsertSorts(k: (string, string), keys: seq<(string, string)>)
    requires Sorted(keys)
    ensures Sorted(Insert(k, keys)) && multiset(Insert(k, keys)) == multiset{k} + multiset(keys)
  {
    if keys == [] {
    } else if KeyLeq(k, keys[0]) {
      forall j | 0 <= j < |keys| ensures KeyLeq(k, keys[j]) {
        if j > 0 {
          KeyTransitive(k, keys[0], keys[j]);
        }
      }
    } else {
      KeyOrder(k, keys[0]);
      InsertSorts(k, keys[1..]);
      assert keys == [keys[0]] + keys[1..];
      var tail := Insert(k, keys[1..]);
      forall j | 0 <= j < |tail| ensures KeyLeq(keys[0], tail[j]) {
        assert tail[j] in multiset(tail);
        assert tail[j] == k || tail[j] in keys[1..];
      }
    }
  }

  lemma {:induction false} SortKeysSorts(keys: seq<(string, string)>)
    ensures Sorted(SortKeys(keys)) && multiset(SortKeys(keys)) == multiset(keys)
  {
    if keys != [] {
      SortKeysSorts(keys[1..]);
      InsertSorts(keys[0], SortKeys(keys[1..]));
      assert keys == [keys[0]] + keys[1..];
    }
  }

  lemma SameFirst(a: seq<(string, string)>, b: seq<(string, string)>)
    requires Sorted(a) && Sorted(b) && multiset(a) == multiset(b) && a != [] && b != []
    ensures a[0] == b[0]
  {
    assert a[0] in multiset(b) && b[0] in multiset(a);
    var i :| 0 <= i < |b| && b[i] == a[0];
    var j :| 0 <= j < |a| && a[j] == b[0];
    KeyOrder(a[0], a[0]);
    KeyOrder(b[0], b[0]);
    KeyOrder(a[0], b[0]);
    assert KeyLeq(b[0], a[0]) && KeyLeq(a[0], b[0]);
  }

  lemma {:induction false} SortedUnique(a: seq<(string, string)>, b: seq<(string, string)>)
    requires Sorted(a) && Sorted(b) && multiset(a) == multiset(b)
    ensures a == b
  {
    if a == [] || b == [] {
      assert |multiset(a)| == |multiset(b)|;
    } else {
      SameFirst(a, b);
      assert a == [a[0]] + a[1..] && b == [b[0]] + b[1..];
      assert multiset(a[1..]) == multiset(a) - multiset{a[0]};
      assert multiset(b[1..]) == multiset(b) - multiset{b[0]};
      SortedUnique(a[1..], b[1..]);
    }
  }

  function RuleKeys(rules: seq<LiveRule>): seq<(string, string)> {
    seq(|rules|, i requires 0 <= i < |rules| => (rules[i].group, rules[i].name))
  }

  function RulesSha(rules: seq<LiveRule>): Digest {
    Sha256(Frame(SortKeys(RuleKeys(rules))))
  }

  /** `rules_semantic_digest`. */
  method RulesSemanticDigest(live: LiveState) returns (digest: Digest)
    ensures digest == RulesSha(live.rules)
  {
    digest := TreeDigest(SortKeys(RuleKeys(live.rules)));
  }

  /** How often a rule of that name is loaded in that group, whatever its health. */
  function Loaded(rules: seq<LiveRule>, group: string, name: string): nat {
    |LoadedAt(rules, group, name)|
  }

  function LoadedAt(rules: seq<LiveRule>, group: string, name: string): set<int> {
    set i | 0 <= i < |rules| && rules[i].group == group && rules[i].name == name
  }

  lemma {:induction false} KeysCount(rules: seq<LiveRule>, group: string, name: string)
    ensures multiset(RuleKeys(rules))[(group, name)] == Loaded(rules, group, name)
  {
    if rules == [] {
      assert LoadedAt(rules, group, name) == {};
    } else {
      var n := |rules| - 1;
      var last := rules[n];
      KeysCount(rules[..n], group, name);
      assert RuleKeys(rules) == RuleKeys(rules[..n]) + [(last.group, last.name)];
      assert LoadedAt(rules, group, name)
          == LoadedAt(rules[..n], group, name) + if last.group == group && last.name == name then {n} else {};
    }
  }

  predicate RulesFramable(rules: seq<LiveRule>) {
    forall r :: r in rules ==> NulFree(r.group) && NulFree(r.name)
  }

  lemma KeysAreFramable(rules: seq<LiveRule>)
    requires RulesFramable(rules)
    ensures Framable(SortKeys(RuleKeys(rules)))
  {
    var keys := RuleKeys(rules);
    SortKeysSorts(keys);
    forall p | p in SortKeys(keys) ensures NulFree(p.0) && NulFree(p.1) {
      assert p in multiset(SortKeys(keys));
      var i :| 0 <= i < |keys| && keys[i] == p;
      assert rules[i] in rules;
    }
  }

  lemma SameLoaded(a: seq<LiveRule>, b: seq<LiveRule>)
    ensures multiset(RuleKeys(a)) == multiset(RuleKeys(b))
       <==> forall group, name :: Loaded(a, group, name) == Loaded(b, group, name)
  {
    forall group, name
      ensures multiset(RuleKeys(a))[(group, name)] == Loaded(a, group, name)
      ensures multiset(RuleKeys(b))[(group, name)] == Loaded(b, group, name)
    {
      KeysCount(a, group, name);
      KeysCount(b, group, name);
    }
    if forall group, name :: Loaded(a, group, name) == Loaded(b, group, name) {
      forall k: (string, string) ensures multiset(RuleKeys(a))[k] == multiset(RuleKeys(b))[k] {
        assert k == (k.0, k.1);
        assert Loaded(a, k.0, k.1) == Loaded(b, k.0, k.1);
      }
    }
  }

  /** Two rule sets digest alike exactly when they hold the same rules in the same groups equally often:
      order and evaluation state do not show. */
  lemma RulesShaDetermines(a: seq<LiveRule>, b: seq<LiveRule>)
    requires RulesFramable(a) && RulesFramable(b)
    ensures RulesSha(a) == RulesSha(b) <==> forall group, name :: Loaded(a, group, name) == Loaded(b, group, name)
  {
    var ka, kb := SortKeys(RuleKeys(a)), SortKeys(RuleKeys(b));
    SortKeysSorts(RuleKeys(a));
    SortKeysSorts(RuleKeys(b));
    SameLoaded(a, b);
    if multiset(RuleKeys(a)) == multiset(RuleKeys(b)) {
      SortedUnique(ka, kb);
    }
    if RulesSha(a) == RulesSha(b) {
      KeysAreFramable(a);
      KeysAreFramable(b);
      FrameInjective(ka, kb);
    }
  }
}
