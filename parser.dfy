/** The variant of the configuration builder that adds tree utilities to
    every tag object: `xml()` writes an object and everything below it back
    out as XML, `split(name)` is a generator of copies with one descendant
    replaced, and `has_parent(test)` walks the chain of parents. The
    builder itself (tag classes, `startElement`, `endElement`,
    `characters`) is the one modelled in `XmlParser`.

    `xml()` and `split()` only look downward, so they are modelled on a
    `Tree` read off the arena; `has_parent` follows parent links and works
    on the arena itself. */
module Parser {
  import opened Wrappers
  import opened Builtins
  import opened XmlParser

  /** A tag object together with everything below it: its class, its text
      and its children in the order they were opened. */
  datatype Tree = Tree(tag: Tag, buffer: string, kids: seq<Tree>)

  /** The object at index `i` of a well-formed arena as a tree. */
  function TreeOf(ns: seq<Node>, i: nat): (t: Tree)
    requires WellFormed(ns) && 0 < i < |ns|
    ensures t.tag == ns[i].kind.tag && t.buffer == ns[i].buffer
    ensures |t.kids| == |ns[i].children|
    decreases |ns| - i, 1
  {
    Tree(ns[i].kind.tag, ns[i].buffer, TreesOf(ns, i, ns[i].children))
  }

  function TreesOf(ns: seq<Node>, i: nat, cs: seq<nat>): (ts: seq<Tree>)
    requires WellFormed(ns) && 0 < i < |ns|
    requires forall k :: 0 <= k < |cs| ==> i < cs[k] < |ns|
    ensures |ts| == |cs|
    decreases |ns| - i, 0, |cs|
  {
    if cs == [] then [] else [TreeOf(ns, cs[0])] + TreesOf(ns, i, cs[1..])
  }

  // ---------------------------------------------------------------- xml()

  function Open(t: Tag): string
  {
    "<" + TagName(t) + ">"
  }

  function Close(t: Tag): string
  {
    "</" + TagName(t) + ">"
  }

  /** The error Python 2 raises when `str.format` meets text that is not
      ASCII: the format string is a byte string, so a unicode argument is
      encoded as ASCII. */
  datatype WriteError = UnicodeEncodeError

  predicate Ascii(s: string)
  {
    forall k :: 0 <= k < |s| ==> s[k] as int < 128
  }

  /** A text as `str.format` writes it into a byte string. */
  function Encoded(s: string): (r: Result<string, WriteError>)
    ensures r.Success? <==> Ascii(s)
    ensures r.Success? ==> r.value == s
  {
    if Ascii(s) then Success(s) else Failure(UnicodeEncodeError)
  }

  /** `Node.xml()`: the object's tag around either its children written out
      in order or, for an object without children, its stripped text; a
      UnicodeEncodeError when a text it writes is not ASCII. */
  function Xml(t: Tree): Result<string, WriteError>
    decreases t
  {
    var inner :- if t.kids == [] then Encoded(Strip(t.buffer)) else XmlAll(t.kids);
    Success(Open(t.tag) + inner + Close(t.tag))
  }

  function XmlAll(ts: seq<Tree>): Result<string, WriteError>
    decreases ts
  {
    if ts == [] then Success("")
    else
      var first :- Xml(ts[0]);
      var rest :- XmlAll(ts[1..]);
      Success(first + rest)
  }

  /** Every text `xml()` writes, the stripped text of each leaf, is ASCII. */
  predicate Writable(t: Tree)
    decreases t
  {
    && (t.kids == [] ==> Ascii(Strip(t.buffer)))
    && forall k :: 0 <= k < |t.kids| ==> Writable(t.kids[k])
  }

  /** `xml()` raises exactly when some leaf's stripped text is not ASCII. */
  lemma {:induction false} XmlWritable(t: Tree)
    ensures Xml(t).Success? <==> Writable(t)
    ensures Xml(t).Failure? ==> Xml(t).error == UnicodeEncodeError
    decreases t
  {
    if t.kids != [] {
      XmlAllWritable(t.kids);
    }
  }

  lemma {:induction false} XmlAllWritable(ts: seq<Tree>)
    ensures XmlAll(ts).Success? <==> forall k :: 0 <= k < |ts| ==> Writable(ts[k])
    ensures XmlAll(ts).Failure? ==> XmlAll(ts).error == UnicodeEncodeError
    decreases ts
  {
    if ts != [] {
      XmlWritable(ts[0]);
      XmlAllWritable(ts[1..]);
      assert forall k :: 1 <= k < |ts| ==> ts[k] == ts[1..][k - 1];
    }
  }

  /** Two trees that `xml()` cannot tell apart: the same classes in the same
      places, and leaves whose texts agree once stripped. The text of an
      object with children plays no part. */
  predicate SameText(t: Tree, u: Tree)
    decreases t
  {
    && t.tag == u.tag
    && |t.kids| == |u.kids|
    && (t.kids == [] ==> Strip(t.buffer) == Strip(u.buffer))
    && forall k :: 0 <= k < |t.kids| ==> SameText(t.kids[k], u.kids[k])
  }

  /** `xml()` writes the text of a leaf without the whitespace around it:
      a leaf whose text is `t` padded by whitespace comes out as `t` between
      its opening and closing tag, or raises UnicodeEncodeError when `t` is
      not ASCII. */
  lemma {:induction false} XmlLeaf(tree: Tree, pre: string, t: string, post: string)
    requires tree.kids == [] && tree.buffer == pre + t + post
    requires forall k :: 0 <= k < |pre| ==> IsSpace(pre[k])
    requires forall k :: 0 <= k < |post| ==> IsSpace(post[k])
    requires t != [] && !IsSpace(t[0]) && !IsSpace(t[|t| - 1])
    ensures Ascii(t) ==> Xml(tree) == Success("<" + TagName(tree.tag) + ">" + t + "</" + TagName(tree.tag) + ">")
    ensures !Ascii(t) ==> Xml(tree) == Failure(UnicodeEncodeError)
  {
    StripSurrounded(pre, t, post);
    if Ascii(t) {
      var n := TagName(tree.tag);
      assert Open(tree.tag) + t + Close(tree.tag) == "<" + n + ">" + t + "</" + n + ">";
      assert Xml(tree) == Success(Open(tree.tag) + t + Close(tree.tag));
    }
  }

  /** `xml()` depends on nothing but the classes, the shape and the stripped
      texts of the leaves: trees that agree on those are written out the
      same. In particular the text gathered by an object that has children
      is dropped. */
  lemma {:induction false} XmlSameText(t: Tree, u: Tree)
    requires SameText(t, u)
    ensures Xml(t) == Xml(u)
    decreases t
  {
    if t.kids != [] {
      XmlAllSameText(t.kids, u.kids);
    }
  }

  lemma {:induction false} XmlAllSameText(ts: seq<Tree>, us: seq<Tree>)
    requires |ts| == |us| && forall k :: 0 <= k < |ts| ==> SameText(ts[k], us[k])
    ensures XmlAll(ts) == XmlAll(us)
    decreases ts
  {
    if ts != [] {
      XmlSameText(ts[0], us[0]);
      XmlAllSameText(ts[1..], us[1..]);
    }
  }

  /** An object's own text never shows once it has children. */
  lemma {:induction false} XmlDropsInnerText(t: Tree, b: string)
    requires t.kids != []
    ensures Xml(t.(buffer := b)) == Xml(t)
  {
    SameTextRefl(t.kids);
    assert SameText(t.(buffer := b), t);
    XmlSameText(t.(buffer := b), t);
  }

  lemma {:induction false} SameTextRefl(ts: seq<Tree>)
    ensures forall k :: 0 <= k < |ts| ==> SameText(ts[k], ts[k])
    decreases ts
  {
    forall k | 0 <= k < |ts| ensures SameText(ts[k], ts[k]) {
      SameTextRefl(ts[k].kids);
    }
  }

  // -------------------------------------------------------------- split()

  /** `Node.split(name)`: for every child position, in order, and every
      variant the child yields, a copy of the object with that child
      replaced by the variant. `name` is not used. */
  function Split(t: Tree, name: string): seq<Tree>
    decreases t, 1
  {
    SplitFrom(t, name, 0)
  }

  function SplitFrom(t: Tree, name: string, ch: nat): seq<Tree>
    requires ch <= |t.kids|
    decreases t, 0, |t.kids| - ch
  {
    if ch == |t.kids| then []
    else Replaced(t, ch, Split(t.kids[ch], name)) + SplitFrom(t, name, ch + 1)
  }

  function Replaced(t: Tree, ch: nat, vs: seq<Tree>): seq<Tree>
    requires ch < |t.kids|
  {
    seq(|vs|, k requires 0 <= k < |vs| => t.(kids := t.kids[ch := vs[k]]))
  }

  /** `split` never yields anything: an object without children yields no
      copy, and an object with children only yields copies for the variants
      its children yield. */
  lemma {:induction false} SplitEmpty(t: Tree, name: string)
    ensures Split(t, name) == []
    decreases t, 1
  {
    SplitFromEmpty(t, name, 0);
  }

  lemma {:induction false} SplitFromEmpty(t: Tree, name: string, ch: nat)
    requires ch <= |t.kids|
    ensures SplitFrom(t, name, ch) == []
    decreases t, 0, |t.kids| - ch
  {
    if ch < |t.kids| {
      SplitEmpty(t.kids[ch], name);
      SplitFromEmpty(t, name, ch + 1);
    }
  }

  // --------------------------------------------------------- has_parent()

  /** The test `has_parent` applies to a parent: true or false, or `None`
      when it raises AttributeError (which `has_parent` swallows). */
  type Test = Node -> Option<bool>

  function Passes(test: Test, n: Node): bool
  {
    test(n) == Some(true)
  }

  /** Some object on the chain of parents of `i` passes the test. */
  predicate AncestorPasses(ns: seq<Node>, i: nat, test: Test)
    requires WellFormed(ns) && i < |ns|
    decreases i
  {
    i != 0 && (Passes(test, ns[ns[i].parent]) || AncestorPasses(ns, ns[i].parent, test))
  }

  /** `j` lies on the chain of parents of `i`, the handler included. */
  predicate Ancestor(ns: seq<Node>, i: nat, j: nat)
    requires WellFormed(ns) && i < |ns|
    decreases i
  {
    i != 0 && (ns[i].parent == j || Ancestor(ns, ns[i].parent, j))
  }

  /** `Node.has_parent(test)`: walks from the object up to the handler and
      answers whether some parent on the way passes the test. A test that
      raises AttributeError counts as not passing; when nothing passes the
      source returns `None`, which is false here. */
  method HasParent(ns: seq<Node>, i: nat, test: Test) returns (r: bool)
    requires WellFormed(ns) && 0 < i < |ns|
    ensures r <==> AncestorPasses(ns, i, test)
  {
    var cand: nat := i;
    while cand != 0
      invariant cand < |ns|
      invariant AncestorPasses(ns, i, test) <==> AncestorPasses(ns, cand, test)
      decreases cand
    {
      if Passes(test, ns[ns[cand].parent]) {
        return true;
      }
      cand := ns[cand].parent;
    }
    return false;
  }

  /** `has_parent` is true exactly when some object on the chain of parents
      passes the test. */
  lemma {:induction false} AncestorPassesIff(ns: seq<Node>, i: nat, test: Test)
    requires WellFormed(ns) && i < |ns|
    ensures AncestorPasses(ns, i, test) <==> exists j: nat :: j < |ns| && Ancestor(ns, i, j) && Passes(test, ns[j])
    decreases i
  {
    if i != 0 {
      var p := ns[i].parent;
      AncestorPassesIff(ns, p, test);
      if AncestorPasses(ns, i, test) {
        if Passes(test, ns[p]) {
          assert Ancestor(ns, i, p);
        } else {
          var j: nat :| j < |ns| && Ancestor(ns, p, j) && Passes(test, ns[j]);
          assert Ancestor(ns, i, j);
        }
      }
    }
  }

  /** The handler is on the chain of parents of every tag object, so a test
      the handler passes makes `has_parent` true everywhere below it. */
  lemma {:induction false} HandlerIsAncestor(ns: seq<Node>, i: nat)
    requires WellFormed(ns) && 0 < i < |ns|
    ensures Ancestor(ns, i, 0)
    decreases i
  {
    var p := ns[i].parent;
    if p != 0 {
      HandlerIsAncestor(ns, p);
    }
  }
}
