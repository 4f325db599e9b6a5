/**
  The OTB node tree (src/fileloader.h:31-44, src/fileloader.cpp:30-122): what parsing the bytes of a file
  means, printed trees, and the removal of escape bytes from the properties of a node.
  */
module OtbFile {
  import opened Common

  const ESCAPE: Byte := 0xFD
  const START: Byte := 0xFE
  const END: Byte := 0xFF

  /** A tree as it is meant: a node type, its properties, its children. */
  datatype Tree = Tree(kind: Byte, props: seq<Byte>, children: seq<Tree>)

  /** A node as the parser leaves it: its properties are a stretch of the file. */
  datatype Node = Node(kind: Byte, propsBegin: nat, propsEnd: nat, children: seq<Node>)

  // ----- printing -------------------------------------------------------------------------------

  predicate Special(b: Byte) { b >= ESCAPE }

  function Escaped(props: seq<Byte>): seq<Byte> {
    if props == [] then []
    else (if Special(props[0]) then [ESCAPE, props[0]] else [props[0]]) + Escaped(props[1..])
  }

  function Print(t: Tree): seq<Byte>
    decreases t, 1
  {
    [START, t.kind] + Escaped(t.props) + PrintAll(t.children) + [END]
  }

  function PrintAll(ts: seq<Tree>): seq<Byte>
    decreases ts, 0
  {
    if ts == [] then [] else Print(ts[0]) + PrintAll(ts[1..])
  }

  // ----- what the parser does -------------------------------------------------------------------

  /** The open nodes, innermost first, and the root once it is closed. */
  datatype State = State(open: seq<Node>, root: Option<Node>)

  /** The end of the properties is noted at the first child, or else at the end of the node. */
  function Noted(n: Node, i: nat): Node {
    if n.children == [] then n.(propsEnd := i) else n
  }

  function Opened(st: State, i: nat, kind: Byte): State
    requires st.open != []
  {
    st.(open := [Node(kind, i + 2, i + 2, []), Noted(st.open[0], i)] + st.open[1..])
  }

  function Closed(st: State, i: nat): State
    requires st.open != []
  {
    var n := Noted(st.open[0], i);
    if |st.open| == 1 then State([], Some(n)) else st.(open := [WithChild(st.open[1], n)] + st.open[2..])
  }

  function WithChild(n: Node, child: Node): Node {
    n.(children := n.children + [child])
  }

  /** The parser from position `i` on; None stands for `InvalidOTBFormat`. */
  function Run(b: seq<Byte>, i: nat, st: State): Option<Node>
    requires i <= |b|
    decreases |b| - i
  {
    if i == |b| then (if st.open == [] then st.root else None)
    else if b[i] == START then
      if st.open == [] || i + 1 == |b| then None else Run(b, i + 2, Opened(st, i, b[i + 1]))
    else if b[i] == END then
      if st.open == [] then None else Run(b, i + 1, Closed(st, i))
    else if b[i] == ESCAPE then
      if i + 1 == |b| then None else Run(b, i + 2, st)
    else Run(b, i + 1, st)
  }

  // ----- acceptance -------------------------------------------------------------------------------

  /** The markers outside escapes, +1 for a start and -1 for an end; None if the file ends inside an escape or a start. */
  function Marks(b: seq<Byte>, i: nat): Option<seq<int>>
    requires i <= |b|
    decreases |b| - i
  {
    if i == |b| then Some([])
    else if b[i] == START then (if i + 1 == |b| then None else Before(1, Marks(b, i + 2)))
    else if b[i] == END then Before(-1, Marks(b, i + 1))
    else if b[i] == ESCAPE then (if i + 1 == |b| then None else Marks(b, i + 2))
    else Marks(b, i + 1)
  }

  function Before(m: int, ms: Option<seq<int>>): Option<seq<int>> {
    if ms == None then None else Some([m] + ms.value)
  }

  function Net(ms: seq<int>): int {
    if ms == [] then 0 else ms[0] + Net(ms[1..])
  }

  /** Before every marker some node is open, and after the last one none is, when `depth` nodes are open at first. */
  ghost predicate Balanced(ms: seq<int>, depth: int) {
    (forall k :: 0 <= k < |ms| ==> depth + Net(ms[..k]) >= 1) && depth + Net(ms) == 0
  }

  lemma NetShift(m: int, ms: seq<int>, k: nat)
    requires k <= |ms|
    ensures Net(([m] + ms)[..k + 1]) == m + Net(ms[..k])
  {
    assert ([m] + ms)[..k + 1] == [m] + ms[..k];
    assert ([m] + ms[..k])[1..] == ms[..k];
  }

  lemma BalancedNext(m: int, ms: seq<int>, depth: int)
    ensures Balanced([m] + ms, depth) <==> depth >= 1 && Balanced(ms, depth + m)
  {
    var all := [m] + ms;
    forall k | 0 <= k <= |ms| ensures Net(all[..k + 1]) == m + Net(ms[..k]) {
      NetShift(m, ms, k);
    }
    assert all[..|ms| + 1] == all && ms[..|ms|] == ms && all[..0] == [];
    if Balanced(all, depth) {
      assert depth + Net(all[..0]) >= 1;
      forall k | 0 <= k < |ms| ensures depth + m + Net(ms[..k]) >= 1 {
        assert depth + Net(all[..k + 1]) >= 1;
      }
    }
    if depth >= 1 && Balanced(ms, depth + m) {
      forall k | 0 <= k < |all| ensures depth + Net(all[..k]) >= 1 {
        if k > 0 { assert depth + m + Net(ms[..k - 1]) >= 1; }
      }
    }
  }

  /** The parser accepts exactly the files whose markers balance. */
  lemma {:induction false} AcceptsBalanced(b: seq<Byte>, i: nat, st: State)
    requires i <= |b| && (st.open == [] <==> st.root.Some?)
    ensures Run(b, i, st).Some? <==> Marks(b, i).Some? && Balanced(Marks(b, i).value, |st.open|)
    decreases |b| - i
  {
    if i < |b| {
      if b[i] == START && i + 1 < |b| {
        if Marks(b, i + 2).Some? { BalancedNext(1, Marks(b, i + 2).value, |st.open|); }
        if st.open != [] { AcceptsBalanced(b, i + 2, Opened(st, i, b[i + 1])); }
      } else if b[i] == END {
        if Marks(b, i + 1).Some? { BalancedNext(-1, Marks(b, i + 1).value, |st.open|); }
        if st.open != [] { AcceptsBalanced(b, i + 1, Closed(st, i)); }
      } else if b[i] == ESCAPE {
        if i + 1 < |b| { AcceptsBalanced(b, i + 2, st); }
      } else if b[i] != START {
        AcceptsBalanced(b, i + 1, st);
      }
    }
  }

  // ----- properties ---------------------------------------------------------------------------------

  /** What `getProps` keeps of the bytes so far, and whether the last one was an escape. */
  function Unescape(raw: seq<Byte>): (r: (seq<Byte>, bool)) {
    if raw == [] then ([], false)
    else
      var (out, last) := Unescape(raw[..|raw| - 1]);
      var byte := raw[|raw| - 1];
      var lastEscaped := byte == ESCAPE && !last;
      (if lastEscaped then out else out + [byte], lastEscaped)
  }

  /** `Loader::getProps`: false for a node without properties, else their bytes without the escapes. */
  method GetProps(b: seq<Byte>, node: Node) returns (ok: bool, props: seq<Byte>)
    requires node.propsBegin <= node.propsEnd <= |b|
    ensures ok <==> node.propsBegin < node.propsEnd
    ensures props == Unescape(b[node.propsBegin..node.propsEnd]).0
  {
    props := [];
    var raw := b[node.propsBegin..node.propsEnd];
    if raw == [] {
      return false, [];
    }
    var lastEscaped := false;
    for k := 0 to |raw|
      invariant (props, lastEscaped) == Unescape(raw[..k])
    {
      assert raw[..k + 1][..k] == raw[..k];
      lastEscaped := raw[k] == ESCAPE && !lastEscaped;
      if !lastEscaped {
        props := props + [raw[k]];
      }
    }
    assert raw[..|raw|] == raw;
    ok := true;
  }

  lemma {:induction false} EscapedAppend(props: seq<Byte>, p: Byte)
    ensures Escaped(props + [p]) == Escaped(props) + if Special(p) then [ESCAPE, p] else [p]
  {
    if props == [] {
      assert props + [p] == [p] && [p][1..] == [];
    } else {
      assert (props + [p])[1..] == props[1..] + [p];
      EscapedAppend(props[1..], p);
    }
  }

  lemma UnescapeNext(raw: seq<Byte>, byte: Byte)
    ensures var (out, last) := Unescape(raw);
            var lastEscaped := byte == ESCAPE && !last;
            Unescape(raw + [byte]) == (if lastEscaped then out else out + [byte], lastEscaped)
  {
    assert (raw + [byte])[..|raw|] == raw;
  }

  /** Removing the escapes undoes adding them. */
  lemma {:induction false} UnescapeEscaped(props: seq<Byte>)
    ensures Unescape(Escaped(props)) == (props, false)
  {
    if props != [] {
      var front, p := props[..|props| - 1], props[|props| - 1];
      assert props == front + [p];
      UnescapeEscaped(front);
      EscapedAppend(front, p);
      if Special(p) {
        UnescapeNext(Escaped(front), ESCAPE);
        UnescapeNext(Escaped(front) + [ESCAPE], p);
        assert Escaped(front) + [ESCAPE] + [p] == Escaped(props);
      } else {
        UnescapeNext(Escaped(front), p);
      }
    }
  }

  // ----- the round trip -------------------------------------------------------------------------------

  /** The node that stands for tree `t` when it is printed at position `i`. */
  function Placed(t: Tree, i: nat): Node
    decreases t, 1
  {
    var e := i + 2 + |Escaped(t.props)|;
    Node(t.kind, i + 2, e, PlacedAll(t.children, e))
  }

  function PlacedAll(ts: seq<Tree>, i: nat): (ns: seq<Node>)
    ensures |ns| == |ts|
    decreases ts, 0
  {
    if ts == [] then [] else [Placed(ts[0], i)] + PlacedAll(ts[1..], i + |Print(ts[0])|)
  }

  /** `text` stands in the file at position `i`. */
  ghost predicate Reads(b: seq<Byte>, i: nat, text: seq<Byte>) {
    i + |text| <= |b| && b[i..i + |text|] == text
  }

  lemma ReadsSplit(b: seq<Byte>, i: nat, first: seq<Byte>, second: seq<Byte>)
    requires Reads(b, i, first + second)
    ensures Reads(b, i, first) && Reads(b, i + |first|, second)
  {
    var all := b[i..i + |first + second|];
    assert all[..|first|] == first && all[|first|..] == second;
    assert b[i..i + |first|] == all[..|first|];
    assert b[i + |first|..i + |first| + |second|] == all[|first|..];
  }

  /** Escaped properties are passed over. */
  lemma {:induction false} RunProps(b: seq<Byte>, i: nat, st: State, props: seq<Byte>)
    requires Reads(b, i, Escaped(props))
    ensures Run(b, i, st) == Run(b, i + |Escaped(props)|, st)
    decreases |props|
  {
    if props != [] {
      var head := if Special(props[0]) then [ESCAPE, props[0]] else [props[0]];
      ReadsSplit(b, i, head, Escaped(props[1..]));
      assert b[i..i + |head|][0] == b[i];
      RunProps(b, i + |head|, st, props[1..]);
    }
  }

  lemma PrintParts(b: seq<Byte>, i: nat, t: Tree)
    requires Reads(b, i, Print(t))
    ensures HasParts(b, i, t) && |Print(t)| == 2 + |Escaped(t.props)| + |PrintAll(t.children)| + 1
  {
    var e, c := Escaped(t.props), PrintAll(t.children);
    ReadsSplit(b, i, [START, t.kind] + e + c, [END]);
    ReadsSplit(b, i, [START, t.kind] + e, c);
    ReadsSplit(b, i, [START, t.kind], e);
    assert b[i..i + 2][0] == b[i] && b[i..i + 2][1] == b[i + 1];
    var z := i + |Print(t)| - 1;
    assert b[z..z + 1][0] == b[z];
  }

  /** The state with finished children in the innermost open node, whose properties ended at `e`. */
  function WithChildren(st: State, e: nat, ns: seq<Node>): State
    requires st.open != []
  {
    if ns == [] then st
    else st.(open := [Noted(st.open[0], e).(children := st.open[0].children + ns)] + st.open[1..])
  }

  /** A printed tree becomes one finished child of the innermost open node. */
  lemma {:induction false} RunTree(b: seq<Byte>, i: nat, st: State, t: Tree)
    requires Reads(b, i, Print(t)) && st.open != []
    ensures i + |Print(t)| <= |b|
    ensures Run(b, i, st) == Run(b, i + |Print(t)|, WithChildren(st, i, [Placed(t, i)]))
    decreases t, 1
  {
    PrintParts(b, i, t);
    RunParts(b, i, st, t);
  }

  /** `t` stands in the file at position `i`, part by part. */
  ghost predicate HasParts(b: seq<Byte>, i: nat, t: Tree) {
    var e := i + 2 + |Escaped(t.props)|;
    var z := e + |PrintAll(t.children)|;
    && z < |b| && b[i] == START && b[i + 1] == t.kind && Reads(b, i + 2, Escaped(t.props))
    && Reads(b, e, PrintAll(t.children)) && b[z] == END
  }

  lemma {:induction false} RunParts(b: seq<Byte>, i: nat, st: State, t: Tree)
    requires HasParts(b, i, t) && st.open != []
    ensures Run(b, i, st) == Run(b, i + 2 + |Escaped(t.props)| + |PrintAll(t.children)| + 1, WithChildren(st, i, [Placed(t, i)]))
    decreases t, 0
  {
    var st1, e := Opened(st, i, t.kind), i + 2 + |Escaped(t.props)|;
    RunHead(b, i, st, t);
    RunTrees(b, e, st1, t.children);
    RunToParent(b, i, st, t, e, e + |PrintAll(t.children)|);
  }

  lemma RunHead(b: seq<Byte>, i: nat, st: State, t: Tree)
    requires i + 1 < |b| && b[i] == START && b[i + 1] == t.kind && Reads(b, i + 2, Escaped(t.props)) && st.open != []
    ensures Run(b, i, st) == Run(b, i + 2 + |Escaped(t.props)|, Opened(st, i, t.kind))
  {
    RunOpen(b, i, st);
    RunProps(b, i + 2, Opened(st, i, t.kind), t.props);
  }

  lemma RunToParent(b: seq<Byte>, i: nat, st: State, t: Tree, e: nat, z: nat)
    requires z < |b| && b[z] == END && st.open != [] && e == i + 2 + |Escaped(t.props)|
    requires t.children == [] ==> z == e
    ensures Run(b, z, WithChildren(Opened(st, i, t.kind), e, PlacedAll(t.children, e)))
            == Run(b, z + 1, WithChildren(st, i, [Placed(t, i)]))
  {
    RunClose(b, z, WithChildren(Opened(st, i, t.kind), e, PlacedAll(t.children, e)));
    ClosesToChild(st, i, t, z);
  }

  lemma RunOpen(b: seq<Byte>, i: nat, st: State)
    requires i + 1 < |b| && b[i] == START && st.open != []
    ensures Run(b, i, st) == Run(b, i + 2, Opened(st, i, b[i + 1]))
  {}

  lemma RunClose(b: seq<Byte>, i: nat, st: State)
    requires i < |b| && b[i] == END && st.open != []
    ensures Run(b, i, st) == Run(b, i + 1, Closed(st, i))
  {}

  /** Closing the node just filled hands it to its parent. */
  lemma ClosesToChild(st: State, i: nat, t: Tree, z: nat)
    requires st.open != []
    requires t.children == [] ==> z == i + 2 + |Escaped(t.props)|
    ensures var e := i + 2 + |Escaped(t.props)|;
            var st1 := Opened(st, i, t.kind);
            Closed(WithChildren(st1, e, PlacedAll(t.children, e)), z) == WithChildren(st, i, [Placed(t, i)])
  {
    var e := i + 2 + |Escaped(t.props)|;
    var st1 := Opened(st, i, t.kind);
    var st2 := WithChildren(st1, e, PlacedAll(t.children, e));
    assert PlacedAll(t.children, e) == [] <==> t.children == [];
    assert [] + PlacedAll(t.children, e) == PlacedAll(t.children, e);
    assert Noted(st2.open[0], z) == Placed(t, i);
    assert st2.open[1] == Noted(st.open[0], i) && st2.open[2..] == st.open[1..];
  }

  /** A printed list of trees becomes the children of the innermost open node. */
  lemma {:induction false} RunTrees(b: seq<Byte>, i: nat, st: State, ts: seq<Tree>)
    requires Reads(b, i, PrintAll(ts)) && st.open != []
    ensures i + |PrintAll(ts)| <= |b|
    ensures Run(b, i, st) == Run(b, i + |PrintAll(ts)|, WithChildren(st, i, PlacedAll(ts, i)))
    decreases ts, 0
  {
    if ts != [] {
      ReadsSplit(b, i, Print(ts[0]), PrintAll(ts[1..]));
      RunTree(b, i, st, ts[0]);
      var i1 := i + |Print(ts[0])|;
      var st1 := WithChildren(st, i, [Placed(ts[0], i)]);
      RunTrees(b, i1, st1, ts[1..]);
      ChildrenCompose(st, i, i1, Placed(ts[0], i), PlacedAll(ts[1..], i1));
    }
  }

  lemma ChildrenCompose(st: State, i: nat, i1: nat, n: Node, ns: seq<Node>)
    requires st.open != []
    ensures WithChildren(WithChildren(st, i, [n]), i1, ns) == WithChildren(st, i, [n] + ns)
  {
    if ns == [] {
      assert [n] + ns == [n];
    } else {
      var st1 := WithChildren(st, i, [n]);
      assert st.open[0].children + [n] + ns == st.open[0].children + ([n] + ns);
      assert st1.open[0].children == st.open[0].children + [n] && st1.open[1..] == st.open[1..];
      assert Noted(st1.open[0], i1) == st1.open[0];
    }
  }

  /** What a parsed node means, with its properties unescaped. */
  function Meaning(b: seq<Byte>, n: Node): Tree
    decreases n
  {
    Tree(n.kind,
         if n.propsBegin <= n.propsEnd <= |b| then Unescape(b[n.propsBegin..n.propsEnd]).0 else [],
         seq(|n.children|, i requires 0 <= i < |n.children| => Meaning(b, n.children[i])))
  }

  ghost predicate ChildrenMean(b: seq<Byte>, ns: seq<Node>, ts: seq<Tree>) {
    |ns| == |ts| && forall k :: 0 <= k < |ts| ==> Meaning(b, ns[k]) == ts[k]
  }

  lemma PropsMean(b: seq<Byte>, i: nat, props: seq<Byte>)
    requires Reads(b, i, Escaped(props))
    ensures Unescape(b[i..i + |Escaped(props)|]).0 == props
  {
    UnescapeEscaped(props);
  }

  lemma MeaningIs(b: seq<Byte>, from: nat, to: nat, ns: seq<Node>, t: Tree)
    requires from <= to <= |b| && Unescape(b[from..to]).0 == t.props && ChildrenMean(b, ns, t.children)
    ensures Meaning(b, Node(t.kind, from, to, ns)) == t
  {
    assert Meaning(b, Node(t.kind, from, to, ns)).children == t.children;
  }

  lemma {:induction false} PlacedMeans(b: seq<Byte>, i: nat, t: Tree)
    requires Reads(b, i, Print(t))
    ensures Meaning(b, Placed(t, i)) == t
    decreases t, 2
  {
    PrintParts(b, i, t);
    PlacedPartsMean(b, i, t);
  }

  lemma {:induction false} PlacedPartsMean(b: seq<Byte>, i: nat, t: Tree)
    requires HasParts(b, i, t)
    ensures Meaning(b, Placed(t, i)) == t
    decreases t, 1
  {
    var from, to := i + 2, i + 2 + |Escaped(t.props)|;
    assert Placed(t, i) == Node(t.kind, from, to, PlacedAll(t.children, to));
    PartsMean(b, from, to, t);
  }

  lemma {:induction false} PartsMean(b: seq<Byte>, from: nat, to: nat, t: Tree)
    requires to == from + |Escaped(t.props)| && Reads(b, from, Escaped(t.props)) && Reads(b, to, PrintAll(t.children))
    ensures Meaning(b, Node(t.kind, from, to, PlacedAll(t.children, to))) == t
    decreases t, 0
  {
    var ns := PlacedAll(t.children, to);
    assert to <= |b| && Unescape(b[from..to]).0 == t.props by { PropsMean(b, from, t.props); }
    assert ChildrenMean(b, ns, t.children) by { AllPlacedMean(b, to, t.children); }
    MeaningIs(b, from, to, ns, t);
  }

  lemma {:induction false} AllPlacedMean(b: seq<Byte>, i: nat, ts: seq<Tree>)
    requires Reads(b, i, PrintAll(ts))
    ensures ChildrenMean(b, PlacedAll(ts, i), ts)
    decreases ts, 1
  {
    forall k | 0 <= k < |ts| ensures Meaning(b, PlacedAll(ts, i)[k]) == ts[k] {
      PlacedAllMean(b, i, ts, k);
    }
  }

  lemma {:induction false} PlacedAllMean(b: seq<Byte>, i: nat, ts: seq<Tree>, k: nat)
    requires Reads(b, i, PrintAll(ts)) && k < |ts|
    ensures Meaning(b, PlacedAll(ts, i)[k]) == ts[k]
    decreases ts, 0
  {
    var next := i + |Print(ts[0])|;
    ReadsSplit(b, i, Print(ts[0]), PrintAll(ts[1..]));
    if k == 0 {
      PlacedMeans(b, i, ts[0]);
    } else {
      PlacedAllMean(b, next, ts[1..], k - 1);
    }
  }

  /**
    The round trip: every tree that is printed, at any depth and with any bytes in its properties,
    is parsed back to itself.
    */
  lemma ParsePrinted(t: Tree)
    ensures var b := Print(t);
            && |b| >= 3 && b[0] == START && b[1] == t.kind
            && Run(b, 2, State([Node(b[1], 2, 2, [])], None)) == Some(Placed(t, 0))
            && Meaning(b, Placed(t, 0)) == t
  {
    var b := Print(t);
    assert b[0..0 + |b|] == b;
    PrintParts(b, 0, t);
    PlacedMeans(b, 0, t);
    RunRoot(b, t);
  }

  lemma RunRoot(b: seq<Byte>, t: Tree)
    requires Reads(b, 0, Print(t)) && |b| == |Print(t)|
    ensures Run(b, 2, State([Node(t.kind, 2, 2, [])], None)) == Some(Placed(t, 0))
  {
    PrintParts(b, 0, t);
    RunRootParts(b, t);
  }

  lemma RunRootParts(b: seq<Byte>, t: Tree)
    requires HasParts(b, 0, t) && |b| == 2 + |Escaped(t.props)| + |PrintAll(t.children)| + 1
    ensures Run(b, 2, State([Node(t.kind, 2, 2, [])], None)) == Some(Placed(t, 0))
  {
    var st := State([Node(t.kind, 2, 2, [])], None);
    var e := 2 + |Escaped(t.props)|;
    RunProps(b, 2, st, t.props);
    RunTrees(b, e, st, t.children);
    RootCloses(st, t, e, |b| - 1);
    RunClose(b, |b| - 1, WithChildren(st, e, PlacedAll(t.children, e)));
    RunEnd(b, Placed(t, 0));
  }

  lemma RunEnd(b: seq<Byte>, root: Node)
    ensures Run(b, |b|, State([], Some(root))) == Some(root)
  {}

  lemma RootCloses(st: State, t: Tree, e: nat, z: nat)
    requires st == State([Node(t.kind, 2, 2, [])], None) && e == 2 + |Escaped(t.props)| && z == e + |PrintAll(t.children)|
    ensures Closed(WithChildren(st, e, PlacedAll(t.children, e)), z) == State([], Some(Placed(t, 0)))
  {
    assert PlacedAll(t.children, e) == [] <==> t.children == [];
    assert [] + PlacedAll(t.children, e) == PlacedAll(t.children, e);
  }

  // ----- whole files --------------------------------------------------------------------------------

  const MINIMAL_SIZE := 7
  const WILDCARD: seq<Byte> := [0, 0, 0, 0]

  /** What loading a file amounts to: the size and identifier checks of the constructor, then the parser. */
  function LoadResult(file: seq<Byte>, accepted: seq<Byte>): Option<Node> {
    if |file| <= MINIMAL_SIZE || (file[..4] != accepted && file[..4] != WILDCARD) || file[4] != START then None
    else Run(file[4..], 2, State([Node(file[5], 2, 2, [])], None))
  }

  /**
    A printed tree loads, as itself, if and only if the identifier before it is accepted and the root has
    properties or children: the seven bytes of a bare root are not more than the minimal size.
    */
  lemma LoadPrinted(id: seq<Byte>, accepted: seq<Byte>, t: Tree)
    requires |id| == 4
    ensures LoadResult(id + Print(t), accepted)
            == if (id == accepted || id == WILDCARD) && (t.props != [] || t.children != []) then Some(Placed(t, 0)) else None
    ensures Meaning(Print(t), Placed(t, 0)) == t
  {
    ParsePrinted(t);
    var file := id + Print(t);
    assert file[..4] == id && file[4..] == Print(t);
    PrintedSizes(t);
  }

  lemma PrintedSizes(t: Tree)
    ensures |Print(t)| == 3 <==> t.props == [] && t.children == []
    ensures |Print(t)| >= 3
  {
    assert t.props != [] ==> |Escaped(t.props)| >= 1;
    assert t.children != [] ==> |PrintAll(t.children)| >= |Print(t.children[0])| >= 3;
  }
}
