/**
  `Loader::parseTree` (src/fileloader.cpp:45-105).  The nodes lie in an arena and name their children by index;
  the parser keeps a stack of indices, as the original keeps a stack of pointers into vectors that grow.
  */
module OtbParser {
  import opened Common
  import opened OtbFile

  datatype Cell = Cell(kind: Byte, propsBegin: nat, propsEnd: nat, children: seq<nat>)

  datatype Arena = Arena(cells: seq<Cell>, stack: seq<nat>)

  // ----- what holds after every byte ------------------------------------------------------------------

  /** Children were made after their parents, in order. */
  ghost predicate CellOk(cells: seq<Cell>, i: nat)
    requires i < |cells|
  {
    && (forall a :: 0 <= a < |cells[i].children| ==> i < cells[i].children[a] < |cells|)
    && (forall a, b :: 0 <= a < b < |cells[i].children| ==> cells[i].children[a] < cells[i].children[b])
  }

  ghost predicate CellsOk(cells: seq<Cell>) {
    forall i :: 0 <= i < |cells| ==> CellOk(cells, i)
  }

  /** The stack is the chain of last children from the root. */
  ghost predicate LastChildren(cells: seq<Cell>, stack: seq<nat>) {
    && (stack != [] ==> stack[0] == 0)
    && (forall k :: 0 <= k < |stack| ==> stack[k] < |cells|)
    && (forall k :: 0 <= k < |stack| - 1 ==> LastChild(cells, stack[k], stack[k + 1]))
  }

  ghost predicate LastChild(cells: seq<Cell>, i: nat, c: nat)
    requires i < |cells|
  {
    cells[i].children != [] && cells[i].children[|cells[i].children| - 1] == c
  }

  /** A node on the stack is a child of the one below it and of no other. */
  ghost predicate OnlyParent(cells: seq<Cell>, stack: seq<nat>) {
    forall i, k :: 0 <= i < |cells| && 0 <= k < |stack| && stack[k] in cells[i].children ==> k > 0 && stack[k - 1] == i
  }

  ghost predicate ArenaOk(a: Arena) {
    |a.cells| >= 1 && CellsOk(a.cells) && LastChildren(a.cells, a.stack) && OnlyParent(a.cells, a.stack)
  }

  lemma {:induction false} StackRises(a: Arena, j: nat, k: nat)
    requires ArenaOk(a) && j < k < |a.stack|
    ensures a.stack[j] < a.stack[k]
    decreases k - j
  {
    assert LastChild(a.cells, a.stack[k - 1], a.stack[k]) && CellOk(a.cells, a.stack[k - 1]);
    if j < k - 1 {
      StackRises(a, j, k - 1);
    }
  }

  /**
    Why the pointers stay valid: appending to the children of the current node may move these children in
    memory, and none of them is on the stack.
    */
  lemma GrowthIsSafe(a: Arena, c: nat)
    requires ArenaOk(a) && a.stack != [] && c in a.cells[a.stack[|a.stack| - 1]].children
    ensures c !in a.stack
  {
    var top := a.stack[|a.stack| - 1];
    assert CellOk(a.cells, top);
    if c in a.stack {
      var k :| 0 <= k < |a.stack| && a.stack[k] == c;
      NotBelowTop(a, k, c);
      assert false;
    }
  }

  lemma NotBelowTop(a: Arena, k: nat, c: nat)
    requires ArenaOk(a) && k < |a.stack| && a.stack[k] == c
    ensures c <= a.stack[|a.stack| - 1]
  {
    if k < |a.stack| - 1 { StackRises(a, k, |a.stack| - 1); }
  }

  // ----- the steps --------------------------------------------------------------------------------------

  function NotedCell(c: Cell, i: nat): Cell {
    if c.children == [] then c.(propsEnd := i) else c
  }

  function OpenCell(a: Arena, i: nat, kind: Byte): Arena
    requires a.stack != [] && a.stack[|a.stack| - 1] < |a.cells|
  {
    var top, n := a.stack[|a.stack| - 1], |a.cells|;
    var current := NotedCell(a.cells[top], i);
    Arena(a.cells[top := current.(children := current.children + [n])] + [Cell(kind, i + 2, i + 2, [])], a.stack + [n])
  }

  function CloseCell(a: Arena, i: nat): Arena
    requires a.stack != [] && a.stack[|a.stack| - 1] < |a.cells|
  {
    var top := a.stack[|a.stack| - 1];
    Arena(a.cells[top := NotedCell(a.cells[top], i)], a.stack[..|a.stack| - 1])
  }

  lemma OpenKeeps(a: Arena, i: nat, kind: Byte)
    requires ArenaOk(a) && a.stack != []
    ensures ArenaOk(OpenCell(a, i, kind))
  {
    OpenCells(a, i, kind);
    OpenStack(a, i, kind);
    OpenParents(a, i, kind);
  }

  lemma OpenCells(a: Arena, i: nat, kind: Byte)
    requires ArenaOk(a) && a.stack != []
    ensures CellsOk(OpenCell(a, i, kind).cells)
  {
    var a' := OpenCell(a, i, kind);
    forall j | 0 <= j < |a'.cells| ensures CellOk(a'.cells, j) {
      if j < |a.cells| { assert CellOk(a.cells, j); }
    }
  }

  lemma OpenStack(a: Arena, i: nat, kind: Byte)
    requires ArenaOk(a) && a.stack != []
    ensures LastChildren(OpenCell(a, i, kind).cells, OpenCell(a, i, kind).stack)
  {
    var a' := OpenCell(a, i, kind);
    forall k | 0 <= k < |a'.stack| - 1 ensures LastChild(a'.cells, a'.stack[k], a'.stack[k + 1]) {
      if k < |a.stack| - 1 {
        assert LastChild(a.cells, a.stack[k], a.stack[k + 1]);
        StackRises(a, k, |a.stack| - 1);
      }
    }
  }

  lemma OpenParents(a: Arena, i: nat, kind: Byte)
    requires ArenaOk(a) && a.stack != []
    ensures OnlyParent(OpenCell(a, i, kind).cells, OpenCell(a, i, kind).stack)
  {
    var a' := OpenCell(a, i, kind);
    forall j, k | 0 <= j < |a'.cells| && 0 <= k < |a'.stack| && a'.stack[k] in a'.cells[j].children
      ensures k > 0 && a'.stack[k - 1] == j
    {
      OpenParent(a, i, kind, j, k);
    }
  }

  lemma OpenParent(a: Arena, i: nat, kind: Byte, j: nat, k: nat)
    requires ArenaOk(a) && a.stack != [] && j <= |a.cells| && k <= |a.stack|
    requires OpenCell(a, i, kind).stack[k] in OpenCell(a, i, kind).cells[j].children
    ensures k > 0 && OpenCell(a, i, kind).stack[k - 1] == j
  {
    if j < |a.cells| {
      assert CellOk(a.cells, j);
      if k < |a.stack| {
        ParentBelow(a, j, k);
      }
    }
  }

  lemma CloseKeeps(a: Arena, i: nat)
    requires ArenaOk(a) && a.stack != []
    ensures ArenaOk(CloseCell(a, i))
  {
    var a' := CloseCell(a, i);
    forall j | 0 <= j < |a'.cells| ensures CellOk(a'.cells, j) {
      assert CellOk(a.cells, j);
    }
    forall k | 0 <= k < |a'.stack| - 1 ensures LastChild(a'.cells, a'.stack[k], a'.stack[k + 1]) {
      assert LastChild(a.cells, a.stack[k], a.stack[k + 1]);
    }
  }

  // ----- what the arena stands for ------------------------------------------------------------------------

  /** The finished tree at an index. */
  ghost function TreeAt(cells: seq<Cell>, i: nat): Node
    requires CellsOk(cells) && i < |cells|
    decreases |cells| - i, 1
  {
    assert CellOk(cells, i);
    Node(cells[i].kind, cells[i].propsBegin, cells[i].propsEnd, Trees(cells, cells[i].children, i))
  }

  ghost function Trees(cells: seq<Cell>, cs: seq<nat>, i: nat): (ns: seq<Node>)
    requires CellsOk(cells) && i < |cells| && forall a :: 0 <= a < |cs| ==> i < cs[a] < |cells|
    ensures |ns| == |cs|
    decreases |cells| - i, 0
  {
    seq(|cs|, a requires 0 <= a < |cs| => TreeAt(cells, cs[a]))
  }

  /** The children of an open node that are finished: all but the one above it on the stack. */
  ghost function Finished(a: Arena, k: nat): seq<nat>
    requires k < |a.stack| && a.stack[k] < |a.cells|
  {
    var cs := a.cells[a.stack[k]].children;
    if k == |a.stack| - 1 || cs == [] then cs else cs[..|cs| - 1]
  }

  ghost function OpenNode(a: Arena, k: nat): Node
    requires ArenaOk(a) && k < |a.stack|
  {
    var c := a.cells[a.stack[k]];
    assert CellOk(a.cells, a.stack[k]);
    Node(c.kind, c.propsBegin, c.propsEnd, Trees(a.cells, Finished(a, k), a.stack[k]))
  }

  /** The state of the parser that an arena stands for. */
  ghost function View(a: Arena): State
    requires ArenaOk(a)
  {
    State(seq(|a.stack|, j requires 0 <= j < |a.stack| => OpenNode(a, |a.stack| - 1 - j)),
          if a.stack == [] then Some(TreeAt(a.cells, 0)) else None)
  }

  /** Outside the stack the two arenas agree on the older cells. */
  ghost predicate AgreesOff(cells: seq<Cell>, cells': seq<Cell>, stack: seq<nat>) {
    |cells| <= |cells'| && forall i :: 0 <= i < |cells| && i !in stack ==> cells'[i] == cells[i]
  }

  /** Finished trees do not reach the stack, so they stay as they are. */
  lemma {:induction false} TreeStays(a: Arena, cells': seq<Cell>, c: nat)
    requires ArenaOk(a) && CellsOk(cells') && AgreesOff(a.cells, cells', a.stack) && c < |a.cells| && c !in a.stack
    ensures TreeAt(cells', c) == TreeAt(a.cells, c)
    decreases |a.cells| - c
  {
    assert CellOk(a.cells, c);
    var cs := a.cells[c].children;
    forall j | 0 <= j < |cs| ensures TreeAt(cells', cs[j]) == TreeAt(a.cells, cs[j]) {
      ChildOffStack(a, c, j);
      TreeStays(a, cells', cs[j]);
    }
    assert Trees(cells', cs, c) == Trees(a.cells, cs, c);
  }

  lemma ParentBelow(a: Arena, i: nat, k: nat)
    requires ArenaOk(a) && i < |a.cells| && k < |a.stack| && a.stack[k] in a.cells[i].children
    ensures k > 0 && a.stack[k - 1] == i
  {}

  lemma ChildOffStack(a: Arena, c: nat, j: nat)
    requires ArenaOk(a) && c < |a.cells| && c !in a.stack && j < |a.cells[c].children|
    ensures a.cells[c].children[j] !in a.stack
  {
    var d := a.cells[c].children[j];
    if d in a.stack {
      var k :| 0 <= k < |a.stack| && a.stack[k] == d;
      ParentBelow(a, c, k);
      assert false;
    }
  }

  lemma FinishedOffStack(a: Arena, k: nat, j: nat)
    requires ArenaOk(a) && k < |a.stack| && j < |Finished(a, k)|
    ensures Finished(a, k)[j] !in a.stack && a.stack[k] < Finished(a, k)[j] < |a.cells|
  {
    var cs := a.cells[a.stack[k]].children;
    assert CellOk(a.cells, a.stack[k]) && Finished(a, k)[j] == cs[j];
    if cs[j] in a.stack {
      var m :| 0 <= m < |a.stack| && a.stack[m] == cs[j];
      ParentPosition(a, k, m);
      assert false;
    }
  }

  lemma ParentPosition(a: Arena, k: nat, m: nat)
    requires ArenaOk(a) && k < |a.stack| && m < |a.stack| && a.stack[m] in a.cells[a.stack[k]].children
    ensures m == k + 1 && LastChild(a.cells, a.stack[k], a.stack[m])
  {
    ParentBelow(a, a.stack[k], m);
    if m - 1 < k { StackRises(a, m - 1, k); }
    if k < m - 1 { StackRises(a, k, m - 1); }
  }

  lemma FinishedStay(a: Arena, cells': seq<Cell>, k: nat)
    requires ArenaOk(a) && CellsOk(cells') && AgreesOff(a.cells, cells', a.stack) && k < |a.stack|
    ensures forall j :: 0 <= j < |Finished(a, k)| ==> a.stack[k] < Finished(a, k)[j] < |a.cells|
    ensures Trees(cells', Finished(a, k), a.stack[k]) == Trees(a.cells, Finished(a, k), a.stack[k])
  {
    var cs := Finished(a, k);
    forall j | 0 <= j < |cs|
      ensures a.stack[k] < cs[j] < |a.cells| && TreeAt(cells', cs[j]) == TreeAt(a.cells, cs[j])
    {
      FinishedOffStack(a, k, j);
      TreeStays(a, cells', cs[j]);
    }
  }

  /** Opening a cell is what the specification calls opening a node. */
  lemma OpenIsOpened(a: Arena, i: nat, kind: Byte)
    requires ArenaOk(a) && a.stack != []
    ensures ArenaOk(OpenCell(a, i, kind)) && View(a).open != []
    ensures View(OpenCell(a, i, kind)) == Opened(View(a), i, kind)
  {
    var a', n := OpenCell(a, i, kind), |a.stack|;
    OpenKeeps(a, i, kind);
    var left, right := View(a').open, Opened(View(a), i, kind).open;
    forall j | 0 <= j < n + 1 ensures left[j] == right[j] {
      OpenedAt(a, i, kind, j);
    }
    assert left == right;
  }

  lemma OpenedAt(a: Arena, i: nat, kind: Byte, j: nat)
    requires ArenaOk(a) && a.stack != [] && j <= |a.stack| && ArenaOk(OpenCell(a, i, kind))
    ensures View(OpenCell(a, i, kind)).open[j] == Opened(View(a), i, kind).open[j]
  {
    var a', n := OpenCell(a, i, kind), |a.stack|;
    OpenAt(a', j);
    if j == 0 {
      OpenedNew(a, i, kind);
    } else {
      OpenedNode(a, i, kind, n - j);
      OpenAt(a, j - 1);
    }
  }

  lemma OpenedNew(a: Arena, i: nat, kind: Byte)
    requires ArenaOk(a) && a.stack != [] && ArenaOk(OpenCell(a, i, kind))
    ensures OpenNode(OpenCell(a, i, kind), |a.stack|) == Node(kind, i + 2, i + 2, [])
  {
    var a' := OpenCell(a, i, kind);
    assert a'.cells[a'.stack[|a.stack|]] == Cell(kind, i + 2, i + 2, []);
    assert Finished(a', |a.stack|) == [];
  }

  lemma OpenedNode(a: Arena, i: nat, kind: Byte, k: nat)
    requires ArenaOk(a) && k < |a.stack| && ArenaOk(OpenCell(a, i, kind))
    ensures OpenNode(OpenCell(a, i, kind), k) == if k == |a.stack| - 1 then Noted(OpenNode(a, k), i) else OpenNode(a, k)
  {
    var a' := OpenCell(a, i, kind);
    if k < |a.stack| - 1 { StackRises(a, k, |a.stack| - 1); }
    assert Finished(a', k) == Finished(a, k);
    FinishedStay(a, a'.cells, k);
  }

  /** Closing a cell is what the specification calls closing a node. */
  lemma CloseIsClosed(a: Arena, i: nat)
    requires ArenaOk(a) && a.stack != []
    ensures ArenaOk(CloseCell(a, i)) && View(a).open != []
    ensures View(CloseCell(a, i)) == Closed(View(a), i)
  {
    CloseKeeps(a, i);
    ClosedTop(a, i);
    OpenAt(a, 0);
    if |a.stack| == 1 {
      assert a.stack[0] == 0;
      assert View(CloseCell(a, i)).open == [];
    } else {
      ClosedOpen(a, i);
    }
  }

  lemma ClosedOpen(a: Arena, i: nat)
    requires ArenaOk(a) && |a.stack| > 1 && ArenaOk(CloseCell(a, i))
    ensures View(CloseCell(a, i)).open == Closed(View(a), i).open
  {
    var left, right := View(CloseCell(a, i)).open, Closed(View(a), i).open;
    forall j | 0 <= j < |a.stack| - 1 ensures left[j] == right[j] {
      ClosedAt(a, i, j);
    }
    assert left == right;
  }

  lemma ClosedAt(a: Arena, i: nat, j: nat)
    requires ArenaOk(a) && j < |a.stack| - 1 && ArenaOk(CloseCell(a, i))
    ensures View(CloseCell(a, i)).open[j] == Closed(View(a), i).open[j]
  {
    OpenAt(CloseCell(a, i), j);
    OpenAt(a, j + 1);
    ClosedNodes(View(a), i, j);
    if j == 0 {
      OpenAt(a, 0);
      ClosedTop(a, i);
      ClosedParent(a, i);
    } else {
      ClosedOther(a, i, |a.stack| - 2 - j);
    }
  }

  lemma OpenAt(a: Arena, j: nat)
    requires ArenaOk(a) && j < |a.stack|
    ensures |View(a).open| == |a.stack| && View(a).open[j] == OpenNode(a, |a.stack| - 1 - j)
  {}

  lemma ClosedNodes(st: State, i: nat, j: nat)
    requires j < |st.open| - 1
    ensures Closed(st, i).open[j] == if j == 0 then WithChild(st.open[1], Noted(st.open[0], i)) else st.open[j + 1]
  {}

  lemma ClosedTop(a: Arena, i: nat)
    requires ArenaOk(a) && a.stack != [] && ArenaOk(CloseCell(a, i))
    ensures TreeAt(CloseCell(a, i).cells, a.stack[|a.stack| - 1]) == Noted(OpenNode(a, |a.stack| - 1), i)
  {
    FinishedStay(a, CloseCell(a, i).cells, |a.stack| - 1);
  }

  lemma ClosedOther(a: Arena, i: nat, k: nat)
    requires ArenaOk(a) && k < |a.stack| - 2 && ArenaOk(CloseCell(a, i))
    ensures OpenNode(CloseCell(a, i), k) == OpenNode(a, k)
  {
    StackRises(a, k, |a.stack| - 1);
    assert Finished(CloseCell(a, i), k) == Finished(a, k);
    FinishedStay(a, CloseCell(a, i).cells, k);
  }

  lemma ClosedParent(a: Arena, i: nat)
    requires ArenaOk(a) && |a.stack| > 1 && ArenaOk(CloseCell(a, i))
    ensures OpenNode(CloseCell(a, i), |a.stack| - 2)
            == WithChild(OpenNode(a, |a.stack| - 2), TreeAt(CloseCell(a, i).cells, a.stack[|a.stack| - 1]))
  {
    var a', k, top := CloseCell(a, i), |a.stack| - 2, a.stack[|a.stack| - 1];
    StackRises(a, k, k + 1);
    assert LastChild(a.cells, a.stack[k], a.stack[k + 1]);
    assert Finished(a', k) == Finished(a, k) + [top];
    FinishedStay(a, a'.cells, k);
    assert Trees(a'.cells, Finished(a', k), a.stack[k]) == Trees(a'.cells, Finished(a, k), a.stack[k]) + [TreeAt(a'.cells, top)];
  }

  // ----- the parser ---------------------------------------------------------------------------------------

  /** The arena after so many rounds of the loop, and the position; Stopped stands for `InvalidOTBFormat`. */
  datatype Progress = Stopped | At(a: Arena, i: nat)

  function Start(b: seq<Byte>): Arena
    requires |b| >= 2
  {
    Arena([Cell(b[1], 2, 2, [])], [0])
  }

  /** One round of the loop. */
  function Round(b: seq<Byte>, a: Arena, i: nat): Progress
    requires i < |b| && forall k :: 0 <= k < |a.stack| ==> a.stack[k] < |a.cells|
  {
    if b[i] == START then
      if a.stack == [] || i + 1 == |b| then Stopped else At(OpenCell(a, i, b[i + 1]), i + 2)
    else if b[i] == END then
      if a.stack == [] then Stopped else At(CloseCell(a, i), i + 1)
    else if b[i] == ESCAPE then
      if i + 1 == |b| then Stopped else At(a, i + 2)
    else At(a, i + 1)
  }

  ghost function After(b: seq<Byte>, rounds: nat): (p: Progress)
    requires |b| >= 2
    ensures p.At? ==> ArenaOk(p.a) && 2 <= p.i <= |b|
  {
    if rounds == 0 then At(Start(b), 2)
    else
      var p := After(b, rounds - 1);
      if p == Stopped || p.i == |b| then p
      else
        RoundKeeps(b, p.a, p.i);
        Round(b, p.a, p.i)
  }

  lemma RoundKeeps(b: seq<Byte>, a: Arena, i: nat)
    requires ArenaOk(a) && i < |b|
    ensures var p := Round(b, a, i); p.At? ==> ArenaOk(p.a) && i < p.i <= |b|
  {
    if a.stack != [] {
      if i + 1 < |b| { OpenKeeps(a, i, b[i + 1]); }
      CloseKeeps(a, i);
    }
  }

  /** After every prefix of every input, the stack is the chain of last children from the root. */
  lemma StackIsLastChildren(b: seq<Byte>, rounds: nat, k: nat)
    requires |b| >= 2 && After(b, rounds).At?
    ensures var a := After(b, rounds).a;
            && (a.stack != [] ==> a.stack[0] == 0)
            && (k < |a.stack| ==> a.stack[k] < |a.cells|)
            && (k + 1 < |a.stack| ==> LastChild(a.cells, a.stack[k], a.stack[k + 1]))
            && (a.stack != [] ==> forall c :: c in a.cells[a.stack[|a.stack| - 1]].children ==> c !in a.stack)
  {
    var a := After(b, rounds).a;
    if a.stack != [] {
      forall c | c in a.cells[a.stack[|a.stack| - 1]].children ensures c !in a.stack {
        GrowthIsSafe(a, c);
      }
    }
  }

  /** A round in the arena is a step of the specification. */
  lemma RoundIsStep(b: seq<Byte>, a: Arena, i: nat)
    requires ArenaOk(a) && i < |b|
    ensures match Round(b, a, i)
            case Stopped => Run(b, i, View(a)) == None
            case At(a', i') => ArenaOk(a') && i' <= |b| && Run(b, i, View(a)) == Run(b, i', View(a'))
  {
    RoundKeeps(b, a, i);
    if a.stack != [] {
      if b[i] == START && i + 1 < |b| { OpenIsOpened(a, i, b[i + 1]); }
      if b[i] == END { CloseIsClosed(a, i); }
    }
  }

  lemma StartView(b: seq<Byte>)
    requires |b| >= 2
    ensures ArenaOk(Start(b)) && View(Start(b)) == State([Node(b[1], 2, 2, [])], None)
  {
    var a := Start(b);
    assert CellOk(a.cells, 0);
    assert OpenNode(a, 0) == Node(b[1], 2, 2, []);
    assert View(a).open == [Node(b[1], 2, 2, [])];
  }

  /** The loop of the parser: the arena after these rounds, from which the specification finds its answer. */
  ghost predicate Reached(b: seq<Byte>, rounds: nat, a: Arena, i: nat, answer: Option<Node>) {
    |b| >= 2 && 2 <= i <= |b| && After(b, rounds) == At(a, i) && ArenaOk(a) && Run(b, i, View(a)) == answer
  }

  lemma NextRound(b: seq<Byte>, rounds: nat, a: Arena, i: nat, answer: Option<Node>)
    requires Reached(b, rounds, a, i, answer) && i < |b|
    ensures match Round(b, a, i)
            case Stopped => answer == None
            case At(a', i') => Reached(b, rounds + 1, a', i', answer)
  {
    RoundIsStep(b, a, i);
    assert After(b, rounds + 1) == Round(b, a, i);
  }

  lemma AtStart(b: seq<Byte>)
    requires |b| >= 2
    ensures Reached(b, 0, Start(b), 2, Run(b, 2, State([Node(b[1], 2, 2, [])], None)))
  {
    StartView(b);
  }

  lemma AtEnd(b: seq<Byte>, rounds: nat, a: Arena, answer: Option<Node>)
    requires Reached(b, rounds, a, |b|, answer)
    ensures ArenaOk(a) && answer == if a.stack == [] then Some(TreeAt(a.cells, 0)) else None
  {}

  /** `Loader::parseTree` on the bytes after the identifier: the arena it leaves, with the root at index 0. */
  method ParseTree(b: seq<Byte>) returns (result: Option<Arena>)
    requires |b| >= 4                                         // the constructor demands a minimal size
    ensures result.Some? ==> ArenaOk(result.value) && result.value.stack == []
    ensures (if result.Some? then Some(TreeAt(result.value.cells, 0)) else None)
            == if b[0] != START then None else Run(b, 2, State([Node(b[1], 2, 2, [])], None))
  {
    if b[0] != START {
      return None;
    }
    var it, a := 2, Start(b);
    ghost var rounds, answer := 0, Run(b, 2, State([Node(b[1], 2, 2, [])], None));
    AtStart(b);
    while it < |b|
      invariant Reached(b, rounds, a, it, answer)
    {
      NextRound(b, rounds, a, it, answer);
      match Round(b, a, it)
      case Stopped => return None;
      case At(next, after) => a, it := next, after;
      rounds := rounds + 1;
    }
    AtEnd(b, rounds, a, answer);
    if a.stack != [] {
      return None;
    }
    return Some(a);
  }

  /** The `Loader` constructor followed by `parseTree`. */
  method Load(file: seq<Byte>, accepted: seq<Byte>) returns (result: Option<Arena>)
    ensures result.Some? ==> ArenaOk(result.value)
    ensures (if result.Some? then Some(TreeAt(result.value.cells, 0)) else None) == LoadResult(file, accepted)
  {
    if |file| <= MINIMAL_SIZE {
      return None;
    }
    if file[..4] != accepted && file[..4] != WILDCARD {
      return None;
    }
    result := ParseTree(file[4..]);
  }
}
