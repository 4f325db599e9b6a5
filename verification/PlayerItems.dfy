/**
  How a player's items are written to database rows, breadth first, and put together again
  (src/iologindata.cpp:429-539, 561-615, 907-933).
  */
module PlayerItems {
  import opened Common

  /** An item as the database knows it: type, sub-type and serialized attributes. */
  datatype Data = Data(itemType: nat, count: nat, attributes: seq<nat>)

  datatype Item = Item(data: Data, items: seq<Item>)

  datatype Row = Row(pid: int, sid: int, data: Data)

  /** A save list entry: the slot or depot id, and the item. */
  datatype Entry = Entry(pid: int, item: Item)

  const FIRST_ID := 101

  // ----- well-formed items ------------------------------------------------------------------

  /** Only types that are containers hold anything. */
  ghost predicate WellFormed(box: nat -> bool, item: Item) {
    (item.items != [] ==> box(item.data.itemType)) && AllWellFormed(box, item.items)
  }

  ghost predicate AllWellFormed(box: nat -> bool, items: seq<Item>) {
    forall i {:trigger WellFormed(box, items[i])} :: 0 <= i < |items| ==> WellFormed(box, items[i])
  }

  lemma PartWellFormed(box: nat -> bool, item: Item, i: nat)
    requires WellFormed(box, item) && i < |item.items|
    ensures WellFormed(box, item.items[i])
  {
    assert AllWellFormed(box, item.items);
  }

  ghost function Size(item: Item): (n: nat)
    ensures n >= 1
  {
    1 + SizeAll(item.items)
  }

  ghost function SizeAll(items: seq<Item>): nat {
    if items == [] then 0 else Size(items[0]) + SizeAll(items[1..])
  }

  // ----- rows under a parent -----------------------------------------------------------------

  /** Positions of the rows with parent `p`, in order. */
  function Under(rows: seq<Row>, p: int): (ks: seq<nat>)
    ensures forall i :: 0 <= i < |ks| ==> ks[i] < |rows| && rows[ks[i]].pid == p
  {
    if rows == [] then []
    else
      var n := |rows| - 1;
      Under(rows[..n], p) + if rows[n].pid == p then [n] else []
  }

  /** The items at given positions. */
  function At(items: seq<Item>, ks: seq<nat>): (r: seq<Item>)
    requires forall i :: 0 <= i < |ks| ==> ks[i] < |items|
    ensures |r| == |ks|
    ensures forall i :: 0 <= i < |ks| ==> r[i] == items[ks[i]]
  {
    seq(|ks|, i requires 0 <= i < |ks| => items[ks[i]])
  }

  /** The items whose rows have parent `p`, in order; `items[k]` is the item of row `k`. */
  ghost function ItemsUnder(rows: seq<Row>, items: seq<Item>, p: int): seq<Item>
    requires |items| == |rows|
  {
    At(items, Under(rows, p))
  }

  lemma UnderNext(rows: seq<Row>, items: seq<Item>, row: Row, item: Item, p: int)
    requires |items| == |rows|
    ensures ItemsUnder(rows + [row], items + [item], p)
            == ItemsUnder(rows, items, p) + if row.pid == p then [item] else []
  {
    assert (rows + [row])[..|rows|] == rows;
    assert Under(rows + [row], p) == Under(rows, p) + if row.pid == p then [|rows|] else [];
  }

  // ----- what saving comes to -------------------------------------------------------------------

  ghost function EntriesUnder(list: seq<Entry>, p: int): seq<Item> {
    if list == [] then []
    else EntriesUnder(list[..|list| - 1], p) + if list[|list| - 1].pid == p then [list[|list| - 1].item] else []
  }

  lemma EntriesNext(list: seq<Entry>, e: Entry, p: int)
    ensures EntriesUnder(list + [e], p) == EntriesUnder(list, p) + if e.pid == p then [e.item] else []
  {
    assert (list + [e])[..|list|] == list;
  }

  /** A container waiting for its contents to be written, with its row id. */
  datatype Block = Block(container: Item, id: int)

  ghost predicate RowOk(list: seq<Entry>, rows: seq<Row>, items: seq<Item>, k: nat)
    requires |items| == |rows| && k < |rows|
  {
    && rows[k].sid == FIRST_ID + k && rows[k].data == items[k].data
    && if k < |list| then rows[k].pid == list[k].pid else FIRST_ID <= rows[k].pid < FIRST_ID + k
  }

  /** Rows are numbered from 101 and describe `items`; the entries come first, then contents after their container. */
  ghost predicate RowsOk(list: seq<Entry>, rows: seq<Row>, items: seq<Item>) {
    && |items| == |rows| && |list| <= |rows|
    && forall k :: 0 <= k < |rows| ==> RowOk(list, rows, items, k)
  }

  ghost predicate Queued(queue: seq<Block>, k: int) {
    exists j :: 0 <= j < |queue| && queue[j].id == FIRST_ID + k
  }

  ghost predicate QueueOk(items: seq<Item>, queue: seq<Block>) {
    && (forall j :: 0 <= j < |queue| ==>
          FIRST_ID <= queue[j].id < FIRST_ID + |items| && queue[j].container == items[queue[j].id - FIRST_ID])
    && (forall i, j :: 0 <= i < j < |queue| ==> queue[i].id != queue[j].id)
  }

  /** The contents written so far under id `p`: `done` for the container being written, none for those that wait. */
  ghost function Contents(items: seq<Item>, queue: seq<Block>, open: Option<int>, done: seq<Item>, p: int): seq<Item> {
    if open == Some(p) then done
    else if FIRST_ID <= p < FIRST_ID + |items| && !Queued(queue, p - FIRST_ID) then items[p - FIRST_ID].items
    else []
  }

  /** Under every id there are first the entries with that id, then the contents of its container. */
  ghost predicate UnderOk(list: seq<Entry>, rows: seq<Row>, items: seq<Item>, queue: seq<Block>, open: Option<int>,
                          done: seq<Item>, p: int)
    requires |items| == |rows|
  {
    ItemsUnder(rows, items, p) == EntriesUnder(list, p) + Contents(items, queue, open, done, p)
  }

  ghost predicate AllUnderOk(list: seq<Entry>, rows: seq<Row>, items: seq<Item>, queue: seq<Block>, open: Option<int>, done: seq<Item>)
    requires |items| == |rows|
  {
    forall p :: UnderOk(list, rows, items, queue, open, done, p)
  }

  /** The state of the writer between two rows; `open` is the container being written, up to `done` of its items. */
  ghost predicate Writing(box: nat -> bool, list: seq<Entry>, rows: seq<Row>, items: seq<Item>, queue: seq<Block>,
                          open: Option<int>, done: seq<Item>) {
    && RowsOk(list, rows, items) && QueueOk(items, queue) && AllWellFormed(box, items)
    && (open.Some? ==> FIRST_ID <= open.value < FIRST_ID + |rows| && !Queued(queue, open.value - FIRST_ID))
    && AllUnderOk(list, rows, items, queue, open, done)
  }

  /** While the entries are written, every container waits. */
  ghost predicate AllWait(items: seq<Item>, queue: seq<Block>) {
    forall k :: 0 <= k < |items| ==> Queued(queue, k) || items[k].items == []
  }

  function Enqueue(box: nat -> bool, queue: seq<Block>, item: Item, id: int): seq<Block> {
    if box(item.data.itemType) then queue + [Block(item, id)] else queue
  }

  lemma QueuedNext(box: nat -> bool, queue: seq<Block>, item: Item, id: int, k: int)
    ensures Queued(Enqueue(box, queue, item, id), k) <==>
              Queued(queue, k) || (id == FIRST_ID + k && box(item.data.itemType))
  {
    var q := Enqueue(box, queue, item, id);
    if Queued(queue, k) {
      var j :| 0 <= j < |queue| && queue[j].id == FIRST_ID + k;
      assert q[j].id == FIRST_ID + k;
    }
    if id == FIRST_ID + k && box(item.data.itemType) {
      assert q[|queue|].id == FIRST_ID + k;
    }
    if Queued(q, k) && id != FIRST_ID + k {
      var j :| 0 <= j < |q| && q[j].id == FIRST_ID + k;
      assert queue[j].id == FIRST_ID + k;
    }
  }

  lemma QueueGrows(box: nat -> bool, items: seq<Item>, queue: seq<Block>, item: Item)
    requires QueueOk(items, queue)
    ensures QueueOk(items + [item], Enqueue(box, queue, item, FIRST_ID + |items|))
  {}

  lemma {:induction false} WellFormedGrows(box: nat -> bool, items: seq<Item>, item: Item)
    requires AllWellFormed(box, items) && WellFormed(box, item)
    ensures AllWellFormed(box, items + [item])
  {}

  /** A new row starts with no contents written, or has none. */
  lemma ContentsGrow(box: nat -> bool, items: seq<Item>, queue: seq<Block>, open: Option<int>, done: seq<Item>, item: Item, p: int)
    requires QueueOk(items, queue) && WellFormed(box, item)
    requires open.Some? ==> FIRST_ID <= open.value < FIRST_ID + |items|
    ensures Contents(items + [item], Enqueue(box, queue, item, FIRST_ID + |items|), open, done, p)
            == Contents(items, queue, open, done, p)
  {
    QueuedNext(box, queue, item, FIRST_ID + |items|, p - FIRST_ID);
  }

  lemma {:induction false} RootUnder(box: nat -> bool, list: seq<Entry>, rows: seq<Row>, items: seq<Item>, queue: seq<Block>, e: Entry,
                                     row: Row, p: int)
    requires |items| == |rows| && QueueOk(items, queue) && WellFormed(box, e.item) && AllWait(items, queue)
    requires row == Row(e.pid, FIRST_ID + |rows|, e.item.data) && UnderOk(list, rows, items, queue, None, [], p)
    ensures UnderOk(list + [e], rows + [row], items + [e.item], Enqueue(box, queue, e.item, FIRST_ID + |rows|), None, [], p)
  {
    UnderNext(rows, items, row, e.item, p);
    EntriesNext(list, e, p);
    ContentsGrow(box, items, queue, None, [], e.item, p);
    assert Contents(items, queue, None, [], p) == [];
  }

  /** Writing an entry keeps the state of the writer, whatever its id. */
  lemma {:induction false} WriteRoot(box: nat -> bool, list: seq<Entry>, rows: seq<Row>, items: seq<Item>, queue: seq<Block>, e: Entry,
                  row: Row, queue': seq<Block>)
    requires Writing(box, list, rows, items, queue, None, []) && AllWait(items, queue) && |rows| == |list| && WellFormed(box, e.item)
    requires row == Row(e.pid, FIRST_ID + |rows|, e.item.data) && queue' == Enqueue(box, queue, e.item, FIRST_ID + |rows|)
    ensures Writing(box, list + [e], rows + [row], items + [e.item], queue', None, []) && AllWait(items + [e.item], queue')
  {
    var list', rows', items' := list + [e], rows + [row], items + [e.item];
    QueueGrows(box, items, queue, e.item);
    WellFormedGrows(box, items, e.item);
    forall k | 0 <= k < |rows'| ensures RowOk(list', rows', items', k) {
      if k < |rows| { assert RowOk(list, rows, items, k); }
    }
    forall k | 0 <= k < |items'| ensures Queued(queue', k) || items'[k].items == [] {
      QueuedNext(box, queue, e.item, FIRST_ID + |rows|, k);
    }
    forall p ensures UnderOk(list', rows', items', queue', None, [], p) {
      RootUnder(box, list, rows, items, queue, e, row, p);
    }
  }

  lemma {:induction false} ItemUnder(box: nat -> bool, list: seq<Entry>, rows: seq<Row>, items: seq<Item>, queue: seq<Block>, open: int,
                                     done: seq<Item>, item: Item, row: Row, p: int)
    requires |items| == |rows| && QueueOk(items, queue) && WellFormed(box, item) && FIRST_ID <= open < FIRST_ID + |rows|
    requires row == Row(open, FIRST_ID + |rows|, item.data) && UnderOk(list, rows, items, queue, Some(open), done, p)
    ensures UnderOk(list, rows + [row], items + [item], Enqueue(box, queue, item, FIRST_ID + |rows|), Some(open), done + [item], p)
  {
    UnderNext(rows, items, row, item, p);
    ContentsGrow(box, items, queue, Some(open), done, item, p);
    if p == open {
      assert EntriesUnder(list, p) + done + [item] == EntriesUnder(list, p) + (done + [item]);
    }
  }

  /** Writing one more item of the open container does. */
  lemma {:induction false} WriteItem(box: nat -> bool, list: seq<Entry>, rows: seq<Row>, items: seq<Item>, queue: seq<Block>, open: int,
                  done: seq<Item>, item: Item, row: Row, queue': seq<Block>)
    requires Writing(box, list, rows, items, queue, Some(open), done) && WellFormed(box, item)
    requires row == Row(open, FIRST_ID + |rows|, item.data) && queue' == Enqueue(box, queue, item, FIRST_ID + |rows|)
    ensures Writing(box, list, rows + [row], items + [item], queue', Some(open), done + [item])
  {
    var rows', items', done' := rows + [row], items + [item], done + [item];
    QueueGrows(box, items, queue, item);
    WellFormedGrows(box, items, item);
    QueuedNext(box, queue, item, FIRST_ID + |rows|, open - FIRST_ID);
    forall k | 0 <= k < |rows'| ensures RowOk(list, rows', items', k) {
      if k < |rows| { assert RowOk(list, rows, items, k); }
    }
    forall p ensures UnderOk(list, rows', items', queue', Some(open), done', p) {
      ItemUnder(box, list, rows, items, queue, open, done, item, row, p);
    }
  }

  // ----- the size of what is still to be written ------------------------------------------------

  ghost function Pending(queue: seq<Block>): nat {
    if queue == [] then 0 else Size(queue[0].container) + Pending(queue[1..])
  }

  lemma {:induction false} PendingAppend(queue: seq<Block>, b: Block)
    ensures Pending(queue + [b]) == Pending(queue) + Size(b.container)
  {
    if queue == [] {
      assert queue + [b] == [b];
    } else {
      assert (queue + [b])[1..] == queue[1..] + [b];
      PendingAppend(queue[1..], b);
    }
  }

  lemma PendingEnqueue(box: nat -> bool, queue: seq<Block>, item: Item, id: int)
    ensures Pending(Enqueue(box, queue, item, id)) <= Pending(queue) + Size(item)
  {
    PendingAppend(queue, Block(item, id));
  }

  // ----- saving ---------------------------------------------------------------------------------

  /** The contents of the item of a row, if `p` is the id of one. */
  ghost function ContentsOf(items: seq<Item>, p: int): seq<Item> {
    if FIRST_ID <= p < FIRST_ID + |items| then items[p - FIRST_ID].items else []
  }

  ghost predicate SavedAt(list: seq<Entry>, rows: seq<Row>, items: seq<Item>, p: int)
    requires |items| == |rows|
  {
    ItemsUnder(rows, items, p) == EntriesUnder(list, p) + ContentsOf(items, p)
  }

  /** A complete save: the rows under an id are the entries with that id, then the contents of the row with that id. */
  ghost predicate Saved(list: seq<Entry>, rows: seq<Row>, items: seq<Item>) {
    RowsOk(list, rows, items) && forall p :: SavedAt(list, rows, items, p)
  }

  /** The rows are a complete save of the list and of everything in it. */
  ghost predicate IsSave(box: nat -> bool, list: seq<Entry>, rows: seq<Row>) {
    exists items :: Saved(list, rows, items) && AllWellFormed(box, items)
  }

  lemma QueuedTail(queue: seq<Block>, k: int)
    requires queue != []
    ensures Queued(queue, k) <==> queue[0].id == FIRST_ID + k || Queued(queue[1..], k)
  {
    if Queued(queue, k) {
      var j :| 0 <= j < |queue| && queue[j].id == FIRST_ID + k;
      if j > 0 { assert queue[1..][j - 1].id == FIRST_ID + k; }
    }
    if Queued(queue[1..], k) {
      var j :| 0 <= j < |queue[1..]| && queue[1..][j].id == FIRST_ID + k;
      assert queue[j + 1].id == FIRST_ID + k;
    }
  }

  lemma FrontLeaves(items: seq<Item>, queue: seq<Block>)
    requires QueueOk(items, queue) && queue != []
    ensures QueueOk(items, queue[1..]) && !Queued(queue[1..], queue[0].id - FIRST_ID)
  {
    assert forall j :: 0 <= j < |queue[1..]| ==> queue[1..][j] == queue[j + 1];
  }

  /** The container at the front of the queue becomes the one being written. */
  lemma OpenFront(box: nat -> bool, list: seq<Entry>, rows: seq<Row>, items: seq<Item>, queue: seq<Block>)
    requires Writing(box, list, rows, items, queue, None, []) && queue != []
    ensures Writing(box, list, rows, items, queue[1..], Some(queue[0].id), [])
  {
    var id, tail := queue[0].id, queue[1..];
    FrontLeaves(items, queue);
    forall p ensures UnderOk(list, rows, items, tail, Some(id), [], p) {
      assert UnderOk(list, rows, items, queue, None, [], p);
      QueuedTail(queue, p - FIRST_ID);
    }
  }

  /** A container that is written completely is no longer open. */
  lemma CloseOpen(box: nat -> bool, list: seq<Entry>, rows: seq<Row>, items: seq<Item>, queue: seq<Block>, open: int)
    requires FIRST_ID <= open < FIRST_ID + |items|
    requires Writing(box, list, rows, items, queue, Some(open), items[open - FIRST_ID].items)
    ensures Writing(box, list, rows, items, queue, None, [])
  {
    forall p ensures UnderOk(list, rows, items, queue, None, [], p) {
      assert UnderOk(list, rows, items, queue, Some(open), items[open - FIRST_ID].items, p);
    }
  }

  /** One row for an item of the container `b`. */
  method SaveOne(box: nat -> bool, ghost list: seq<Entry>, rows0: seq<Row>, ghost items0: seq<Item>, queue0: seq<Block>,
                 b: Block, item: Item, ghost done: seq<Item>)
    returns (rows: seq<Row>, ghost items: seq<Item>, queue: seq<Block>)
    requires Writing(box, list, rows0, items0, queue0, Some(b.id), done) && WellFormed(box, item)
    ensures Writing(box, list, rows, items, queue, Some(b.id), done + [item])
    ensures items == items0 + [item] && Pending(queue) <= Pending(queue0) + Size(item)
  {
    var runningId := FIRST_ID + |rows0|;
    var row := Row(b.id, runningId, item.data);
    queue := Enqueue(box, queue0, item, runningId);
    WriteItem(box, list, rows0, items0, queue0, b.id, done, item, row, queue);
    PendingEnqueue(box, queue0, item, runningId);
    rows, items := rows0 + [row], items0 + [item];
  }

  /** The part of `saveItems` that writes the contents of one container. */
  method SaveContents(box: nat -> bool, ghost list: seq<Entry>, rows0: seq<Row>, ghost items0: seq<Item>, queue0: seq<Block>, b: Block)
    returns (rows: seq<Row>, ghost items: seq<Item>, queue: seq<Block>)
    requires Writing(box, list, rows0, items0, queue0, Some(b.id), [])
    requires FIRST_ID <= b.id < FIRST_ID + |items0| && b.container == items0[b.id - FIRST_ID]
    ensures Writing(box, list, rows, items, queue, None, [])
    ensures Pending(queue) < Pending(queue0) + Size(b.container)
  {
    assert WellFormed(box, b.container);
    rows, items, queue := rows0, items0, queue0;
    var contents := b.container.items;
    for i := 0 to |contents|
      invariant Writing(box, list, rows, items, queue, Some(b.id), contents[..i])
      invariant |items0| <= |items| && items[b.id - FIRST_ID] == b.container
      invariant Pending(queue) + SizeAll(contents[i..]) <= Pending(queue0) + SizeAll(contents)
    {
      PartWellFormed(box, b.container, i);
      assert contents[..i + 1] == contents[..i] + [contents[i]] && contents[i..][1..] == contents[i + 1..];
      rows, items, queue := SaveOne(box, list, rows, items, queue, b, contents[i], contents[..i]);
    }
    assert contents[..|contents|] == contents;
    CloseOpen(box, list, rows, items, queue, b.id);
  }

  /** The state of the writer after the first `n` entries. */
  ghost predicate RootsWritten(box: nat -> bool, list: seq<Entry>, n: nat, rows: seq<Row>, items: seq<Item>, queue: seq<Block>) {
    n <= |list| && |rows| == n && Writing(box, list[..n], rows, items, queue, None, []) && AllWait(items, queue)
  }

  lemma NoRootWritten(box: nat -> bool, list: seq<Entry>)
    ensures RootsWritten(box, list, 0, [], [], [])
  {
    assert list[..0] == [];
    forall p ensures UnderOk([], [], [], [], None, [], p) {}
  }

  lemma {:induction false} NextRootWritten(box: nat -> bool, list: seq<Entry>, n: nat, rows: seq<Row>, items: seq<Item>, queue: seq<Block>)
    requires n < |list| && RootsWritten(box, list, n, rows, items, queue) && WellFormed(box, list[n].item)
    ensures var e := list[n];
            RootsWritten(box, list, n + 1, rows + [Row(e.pid, FIRST_ID + |rows|, e.item.data)], items + [e.item],
                         Enqueue(box, queue, e.item, FIRST_ID + |rows|))
  {
    var e := list[n];
    assert list[..n + 1] == list[..n] + [e];
    WriteRoot(box, list[..n], rows, items, queue, e, Row(e.pid, FIRST_ID + |rows|, e.item.data),
              Enqueue(box, queue, e.item, FIRST_ID + |rows|));
  }

  /** The first loop of `saveItems`: the entries of the list. */
  method SaveRoots(box: nat -> bool, list: seq<Entry>) returns (rows: seq<Row>, ghost items: seq<Item>, queue: seq<Block>)
    requires forall i :: 0 <= i < |list| ==> WellFormed(box, list[i].item)
    ensures Writing(box, list, rows, items, queue, None, [])
  {
    rows, items, queue := [], [], [];
    NoRootWritten(box, list);
    for i := 0 to |list|
      invariant RootsWritten(box, list, i, rows, items, queue)
    {
      NextRootWritten(box, list, i, rows, items, queue);
      var e := list[i];
      var runningId := FIRST_ID + |rows|;
      queue := Enqueue(box, queue, e.item, runningId);
      rows, items := rows + [Row(e.pid, runningId, e.item.data)], items + [e.item];
    }
    assert list[..|list|] == list;
  }

  lemma AllWritten(box: nat -> bool, list: seq<Entry>, rows: seq<Row>, items: seq<Item>)
    requires Writing(box, list, rows, items, [], None, [])
    ensures Saved(list, rows, items)
  {
    forall p ensures SavedAt(list, rows, items, p) {
      assert UnderOk(list, rows, items, [], None, [], p);
    }
  }

  /** `IOLoginData::saveItems`.  The running id of a row is 101 plus its position. */
  method SaveItems(box: nat -> bool, list: seq<Entry>) returns (rows: seq<Row>)
    requires forall i :: 0 <= i < |list| ==> WellFormed(box, list[i].item)
    ensures IsSave(box, list, rows)
  {
    ghost var items;
    var queue;
    rows, items, queue := SaveRoots(box, list);
    while queue != []
      invariant Writing(box, list, rows, items, queue, None, [])
      decreases Pending(queue)
    {
      OpenFront(box, list, rows, items, queue);
      rows, items, queue := SaveContents(box, list, rows, items, queue[1..], queue[0]);
    }
    AllWritten(box, list, rows, items);
  }

  // ----- loading ----------------------------------------------------------------------------------

  /** The contents of a root or container, as ids of the loaded item objects. */
  function ListOf(lists: map<int, seq<int>>, id: int): seq<int> {
    if id in lists then lists[id] else []
  }

  function PushFront(lists: map<int, seq<int>>, id: int, sid: int): map<int, seq<int>> {
    lists[id := [sid] + ListOf(lists, id)]
  }

  /** Ids of the rows from position `k` on whose parent is `p`, in order. */
  function IdsFrom(rows: seq<Row>, p: int, k: nat): seq<int>
    requires k <= |rows|
    decreases |rows| - k
  {
    if k == |rows| then []
    else (if rows[k].pid == p then [rows[k].sid] else []) + IdsFrom(rows, p, k + 1)
  }

  /** The ids that a loader takes for roots; an inventory slot holds a single item. */
  datatype Roots = Roots(first: int, last: int, single: bool) {
    ghost predicate Has(p: int) {
      first <= p <= last
    }
  }

  /** What a parent keeps of what is put into it: a slot keeps what comes first, the last of its rows. */
  ghost function Kept<T>(to: Roots, p: int, xs: seq<T>): seq<T> {
    if to.single && to.Has(p) && xs != [] then [xs[|xs| - 1]] else xs
  }

  ghost predicate Occupied(to: Roots, lists: map<int, seq<int>>, p: int) {
    to.single && to.Has(p) && ListOf(lists, p) != []
  }

  /** Whether a row's parent takes it: a root in range, or a row that is a container. */
  ghost predicate Adopts(box: nat -> bool, rows: seq<Row>, to: Roots, p: int) {
    to.Has(p) || exists k :: 0 <= k < |rows| && rows[k].sid == p && box(rows[k].data.itemType)
  }

  /** The map from row id to position, as `loadItems` fills it. */
  method LoadItems(rows: seq<Row>) returns (itemMap: map<int, nat>)
    requires forall i, j :: 0 <= i < j < |rows| ==> rows[i].sid < rows[j].sid
    ensures forall p :: p in itemMap ==> itemMap[p] < |rows| && rows[itemMap[p]].sid == p
    ensures forall k :: 0 <= k < |rows| ==> rows[k].sid in itemMap && itemMap[rows[k].sid] == k
  {
    itemMap := map[];
    for k := 0 to |rows|
      invariant forall p :: p in itemMap ==> itemMap[p] < k && rows[itemMap[p]].sid == p
      invariant forall i :: 0 <= i < k ==> rows[i].sid in itemMap && itemMap[rows[i].sid] == i
    {
      itemMap := itemMap[rows[k].sid := k];
    }
  }

  ghost predicate BuiltAt(box: nat -> bool, rows: seq<Row>, to: Roots, lists: map<int, seq<int>>, k: nat, p: int)
    requires k <= |rows|
  {
    ListOf(lists, p) == if Adopts(box, rows, to, p) then Kept(to, p, IdsFrom(rows, p, k)) else []
  }

  /** Rows from position `k` on have been put where they belong, in order. */
  ghost predicate Built(box: nat -> bool, rows: seq<Row>, to: Roots, lists: map<int, seq<int>>, k: nat) {
    k <= |rows| && forall p :: BuiltAt(box, rows, to, lists, k, p)
  }

  /** One more row, unless its parent is no container or an occupied slot. */
  ghost function PutRow(box: nat -> bool, rows: seq<Row>, to: Roots, lists: map<int, seq<int>>, k: nat): map<int, seq<int>>
    requires k < |rows|
  {
    var pid := rows[k].pid;
    if Adopts(box, rows, to, pid) && !Occupied(to, lists, pid) then PushFront(lists, pid, rows[k].sid) else lists
  }

  lemma BuildOne(box: nat -> bool, rows: seq<Row>, to: Roots, lists: map<int, seq<int>>, k: nat)
    requires Built(box, rows, to, lists, k + 1)
    ensures Built(box, rows, to, PutRow(box, rows, to, lists, k), k)
  {
    var lists' := PutRow(box, rows, to, lists, k);
    forall p ensures BuiltAt(box, rows, to, lists', k, p) {
      assert BuiltAt(box, rows, to, lists, k + 1, p);
    }
  }

  /**
    The rebuild loops of `loadPlayer`: from the highest id down, each item goes to the front of its root
    (inventory slots 1 to 10, which take one item each, or depots 0 to 99; the entries of an inbox all have id 0) or
    of its container.
    */
  method Rebuild(box: nat -> bool, rows: seq<Row>, to: Roots) returns (lists: map<int, seq<int>>)
    requires forall i, j :: 0 <= i < j < |rows| ==> rows[i].sid < rows[j].sid
    ensures Built(box, rows, to, lists, 0)
  {
    var itemMap := LoadItems(rows);
    lists := map[];
    assert forall p :: BuiltAt(box, rows, to, lists, |rows|, p);
    var k := |rows|;
    while k > 0
      invariant 0 <= k <= |rows|
      invariant Built(box, rows, to, lists, k)
    {
      k := k - 1;
      var pid := rows[k].pid;
      BuildOne(box, rows, to, lists, k);
      if to.first <= pid <= to.last {
        if !to.single || ListOf(lists, pid) == [] {
          lists := PushFront(lists, pid, rows[k].sid);
        }
      } else if pid in itemMap {
        if box(rows[itemMap[pid]].data.itemType) {
          lists := PushFront(lists, pid, rows[k].sid);
        }
      }
    }
  }

  // ----- what was loaded, as items --------------------------------------------------------------

  /** The item that the loader's object with id `sid` is, contents included. */
  ghost function View(rows: seq<Row>, lists: map<int, seq<int>>, sid: int): Item
    requires Numbered(rows, lists) && FIRST_ID <= sid < FIRST_ID + |rows|
    decreases FIRST_ID + |rows| - sid
  {
    var ids := ListOf(lists, sid);
    assert forall i :: 0 <= i < |ids| ==> sid < ids[i] < FIRST_ID + |rows|;
    Item(rows[sid - FIRST_ID].data, seq(|ids|, i requires 0 <= i < |ids| => View(rows, lists, ids[i])))
  }

  /** Rows carry their position, and contents come after their container. */
  ghost predicate Numbered(rows: seq<Row>, lists: map<int, seq<int>>) {
    forall p, i :: 0 <= i < |ListOf(lists, p)| ==>
      FIRST_ID <= ListOf(lists, p)[i] < FIRST_ID + |rows| && p < ListOf(lists, p)[i]
  }

  ghost function ViewAll(rows: seq<Row>, lists: map<int, seq<int>>, ids: seq<int>): seq<Item>
    requires Numbered(rows, lists) && forall i :: 0 <= i < |ids| ==> FIRST_ID <= ids[i] < FIRST_ID + |rows|
  {
    seq(|ids|, i requires 0 <= i < |ids| => View(rows, lists, ids[i]))
  }

  ghost predicate Consecutive(rows: seq<Row>) {
    forall k :: 0 <= k < |rows| ==> rows[k].sid == FIRST_ID + k
  }

  lemma {:induction false} IdsFromIsUnder(rows: seq<Row>, p: int, k: nat)
    requires Consecutive(rows) && k <= |rows|
    ensures IdsFrom(rows, p, 0) == IdsOf(Under(rows[..k], p)) + IdsFrom(rows, p, k)
    decreases k
  {
    if k > 0 {
      IdsFromIsUnder(rows, p, k - 1);
      assert rows[..k][..k - 1] == rows[..k - 1];
      var before := Under(rows[..k - 1], p);
      if rows[k - 1].pid == p {
        IdsOfNext(before, k - 1);
        ThreeInARow(IdsOf(before), FIRST_ID + k - 1, IdsFrom(rows, p, k));
      } else {
        assert Under(rows[..k], p) == before;
      }
    }
  }

  lemma IdsOfNext(ks: seq<nat>, k: nat)
    ensures IdsOf(ks + [k]) == IdsOf(ks) + [FIRST_ID + k]
  {}

  lemma ThreeInARow(a: seq<int>, x: int, b: seq<int>)
    ensures a + ([x] + b) == (a + [x]) + b
  {}

  function IdsOf(ks: seq<nat>): seq<int> {
    seq(|ks|, i requires 0 <= i < |ks| => FIRST_ID + ks[i])
  }

  lemma LoadedIds(box: nat -> bool, rows: seq<Row>, to: Roots, lists: map<int, seq<int>>, p: int)
    requires Consecutive(rows) && Built(box, rows, to, lists, 0)
    ensures ListOf(lists, p) == if Adopts(box, rows, to, p) then Kept(to, p, IdsOf(Under(rows, p))) else []
  {
    assert BuiltAt(box, rows, to, lists, 0, p);
    IdsFromIsUnder(rows, p, |rows|);
    assert rows[..|rows|] == rows;
  }

  /** No root has an id that rows have. */
  ghost predicate LowIds(list: seq<Entry>) {
    forall i :: 0 <= i < |list| ==> list[i].pid < FIRST_ID
  }

  lemma SavedConsecutive(list: seq<Entry>, rows: seq<Row>, items: seq<Item>)
    requires RowsOk(list, rows, items)
    ensures Consecutive(rows)
    ensures LowIds(list) ==> forall k :: 0 <= k < |rows| ==> rows[k].pid < FIRST_ID + k
  {
    forall k | 0 <= k < |rows| ensures rows[k].sid == FIRST_ID + k && (LowIds(list) ==> rows[k].pid < FIRST_ID + k) {
      assert RowOk(list, rows, items, k);
    }
  }

  lemma LoadedNumbered(box: nat -> bool, list: seq<Entry>, rows: seq<Row>, items: seq<Item>, to: Roots,
                       lists: map<int, seq<int>>)
    requires RowsOk(list, rows, items) && LowIds(list) && Built(box, rows, to, lists, 0)
    ensures Numbered(rows, lists)
  {
    SavedConsecutive(list, rows, items);
    forall p, i | 0 <= i < |ListOf(lists, p)|
      ensures FIRST_ID <= ListOf(lists, p)[i] < FIRST_ID + |rows| && p < ListOf(lists, p)[i]
    {
      LoadedIds(box, rows, to, lists, p);
      var k := Under(rows, p)[i];
      assert rows[k].pid == p;
    }
  }

  /** With low ids the rows under a row's id are its contents. */
  lemma Written(list: seq<Entry>, rows: seq<Row>, items: seq<Item>, k: nat)
    requires Saved(list, rows, items) && LowIds(list) && k < |rows|
    ensures ItemsUnder(rows, items, FIRST_ID + k) == items[k].items
  {
    assert SavedAt(list, rows, items, FIRST_ID + k);
    NoEntries(list, FIRST_ID + k);
  }

  /** A container's row adopts, and any other row has nothing to adopt. */
  lemma RowAdopts(box: nat -> bool, list: seq<Entry>, rows: seq<Row>, items: seq<Item>, to: Roots,
                  lists: map<int, seq<int>>, k: nat)
    requires Saved(list, rows, items) && LowIds(list) && Built(box, rows, to, lists, 0) && k < |rows|
    requires WellFormed(box, items[k])
    requires to.last < FIRST_ID
    ensures ListOf(lists, FIRST_ID + k) == IdsOf(Under(rows, FIRST_ID + k))
  {
    SavedConsecutive(list, rows, items);
    LoadedIds(box, rows, to, lists, FIRST_ID + k);
    Written(list, rows, items, k);
    assert RowOk(list, rows, items, k);
    if box(rows[k].data.itemType) {
      assert Adopts(box, rows, to, FIRST_ID + k);
    } else {
      assert |ItemsUnder(rows, items, FIRST_ID + k)| == 0;
    }
  }

  /** Every loaded object is the item its row was written for. */
  lemma {:induction false} ViewIsItem(box: nat -> bool, list: seq<Entry>, rows: seq<Row>, items: seq<Item>, to: Roots,
                                      lists: map<int, seq<int>>, k: nat)
    requires Saved(list, rows, items) && LowIds(list) && Built(box, rows, to, lists, 0) && Numbered(rows, lists) && k < |rows|
    requires AllWellFormed(box, items)
    requires to.last < FIRST_ID
    ensures View(rows, lists, FIRST_ID + k) == items[k]
    decreases |rows| - k
  {
    assert WellFormed(box, items[k]) && RowOk(list, rows, items, k);
    SavedConsecutive(list, rows, items);
    Written(list, rows, items, k);
    RowAdopts(box, list, rows, items, to, lists, k);
    var ks := Under(rows, FIRST_ID + k);
    forall i | 0 <= i < |ks| ensures View(rows, lists, FIRST_ID + ks[i]) == items[ks[i]] {
      assert rows[ks[i]].pid == FIRST_ID + k;
      ViewIsItem(box, list, rows, items, to, lists, ks[i]);
    }
    ViewUnfold(rows, lists, FIRST_ID + k);
    ViewAllIs(rows, lists, items, ks);
  }

  lemma ViewUnfold(rows: seq<Row>, lists: map<int, seq<int>>, sid: int)
    requires Numbered(rows, lists) && FIRST_ID <= sid < FIRST_ID + |rows|
    ensures View(rows, lists, sid) == Item(rows[sid - FIRST_ID].data, ViewAll(rows, lists, ListOf(lists, sid)))
  {
    assert View(rows, lists, sid).items == ViewAll(rows, lists, ListOf(lists, sid));
  }

  lemma ViewAllIs(rows: seq<Row>, lists: map<int, seq<int>>, items: seq<Item>, ks: seq<nat>)
    requires Numbered(rows, lists) && |items| == |rows|
    requires forall i :: 0 <= i < |ks| ==> ks[i] < |rows|
    requires forall i :: 0 <= i < |ks| ==> View(rows, lists, FIRST_ID + ks[i]) == items[ks[i]]
    ensures ViewAll(rows, lists, IdsOf(ks)) == At(items, ks)
  {}

  /** What the loader puts under a root id. */
  ghost function RootsOf(lists: map<int, seq<int>>, to: Roots, p: int): seq<int> {
    if to.Has(p) then ListOf(lists, p) else []
  }

  ghost predicate ShowsItems(rows: seq<Row>, lists: map<int, seq<int>>, ids: seq<int>, expected: seq<Item>) {
    && Numbered(rows, lists)
    && (forall i :: 0 <= i < |ids| ==> FIRST_ID <= ids[i] < FIRST_ID + |rows|)
    && ViewAll(rows, lists, ids) == expected
  }

  /** Under the root id there is again what was saved under it: same items, same nesting, same order. */
  ghost predicate Restored(list: seq<Entry>, rows: seq<Row>, lists: map<int, seq<int>>, to: Roots, p: int) {
    var ids := RootsOf(lists, to, p);
    if EntriesUnder(list, p) == [] then ids == [] else ShowsItems(rows, lists, ids, EntriesUnder(list, p))
  }

  /** The objects of the rows under an id show the items of these rows. */
  lemma {:induction false} ShowsUnder(box: nat -> bool, list: seq<Entry>, rows: seq<Row>, items: seq<Item>, to: Roots,
                                      lists: map<int, seq<int>>, p: int)
    requires Saved(list, rows, items) && LowIds(list) && Built(box, rows, to, lists, 0) && Numbered(rows, lists)
    requires AllWellFormed(box, items)
    requires to.last < FIRST_ID
    ensures ShowsItems(rows, lists, IdsOf(Under(rows, p)), ItemsUnder(rows, items, p))
  {
    var ks := Under(rows, p);
    forall i | 0 <= i < |ks| ensures View(rows, lists, FIRST_ID + ks[i]) == items[ks[i]] {
      ViewIsItem(box, list, rows, items, to, lists, ks[i]);
    }
    ViewAllIs(rows, lists, items, ks);
  }

  /** The round trip, when no root id collides with a row id: every root id in the loader's range is restored. */
  lemma {:induction false} RoundTrip(box: nat -> bool, list: seq<Entry>, rows: seq<Row>, items: seq<Item>, to: Roots,
                  lists: map<int, seq<int>>, p: int)
    requires Saved(list, rows, items) && LowIds(list) && Built(box, rows, to, lists, 0)
    requires AllWellFormed(box, items) && to.last < FIRST_ID
    ensures ShowsItems(rows, lists, RootsOf(lists, to, p), if to.Has(p) then Kept(to, p, EntriesUnder(list, p)) else [])
  {
    LoadedNumbered(box, list, rows, items, to, lists);
    SavedConsecutive(list, rows, items);
    if to.Has(p) {
      LoadedIds(box, rows, to, lists, p);
      ShowsUnder(box, list, rows, items, to, lists, p);
      assert SavedAt(list, rows, items, p);
      ShowsKept(rows, lists, to, p, IdsOf(Under(rows, p)), EntriesUnder(list, p));
    }
  }

  lemma ShowsKept(rows: seq<Row>, lists: map<int, seq<int>>, to: Roots, p: int, ids: seq<int>, expected: seq<Item>)
    requires ShowsItems(rows, lists, ids, expected)
    ensures ShowsItems(rows, lists, Kept(to, p, ids), Kept(to, p, expected))
  {
    assert |ViewAll(rows, lists, ids)| == |ids|;
  }

  /** Every root id is one that the loader takes, and no two items have the same slot. */
  ghost predicate HavePlaces(list: seq<Entry>, to: Roots) {
    && (forall i :: 0 <= i < |list| ==> to.Has(list[i].pid))
    && (to.single ==> forall i, j :: 0 <= i < j < |list| ==> list[i].pid != list[j].pid)
  }

  /**
    Saving and loading restores everything exactly when every root id that is used is in the loader's range and,
    for inventory slots, is used once.
    */
  lemma RestoredIffInRange(box: nat -> bool, list: seq<Entry>, rows: seq<Row>, items: seq<Item>, to: Roots,
                           lists: map<int, seq<int>>)
    requires Saved(list, rows, items) && Built(box, rows, to, lists, 0)
    requires AllWellFormed(box, items) && to.last < FIRST_ID
    ensures (forall p :: Restored(list, rows, lists, to, p)) <==> HavePlaces(list, to)
  {
    if HavePlaces(list, to) {
      forall p ensures Restored(list, rows, lists, to, p) {
        RoundTrip(box, list, rows, items, to, lists, p);
        if !to.Has(p) {
          NoEntries(list, p);
        } else if to.single {
          OneEntry(list, p);
          assert Kept(to, p, EntriesUnder(list, p)) == EntriesUnder(list, p);
        }
      }
    } else if i :| 0 <= i < |list| && !to.Has(list[i].pid) {
      SomeEntry(list, i);
      assert !Restored(list, rows, lists, to, list[i].pid);
    } else {
      var i, j :| 0 <= i < j < |list| && list[i].pid == list[j].pid;
      SecondLost(box, list, rows, items, to, lists, i, j);
    }
  }

  /** Of two items in one slot only one comes back. */
  lemma {:induction false} SecondLost(box: nat -> bool, list: seq<Entry>, rows: seq<Row>, items: seq<Item>, to: Roots,
                                      lists: map<int, seq<int>>, i: nat, j: nat)
    requires Saved(list, rows, items) && LowIds(list) && Built(box, rows, to, lists, 0)
    requires to.single && i < j < |list| && list[i].pid == list[j].pid && to.Has(list[i].pid)
    ensures |RootsOf(lists, to, list[i].pid)| == 1 && !Restored(list, rows, lists, to, list[i].pid)
  {
    var p := list[i].pid;
    TwoEntries(list, i, j);
    SavedConsecutive(list, rows, items);
    LoadedIds(box, rows, to, lists, p);
    assert SavedAt(list, rows, items, p);
    assert |IdsOf(Under(rows, p))| >= 2;
  }

  lemma {:induction false} OneEntry(list: seq<Entry>, p: int)
    requires forall i, j :: 0 <= i < j < |list| ==> list[i].pid != list[j].pid
    ensures |EntriesUnder(list, p)| <= 1
  {
    if list != [] {
      var n := |list| - 1;
      if list[n].pid == p {
        NoEntries(list[..n], p);
      } else {
        OneEntry(list[..n], p);
      }
    }
  }

  lemma {:induction false} TwoEntries(list: seq<Entry>, i: nat, j: nat)
    requires i < j < |list| && list[i].pid == list[j].pid
    ensures |EntriesUnder(list, list[i].pid)| >= 2
  {
    var n := |list| - 1;
    if j < n {
      TwoEntries(list[..n], i, j);
    } else {
      SomeEntry(list[..n], i);
    }
  }

  lemma {:induction false} NoEntries(list: seq<Entry>, p: int)
    requires forall i :: 0 <= i < |list| ==> list[i].pid != p
    ensures EntriesUnder(list, p) == []
  {
    if list != [] { NoEntries(list[..|list| - 1], p); }
  }

  lemma {:induction false} SomeEntry(list: seq<Entry>, i: nat)
    requires i < |list|
    ensures EntriesUnder(list, list[i].pid) != []
  {
    if i < |list| - 1 { SomeEntry(list[..|list| - 1], i); }
  }

  // ----- ids that rows have ------------------------------------------------------------------------

  lemma {:induction false} UnderHas(rows: seq<Row>, p: int, k: nat)
    requires k < |rows|
    ensures k in Under(rows, p) <==> rows[k].pid == p
  {
    if k < |rows| - 1 {
      UnderHas(rows[..|rows| - 1], p, k);
    } else {
      var ks := Under(rows[..|rows| - 1], p);
      assert forall i :: 0 <= i < |ks| ==> ks[i] < |rows| - 1;
    }
  }

  /** An entry whose id a row has is loaded into the item of that row, if that is a container, and lost otherwise. */
  lemma CollidingId(box: nat -> bool, list: seq<Entry>, rows: seq<Row>, items: seq<Item>, to: Roots,
                    lists: map<int, seq<int>>, i: nat)
    requires Saved(list, rows, items) && Built(box, rows, to, lists, 0) && to.last < FIRST_ID
    requires i < |list| && list[i].pid >= FIRST_ID
    ensures FIRST_ID + i in ListOf(lists, list[i].pid) <==>
              list[i].pid < FIRST_ID + |rows| && box(rows[list[i].pid - FIRST_ID].data.itemType)
  {
    var p := list[i].pid;
    SavedConsecutive(list, rows, items);
    LoadedIds(box, rows, to, lists, p);
    assert RowOk(list, rows, items, i);
    LoadedUnder(rows, p, i);
    if p < FIRST_ID + |rows| {
      assert rows[p - FIRST_ID].sid == p;
    }
  }

  lemma IdsOfHas(ks: seq<nat>, k: nat)
    ensures FIRST_ID + k in IdsOf(ks) <==> k in ks
  {
    var ids := IdsOf(ks);
    if k in ks {
      var i :| 0 <= i < |ks| && ks[i] == k;
      assert ids[i] == FIRST_ID + k;
    }
    if FIRST_ID + k in ids {
      var i :| 0 <= i < |ids| && ids[i] == FIRST_ID + k;
      assert ks[i] == k;
    }
  }

  lemma LoadedUnder(rows: seq<Row>, p: int, k: nat)
    requires k < |rows|
    ensures FIRST_ID + k in IdsOf(Under(rows, p)) <==> rows[k].pid == p
  {
    UnderHas(rows, p, k);
    IdsOfHas(Under(rows, p), k);
  }

  /** The first entry of a list under id 101: a container is loaded into itself. */
  lemma LoadedIntoItself(box: nat -> bool, list: seq<Entry>, rows: seq<Row>, items: seq<Item>, to: Roots,
                         lists: map<int, seq<int>>)
    requires Saved(list, rows, items) && Built(box, rows, to, lists, 0) && to.last < FIRST_ID
    requires list != [] && list[0].pid == FIRST_ID && box(rows[0].data.itemType)
    ensures FIRST_ID in ListOf(lists, FIRST_ID)
  {
    CollidingId(box, list, rows, items, to, lists, 0);
  }

  /** Saving a list and loading it again, as `savePlayer` and `loadPlayer` do. */
  method SaveThenLoad(box: nat -> bool, list: seq<Entry>, to: Roots)
    returns (rows: seq<Row>, lists: map<int, seq<int>>)
    requires forall i :: 0 <= i < |list| ==> WellFormed(box, list[i].item)
    requires to.last < FIRST_ID
    ensures (forall p :: Restored(list, rows, lists, to, p)) <==> HavePlaces(list, to)
  {
    rows := SaveItems(box, list);
    ghost var items :| Saved(list, rows, items) && AllWellFormed(box, items);
    SavedConsecutive(list, rows, items);
    lists := Rebuild(box, rows, to);
    RestoredIffInRange(box, list, rows, items, to, lists);
  }
}
