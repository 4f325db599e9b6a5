/**
  The byte stream of house items (src/iomapserialize.cpp:113-162, 214-232; src/item.cpp:373-724;
  src/container.cpp:104-113; src/fileloader.h:74-166).
  */
module HouseItems {
  import opened Common

  // ----- little-endian numbers --------------------------------------------------------------------

  /** `PropWriteStream::write` of a number of `n` bytes. */
  function LittleEndian(v: nat, n: nat): (b: seq<Byte>)
    ensures |b| == n
    decreases n
  {
    if n == 0 then [] else [v % 256] + LittleEndian(v / 256, n - 1)
  }

  function Number(b: seq<Byte>): nat {
    if b == [] then 0 else b[0] + 256 * Number(b[1..])
  }

  function Power256(n: nat): nat {
    if n == 0 then 1 else 256 * Power256(n - 1)
  }

  /** Every further byte counts 256 times as much as the one before it. */
  lemma {:induction false} NextByte(b: seq<Byte>, x: Byte)
    ensures Number(b + [x]) == Number(b) + x * Power256(|b|)
  {
    if b == [] {
      assert [x][1..] == [];
    } else {
      NextByte(b[1..], x);
      assert (b + [x])[1..] == b[1..] + [x];
      Scaled(x, Power256(|b| - 1));
    }
  }

  lemma Scaled(x: nat, p: nat)
    ensures 256 * (x * p) == x * (256 * p)
  {}

  lemma {:induction false} NumberWritten(v: nat, n: nat)
    requires v < Power256(n)
    ensures Number(LittleEndian(v, n)) == v
    decreases n
  {
    if n > 0 {
      NumberWritten(v / 256, n - 1);
    }
  }

  // ----- attributes ---------------------------------------------------------------------------------

  const ATTR_ACTION_ID: Byte := 4
  const ATTR_UNIQUE_ID: Byte := 5
  const ATTR_TEXT: Byte := 6
  const ATTR_DESC: Byte := 7
  const ATTR_TELE_DEST: Byte := 8
  const ATTR_DEPOT_ID: Byte := 10
  const ATTR_RUNE_CHARGES: Byte := 12
  const ATTR_HOUSEDOORID: Byte := 14
  const ATTR_COUNT: Byte := 15
  const ATTR_DURATION: Byte := 16
  const ATTR_DECAYING_STATE: Byte := 17
  const ATTR_WRITTENDATE: Byte := 18
  const ATTR_WRITTENBY: Byte := 19
  const ATTR_SLEEPERGUID: Byte := 20
  const ATTR_SLEEPSTART: Byte := 21
  const ATTR_CHARGES: Byte := 22
  const ATTR_CONTAINER_ITEMS: Byte := 23
  const ATTR_NAME: Byte := 24
  const ATTR_ARTICLE: Byte := 25
  const ATTR_PLURALNAME: Byte := 26
  const ATTR_WEIGHT: Byte := 27
  const ATTR_ATTACK: Byte := 28
  const ATTR_DEFENSE: Byte := 29
  const ATTR_EXTRADEFENSE: Byte := 30
  const ATTR_ARMOR: Byte := 31
  const ATTR_HITCHANCE: Byte := 32
  const ATTR_SHOOTRANGE: Byte := 33
  const ATTR_DECAYTO: Byte := 35
  const ATTR_WRAPID: Byte := 36
  const ATTR_STOREITEM: Byte := 37
  const ATTR_ATTACK_SPEED: Byte := 38
  const ATTR_OPENCONTAINER: Byte := 39

  /** What follows the tag of an attribute (`Item::readAttr`, `Container::readAttr`). */
  datatype Shape = EndMark | Contents | Bytes(n: nat) | String | Unknown

  /** The layout by the numbers of the tags. */
  ghost function ShapeOf(tag: Byte): Shape {
    if tag == 0 then EndMark
    else if tag == 23 then Contents
    else if tag == 12 || tag == 14 || tag == 15 || tag == 17 || tag == 32 || tag == 33 || tag == 37 || tag == 39 then Bytes(1)
    else if tag == 4 || tag == 5 || tag == 10 || tag == 22 || tag == 36 then Bytes(2)
    else if tag == 16 || tag == 18 || tag == 20 || tag == 21 || 27 <= tag <= 31 || tag == 35 || tag == 38 then Bytes(4)
    else if tag == 8 then Bytes(5)
    else if tag == 6 || tag == 7 || tag == 19 || 24 <= tag <= 26 then String
    else Unknown
  }

  /** The switch of `readAttr`. */
  method AttrShape(tag: Byte) returns (shape: Shape)
    ensures shape == ShapeOf(tag)
  {
    if tag == 0 {
      return EndMark;
    }
    if tag == ATTR_CONTAINER_ITEMS {
      return Contents;
    }
    if tag in {ATTR_COUNT, ATTR_RUNE_CHARGES, ATTR_DECAYING_STATE, ATTR_HITCHANCE, ATTR_SHOOTRANGE, ATTR_STOREITEM,
               ATTR_OPENCONTAINER, ATTR_HOUSEDOORID} {
      return Bytes(1);
    }
    if tag in {ATTR_ACTION_ID, ATTR_UNIQUE_ID, ATTR_CHARGES, ATTR_WRAPID, ATTR_DEPOT_ID} {
      return Bytes(2);
    }
    if tag in {ATTR_WRITTENDATE, ATTR_DURATION, ATTR_WEIGHT, ATTR_ATTACK, ATTR_ATTACK_SPEED, ATTR_DEFENSE, ATTR_EXTRADEFENSE,
               ATTR_ARMOR, ATTR_DECAYTO, ATTR_SLEEPERGUID, ATTR_SLEEPSTART} {
      return Bytes(4);
    }
    if tag == ATTR_TELE_DEST {
      return Bytes(5);
    }
    if tag in {ATTR_TEXT, ATTR_WRITTENBY, ATTR_DESC, ATTR_NAME, ATTR_ARTICLE, ATTR_PLURALNAME} {
      return String;
    }
    return Unknown;
  }

  datatype Attr = Fixed(tag: Byte, bytes: seq<Byte>) | Text(tag: Byte, chars: seq<Byte>)

  ghost predicate AttrOk(a: Attr) {
    match a
    case Fixed(tag, bytes) => ShapeOf(tag) == Bytes(|bytes|)
    case Text(tag, _) => ShapeOf(tag) == String
  }

  /** `PropWriteStream::writeString`: a string that is too long is written as an empty one. */
  ghost function WrittenString(chars: seq<Byte>): seq<Byte> {
    if |chars| > 0xFFFF then LittleEndian(0, 2) else LittleEndian(|chars|, 2) + chars
  }

  ghost function WrittenAttr(a: Attr): seq<Byte> {
    match a
    case Fixed(tag, bytes) => [tag] + bytes
    case Text(tag, chars) => [tag] + WrittenString(chars)
  }

  ghost function WrittenAttrs(attrs: seq<Attr>): seq<Byte> {
    if attrs == [] then [] else WrittenAttr(attrs[0]) + WrittenAttrs(attrs[1..])
  }

  /** The outcome of `unserializeAttr`: the attributes, and how many items follow for a container. */
  datatype Attributes = Broken | Attributes(attrs: seq<Attr>, count: nat, rest: seq<Byte>)

  ghost function Prepend(a: Attr, r: Attributes): Attributes {
    match r
    case Broken => Broken
    case Attributes(attrs, count, rest) => Attributes([a] + attrs, count, rest)
  }

  /** `PropStream::readString`: the string and what is left. */
  function ReadString(r: seq<Byte>): (s: Option<(seq<Byte>, seq<Byte>)>)
    ensures s == None <==> |r| < 2 || |r| - 2 < Number(r[..2])
    ensures s.Some? ==> r == r[..2] + s.value.0 + s.value.1 && |s.value.0| == Number(r[..2])
  {
    if |r| < 2 then None
    else
      var n := Number(r[..2]);
      if |r| - 2 < n then None else Some((r[2..2 + n], r[2 + n..]))
  }

  ghost function ReadAttrs(box: bool, b: seq<Byte>): (r: Attributes)
    ensures r.Attributes? ==> |r.rest| <= |b|
    decreases |b|
  {
    if b == [] then Attributes([], 0, [])
    else
      var tag, r := b[0], b[1..];
      match ShapeOf(tag)
      case EndMark => Attributes([], 0, r)
      case Contents => if !box || |r| < 4 then Broken else Attributes([], Number(r[..4]), r[4..])
      case Bytes(n) => if |r| < n then Broken else Prepend(Fixed(tag, r[..n]), ReadAttrs(box, r[n..]))
      case String =>
        (match ReadString(r)
         case None => Broken
         case Some((chars, rest)) => Prepend(Text(tag, chars), ReadAttrs(box, rest)))
      case Unknown => Broken
  }

  lemma ReadFixed(box: bool, tag: Byte, bytes: seq<Byte>, rest: seq<Byte>, b: seq<Byte>)
    requires ShapeOf(tag) == Bytes(|bytes|) && b == [tag] + (bytes + rest)
    ensures ReadAttrs(box, b) == Prepend(Fixed(tag, bytes), ReadAttrs(box, rest))
  {
    var r := b[1..];
    assert r == bytes + rest;
    assert r[..|bytes|] == bytes && r[|bytes|..] == rest;
  }

  lemma LengthWritten(n: nat)
    requires n <= 0xFFFF
    ensures Number(LittleEndian(n, 2)) == n
  {
    assert Power256(2) == 65536 by { assert Power256(1) == 256; }
    NumberWritten(n, 2);
  }

  lemma StringRead(len: seq<Byte>, chars: seq<Byte>, rest: seq<Byte>, r: seq<Byte>)
    requires |len| == 2 && Number(len) == |chars| && r == len + (chars + rest)
    ensures ReadString(r) == Some((chars, rest))
  {
    assert r == len + chars + rest;
    assert r[..2] == len && r[2..2 + |chars|] == chars && r[2 + |chars|..] == rest;
  }

  lemma ReadText(box: bool, tag: Byte, chars: seq<Byte>, rest: seq<Byte>, b: seq<Byte>)
    requires ShapeOf(tag) == String && |chars| <= 0xFFFF && b == [tag] + (LittleEndian(|chars|, 2) + (chars + rest))
    ensures ReadAttrs(box, b) == Prepend(Text(tag, chars), ReadAttrs(box, rest))
  {
    LengthWritten(|chars|);
    assert b[1..] == LittleEndian(|chars|, 2) + (chars + rest);
    StringRead(LittleEndian(|chars|, 2), chars, rest, b[1..]);
    ReadTextStep(box, b, chars, rest);
  }

  lemma ReadTextStep(box: bool, b: seq<Byte>, chars: seq<Byte>, rest: seq<Byte>)
    requires b != [] && ShapeOf(b[0]) == String && ReadString(b[1..]) == Some((chars, rest))
    ensures ReadAttrs(box, b) == Prepend(Text(b[0], chars), ReadAttrs(box, rest))
  {}

  /** What is read back of an attribute: the attribute, but a string that was too long comes back empty. */
  ghost function ReadBack(a: Attr): Attr {
    if a.Text? && |a.chars| > 0xFFFF then a.(chars := []) else a
  }

  lemma ReadOne(box: bool, a: Attr, rest: seq<Byte>, b: seq<Byte>)
    requires AttrOk(a) && b == WrittenAttr(a) + rest
    ensures ReadAttrs(box, b) == Prepend(ReadBack(a), ReadAttrs(box, rest))
  {
    match a
    case Fixed(tag, bytes) =>
      assert b == [tag] + (bytes + rest);
      ReadFixed(box, tag, bytes, rest, b);
    case Text(tag, chars) =>
      var s := ReadBack(a).chars;
      StringWritten(chars, s);
      ThreeParts([tag], LittleEndian(|s|, 2), s, rest);
      ReadText(box, tag, s, rest, b);
  }

  lemma StringWritten(chars: seq<Byte>, s: seq<Byte>)
    requires s == if |chars| > 0xFFFF then [] else chars
    ensures WrittenString(chars) == LittleEndian(|s|, 2) + s
  {}

  lemma ThreeParts(a: seq<Byte>, b: seq<Byte>, c: seq<Byte>, rest: seq<Byte>)
    ensures a + (b + c) + rest == a + (b + (c + rest))
  {}

  /** A string attribute survives exactly when its length fits in 16 bits. */
  lemma StringSurvivesIff(box: bool, tag: Byte, chars: seq<Byte>, rest: seq<Byte>)
    requires ShapeOf(tag) == String && ReadAttrs(box, rest).Attributes?
    ensures ReadAttrs(box, WrittenAttr(Text(tag, chars)) + rest) == Prepend(Text(tag, chars), ReadAttrs(box, rest))
            <==> |chars| <= 0xFFFF
  {
    ReadOne(box, Text(tag, chars), rest, WrittenAttr(Text(tag, chars)) + rest);
    var after := ReadAttrs(box, rest);
    assert Prepend(Text(tag, chars), after).attrs[0] == Text(tag, chars);
    assert Prepend(ReadBack(Text(tag, chars)), after).attrs[0] == ReadBack(Text(tag, chars));
  }

  ghost predicate AttrsOk(attrs: seq<Attr>) {
    forall i :: 0 <= i < |attrs| ==> AttrOk(attrs[i]) && (attrs[i].Text? ==> |attrs[i].chars| <= 0xFFFF)
  }

  ghost function PrependAll(attrs: seq<Attr>, r: Attributes): Attributes {
    match r
    case Broken => Broken
    case Attributes(more, count, rest) => Attributes(attrs + more, count, rest)
  }

  lemma {:induction false} ReadAll(box: bool, attrs: seq<Attr>, rest: seq<Byte>, b: seq<Byte>)
    requires AttrsOk(attrs) && b == WrittenAttrs(attrs) + rest
    ensures ReadAttrs(box, b) == PrependAll(attrs, ReadAttrs(box, rest))
    decreases |attrs|
  {
    var after := ReadAttrs(box, rest);
    if attrs == [] {
      assert b == rest;
      PrependNone(after);
    } else {
      var a, more := attrs[0], attrs[1..];
      var b' := WrittenAttrs(more) + rest;
      SplitAttrs(attrs, rest);
      ReadOne(box, a, b', b);
      ReadAll(box, more, rest, b');
      PrependMore(a, more, after);
      assert [a] + more == attrs;
    }
  }

  lemma SplitAttrs(attrs: seq<Attr>, rest: seq<Byte>)
    requires attrs != []
    ensures WrittenAttrs(attrs) + rest == WrittenAttr(attrs[0]) + (WrittenAttrs(attrs[1..]) + rest)
  {}

  lemma PrependNone(r: Attributes)
    ensures PrependAll([], r) == r
  {
    if r.Attributes? { assert [] + r.attrs == r.attrs; }
  }

  lemma PrependMore(a: Attr, more: seq<Attr>, r: Attributes)
    ensures Prepend(a, PrependAll(more, r)) == PrependAll([a] + more, r)
  {
    if r.Attributes? { assert [a] + (more + r.attrs) == [a] + more + r.attrs; }
  }

  // ----- items --------------------------------------------------------------------------------------

  datatype Item = Item(id: nat, attrs: seq<Attr>, items: seq<Item>)

  /** The item types: which ids exist, and which of them are containers. */
  datatype Catalogue = Catalogue(known: nat -> bool, box: nat -> bool)

  ghost predicate WellFormed(c: Catalogue, item: Item) {
    && item.id < 65536 && c.known(item.id)
    && AttrsOk(item.attrs)
    && (item.items != [] ==> c.box(item.id))
    && |item.items| < Power256(4)
    && AllWellFormed(c, item.items)
  }

  ghost predicate AllWellFormed(c: Catalogue, items: seq<Item>) {
    forall i {:trigger WellFormed(c, items[i])} :: 0 <= i < |items| ==> WellFormed(c, items[i])
  }

  /** `saveItem`: contents are written from the back. */
  ghost function WrittenItem(c: Catalogue, item: Item): seq<Byte>
    decreases item, 1
  {
    LittleEndian(item.id, 2) + WrittenAttrs(item.attrs)
    + (if c.box(item.id)
       then [ATTR_CONTAINER_ITEMS] + LittleEndian(|item.items|, 4) + WrittenItems(c, item.items) else [])
    + [0]
  }

  ghost function WrittenItems(c: Catalogue, items: seq<Item>): seq<Byte>
    decreases items, 0
  {
    if items == [] then []
    else WrittenItem(c, items[|items| - 1]) + WrittenItems(c, items[..|items| - 1])
  }

  /** What was read: the items to add (none for an id that no longer exists), and what is left. */
  datatype Loaded = Failed | Loaded(items: seq<Item>, rest: seq<Byte>)

  /** `loadItem` into a container. */
  ghost function ReadItem(c: Catalogue, b: seq<Byte>): (r: Loaded)
    ensures r.Loaded? ==> |r.rest| < |b|
    decreases |b|, 0
  {
    if |b| < 2 then Failed
    else
      var id := Number(b[..2]);
      if !c.known(id) then Loaded([], b[2..])
      else
        match ReadAttrs(c.box(id), b[2..])
        case Broken => Failed
        case Attributes(attrs, count, rest) =>
          if !c.box(id) then Loaded([Item(id, attrs, [])], rest)
          else
            match ReadItems(c, rest, count)
            case Failed => Failed
            case Loaded(items, rest2) =>
              if rest2 == [] || rest2[0] != 0 then Failed else Loaded([Item(id, attrs, items)], rest2[1..])
  }

  /** `loadContainer`: each item read goes to the front. */
  ghost function ReadItems(c: Catalogue, b: seq<Byte>, n: nat): (r: Loaded)
    ensures r.Loaded? ==> |r.rest| <= |b|
    decreases |b|, 1
  {
    if n == 0 then Loaded([], b)
    else
      match ReadItem(c, b)
      case Failed => Failed
      case Loaded(xs, rest) =>
        match ReadItems(c, rest, n - 1)
        case Failed => Failed
        case Loaded(ys, rest2) => Loaded(ys + xs, rest2)
  }

  // ----- the round trip -------------------------------------------------------------------------------

  /** The bytes of an item after its attributes. */
  ghost function Tail(c: Catalogue, item: Item, suffix: seq<Byte>): seq<Byte> {
    if c.box(item.id)
    then [ATTR_CONTAINER_ITEMS] + (LittleEndian(|item.items|, 4) + (WrittenItems(c, item.items) + ([0] + suffix)))
    else [0] + suffix
  }

  lemma SplitHead(c: Catalogue, item: Item, suffix: seq<Byte>, b: seq<Byte>)
    requires item.id < 65536 && b == WrittenItem(c, item) + suffix
    ensures |b| >= 2 && Number(b[..2]) == item.id && b[2..] == WrittenAttrs(item.attrs) + Tail(c, item, suffix)
  {
    assert Power256(2) == 65536 by { assert Power256(1) == 256; }
    NumberWritten(item.id, 2);
    var id, attrs := LittleEndian(item.id, 2), WrittenAttrs(item.attrs);
    Regroup(id, attrs,
            if c.box(item.id)
            then [ATTR_CONTAINER_ITEMS] + LittleEndian(|item.items|, 4) + WrittenItems(c, item.items) else [],
            suffix, b);
    if c.box(item.id) {
      Regroup3(LittleEndian(|item.items|, 4), WrittenItems(c, item.items), suffix);
    } else {
      assert [] + ([0] + suffix) == [0] + suffix;
    }
  }

  lemma Regroup(id: seq<Byte>, attrs: seq<Byte>, contents: seq<Byte>, suffix: seq<Byte>, b: seq<Byte>)
    requires |id| == 2 && b == id + attrs + contents + [0] + suffix
    ensures |b| >= 2 && b[..2] == id && b[2..] == attrs + (contents + ([0] + suffix))
  {
    assert b == id + (attrs + (contents + ([0] + suffix)));
  }

  lemma Regroup3(count: seq<Byte>, items: seq<Byte>, suffix: seq<Byte>)
    ensures [ATTR_CONTAINER_ITEMS] + count + items + ([0] + suffix)
            == [ATTR_CONTAINER_ITEMS] + (count + (items + ([0] + suffix)))
  {}

  lemma ReadCount(count: nat, after: seq<Byte>, b: seq<Byte>)
    requires count < Power256(4) && b == [ATTR_CONTAINER_ITEMS] + (LittleEndian(count, 4) + after)
    ensures ReadAttrs(true, b) == Attributes([], count, after)
  {
    NumberWritten(count, 4);
    var r := b[1..];
    assert r == LittleEndian(count, 4) + after;
    assert r[..4] == LittleEndian(count, 4) && r[4..] == after;
  }

  lemma ReadEnd(box: bool, suffix: seq<Byte>)
    ensures ReadAttrs(box, [0] + suffix) == Attributes([], 0, suffix)
  {
    assert ([0] + suffix)[1..] == suffix;
  }

  /** Reading what was written gives the item back and leaves exactly what followed. */
  lemma {:induction false} ReadWritten(c: Catalogue, item: Item, suffix: seq<Byte>, b: seq<Byte>)
    requires WellFormed(c, item) && b == WrittenItem(c, item) + suffix
    ensures ReadItem(c, b) == Loaded([item], suffix)
    decreases item, 1
  {
    SplitHead(c, item, suffix, b);
    ReadAll(c.box(item.id), item.attrs, Tail(c, item, suffix), b[2..]);
    if c.box(item.id) {
      var after := WrittenItems(c, item.items) + ([0] + suffix);
      ReadCount(|item.items|, after, Tail(c, item, suffix));
      ReadWrittenAll(c, item.items, [0] + suffix, after);
      AttributesOf(item.attrs, |item.items|, after);
      assert ([0] + suffix)[1..] == suffix;
    } else {
      ReadEnd(false, suffix);
      AttributesOf(item.attrs, 0, suffix);
    }
  }

  lemma AttributesOf(attrs: seq<Attr>, count: nat, rest: seq<Byte>)
    ensures PrependAll(attrs, Attributes([], count, rest)) == Attributes(attrs, count, rest)
  {
    assert attrs + [] == attrs;
  }

  lemma {:induction false} ReadWrittenAll(c: Catalogue, items: seq<Item>, suffix: seq<Byte>, b: seq<Byte>)
    requires AllWellFormed(c, items) && b == WrittenItems(c, items) + suffix
    ensures ReadItems(c, b, |items|) == Loaded(items, suffix)
    decreases items, 0
  {
    if items == [] {
      assert b == suffix;
    } else {
      var front, last := items[..|items| - 1], items[|items| - 1];
      var b' := WrittenItems(c, front) + suffix;
      assert WellFormed(c, items[|items| - 1]);
      SplitItems(c, items, suffix);
      ReadWritten(c, last, b', b);
      FrontWellFormed(c, items);
      ReadWrittenAll(c, front, suffix, b');
      ReadItemsStep(c, b, |items|, [last], b', front, suffix);
      FrontAndLast(items);
    }
  }

  lemma SplitItems(c: Catalogue, items: seq<Item>, suffix: seq<Byte>)
    requires items != []
    ensures WrittenItems(c, items) + suffix
            == WrittenItem(c, items[|items| - 1]) + (WrittenItems(c, items[..|items| - 1]) + suffix)
  {}

  lemma ReadItemsStep(c: Catalogue, b: seq<Byte>, n: nat, xs: seq<Item>, rest: seq<Byte>, ys: seq<Item>, rest2: seq<Byte>)
    requires n >= 1 && ReadItem(c, b) == Loaded(xs, rest) && ReadItems(c, rest, n - 1) == Loaded(ys, rest2)
    ensures ReadItems(c, b, n) == Loaded(ys + xs, rest2)
  {}

  lemma FrontAndLast(items: seq<Item>)
    requires items != []
    ensures items[..|items| - 1] + [items[|items| - 1]] == items
  {}

  lemma FrontWellFormed(c: Catalogue, items: seq<Item>)
    requires AllWellFormed(c, items) && items != []
    ensures AllWellFormed(c, items[..|items| - 1])
  {
    var front := items[..|items| - 1];
    forall i | 0 <= i < |front| ensures WellFormed(c, front[i]) {
      assert WellFormed(c, items[i]);
    }
  }

  // ----- the streams ----------------------------------------------------------------------------------

  class PropWriteStream {
    var buffer: seq<Byte>

    constructor ()
      ensures buffer == []
    {
      buffer := [];
    }

    method Write(v: nat, n: nat)
      modifies this
      ensures buffer == old(buffer) + LittleEndian(v, n)
    {
      buffer := buffer + LittleEndian(v, n);
    }

    method WriteString(chars: seq<Byte>)
      modifies this
      ensures buffer == old(buffer) + WrittenString(chars)
    {
      if |chars| > 0xFFFF {
        Write(0, 2);
        return;
      }
      Write(|chars|, 2);
      buffer := buffer + chars;
    }

    method WriteAttr(a: Attr)
      modifies this
      ensures buffer == old(buffer) + WrittenAttr(a)
    {
      buffer := buffer + [a.tag];
      match a
      case Fixed(_, bytes) => buffer := buffer + bytes;
      case Text(_, chars) => WriteString(chars);
    }
  }

  class PropStream {
    var unread: seq<Byte>

    constructor (b: seq<Byte>)
      ensures unread == b
    {
      unread := b;
    }

    /** `read` of a number of `n` bytes: the position moves only if there are enough. */
    method Read(n: nat) returns (v: Option<nat>)
      modifies this
      ensures old(|unread|) < n ==> v == None && unread == old(unread)
      ensures old(|unread|) >= n ==> v == Some(Number(old(unread)[..n])) && unread == old(unread)[n..]
    {
      if |unread| < n {
        return None;
      }
      v := Some(Number(unread[..n]));
      unread := unread[n..];
    }
  }

  /** `IOMapSerialize::saveItem`. */
  method SaveItem(c: Catalogue, stream: PropWriteStream, item: Item)
    modifies stream
    ensures stream.buffer == old(stream.buffer) + WrittenItem(c, item)
    decreases item, 1
  {
    stream.Write(item.id, 2);
    SaveAttrs(stream, item.attrs);
    if c.box(item.id) {
      stream.buffer := stream.buffer + [ATTR_CONTAINER_ITEMS];
      stream.Write(|item.items|, 4);
      SaveContents(c, stream, item.items);
    }
    stream.buffer := stream.buffer + [0];
    AppendFive(old(stream.buffer), LittleEndian(item.id, 2), WrittenAttrs(item.attrs), [ATTR_CONTAINER_ITEMS],
               LittleEndian(|item.items|, 4), WrittenItems(c, item.items));
  }

  lemma AppendFive(buffer: seq<Byte>, id: seq<Byte>, attrs: seq<Byte>, tag: seq<Byte>, count: seq<Byte>, items: seq<Byte>)
    ensures buffer + id + attrs + tag + count + items + [0] == buffer + (id + attrs + (tag + count + items) + [0])
    ensures buffer + id + attrs + [0] == buffer + (id + attrs + [] + [0])
  {}

  /** The loop of `saveItem` over the contents, from the back. */
  method SaveContents(c: Catalogue, stream: PropWriteStream, items: seq<Item>)
    modifies stream
    ensures stream.buffer == old(stream.buffer) + WrittenItems(c, items)
    decreases items, 0
  {
    var i := |items|;
    assert items[..i] == items;
    while i > 0
      invariant 0 <= i <= |items|
      invariant stream.buffer + WrittenItems(c, items[..i]) == old(stream.buffer) + WrittenItems(c, items)
    {
      i := i - 1;
      assert items[..i + 1][..i] == items[..i];
      SplitItems(c, items[..i + 1], []);
      Join(stream.buffer, WrittenItem(c, items[i]), WrittenItems(c, items[..i]), WrittenItems(c, items[..i + 1]));
      SaveItem(c, stream, items[i]);
    }
    assert WrittenItems(c, items[..0]) == [];
  }

  lemma Join(buffer: seq<Byte>, first: seq<Byte>, more: seq<Byte>, all: seq<Byte>)
    requires all + [] == first + (more + [])
    ensures buffer + all == (buffer + first) + more
  {
    assert all == all + [] && more == more + [];
  }

  method SaveAttrs(stream: PropWriteStream, attrs: seq<Attr>)
    modifies stream
    ensures stream.buffer == old(stream.buffer) + WrittenAttrs(attrs)
  {
    assert attrs[0..] == attrs;
    for i := 0 to |attrs|
      invariant stream.buffer + WrittenAttrs(attrs[i..]) == old(stream.buffer) + WrittenAttrs(attrs)
    {
      assert attrs[i..][1..] == attrs[i + 1..];
      SplitAttrs(attrs[i..], []);
      Join(stream.buffer, WrittenAttr(attrs[i]), WrittenAttrs(attrs[i + 1..]), WrittenAttrs(attrs[i..]));
      stream.WriteAttr(attrs[i]);
    }
    assert WrittenAttrs(attrs[|attrs|..]) == [];
  }

  /** `Item::unserializeAttr`. */
  method UnserializeAttr(stream: PropStream, box: bool) returns (ok: bool, attrs: seq<Attr>, count: nat)
    modifies stream
    ensures ok <==> ReadAttrs(box, old(stream.unread)).Attributes?
    ensures ok ==> ReadAttrs(box, old(stream.unread)) == Attributes(attrs, count, stream.unread)
  {
    attrs, count := [], 0;
    ghost var answer := ReadAttrs(box, stream.unread);
    while stream.unread != []
      invariant answer == PrependAll(attrs, ReadAttrs(box, stream.unread))
      decreases |stream.unread|
    {
      var tag := stream.unread[0];
      stream.unread := stream.unread[1..];
      var shape := AttrShape(tag);
      match shape
      case EndMark =>
        AttributesOf(attrs, 0, stream.unread);
        return true, attrs, 0;
      case Contents =>
        if !box {
          return false, attrs, 0;
        }
        var n := stream.Read(4);
        if n == None {
          return false, attrs, 0;
        }
        AttributesOf(attrs, n.value, stream.unread);
        return true, attrs, n.value;
      case Bytes(n) =>
        if |stream.unread| < n {
          return false, attrs, 0;
        }
        PrependNext(attrs, Fixed(tag, stream.unread[..n]), ReadAttrs(box, stream.unread[n..]));
        attrs := attrs + [Fixed(tag, stream.unread[..n])];
        stream.unread := stream.unread[n..];
      case String =>
        var s := ReadString(stream.unread);
        if s == None {
          return false, attrs, 0;
        }
        PrependNext(attrs, Text(tag, s.value.0), ReadAttrs(box, s.value.1));
        attrs := attrs + [Text(tag, s.value.0)];
        stream.unread := s.value.1;
      case Unknown =>
        return false, attrs, 0;
    }
    AttributesOf(attrs, 0, []);
    return true, attrs, 0;
  }

  lemma PrependNext(attrs: seq<Attr>, a: Attr, r: Attributes)
    ensures PrependAll(attrs, Prepend(a, r)) == PrependAll(attrs + [a], r)
  {
    if r.Attributes? { assert attrs + ([a] + r.attrs) == attrs + [a] + r.attrs; }
  }

  /** `IOMapSerialize::loadItem` into a container: the items to add, or None after an error. */
  method LoadItem(c: Catalogue, stream: PropStream) returns (items: Option<seq<Item>>)
    modifies stream
    ensures items == None <==> ReadItem(c, old(stream.unread)) == Failed
    ensures items.Some? ==> ReadItem(c, old(stream.unread)) == Loaded(items.value, stream.unread)
    decreases |stream.unread|, 0
  {
    var id := stream.Read(2);
    if id == None {
      return None;
    }
    if !c.known(id.value) {
      return Some([]);
    }
    var ok, attrs, count := UnserializeAttr(stream, c.box(id.value));
    if !ok {
      return None;
    }
    if !c.box(id.value) {
      return Some([Item(id.value, attrs, [])]);
    }
    var contents := LoadContainer(c, stream, count);
    if contents == None {
      return None;
    }
    var endAttr := stream.Read(1);
    if endAttr == None || endAttr.value != 0 {
      return None;
    }
    return Some([Item(id.value, attrs, contents.value)]);
  }

  /** The loop of `loadContainer`. */
  method LoadContainer(c: Catalogue, stream: PropStream, serializationCount: nat) returns (items: Option<seq<Item>>)
    modifies stream
    ensures items == None <==> ReadItems(c, old(stream.unread), serializationCount) == Failed
    ensures items.Some? ==> ReadItems(c, old(stream.unread), serializationCount) == Loaded(items.value, stream.unread)
    decreases |stream.unread|, 1
  {
    var list: seq<Item> := [];
    var left := serializationCount;
    ghost var answer := ReadItems(c, stream.unread, left);
    AndThenNone(answer);
    while left > 0
      invariant answer == AndThen(ReadItems(c, stream.unread, left), list)
      invariant |stream.unread| <= old(|stream.unread|)
      decreases left
    {
      ghost var b := stream.unread;
      var more := LoadItem(c, stream);
      if more == None {
        return None;
      }
      ghost var rest := stream.unread;
      OneMore(c, b, left, more.value, rest, list);
      list, left := more.value + list, left - 1;
      assert AndThen(ReadItems(c, rest, left), list) == answer;
    }
    return Some(list);
  }

  /** Items read first end up behind the ones read later. */
  ghost function AndThen(r: Loaded, list: seq<Item>): Loaded {
    match r
    case Failed => Failed
    case Loaded(items, rest) => Loaded(items + list, rest)
  }

  lemma AndThenNone(r: Loaded)
    ensures AndThen(r, []) == r
  {
    if r.Loaded? { assert r.items + [] == r.items; }
  }

  /** Reading one item, and then the others in front of it. */
  lemma OneMore(c: Catalogue, b: seq<Byte>, n: nat, xs: seq<Item>, rest: seq<Byte>, list: seq<Item>)
    requires n >= 1 && ReadItem(c, b) == Loaded(xs, rest)
    ensures AndThen(ReadItems(c, b, n), list) == AndThen(ReadItems(c, rest, n - 1), xs + list)
  {
    assert ReadItems(c, b, n) == AndThen(ReadItems(c, rest, n - 1), xs);
    AndThenMore(ReadItems(c, rest, n - 1), xs, list);
  }

  lemma AndThenMore(r: Loaded, xs: seq<Item>, list: seq<Item>)
    ensures AndThen(AndThen(r, xs), list) == AndThen(r, xs + list)
  {
    if r.Loaded? { assert r.items + xs + list == r.items + (xs + list); }
  }
}
