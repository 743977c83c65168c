/** The canonical JSON text that is hashed for every demand checkpoint (demandHash in
    apps/game-api/src/demand-store.ts), over UTF-16 units. */
module DemandHash {
  import opened Outcomes
  import opened TextOrder
  import opened Sorting

  /** `Other` stands for everything that has no canonical text: undefined, functions, symbols, fractions. */
  datatype Json =
    | Null
    | Bool(b: bool)
    | Number(n: int)
    | Str(s: Text)
    | Array(items: seq<Json>)
    | Object(members: Members)
    | Other

  datatype Members = NoMembers | Member(key: Text, value: Json, rest: Members)

  datatype Entry = Entry(key: Text, value: Json)

  const MAX_SAFE := 9007199254740991

  const QUOTE: nat := 34
  const COMMA: nat := 44
  const MINUS: nat := 45
  const COLON: nat := 58
  const OPEN_BRACKET: nat := 91
  const BACKSLASH: nat := 92
  const CLOSE_BRACKET: nat := 93
  const OPEN_BRACE: nat := 123
  const CLOSE_BRACE: nat := 125

  function Size(v: Json): nat
    decreases v, 0
  {
    match v
    case Array(items) => 1 + SizeOfItems(items)
    case Object(members) => 1 + SizeOfMembers(members)
    case _ => 1
  }

  function SizeOfItems(items: seq<Json>): nat
    decreases items, 1
  {
    if items == [] then 0 else 1 + Size(items[0]) + SizeOfItems(items[1..])
  }

  function SizeOfMembers(members: Members): nat
    decreases members, 1
  {
    match members case NoMembers => 0 case Member(_, value, rest) => 1 + Size(value) + SizeOfMembers(rest)
  }

  // ------------------------------------------------------------------ strings and numbers

  predicate IsHigh(u: nat) { 0xD800 <= u < 0xDC00 }

  predicate IsLow(u: nat) { 0xDC00 <= u < 0xE000 }

  function EscapeUnit(u: nat): Text {
    if u == QUOTE then [BACKSLASH, QUOTE]
    else if u == BACKSLASH then [BACKSLASH, BACKSLASH]
    else if u == 8 then [BACKSLASH, 98]
    else if u == 12 then [BACKSLASH, 102]
    else if u == 10 then [BACKSLASH, 110]
    else if u == 13 then [BACKSLASH, 114]
    else if u == 9 then [BACKSLASH, 116]
    else if u < 32 || IsHigh(u) || IsLow(u) then
      [BACKSLASH, 117, HexDigit(u / 16 / 16 / 16 % 16), HexDigit(u / 16 / 16 % 16), HexDigit(u / 16 % 16),
          HexDigit(u % 16)]
    else [u]
  }

  /** Surrogate pairs stay as they are, a lone surrogate is escaped. */
  function Escaped(s: Text): Text {
    if s == [] then []
    else if IsHigh(s[0]) && 1 < |s| && IsLow(s[1]) then s[..2] + Escaped(s[2..])
    else EscapeUnit(s[0]) + Escaped(s[1..])
  }

  /** `JSON.stringify` of a string */
  function Quoted(s: Text): Text {
    [QUOTE] + Escaped(s) + [QUOTE]
  }

  function NumberText(n: int): Text {
    if n < 0 then [MINUS] + Decimal(-n) else Decimal(n)
  }

  const NULL_TEXT: Text := [110, 117, 108, 108]
  const TRUE_TEXT: Text := [116, 114, 117, 101]
  const FALSE_TEXT: Text := [102, 97, 108, 115, 101]

  // ------------------------------------------------------------------ the canonical text

  function EntriesOf(members: Members): (entries: seq<Entry>)
    ensures forall e :: e in entries ==> Size(e.value) < SizeOfMembers(members)
  {
    match members
    case NoMembers => []
    case Member(key, value, rest) => [Entry(key, value)] + EntriesOf(rest)
  }

  predicate ByKey(a: Entry, b: Entry) {
    AtMost(a.key, b.key)
  }

  function SortedEntries(members: Members): (entries: seq<Entry>)
    ensures forall e :: e in entries ==> Size(e.value) < SizeOfMembers(members)
  {
    SortPermutes(EntriesOf(members), ByKey);
    Sort(EntriesOf(members), ByKey)
  }

  function Join(parts: seq<Text>): Text {
    if parts == [] then [] else if |parts| == 1 then parts[0] else parts[0] + [COMMA] + Join(parts[1..])
  }

  /** The canonical text of a value; None where the source throws. */
  function Canonical(v: Json): Option<Text>
    decreases Size(v), 0
  {
    match v
    case Null => Some(NULL_TEXT)
    case Bool(b) => Some(if b then TRUE_TEXT else FALSE_TEXT)
    case Number(n) => if -MAX_SAFE <= n <= MAX_SAFE then Some(NumberText(n)) else None
    case Str(s) => Some(Quoted(s))
    case Array(items) =>
      var parts := ItemTexts(items);
      if parts.None? then None else Some([OPEN_BRACKET] + Join(parts.value) + [CLOSE_BRACKET])
    case Object(members) =>
      var parts := EntryTexts(SortedEntries(members), SizeOfMembers(members));
      if parts.None? then None else Some([OPEN_BRACE] + Join(parts.value) + [CLOSE_BRACE])
    case Other => None
  }

  function ItemTexts(items: seq<Json>): (texts: Option<seq<Text>>)
    ensures texts.Some? ==> |texts.value| == |items|
    decreases SizeOfItems(items), 1
  {
    if items == [] then Some([])
    else
      var first, rest := Canonical(items[0]), ItemTexts(items[1..]);
      if first.None? || rest.None? then None else Some([first.value] + rest.value)
  }

  function EntryTexts(entries: seq<Entry>, bound: nat): (texts: Option<seq<Text>>)
    requires forall e :: e in entries ==> Size(e.value) < bound
    ensures texts.Some? ==> |texts.value| == |entries|
    decreases bound, 1, |entries|
  {
    if entries == [] then Some([])
    else
      var first, rest := Canonical(entries[0].value), EntryTexts(entries[1..], bound);
      if first.None? || rest.None? then None
      else Some([Quoted(entries[0].key) + [COLON] + first.value] + rest.value)
  }

  // ------------------------------------------------------------------ equality up to key order

  function Lookup(members: Members, key: Text): (value: Option<Json>)
    ensures value.Some? ==> Size(value.value) < SizeOfMembers(members)
  {
    match members
    case NoMembers => None
    case Member(k, value, rest) => if k == key then Some(value) else Lookup(rest, key)
  }

  function Keys(members: Members): set<Text> {
    match members case NoMembers => {} case Member(key, _, rest) => {key} + Keys(rest)
  }

  /** Strings hold UTF-16 units and no object has a key twice, as in every JavaScript value. */
  predicate Valid(v: Json)
    decreases v, 0
  {
    match v
    case Str(s) => Units(s)
    case Array(items) => forall x | x in items :: Valid(x)
    case Object(members) => ValidMembers(members)
    case _ => true
  }

  predicate ValidMembers(members: Members)
    decreases members, 1
  {
    match members
    case NoMembers => true
    case Member(key, value, rest) => Units(key) && key !in Keys(rest) && Valid(value) && ValidMembers(rest)
  }

  predicate Units(s: Text) {
    forall i :: 0 <= i < |s| ==> s[i] < 0x1_0000
  }

  /** Equal values, where the order of the keys of an object does not matter. */
  ghost predicate Same(a: Json, b: Json)
    decreases Size(a), 0
  {
    match (a, b)
    case (Array(s), Array(t)) => |s| == |t| && SameItems(s, t)
    case (Object(m), Object(n)) => Keys(m) == Keys(n) && forall k | k in Keys(m) :: SameAt(m, n, k)
    case (_, _) => a == b
  }

  ghost predicate SameItems(s: seq<Json>, t: seq<Json>)
    requires |s| == |t|
    decreases SizeOfItems(s), 1
  {
    s == [] || (Same(s[0], t[0]) && SameItems(s[1..], t[1..]))
  }

  ghost predicate SameAt(m: Members, n: Members, key: Text)
    decreases SizeOfMembers(m), 1
  {
    var x, y := Lookup(m, key), Lookup(n, key);
    x.Some? && y.Some? && Same(x.value, y.value)
  }
}
