/** A reader for canonical texts that inverts the printer, and with it: equal texts are the texts of
    values that are equal up to key order. Strings are read as in section 7 of RFC 8259. */
module DemandHashParser {
  import opened Outcomes
  import opened TextOrder
  import opened Sorting
  import opened DemandHash

  // ------------------------------------------------------------------ the reader

  datatype Parsed<+T> = Parsed(value: T, rest: Text)

  function HexValue(u: nat): Option<nat> {
    if 48 <= u < 58 then Some(u - 48) else if 97 <= u < 103 then Some(u - 87) else None
  }

  function ParseHex(t: Text): Option<nat> {
    if |t| < 4 then None
    else
      var a, b, c, d := HexValue(t[0]), HexValue(t[1]), HexValue(t[2]), HexValue(t[3]);
      if a.None? || b.None? || c.None? || d.None? then None
      else Some(((a.value * 16 + b.value) * 16 + c.value) * 16 + d.value)
  }

  /** One unit of a string and the text behind it. */
  function ParseUnit(t: Text): (r: Option<Parsed<nat>>)
    ensures r.Some? ==> |r.value.rest| < |t|
  {
    if t == [] || t[0] == QUOTE then None
    else if t[0] != BACKSLASH then Some(Parsed(t[0], t[1..]))
    else if |t| < 2 then None
    else
      var c := t[1];
      if c == QUOTE || c == BACKSLASH then Some(Parsed(c, t[2..]))
      else if c == 98 then Some(Parsed(8, t[2..]))
      else if c == 102 then Some(Parsed(12, t[2..]))
      else if c == 110 then Some(Parsed(10, t[2..]))
      else if c == 114 then Some(Parsed(13, t[2..]))
      else if c == 116 then Some(Parsed(9, t[2..]))
      else if c != 117 then None
      else
        var u := ParseHex(t[2..]);
        if u.None? then None else Some(Parsed(u.value, t[6..]))
  }

  /** The rest of a string behind its opening quote. */
  function ParseString(t: Text): (r: Option<Parsed<Text>>)
    ensures r.Some? ==> |r.value.rest| < |t|
    decreases |t|
  {
    if t == [] then None
    else if t[0] == QUOTE then Some(Parsed([], t[1..]))
    else
      var u := ParseUnit(t);
      if u.None? then None
      else
        var s := ParseString(u.value.rest);
        if s.None? then None else Some(Parsed([u.value.value] + s.value.value, s.value.rest))
  }

  /** All digits at the front of the text, behind a number that begins with `n`. */
  function ParseDigits(t: Text, n: nat): (r: Parsed<nat>)
    ensures |r.rest| <= |t|
    decreases |t|
  {
    if t == [] || !IsDigit(t[0]) then Parsed(n, t) else ParseDigits(t[1..], 10 * n + (t[0] - 48))
  }

  function ParseNumber(t: Text): (r: Option<Parsed<Json>>)
    ensures r.Some? ==> |r.value.rest| < |t|
  {
    if t == [] then None
    else if t[0] == MINUS then
      var d := ParseDigits(t[1..], 0);
      Some(Parsed(Number(0 - d.value), d.rest))
    else if IsDigit(t[0]) then
      var d := ParseDigits(t[1..], t[0] - 48);
      Some(Parsed(Number(d.value), d.rest))
    else None
  }

  function ParseValue(t: Text): (r: Option<Parsed<Json>>)
    ensures r.Some? ==> |r.value.rest| < |t|
    decreases |t|, 0
  {
    if NULL_TEXT <= t then Some(Parsed(Null, t[4..]))
    else if TRUE_TEXT <= t then Some(Parsed(Bool(true), t[4..]))
    else if FALSE_TEXT <= t then Some(Parsed(Bool(false), t[5..]))
    else if t == [] then None
    else if t[0] == QUOTE then
      var s := ParseString(t[1..]);
      if s.None? then None else Some(Parsed(Str(s.value.value), s.value.rest))
    else if t[0] == OPEN_BRACKET then
      if 1 < |t| && t[1] == CLOSE_BRACKET then Some(Parsed(Array([]), t[2..]))
      else
        var items := ParseItems(t[1..]);
        if items.None? then None else Some(Parsed(Array(items.value.value), items.value.rest))
    else if t[0] == OPEN_BRACE then
      if 1 < |t| && t[1] == CLOSE_BRACE then Some(Parsed(Object(NoMembers), t[2..]))
      else
        var members := ParseMembers(t[1..]);
        if members.None? then None else Some(Parsed(Object(members.value.value), members.value.rest))
    else ParseNumber(t)
  }

  function ParseItems(t: Text): (r: Option<Parsed<seq<Json>>>)
    ensures r.Some? ==> |r.value.rest| < |t|
    decreases |t|, 1
  {
    var first := ParseValue(t);
    if first.None? || first.value.rest == [] then None
    else
      var behind := first.value.rest;
      if behind[0] == CLOSE_BRACKET then Some(Parsed([first.value.value], behind[1..]))
      else if behind[0] != COMMA then None
      else
        var more := ParseItems(behind[1..]);
        if more.None? then None else Some(Parsed([first.value.value] + more.value.value, more.value.rest))
  }

  function ParseMembers(t: Text): (r: Option<Parsed<Members>>)
    ensures r.Some? ==> |r.value.rest| < |t|
    decreases |t|, 1
  {
    if t == [] || t[0] != QUOTE then None
    else
      var key := ParseString(t[1..]);
      if key.None? || key.value.rest == [] || key.value.rest[0] != COLON then None
      else
        var value := ParseValue(key.value.rest[1..]);
        if value.None? || value.value.rest == [] then None
        else
          var behind := value.value.rest;
          if behind[0] == CLOSE_BRACE
              then Some(Parsed(Member(key.value.value, value.value.value, NoMembers), behind[1..]))
          else if behind[0] != COMMA then None
          else
            var more := ParseMembers(behind[1..]);
            if more.None? then None
            else Some(Parsed(Member(key.value.value, value.value.value, more.value.value), more.value.rest))
  }

  // ------------------------------------------------------------------ normal forms

  /** The value with the members of every object in key order. */
  function Normal(v: Json): Json
    decreases Size(v), 0
  {
    match v
    case Array(items) => Array(NormalItems(items))
    case Object(members) => Object(NormalEntries(SortedEntries(members), SizeOfMembers(members)))
    case _ => v
  }

  function NormalItems(items: seq<Json>): (normal: seq<Json>)
    ensures |normal| == |items|
    decreases SizeOfItems(items), 1
  {
    if items == [] then [] else [Normal(items[0])] + NormalItems(items[1..])
  }

  function NormalEntries(entries: seq<Entry>, bound: nat): Members
    requires forall e :: e in entries ==> Size(e.value) < bound
    decreases bound, 1, |entries|
  {
    if entries == [] then NoMembers
    else Member(entries[0].key, Normal(entries[0].value), NormalEntries(entries[1..], bound))
  }

  // ------------------------------------------------------------------ strings and numbers are read back

  lemma ParseEscapedUnit(u: nat, rest: Text)
    requires u < 0x1_0000
    ensures ParseUnit(EscapeUnit(u) + rest) == Some(Parsed(u, rest))
    ensures EscapeUnit(u) != [] && EscapeUnit(u)[0] != QUOTE
  {
    var e := EscapeUnit(u);
    if |e| == 6 {
      ParseLongEscape(u / 16 / 16 / 16 % 16, u / 16 / 16 % 16, u / 16 % 16, u % 16, rest);
      FourDigits(u);
    } else if |e| == 2 {
      assert (e + rest)[2..] == rest;
    } else {
      assert (e + rest)[1..] == rest;
    }
  }

  lemma FourDigits(u: nat)
    requires u < 0x1_0000
    ensures ((u / 16 / 16 / 16 % 16 * 16 + u / 16 / 16 % 16) * 16 + u / 16 % 16) * 16 + u % 16 == u
  {
  }

  lemma ParseLongEscape(a: nat, b: nat, c: nat, d: nat, rest: Text)
    requires a < 16 && b < 16 && c < 16 && d < 16
    ensures ParseUnit([BACKSLASH, 117, HexDigit(a), HexDigit(b), HexDigit(c), HexDigit(d)] + rest)
            == Some(Parsed(((a * 16 + b) * 16 + c) * 16 + d, rest))
  {
    var e := [BACKSLASH, 117, HexDigit(a), HexDigit(b), HexDigit(c), HexDigit(d)];
    var t := e + rest;
    assert t[6..] == rest;
    assert t[2..] == [HexDigit(a), HexDigit(b), HexDigit(c), HexDigit(d)] + rest;
  }

  lemma ParseStringStep(front: Text, u: nat, s: Text, tail: Text, rest: Text)
    requires ParseUnit(front + tail) == Some(Parsed(u, tail)) && front != [] && front[0] != QUOTE
    requires ParseString(tail) == Some(Parsed(s, rest))
    ensures ParseString(front + tail) == Some(Parsed([u] + s, rest))
  {
  }

  lemma ParsePlainUnit(u: nat, tail: Text)
    requires u != QUOTE && u != BACKSLASH
    ensures ParseUnit([u] + tail) == Some(Parsed(u, tail))
  {
    assert ([u] + tail)[1..] == tail;
  }

  lemma ParsePair(a: nat, b: nat, s: Text, tail: Text, rest: Text)
    requires IsHigh(a) && IsLow(b) && ParseString(tail) == Some(Parsed(s, rest))
    ensures ParseString([a] + ([b] + tail)) == Some(Parsed([a] + ([b] + s), rest))
  {
    ParsePlainUnit(b, tail);
    ParseStringStep([b], b, s, tail, rest);
    ParsePlainUnit(a, [b] + tail);
    ParseStringStep([a], a, [b] + s, [b] + tail, rest);
  }

  lemma ParseSingle(u: nat, s: Text, tail: Text, rest: Text)
    requires u < 0x1_0000 && ParseString(tail) == Some(Parsed(s, rest))
    ensures ParseString(EscapeUnit(u) + tail) == Some(Parsed([u] + s, rest))
  {
    ParseEscapedUnit(u, tail);
    ParseStringStep(EscapeUnit(u), u, s, tail, rest);
  }

  predicate StartsWithPair(s: Text) {
    1 < |s| && IsHigh(s[0]) && IsLow(s[1])
  }

  lemma EscapedPair(s: Text, end: Text)
    requires StartsWithPair(s)
    ensures Escaped(s) + end == [s[0]] + ([s[1]] + (Escaped(s[2..]) + end)) && s == [s[0]] + ([s[1]] + s[2..])
  {
    assert s[..2] == [s[0], s[1]];
    TwoInFront(s[0], s[1], Escaped(s[2..]), end);
  }

  lemma TwoInFront(a: nat, b: nat, tail: Text, end: Text)
    ensures ([a, b] + tail) + end == [a] + ([b] + (tail + end))
  {
  }

  lemma EscapedSingle(s: Text, end: Text)
    requires s != [] && !StartsWithPair(s)
    ensures Escaped(s) + end == EscapeUnit(s[0]) + (Escaped(s[1..]) + end) && s == [s[0]] + s[1..]
  {
    var unit, tail := EscapeUnit(s[0]), Escaped(s[1..]);
    assert Escaped(s) == unit + tail;
    assert (unit + tail) + end == unit + (tail + end);
  }

  lemma {:induction false} ParseEscaped(s: Text, rest: Text)
    requires Units(s)
    ensures ParseString(Escaped(s) + ([QUOTE] + rest)) == Some(Parsed(s, rest))
    decreases |s|
  {
    var end := [QUOTE] + rest;
    if s == [] {
      assert Escaped(s) + end == end && end[1..] == rest;
    } else {
      if StartsWithPair(s) {
        EscapedPair(s, end);
        ParseEscaped(s[2..], rest);
        ParsePair(s[0], s[1], s[2..], Escaped(s[2..]) + end, rest);
      } else {
        EscapedSingle(s, end);
        ParseEscaped(s[1..], rest);
        ParseSingle(s[0], s[1..], Escaped(s[1..]) + end, rest);
      }
    }
  }

  /** Nothing that could continue a number stands at the front of the text. */
  predicate NoDigit(t: Text) {
    t == [] || !IsDigit(t[0])
  }

  lemma ParseDecimal(n: nat, rest: Text)
    requires NoDigit(rest)
    ensures ParseDigits(Decimal(n) + rest, 0) == Parsed(n, rest)
  {
    ParseDecimalThen(n, rest);
    assert ParseDigits(rest, n) == Parsed(n, rest);
  }

  lemma {:induction false} ParseDecimalThen(n: nat, rest: Text)
    ensures ParseDigits(Decimal(n) + rest, 0) == ParseDigits(rest, n)
  {
    if n < 10 {
      assert (Decimal(n) + rest)[1..] == rest;
    } else {
      ParseDecimalThen(n / 10, [48 + n % 10] + rest);
      assert Decimal(n) + rest == Decimal(n / 10) + ([48 + n % 10] + rest);
      assert ([48 + n % 10] + rest)[1..] == rest;
    }
  }

  // ------------------------------------------------------------------ values are read back

  /** The text of a value neither closes a container nor is empty. */
  lemma FirstUnit(v: Json)
    requires Canonical(v).Some?
    ensures var t := Canonical(v).value;
            t != [] && t[0] != CLOSE_BRACKET && t[0] != CLOSE_BRACE
  {
    if v.Number? && v.n < 0 {
      assert NumberText(v.n)[0] == MINUS;
    } else if v.Number? {
      assert IsDigit(Decimal(v.n)[0]);
    }
  }

  lemma ParseBoolInverts(b: bool, rest: Text)
    ensures ParseValue((if b then TRUE_TEXT else FALSE_TEXT) + rest) == Some(Parsed(Bool(b), rest))
  {
    var word := if b then TRUE_TEXT else FALSE_TEXT;
    var t := word + rest;
    assert t[0] == word[0] && t[|word|..] == rest;
    assert NULL_TEXT[0] == 110 && !(NULL_TEXT <= t);
    assert b || (TRUE_TEXT[0] == 116 && !(TRUE_TEXT <= t));
  }

  /** Texts that do not begin like a word are read by their first unit. */
  lemma NoWord(t: Text)
    requires t != [] && t[0] != 110 && t[0] != 116 && t[0] != 102
    ensures !(NULL_TEXT <= t) && !(TRUE_TEXT <= t) && !(FALSE_TEXT <= t)
  {
  }

  lemma ReadNumber(t: Text)
    requires t != [] && (t[0] == MINUS || IsDigit(t[0]))
    ensures ParseValue(t) == ParseNumber(t)
  {
    NoWord(t);
  }

  lemma ReadString(t: Text, s: Text, rest: Text)
    requires t != [] && t[0] == QUOTE && ParseString(t[1..]) == Some(Parsed(s, rest))
    ensures ParseValue(t) == Some(Parsed(Str(s), rest))
  {
    NoWord(t);
  }

  lemma ReadObject(t: Text, members: Members, rest: Text)
    requires t != [] && t[0] == OPEN_BRACE && ParseMembers(t[1..]) == Some(Parsed(members, rest))
             && (1 < |t| ==> t[1] != CLOSE_BRACE)
    ensures ParseValue(t) == Some(Parsed(Object(members), rest))
  {
    NoWord(t);
  }

  lemma ReadArray(t: Text, items: seq<Json>, rest: Text)
    requires t != [] && t[0] == OPEN_BRACKET && ParseItems(t[1..]) == Some(Parsed(items, rest))
             && (1 < |t| ==> t[1] != CLOSE_BRACKET)
    ensures ParseValue(t) == Some(Parsed(Array(items), rest))
  {
    NoWord(t);
  }

  lemma ParseNumberInverts(n: int, rest: Text)
    requires NoDigit(rest)
    ensures ParseValue(NumberText(n) + rest) == Some(Parsed(Number(n), rest))
  {
    if n < 0 {
      ParseNegative(-n, rest);
      ReadNumber([MINUS] + Decimal(-n) + rest);
    } else {
      ParsePositive(n, rest);
      ReadNumber(Decimal(n) + rest);
    }
  }

  lemma ParseNegative(n: nat, rest: Text)
    requires NoDigit(rest)
    ensures ParseNumber([MINUS] + Decimal(n) + rest) == Some(Parsed(Number(0 - n), rest))
  {
    ParseDecimal(n, rest);
    assert ([MINUS] + Decimal(n) + rest)[1..] == Decimal(n) + rest;
  }

  lemma ParsePositive(n: nat, rest: Text)
    requires NoDigit(rest)
    ensures ParseNumber(Decimal(n) + rest) == Some(Parsed(Number(n), rest)) && IsDigit((Decimal(n) + rest)[0])
  {
    var t := Decimal(n) + rest;
    ParseDecimal(n, rest);
    assert t[0] == Decimal(n)[0] && IsDigit(t[0]);
    assert ParseDigits(t, 0) == ParseDigits(t[1..], t[0] - 48);
  }

  lemma ParseStrInverts(s: Text, rest: Text)
    requires Units(s)
    ensures ParseValue(Quoted(s) + rest) == Some(Parsed(Str(s), rest))
  {
    ParseEscaped(s, rest);
    BehindQuote(s, rest);
    ReadString(Quoted(s) + rest, s, rest);
  }

  lemma BehindQuote(s: Text, rest: Text)
    ensures Quoted(s) + rest != [] && (Quoted(s) + rest)[0] == QUOTE
    ensures (Quoted(s) + rest)[1..] == Escaped(s) + ([QUOTE] + rest)
  {
  }

  lemma Bracketed(open: nat, inner: Text, close: nat, rest: Text)
    requires inner != []
    ensures var t := [open] + inner + [close] + rest;
      1 < |t| && t[0] == open && t[1] == inner[0] && t[1..] == inner + ([close] + rest)
  {
  }

  lemma ParseArray(inner: Text, items: seq<Json>, rest: Text)
    requires inner != [] && inner[0] != CLOSE_BRACKET
    requires ParseItems(inner + ([CLOSE_BRACKET] + rest)) == Some(Parsed(items, rest))
    ensures ParseValue([OPEN_BRACKET] + inner + [CLOSE_BRACKET] + rest) == Some(Parsed(Array(items), rest))
  {
    Bracketed(OPEN_BRACKET, inner, CLOSE_BRACKET, rest);
    ReadArray([OPEN_BRACKET] + inner + [CLOSE_BRACKET] + rest, items, rest);
  }

  lemma ParseObject(inner: Text, members: Members, rest: Text)
    requires inner != [] && inner[0] != CLOSE_BRACE
    requires ParseMembers(inner + ([CLOSE_BRACE] + rest)) == Some(Parsed(members, rest))
    ensures ParseValue([OPEN_BRACE] + inner + [CLOSE_BRACE] + rest) == Some(Parsed(Object(members), rest))
  {
    Bracketed(OPEN_BRACE, inner, CLOSE_BRACE, rest);
    ReadObject([OPEN_BRACE] + inner + [CLOSE_BRACE] + rest, members, rest);
  }

  /** Reading back the canonical text of a value gives its normal form and leaves what follows. */
  lemma {:induction false} ParseInverts(v: Json, rest: Text)
    requires Valid(v) && Canonical(v).Some? && NoDigit(rest)
    ensures ParseValue(Canonical(v).value + rest) == Some(Parsed(Normal(v), rest))
    decreases Size(v), 0
  {
    var t := Canonical(v).value + rest;
    match v
    case Null => assert t[..4] == NULL_TEXT && t[4..] == rest;
    case Bool(b) => ParseBoolInverts(b, rest);
    case Number(n) => ParseNumberInverts(n, rest);
    case Str(s) => ParseStrInverts(s, rest);
    case Array(items) => ParseArrayInverts(items, rest);
    case Object(members) => ParseObjectInverts(members, rest);
  }

  lemma {:induction false} ParseArrayInverts(items: seq<Json>, rest: Text)
    requires Valid(Array(items)) && Canonical(Array(items)).Some?
    ensures ParseValue(Canonical(Array(items)).value + rest) == Some(Parsed(Array(NormalItems(items)), rest))
    decreases SizeOfItems(items), 2
  {
    var inner := Join(ItemTexts(items).value);
    if items == [] {
      assert Canonical(Array(items)).value + rest == [OPEN_BRACKET, CLOSE_BRACKET] + rest;
    } else {
      ParseItemsInverts(items, rest);
      FirstUnit(items[0]);
      ParseArray(inner, NormalItems(items), rest);
    }
  }

  lemma {:induction false} ParseItemsInverts(items: seq<Json>, rest: Text)
    requires items != [] && (forall x :: x in items ==> Valid(x)) && ItemTexts(items).Some?
    ensures var inner := Join(ItemTexts(items).value);
            && inner != [] && inner[0] == Canonical(items[0]).value[0]
            && ParseItems(inner + ([CLOSE_BRACKET] + rest)) == Some(Parsed(NormalItems(items), rest))
    decreases SizeOfItems(items), 1
  {
    var first := Canonical(items[0]).value;
    FirstUnit(items[0]);
    if |items| == 1 {
      var behind := [CLOSE_BRACKET] + rest;
      ParseInverts(items[0], behind);
      assert behind[1..] == rest;
      assert items[1..] == [] && ItemTexts(items).value == [first];
      assert NormalItems(items) == [Normal(items[0])];
    } else {
      var more := Join(ItemTexts(items[1..]).value) + ([CLOSE_BRACKET] + rest);
      ParseItemsInverts(items[1..], rest);
      ParseInverts(items[0], [COMMA] + more);
      assert ([COMMA] + more)[1..] == more;
      JoinStep(first, ItemTexts(items[1..]).value, [CLOSE_BRACKET] + rest);
    }
  }

  lemma JoinStep(first: Text, parts: seq<Text>, end: Text)
    requires parts != []
    ensures Join([first] + parts) + end == first + ([COMMA] + (Join(parts) + end))
  {
    assert ([first] + parts)[1..] == parts;
  }

  lemma {:induction false} EntriesAre(members: Members)
    ensures forall e :: e in EntriesOf(members) ==> e.key in Keys(members)
    ensures ValidMembers(members) ==> forall e :: e in EntriesOf(members) ==> Valid(e.value) && Units(e.key)
    ensures ValidMembers(members) ==> forall e :: e in EntriesOf(members) <==> Lookup(members, e.key) == Some(e.value)
    ensures forall k :: k in Keys(members) <==> Lookup(members, k).Some?
  {
    if members.Member? {
      EntriesAre(members.rest);
      var first := Entry(members.key, members.value);
      assert forall e :: e in EntriesOf(members) <==> e == first || e in EntriesOf(members.rest);
    }
  }

  lemma SortedEntriesAre(members: Members)
    ensures forall e :: e in SortedEntries(members) <==> e in EntriesOf(members)
    ensures |SortedEntries(members)| == |EntriesOf(members)|
    ensures multiset(SortedEntries(members)) == multiset(EntriesOf(members))
  {
    SortPermutes(EntriesOf(members), ByKey);
  }

  lemma {:induction false} ParseObjectInverts(members: Members, rest: Text)
    requires ValidMembers(members) && Canonical(Object(members)).Some?
    ensures ParseValue(Canonical(Object(members)).value + rest) == Some(Parsed(Normal(Object(members)), rest))
    decreases SizeOfMembers(members), 2
  {
    var entries, bound := SortedEntries(members), SizeOfMembers(members);
    EntriesAre(members);
    SortedEntriesAre(members);
    if entries == [] {
      ParseEmptyObject(members, rest);
    } else {
      var inner := Join(EntryTexts(entries, bound).value);
      ParseMembersInverts(entries, bound, rest);
      ParseObject(inner, NormalEntries(entries, bound), rest);
      assert Canonical(Object(members)).value == [OPEN_BRACE] + inner + [CLOSE_BRACE];
    }
  }

  lemma ParseEmptyObject(members: Members, rest: Text)
    requires SortedEntries(members) == []
    ensures Canonical(Object(members)) == Some([OPEN_BRACE] + [] + [CLOSE_BRACE])
    ensures ParseValue([OPEN_BRACE] + [] + [CLOSE_BRACE] + rest) == Some(Parsed(Normal(Object(members)), rest))
  {
    var t := [OPEN_BRACE] + [] + [CLOSE_BRACE] + rest;
    assert t[0] == OPEN_BRACE && t[1] == CLOSE_BRACE && t[2..] == rest;
  }

  lemma {:induction false} ParseMembersInverts(entries: seq<Entry>, bound: nat, rest: Text)
    requires entries != [] && forall e :: e in entries ==> Size(e.value) < bound && Valid(e.value) && Units(e.key)
    requires EntryTexts(entries, bound).Some?
    ensures var inner := Join(EntryTexts(entries, bound).value);
            && inner != [] && inner[0] == QUOTE
            && ParseMembers(inner + ([CLOSE_BRACE] + rest)) == Some(Parsed(NormalEntries(entries, bound), rest))
    decreases bound, 1, |entries|
  {
    var e := entries[0];
    assert e in entries;
    var first := Quoted(e.key) + [COLON] + Canonical(e.value).value;
    if |entries| == 1 {
      var behind := [CLOSE_BRACE] + rest;
      ParseInverts(e.value, behind);
      ParseMember(e.key, Canonical(e.value).value, Normal(e.value), behind);
      assert behind[1..] == rest;
      assert NormalEntries(entries[1..], bound) == NoMembers;
    } else {
      var parts := EntryTexts(entries[1..], bound).value;
      var more := Join(parts) + ([CLOSE_BRACE] + rest);
      ParseMembersInverts(entries[1..], bound, rest);
      ParseInverts(e.value, [COMMA] + more);
      ParseMember(e.key, Canonical(e.value).value, Normal(e.value), [COMMA] + more);
      assert ([COMMA] + more)[1..] == more;
      JoinStep(first, parts, [CLOSE_BRACE] + rest);
    }
  }

  /** One member is read: its key, the colon and its value; what follows decides how to go on. */
  lemma ParseMember(key: Text, text: Text, value: Json, behind: Text)
    requires Units(key) && behind != [] && ParseValue(text + behind) == Some(Parsed(value, behind))
    ensures var t := Quoted(key) + [COLON] + text + behind;
            ParseMembers(t) ==
            if behind[0] == CLOSE_BRACE then Some(Parsed(Member(key, value, NoMembers), behind[1..]))
            else if behind[0] != COMMA then None
            else
              var more := ParseMembers(behind[1..]);
              if more.None? then None else Some(Parsed(Member(key, value, more.value.value), more.value.rest))
  {
    var t := Quoted(key) + [COLON] + text + behind;
    var tail := [COLON] + (text + behind);
    QuotedThen(key, text, behind);
    assert t == [QUOTE] + (Escaped(key) + ([QUOTE] + tail));
    ParseEscaped(key, tail);
    ParseMemberParts(t, key, tail, text + behind, value, behind);
  }

  lemma QuotedThen(key: Text, text: Text, behind: Text)
    ensures Quoted(key) + [COLON] + text + behind == [QUOTE] + (Escaped(key) + ([QUOTE] + ([COLON] + (text + behind))))
  {
    var e := Escaped(key);
    assert ([QUOTE] + e + [QUOTE]) + [COLON] + text + behind == [QUOTE] + (e + ([QUOTE] + ([COLON] + (text + behind))));
  }

  lemma ParseMemberParts(t: Text, key: Text, tail: Text, valueText: Text, value: Json, behind: Text)
    requires t != [] && t[0] == QUOTE && ParseString(t[1..]) == Some(Parsed(key, tail))
    requires tail == [COLON] + valueText && behind != [] && ParseValue(valueText) == Some(Parsed(value, behind))
    ensures ParseMembers(t) ==
            if behind[0] == CLOSE_BRACE then Some(Parsed(Member(key, value, NoMembers), behind[1..]))
            else if behind[0] != COMMA then None
            else
              var more := ParseMembers(behind[1..]);
              if more.None? then None else Some(Parsed(Member(key, value, more.value.value), more.value.rest))
  {
    assert tail[0] == COLON && tail[1..] == valueText;
  }

  // ------------------------------------------------------------------ equal texts, equal values

  /** Values with the same normal form are equal up to key order. */
  lemma {:induction false} NormalIsSame(a: Json, b: Json)
    requires Valid(a) && Valid(b) && Normal(a) == Normal(b)
    ensures Same(a, b)
    decreases Size(a), 0
  {
    match (a, b)
    case (Array(s), Array(t)) => NormalItemsSame(s, t);
    case (Object(m), Object(n)) => NormalObjectsSame(m, n);
    case (_, _) =>
  }

  lemma {:induction false} NormalItemsSame(s: seq<Json>, t: seq<Json>)
    requires forall x :: x in s ==> Valid(x)
    requires forall x :: x in t ==> Valid(x)
    requires NormalItems(s) == NormalItems(t)
    ensures |s| == |t| && SameItems(s, t)
    decreases SizeOfItems(s), 1
  {
    if s != [] {
      assert NormalItems(s)[1..] == NormalItems(s[1..]) && NormalItems(t)[1..] == NormalItems(t[1..]);
      NormalIsSame(s[0], t[0]);
      NormalItemsSame(s[1..], t[1..]);
    }
  }

  /** The members of the normal form are the members of the object with normal values. */
  lemma {:induction false} NormalEntriesHold(entries: seq<Entry>, bound: nat)
    requires forall e :: e in entries ==> Size(e.value) < bound
    ensures forall e :: e in entries ==> Entry(e.key, Normal(e.value)) in EntriesOf(NormalEntries(entries, bound))
    ensures forall k, w :: Entry(k, w) in EntriesOf(NormalEntries(entries, bound)) ==>
              exists e :: e in entries && e.key == k && Normal(e.value) == w
    decreases |entries|
  {
    if entries != [] {
      NormalEntriesHold(entries[1..], bound);
      var normal := EntriesOf(NormalEntries(entries, bound));
      var first := Entry(entries[0].key, Normal(entries[0].value));
      assert normal == [first] + EntriesOf(NormalEntries(entries[1..], bound));
      assert forall e :: e in entries <==> e == entries[0] || e in entries[1..];
      forall k, w | Entry(k, w) in normal
        ensures exists e :: e in entries && e.key == k && Normal(e.value) == w
      {
        if Entry(k, w) == first {
          assert entries[0] in entries;
        }
      }
    }
  }

  lemma {:induction false} NormalObjectsSame(m: Members, n: Members)
    requires ValidMembers(m) && ValidMembers(n) && Normal(Object(m)) == Normal(Object(n))
    ensures Same(Object(m), Object(n))
    decreases SizeOfMembers(m), 3
  {
    forall k | k in Keys(m)
      ensures k in Keys(n) && SameAt(m, n, k)
    {
      var y := NormalMemberFound(m, n, k);
      NormalIsSame(Lookup(m, k).value, y);
    }
    forall k | k in Keys(n)
      ensures k in Keys(m)
    {
      var x := NormalMemberFound(n, m, k);
    }
  }

  lemma NormalMemberFound(m: Members, n: Members, key: Text) returns (y: Json)
    requires ValidMembers(m) && ValidMembers(n) && Normal(Object(m)) == Normal(Object(n)) && key in Keys(m)
    ensures key in Keys(n) && Lookup(n, key) == Some(y) && Lookup(m, key).Some?
    ensures Normal(y) == Normal(Lookup(m, key).value) && Valid(y) && Valid(Lookup(m, key).value)
  {
    EntriesAre(m);
    EntriesAre(n);
    SortedEntriesAre(m);
    SortedEntriesAre(n);
    NormalEntriesHold(SortedEntries(m), SizeOfMembers(m));
    NormalEntriesHold(SortedEntries(n), SizeOfMembers(n));
    var x := Lookup(m, key).value;
    assert Entry(key, x) in SortedEntries(m);
    assert Entry(key, Normal(x)) in EntriesOf(NormalEntries(SortedEntries(n), SizeOfMembers(n)));
    var e :| e in SortedEntries(n) && e.key == key && Normal(e.value) == Normal(x);
    y := e.value;
  }

  // ------------------------------------------------------------------ equal values, equal texts

  lemma {:induction false} EntriesDistinct(members: Members)
    requires ValidMembers(members)
    ensures Distinct(EntriesOf(members))
    ensures Antisymmetric(EntriesOf(members), ByKey)
  {
    EntriesAre(members);
    forall a, b | a in EntriesOf(members) && b in EntriesOf(members) && ByKey(a, b) && ByKey(b, a)
      ensures a == b
    {
      if a.key != b.key {
        LessAsymmetric(a.key, b.key);
      }
    }
    if members.Member? {
      EntriesDistinct(members.rest);
      EntriesAre(members.rest);
      assert EntriesOf(members) == [Entry(members.key, members.value)] + EntriesOf(members.rest);
    }
  }

  lemma ByKeyIsPreorder()
    ensures TotalPreorder(ByKey)
  {
    forall a: Entry, b: Entry
      ensures ByKey(a, b) || ByKey(b, a)
    {
      LessTotal(a.key, b.key);
    }
    forall a: Entry, b: Entry, c: Entry | ByKey(a, b) && ByKey(b, c)
      ensures ByKey(a, c)
    {
      if a.key != b.key && b.key != c.key {
        LessTransitive(a.key, b.key, c.key);
      }
    }
  }

  /** The entries of `n` with the values that `m` has under their keys. */
  function Revalued(entries: seq<Entry>, m: Members): (r: seq<Entry>)
    requires forall e :: e in entries ==> Lookup(m, e.key).Some?
    ensures |r| == |entries|
            && forall i :: 0 <= i < |r| ==> r[i] == Entry(entries[i].key, Lookup(m, entries[i].key).value)
  {
    seq(|entries|, i requires 0 <= i < |entries| => Entry(entries[i].key, Lookup(m, entries[i].key).value))
  }

  lemma KeysDistinct(s: seq<Entry>)
    requires Distinct(s) && Antisymmetric(s, ByKey)
    ensures forall i, j :: 0 <= i < j < |s| ==> s[i].key != s[j].key
  {
    forall i, j | 0 <= i < j < |s|
      ensures s[i].key != s[j].key
    {
      assert s[i].key == s[j].key ==> ByKey(s[i], s[j]) && ByKey(s[j], s[i]);
    }
  }

  /** What sorting the members of a valid object gives. */
  lemma SortedMembers(m: Members)
    requires ValidMembers(m)
    ensures var s := SortedEntries(m);
            && Sorted(s, ByKey) && Antisymmetric(s, ByKey)
            && Distinct(s)
            && (forall i, j :: 0 <= i < j < |s| ==> s[i].key != s[j].key)
            && (forall e :: e in s <==> Lookup(m, e.key) == Some(e.value))
  {
    EntriesAre(m);
    SortedEntriesAre(m);
    EntriesDistinct(m);
    ByKeyIsPreorder();
    SortSorted(EntriesOf(m), ByKey);
    SortDistinct(EntriesOf(m), ByKey);
    KeysDistinct(SortedEntries(m));
  }

  lemma RevaluedMembers(s: seq<Entry>, t: seq<Entry>, m: Members, n: Members)
    requires forall k :: Lookup(m, k).Some? <==> Lookup(n, k).Some?
    requires forall e :: e in s <==> Lookup(m, e.key) == Some(e.value)
    requires forall e :: e in t <==> Lookup(n, e.key) == Some(e.value)
    ensures (forall e :: e in t ==> Lookup(m, e.key).Some?) && forall e :: e in s <==> e in Revalued(t, m)
  {
    var r := Revalued(t, m);
    forall e | e in s
      ensures e in r
    {
      var other := Entry(e.key, Lookup(n, e.key).value);
      assert other in t;
      var i :| 0 <= i < |t| && t[i] == other;
      assert r[i] == e;
    }
    forall e | e in r
      ensures e in s
    {
      var i :| 0 <= i < |r| && r[i] == e;
      assert t[i] in t;
    }
  }

  /** Objects with the same keys list them in the same order once sorted. */
  lemma SortedAlike(m: Members, n: Members)
    requires ValidMembers(m) && ValidMembers(n) && Keys(m) == Keys(n)
    ensures var s, t := SortedEntries(m), SortedEntries(n);
            && |s| == |t|
            && forall i :: 0 <= i < |s| ==> s[i].key == t[i].key
  {
    var s, t := SortedEntries(m), SortedEntries(n);
    SortedMembers(m);
    SortedMembers(n);
    EntriesAre(m);
    EntriesAre(n);
    RevaluedMembers(s, t, m, n);
    var r := Revalued(t, m);
    RevaluedSorted(t, m);
    SameElements(s, r);
    SortedUnique(s, r, ByKey);
  }

  lemma RevaluedSorted(t: seq<Entry>, m: Members)
    requires Sorted(t, ByKey) && forall e :: e in t ==> Lookup(m, e.key).Some?
    ensures Sorted(Revalued(t, m), ByKey)
  {
    var r := Revalued(t, m);
    forall i, j | 0 <= i < j < |r|
      ensures ByKey(r[i], r[j])
    {
      assert ByKey(t[i], t[j]);
    }
  }

  /** Values that are equal up to key order have the same text, or are rejected alike. */
  lemma {:induction false} SameIsCanonical(a: Json, b: Json)
    requires Valid(a) && Valid(b) && Same(a, b)
    ensures Canonical(a) == Canonical(b)
    decreases Size(a), 0
  {
    match (a, b)
    case (Array(s), Array(t)) => SameItemTexts(s, t);
    case (Object(m), Object(n)) =>
      SortedAlike(m, n);
      SortedValuesSame(m, n);
      SameEntryTexts(SortedEntries(m), SortedEntries(n), SizeOfMembers(m), SizeOfMembers(n));
    case (_, _) =>
  }

  lemma SortedValuesSame(m: Members, n: Members)
    requires ValidMembers(m) && ValidMembers(n) && Same(Object(m), Object(n))
    ensures var s, t := SortedEntries(m), SortedEntries(n);
            && |s| == |t|
            && forall i :: 0 <= i < |s| ==> Same(s[i].value, t[i].value) && Valid(s[i].value) && Valid(t[i].value)
  {
    SortedAlike(m, n);
    SortedEntriesAre(m);
    SortedEntriesAre(n);
    EntriesAre(m);
    EntriesAre(n);
    var s, t := SortedEntries(m), SortedEntries(n);
    forall i | 0 <= i < |s|
      ensures Same(s[i].value, t[i].value) && Valid(s[i].value) && Valid(t[i].value)
    {
      assert s[i] in s && t[i] in t;
      assert SameAt(m, n, s[i].key);
    }
  }

  lemma {:induction false} SameItemTexts(s: seq<Json>, t: seq<Json>)
    requires |s| == |t| && SameItems(s, t)
    requires forall x :: x in s ==> Valid(x)
    requires forall x :: x in t ==> Valid(x)
    ensures ItemTexts(s) == ItemTexts(t)
    decreases SizeOfItems(s), 1
  {
    if s != [] {
      SameIsCanonical(s[0], t[0]);
      SameItemTexts(s[1..], t[1..]);
    }
  }

  lemma {:induction false} SameEntryTexts(s: seq<Entry>, t: seq<Entry>, bound: nat, other: nat)
    requires |s| == |t|
    requires forall e :: e in s ==> Size(e.value) < bound
    requires forall e :: e in t ==> Size(e.value) < other
    requires forall i :: 0 <= i < |s| ==>
               s[i].key == t[i].key && Valid(s[i].value) && Valid(t[i].value) && Same(s[i].value, t[i].value)
    ensures EntryTexts(s, bound) == EntryTexts(t, other)
    decreases bound, 1, |s|
  {
    if s != [] {
      assert s[0] in s && t[0] in t;
      SameIsCanonical(s[0].value, t[0].value);
      forall i | 0 <= i < |s[1..]|
        ensures s[1..][i].key == t[1..][i].key && Same(s[1..][i].value, t[1..][i].value)
      {
        assert s[1..][i] == s[i + 1] && t[1..][i] == t[i + 1];
      }
      SameEntryTexts(s[1..], t[1..], bound, other);
    }
  }

  /** The text that is hashed determines the value: two values have the same canonical text exactly when
      they are equal up to the order of keys. */
  lemma CanonicalDeterminesValue(a: Json, b: Json)
    requires Valid(a) && Valid(b) && Canonical(a).Some? && Canonical(b).Some?
    ensures Canonical(a) == Canonical(b) <==> Same(a, b)
  {
    if Canonical(a) == Canonical(b) {
      ParseInverts(a, []);
      ParseInverts(b, []);
      NormalIsSame(a, b);
    }
    if Same(a, b) {
      SameIsCanonical(a, b);
    }
  }
}
