/**
 * Row values as the exporters see them: attribute values of a loaded row, PHP's ordered
 * string-keyed arrays, `data_get` lookup, and the CSV exporter's `stringify` with the JSON
 * text it writes for array values.
 */
module Cells {
  import opened Wrappers
  import opened Strings

  /** A value read from a row, or produced by a row mapper. */
  datatype Cell =
    | CNull
    | CBool(b: bool)
    | CInt(i: int)
    | CStr(s: string)
    | CDate(iso: string)                  // a date-time value, with its ISO-8601 (`'c'`) rendering
    | CList(items: seq<Cell>)             // an array with keys 0..n-1
    | CMap(entries: seq<(string, Cell)>)  // an array with string keys, or a row's attributes

  /** A PHP array's keys are unique; its entries keep insertion order. */
  predicate UniqueKeys<V>(a: seq<(string, V)>) {
    forall i, j :: 0 <= i < j < |a| ==> a[i].0 != a[j].0
  }

  /** A PHP array, as its entries in insertion order. Arrays built by `Put` keep their keys
      unique (`UniqueKeys`). */
  type PhpArray = seq<(string, Cell)>

  /** `array_keys`. */
  function Keys<V>(a: seq<(string, V)>): (r: seq<string>)
    ensures |r| == |a| && forall i :: 0 <= i < |a| ==> r[i] == a[i].0
  {
    seq(|a|, i requires 0 <= i < |a| => a[i].0)
  }

  /** `array_values`. */
  function Values<V>(a: seq<(string, V)>): (r: seq<V>)
    ensures |r| == |a| && forall i :: 0 <= i < |a| ==> r[i] == a[i].1
  {
    seq(|a|, i requires 0 <= i < |a| => a[i].1)
  }

  /** The position of the first entry with key `k`, if any entry has it. */
  function IndexOf(a: seq<(string, Cell)>, k: string): (r: Option<nat>)
    ensures r.Some? ==> r.value < |a| && a[r.value].0 == k
    ensures r.Some? ==> forall j :: 0 <= j < r.value ==> a[j].0 != k
    ensures r.None? ==> forall j :: 0 <= j < |a| ==> a[j].0 != k
    decreases |a|
  {
    if a == [] then None
    else if a[0].0 == k then Some(0)
    else
      var rest := IndexOf(a[1..], k);
      if rest.None? then None else Some(rest.value + 1)
  }

  /** A lookup misses exactly the keys the array does not have. */
  lemma IndexOfNone(a: seq<(string, Cell)>, k: string)
    ensures IndexOf(a, k).None? <==> k !in Keys(a)
  {
    if k in Keys(a) {
      var i :| 0 <= i < |a| && Keys(a)[i] == k;
      assert a[i].0 == k;
    }
  }

  /** `$a[$k] ?? null`. */
  function Lookup(a: seq<(string, Cell)>, k: string): Cell {
    match IndexOf(a, k)
    case None => CNull
    case Some(i) => a[i].1
  }

  /** `$a[$k] = $v`: an existing key keeps its position and takes the new value; a new key
      is appended. */
  function Put(a: PhpArray, k: string, v: Cell): (r: PhpArray)
    ensures Lookup(r, k) == v
  {
    match IndexOf(a, k)
    case Some(i) =>
      var r := a[i := (k, v)];
      IndexOfKeys(a, r, k);
      r
    case None =>
      IndexOfAppendNew(a, (k, v));
      a + [(k, v)]
  }

  /** Storing under `k` leaves every other key's value as it was. */
  lemma PutOther(a: PhpArray, k: string, v: Cell, k': string)
    requires k' != k
    ensures Lookup(Put(a, k, v), k') == Lookup(a, k')
  {
    match IndexOf(a, k)
    case Some(i) =>
      IndexOfKeys(a, Put(a, k, v), k');
    case None =>
      IndexOfAppend(a, (k, v), k');
      var r := a + [(k, v)];
      if IndexOf(a, k').Some? {
        assert r[IndexOf(a, k').value] == a[IndexOf(a, k').value];
      }
  }

  /** Storing under an existing key keeps the key order; a new key goes last. */
  lemma PutKeys(a: PhpArray, k: string, v: Cell)
    ensures k in Keys(a) ==> Keys(Put(a, k, v)) == Keys(a)
    ensures k !in Keys(a) ==> Keys(Put(a, k, v)) == Keys(a) + [k]
  {
    IndexOfNone(a, k);
  }

  /** Storing keeps the keys unique. */
  lemma PutUnique(a: PhpArray, k: string, v: Cell)
    requires UniqueKeys(a)
    ensures UniqueKeys(Put(a, k, v))
  {
    var r := Put(a, k, v);
    forall i, j | 0 <= i < j < |r| ensures r[i].0 != r[j].0 {
      if IndexOf(a, k).None? && j == |a| {
        assert r[i] == a[i];
      }
    }
  }

  /** In an array with unique keys, the entry at `i` is the one a lookup of its key finds. */
  lemma UniqueIndex(a: seq<(string, Cell)>, k: string, i: nat)
    requires UniqueKeys(a) && i < |a| && a[i].0 == k
    ensures IndexOf(a, k) == Some(i)
  {
  }

  /** The position a lookup finds depends on the keys alone. */
  lemma {:induction false} IndexOfKeys(a: seq<(string, Cell)>, b: seq<(string, Cell)>, k: string)
    requires |a| == |b| && forall i :: 0 <= i < |a| ==> a[i].0 == b[i].0
    ensures IndexOf(a, k) == IndexOf(b, k)
    decreases |a|
  {
    if a != [] {
      assert a[0].0 == b[0].0;
      forall i | 0 <= i < |a[1..]| ensures a[1..][i].0 == b[1..][i].0 {
        assert a[1..][i] == a[i + 1] && b[1..][i] == b[i + 1];
      }
      IndexOfKeys(a[1..], b[1..], k);
    }
  }

  /** Appending an entry under another key leaves lookups where they were. */
  lemma {:induction false} IndexOfAppend(a: seq<(string, Cell)>, e: (string, Cell), k: string)
    requires e.0 != k
    ensures IndexOf(a + [e], k) == IndexOf(a, k)
    decreases |a|
  {
    var r := a + [e];
    if a == [] {
      assert r == [e];
      assert r[1..] == [];
    } else {
      assert r[0] == a[0];
      assert r[1..] == a[1..] + [e];
      IndexOfAppend(a[1..], e, k);
    }
  }

  /** An appended entry under a new key is the one a lookup of that key finds. */
  lemma {:induction false} IndexOfAppendNew(a: seq<(string, Cell)>, e: (string, Cell))
    requires forall j :: 0 <= j < |a| ==> a[j].0 != e.0
    ensures IndexOf(a + [e], e.0) == Some(|a|)
    decreases |a|
  {
    var r := a + [e];
    if a == [] {
      assert r == [e];
    } else {
      assert r[0] == a[0];
      assert r[1..] == a[1..] + [e];
      assert forall j :: 0 <= j < |a[1..]| ==> a[1..][j].0 != e.0 by {
        forall j | 0 <= j < |a[1..]| ensures a[1..][j].0 != e.0 {
          assert a[1..][j] == a[j + 1];
        }
      }
      IndexOfAppendNew(a[1..], e);
    }
  }

  /** Storing entries one after another, as a loop of `$a[$k] = $v` does. */
  function PutAll(a: PhpArray, entries: seq<(string, Cell)>): PhpArray
    decreases |entries|
  {
    if entries == [] then a
    else
      var n := |entries| - 1;
      Put(PutAll(a, entries[..n]), entries[n].0, entries[n].1)
  }

  /** The last entry is stored last. */
  lemma PutAllLast(a: PhpArray, entries: seq<(string, Cell)>)
    requires entries != []
    ensures PutAll(a, entries) == Put(PutAll(a, entries[..|entries| - 1]), entries[|entries| - 1].0, entries[|entries| - 1].1)
  {
  }

  /** A key no stored entry has keeps the value it had. */
  lemma {:induction false} PutAllAbsent(a: PhpArray, entries: seq<(string, Cell)>, k: string)
    requires forall i :: 0 <= i < |entries| ==> entries[i].0 != k
    ensures Lookup(PutAll(a, entries), k) == Lookup(a, k)
    decreases |entries|
  {
    if entries != [] {
      var n := |entries| - 1;
      PutAllAbsent(a, entries[..n], k);
      PutOther(PutAll(a, entries[..n]), entries[n].0, entries[n].1, k);
    }
  }

  /** Of several entries under one key, the last one stored is the value the key has. */
  lemma {:induction false} PutAllLastWins(a: PhpArray, entries: seq<(string, Cell)>, i: nat)
    requires i < |entries|
    requires forall j :: i < j < |entries| ==> entries[j].0 != entries[i].0
    ensures Lookup(PutAll(a, entries), entries[i].0) == entries[i].1
    decreases |entries|
  {
    var n := |entries| - 1;
    var init := entries[..n];
    var (k, v) := entries[i];
    PutAllLast(a, entries);
    if i < n {
      assert init[i] == (k, v);
      forall j | i < j < |init| ensures init[j].0 != k {
        assert init[j] == entries[j];
      }
      PutAllLastWins(a, init, i);
      PutOther(PutAll(a, init), entries[n].0, entries[n].1, k);
    } else {
      assert Lookup(Put(PutAll(a, init), k, v), k) == v;
    }
  }

  /** Storing entries with distinct keys into an empty array gives exactly those entries, in
      order. */
  lemma {:induction false} PutAllDistinct(entries: seq<(string, Cell)>)
    requires UniqueKeys(entries)
    ensures PutAll([], entries) == entries
    decreases |entries|
  {
    if entries != [] {
      var n := |entries| - 1;
      var init := entries[..n];
      assert UniqueKeys(init) by {
        forall i, j | 0 <= i < j < |init| ensures init[i].0 != init[j].0 {
          assert init[i] == entries[i] && init[j] == entries[j];
        }
      }
      PutAllDistinct(init);
      assert IndexOf(init, entries[n].0).None? by {
        forall i | 0 <= i < |init| ensures init[i].0 != entries[n].0 {
          assert init[i] == entries[i];
        }
      }
      assert init + [entries[n]] == entries;
    }
  }

  /** The list position a key names: PHP turns a key written as a canonical decimal (`"0"`,
      `"12"`, not `"01"`) into that integer key, and a list has keys 0..n-1. */
  function ListIndex(key: string): (r: Option<nat>)
    ensures r.Some? ==> IntToString(r.value) == key
  {
    if key != [] && (forall i | 0 <= i < |key| :: IsDigit(key[i])) && (key[0] != '0' || |key| == 1)
    then
      CanonicalDigits(key);
      Some(DigitsValue(key))
    else None
  }

  /** `data_get($target, $path)` along already-split segments: each segment selects the
      attribute or key of that name, or the list item at that position; a missing one, or a
      value that is not an array or row, gives null. */
  function DataGetPath(target: Cell, path: seq<string>): Cell
    decreases |path|
  {
    if path == [] then target
    else match target
      case CMap(entries) => DataGetPath(Lookup(entries, path[0]), path[1..])
      case CList(items) =>
        var k := ListIndex(path[0]);
        if k.Some? && k.value < |items| then DataGetPath(items[k.value], path[1..]) else CNull
      case _ => CNull
  }

  /** `data_get($row, $attribute)`: the dotted attribute is split at every dot. */
  function DataGet(target: Cell, attribute: string): Cell {
    DataGetPath(target, Explode(attribute, '.'))
  }

  /** An undotted attribute is a plain lookup on the row. */
  lemma DataGetPlain(entries: seq<(string, Cell)>, attribute: string)
    requires '.' !in attribute
    ensures DataGet(CMap(entries), attribute) == Lookup(entries, attribute)
  {
    var path := Explode(attribute, '.');
    assert path == [attribute];
    assert DataGetPath(CMap(entries), path) == DataGetPath(Lookup(entries, attribute), path[1..]);
    assert path[1..] == [];
  }

  /** A list item is reached by the decimal text of its position, and only by that text. */
  lemma ListIndexOfNat(n: nat)
    ensures ListIndex(IntToString(n)) == Some(n)
  {
    NatToStringCanonical(n);
    DigitsValueOfNat(n);
  }

  /** `data_get($row, 'tags.0')`: a dotted path whose segment is a position indexes the list
      stored under the key before it. */
  lemma DataGetListItem(entries: seq<(string, Cell)>, key: string, items: seq<Cell>, n: nat)
    requires '.' !in key && Lookup(entries, key) == CList(items) && n < |items|
    ensures DataGet(CMap(entries), key + "." + IntToString(n)) == items[n]
  {
    var index := IntToString(n);
    assert '.' !in index by {
      assert forall i | 0 <= i < |index| :: IsDigit(index[i]);
    }
    SplitFirstUnique(key, '.', index);
    var path := Explode(key + "." + index, '.');
    assert '.' in key + "." + index by { assert (key + "." + index)[|key|] == '.'; }
    assert Explode(index, '.') == [index];
    assert path == [key] + Explode(index, '.');
    ListIndexOfNat(n);
    assert DataGetPath(CMap(entries), path) == DataGetPath(CList(items), [index]);
    assert DataGetPath(CList(items), [index]) == DataGetPath(items[n], []);
  }

  // ---------------------------------------------------------------------------------------
  // JSON text of array values (json_encode with JSON_UNESCAPED_UNICODE)

  function HexDigit(d: nat): (c: char)
    requires d < 16
  {
    if d < 10 then (48 + d) as char else (87 + d) as char
  }

  /** The escape `json_encode` writes for one character of a string: quote, backslash and
      slash are backslash-escaped, the control characters with a short form use it, the
      others become `\u00xx`, and so do the two Unicode line terminators (`\u2028`,
      `\u2029`); every other character, non-ASCII included, is written as is. */
  function EscapeChar(c: char): (r: string)
    ensures r != []
    ensures r == [c] <==> Verbatim(c)
  {
    if c == '"' then "\\\""
    else if c == '\\' then "\\\\"
    else if c == '/' then "\\/"
    else if c == '\U{0008}' then "\\b"
    else if c == '\U{000C}' then "\\f"
    else if c == '\n' then "\\n"
    else if c == '\r' then "\\r"
    else if c == '\t' then "\\t"
    else if c < ' ' then "\\u00" + [HexDigit(c as nat / 16), HexDigit(c as nat % 16)]
    else if c == '\U{2028}' then "\\u2028"
    else if c == '\U{2029}' then "\\u2029"
    else [c]
  }

  function Escape(s: string): string
    decreases |s|
  {
    if s == [] then [] else EscapeChar(s[0]) + Escape(s[1..])
  }

  /** The characters `json_encode` writes unchanged under `JSON_UNESCAPED_UNICODE`: all but
      the quote, backslash, slash, control characters and the two line terminators. */
  predicate Verbatim(c: char) {
    c >= ' ' && c != '"' && c != '\\' && c != '/' && c != '\U{2028}' && c != '\U{2029}'
  }

  /** A string of such characters, non-ASCII ones included, is written as it is. */
  lemma {:induction false} EscapeVerbatim(s: string)
    requires forall i | 0 <= i < |s| :: Verbatim(s[i])
    ensures Escape(s) == s
    decreases |s|
  {
    if s != [] {
      EscapeVerbatim(s[1..]);
      assert [s[0]] + s[1..] == s;
    }
  }

  function JsonString(s: string): string {
    "\"" + Escape(s) + "\""
  }

  /** The compact JSON text of a value. An empty array is `[]`; a list is a JSON array, a
      keyed array a JSON object. */
  function JsonEncode(v: Cell): (r: string)
    ensures r != []
    ensures (v.CStr? || v.CDate?) ==> r[0] == '"' && r[|r| - 1] == '"'
    ensures v.CList? ==> r[0] == '[' && r[|r| - 1] == ']'
    ensures v.CMap? ==> (r[0] == '{' && r[|r| - 1] == '}') || r == "[]"
    decreases v
  {
    match v
    case CNull => "null"
    case CBool(b) => if b then "true" else "false"
    case CInt(i) => IntToString(i)
    case CStr(s) => JsonString(s)
    case CDate(iso) => JsonString(iso)
    case CList(items) => "[" + JsonItems(items) + "]"
    case CMap(entries) => if entries == [] then "[]" else "{" + JsonMembers(entries) + "}"
  }

  function JsonItems(items: seq<Cell>): string
    decreases items
  {
    if items == [] then ""
    else
      assert items[0] in items;
      JsonEncode(items[0]) + (if |items| == 1 then "" else "," + JsonItems(items[1..]))
  }

  function JsonMembers(entries: seq<(string, Cell)>): string
    decreases entries
  {
    if entries == [] then ""
    else
      assert entries[0] in entries;
      JsonMember(entries[0]) + (if |entries| == 1 then "" else "," + JsonMembers(entries[1..]))
  }

  function JsonMember(e: (string, Cell)): string
    decreases e
  {
    JsonString(e.0) + ":" + JsonEncode(e.1)
  }

  /** The JSON texts of a list's items, in order. */
  function ItemTexts(items: seq<Cell>): (r: seq<string>)
    ensures |r| == |items|
  {
    seq(|items|, i requires 0 <= i < |items| => JsonEncode(items[i]))
  }

  /** The `"key":value` texts of a keyed array's entries, in order. */
  function MemberTexts(entries: seq<(string, Cell)>): (r: seq<string>)
    ensures |r| == |entries|
  {
    seq(|entries|, i requires 0 <= i < |entries| => JsonString(entries[i].0) + ":" + JsonEncode(entries[i].1))
  }

  /** A list is written as the JSON texts of its items, in order, separated by commas,
      in brackets. */
  lemma JsonEncodeList(items: seq<Cell>)
    ensures items == [] ==> JsonEncode(CList(items)) == "[]"
    ensures items != [] ==> JsonEncode(CList(items)) == "[" + Implode(ItemTexts(items), ',') + "]"
  {
    if items != [] {
      JsonItemsJoined(items);
    }
  }

  /** A non-empty keyed array is written as its `"key":value` members, in order, separated
      by commas, in braces; an empty one as `[]`. */
  lemma JsonEncodeMap(entries: seq<(string, Cell)>)
    ensures entries == [] ==> JsonEncode(CMap(entries)) == "[]"
    ensures entries != [] ==> JsonEncode(CMap(entries)) == "{" + Implode(MemberTexts(entries), ',') + "}"
  {
    if entries != [] {
      JsonMembersJoined(entries);
    }
  }

  lemma {:induction false} JsonItemsJoined(items: seq<Cell>)
    requires items != []
    ensures JsonItems(items) == Implode(ItemTexts(items), ',')
    decreases |items|
  {
    if |items| > 1 {
      JsonItemsJoined(items[1..]);
      assert ItemTexts(items)[1..] == ItemTexts(items[1..]);
      assert JsonItems(items) == JsonEncode(items[0]) + ("," + JsonItems(items[1..]));
      assert JsonEncode(items[0]) + ("," + JsonItems(items[1..])) == JsonEncode(items[0]) + [','] + JsonItems(items[1..]);
    }
  }

  lemma {:induction false} JsonMembersJoined(entries: seq<(string, Cell)>)
    requires entries != []
    ensures JsonMembers(entries) == Implode(MemberTexts(entries), ',')
    decreases |entries|
  {
    if |entries| > 1 {
      JsonMembersJoined(entries[1..]);
      assert MemberTexts(entries)[1..] == MemberTexts(entries[1..]);
      assert JsonMembers(entries) == JsonMember(entries[0]) + ("," + JsonMembers(entries[1..]));
      assert JsonMember(entries[0]) + ("," + JsonMembers(entries[1..])) == JsonMember(entries[0]) + [','] + JsonMembers(entries[1..]);
    }
  }

  /** `stringify`: dates as their ISO-8601 text, booleans as `1`/`0`, arrays as JSON text,
      everything else as PHP's string cast (null is the empty string). */
  function Stringify(v: Cell): string {
    match v
    case CDate(iso) => iso
    case CBool(b) => if b then "1" else "0"
    case CList(_) => JsonEncode(v)
    case CMap(_) => JsonEncode(v)
    case CNull => ""
    case CInt(i) => IntToString(i)
    case CStr(s) => s
  }

  // ---------------------------------------------------------------------------------------
  // Reading escaped JSON string text back

  function HexValue(c: char): (r: Option<nat>)
    ensures r.Some? ==> r.value < 16
  {
    if '0' <= c <= '9' then Some(c as nat - 48)
    else if 'a' <= c <= 'f' then Some(c as nat - 87)
    else if 'A' <= c <= 'F' then Some(c as nat - 55)
    else None
  }

  /** The character the escape at the start of `t` stands for, and the escape's length. */
  function UnescapeOne(t: string): Option<(char, nat)>
    requires t != []
  {
    if t[0] != '\\' then Some((t[0], 1))
    else if |t| < 2 then None
    else if t[1] == '"' then Some(('"', 2))
    else if t[1] == '\\' then Some(('\\', 2))
    else if t[1] == '/' then Some(('/', 2))
    else if t[1] == 'b' then Some(('\U{0008}', 2))
    else if t[1] == 'f' then Some(('\U{000C}', 2))
    else if t[1] == 'n' then Some(('\n', 2))
    else if t[1] == 'r' then Some(('\r', 2))
    else if t[1] == 't' then Some(('\t', 2))
    else if t[1] == 'u' && |t| >= 6 then
      match (HexValue(t[2]), HexValue(t[3]), HexValue(t[4]), HexValue(t[5]))
      case (Some(a), Some(b), Some(c), Some(d)) =>
        var n := 4096 * a + 256 * b + 16 * c + d;
        if n < 0xD800 || 0xE000 <= n then Some((n as char, 6)) else None
      case _ => None
    else None
  }

  /** The string an escaped JSON string body stands for. */
  function Unescape(t: string): Option<string>
    decreases |t|
  {
    if t == [] then Some([])
    else match UnescapeOne(t)
      case None => None
      case Some((c, n)) =>
        if n == 0 || n > |t| then None
        else match Unescape(t[n..])
          case None => None
          case Some(rest) => Some([c] + rest)
  }

  lemma HexDigitValue(d: nat)
    requires d < 16
    ensures HexValue(HexDigit(d)) == Some(d)
  {
  }

  /** Each character's escape is read back as that character, whatever follows it. */
  lemma UnescapeEscapeChar(c: char, rest: string)
    ensures UnescapeOne(EscapeChar(c) + rest) == Some((c, |EscapeChar(c)|))
  {
    var t := EscapeChar(c) + rest;
    if c < ' ' && c != '\U{0008}' && c != '\U{000C}' && c != '\n' && c != '\r' && c != '\t' {
      var hi := c as nat / 16;
      var lo := c as nat % 16;
      HexDigitValue(hi);
      HexDigitValue(lo);
      assert t[2] == '0' && t[3] == '0' && t[4] == HexDigit(hi) && t[5] == HexDigit(lo);
      assert 4096 * 0 + 256 * 0 + 16 * hi + lo == c as nat;
    } else if c == '\U{2028}' || c == '\U{2029}' {
      assert t[2] == '2' && t[3] == '0' && t[4] == '2';
    }
  }

  /** The JSON escaping of strings is lossless: unescaping gives the original string. */
  lemma {:induction false} UnescapeEscape(s: string)
    ensures Unescape(Escape(s)) == Some(s)
    decreases |s|
  {
    if s != [] {
      var e := EscapeChar(s[0]);
      var tail := Escape(s[1..]);
      var t := e + tail;
      assert Escape(s) == t;
      UnescapeEscapeChar(s[0], tail);
      assert t[|e|..] == tail;
      UnescapeEscape(s[1..]);
      UnescapeFirst(t, s[0], |e|, s[1..]);
      assert [s[0]] + s[1..] == s;
    }
  }

  /** A text whose first escape reads as `c` and whose remainder reads as `rest` reads as
      `c` followed by `rest`. */
  lemma UnescapeFirst(t: string, c: char, n: nat, rest: string)
    requires t != [] && UnescapeOne(t) == Some((c, n)) && 0 < n <= |t|
    requires Unescape(t[n..]) == Some(rest)
    ensures Unescape(t) == Some([c] + rest)
  {
  }

  /** The escaped text never holds a raw control character or Unicode line terminator, so a
      JSON value stays on one CSV line. */
  lemma {:induction false} EscapeIsSafe(s: string)
    ensures forall k :: 0 <= k < |Escape(s)| ==>
      Escape(s)[k] >= ' ' && Escape(s)[k] != '\U{2028}' && Escape(s)[k] != '\U{2029}'
    decreases |s|
  {
    if s != [] {
      EscapeIsSafe(s[1..]);
      var e := EscapeChar(s[0]);
      assert Escape(s) == e + Escape(s[1..]);
    }
  }

  /** What the CSV exporter writes for scalars: booleans as `1`/`0`, integers in decimal so
      that PHP's integer cast reads them back, strings unchanged, null as the empty string. */
  lemma StringifyScalars(b: bool, i: int, s: string)
    ensures Stringify(CBool(b)) == (if b then "1" else "0")
    ensures StringToInt(Stringify(CInt(i))) == i
    ensures Stringify(CStr(s)) == s && Stringify(CNull) == ""
  {
    IntStringRoundTrip(i);
  }

  /** An array is written as JSON text, and text needing no escape goes through as it is,
      non-ASCII characters included: a list of one such string is that string, quoted, in
      brackets. */
  lemma StringifyStringList(s: string)
    requires forall i :: 0 <= i < |s| ==> Verbatim(s[i])
    ensures Stringify(CList([CStr(s)])) == "[\"" + s + "\"]"
  {
    StringifyOneString(s);
    EscapeVerbatim(s);
    assert "[" + ("\"" + s + "\"") + "]" == "[\"" + s + "\"]";
  }

  lemma StringifyOneString(s: string)
    ensures Stringify(CList([CStr(s)])) == "[" + ("\"" + Escape(s) + "\"") + "]"
  {
    assert JsonItems([CStr(s)]) == JsonString(s);
  }
}
