/**
 JSON values and their compact text. An object is the in-order list of the entries of
 the ordered map that holds it.
 */
module Json {
  import opened Text

  datatype Value =
    | Null
    | Bool(flag: bool)
    | Number(literal: string)
    | Str(text: string)
    | Array(items: seq<Value>)
    | Object(fields: seq<Field>)

  datatype Field = Field(key: string, value: Value)

  function HexDigit(n: nat): char
    requires n < 16
  {
    "0123456789abcdef"[n]
  }

  function EscapeChar(c: char): string {
    if c == '"' then "\\\""
    else if c == '\\' then "\\\\"
    else if c as int == 0x08 then "\\b"
    else if c as int == 0x09 then "\\t"
    else if c as int == 0x0A then "\\n"
    else if c as int == 0x0C then "\\f"
    else if c as int == 0x0D then "\\r"
    else if c as int < 0x20 then "\\u00" + [HexDigit(c as int / 16), HexDigit(c as int % 16)]
    else [c]
  }

  function EscapeText(s: string): string {
    if s == "" then "" else EscapeChar(s[0]) + EscapeText(s[1..])
  }

  function Quote(s: string): string {
    "\"" + EscapeText(s) + "\""
  }

  /** The compact text serialisation writes. */
  function Print(v: Value): string {
    match v
    case Null => "null"
    case Bool(b) => if b then "true" else "false"
    case Number(literal) => literal
    case Str(s) => Quote(s)
    case Array(items) => "[" + PrintItems(items) + "]"
    case Object(fields) => "{" + PrintFields(fields) + "}"
  }

  function PrintItems(items: seq<Value>): string {
    if items == [] then ""
    else Print(items[0]) + (if |items| == 1 then "" else "," + PrintItems(items[1..]))
  }

  function PrintFields(fields: seq<Field>): string {
    if fields == [] then ""
    else Quote(fields[0].key) + ":" + Print(fields[0].value)
         + (if |fields| == 1 then "" else "," + PrintFields(fields[1..]))
  }

  /** The length in bytes of the compact text. */
  function Size(v: Value): nat {
    Bytes(Print(v))
  }

  /** How many bytes one character takes inside quotes: two for the short escapes, six for other controls, else its own. */
  function QuotedBytes(c: char): nat {
    var code := c as int;
    if c == '"' || c == '\\' || code == 8 || code == 9 || code == 10 || code == 12 || code == 13 then 2
    else if code < 0x20 then 6
    else Utf8Len(c)
  }

  function TextBytes(s: string): nat {
    if s == "" then 0 else QuotedBytes(s[0]) + TextBytes(s[1..])
  }

  /** Plain ASCII takes one byte for each character. */
  lemma {:induction false} AsciiBytes(s: string)
    requires forall i :: 0 <= i < |s| ==> s[i] as int < 0x80
    ensures Bytes(s) == |s|
  {
    if s != "" {
      AsciiBytes(s[1..]);
    }
  }

  lemma EscapedBytes(c: char)
    ensures Bytes(EscapeChar(c)) == QuotedBytes(c)
  {
    var e := EscapeChar(c);
    if |e| > 1 {
      AsciiBytes(e);
    } else {
      assert e == [c] && [c][1..] == "";
    }
  }

  lemma {:induction false} QuotedText(s: string)
    ensures Bytes(EscapeText(s)) == TextBytes(s)
  {
    if s != "" {
      QuotedText(s[1..]);
      EscapedBytes(s[0]);
      BytesConcat(EscapeChar(s[0]), EscapeText(s[1..]));
    }
  }

  lemma QuotedSize(text: string)
    ensures Bytes(Quote(text)) == 2 + TextBytes(text)
  {
    hide Bytes, EscapeText;
    QuotedText(text);
    BytesConcat("\"", EscapeText(text));
    BytesConcat("\"" + EscapeText(text), "\"");
    AsciiBytes("\"");
  }

  /** The printed size of every scalar. */
  lemma ScalarSizes(literal: string, text: string)
    ensures Size(Null) == 4 && Size(Bool(true)) == 4 && Size(Bool(false)) == 5
    ensures Size(Number(literal)) == Bytes(literal)
    ensures Size(Str(text)) == 2 + TextBytes(text)
  {
    hide Bytes, TextBytes, Quote;
    QuotedSize(text);
    AsciiBytes("null");
    AsciiBytes("true");
    AsciiBytes("false");
  }

  function ItemBytes(items: seq<Value>): nat {
    if items == [] then 0 else Size(items[0]) + ItemBytes(items[1..])
  }

  function FieldBytes(fields: seq<Field>): nat {
    if fields == [] then 0
    else Bytes(Quote(fields[0].key)) + 1 + Size(fields[0].value) + FieldBytes(fields[1..])
  }

  function Commas(n: nat): nat {
    if n == 0 then 0 else n - 1
  }

  lemma {:induction false} ItemsText(items: seq<Value>)
    ensures Bytes(PrintItems(items)) == Commas(|items|) + ItemBytes(items)
  {
    if items != [] {
      ItemsText(items[1..]);
      var head, tail := Print(items[0]), PrintItems(items[1..]);
      BytesConcat(head, if |items| == 1 then "" else "," + tail);
      BytesConcat(",", tail);
      assert Bytes(",") == 1;
    }
  }

  lemma {:induction false} FieldsText(fields: seq<Field>)
    ensures Bytes(PrintFields(fields)) == Commas(|fields|) + FieldBytes(fields)
  {
    if fields != [] {
      FieldsText(fields[1..]);
      var key, value, tail := Quote(fields[0].key), Print(fields[0].value), PrintFields(fields[1..]);
      BytesConcat(key, ":");
      BytesConcat(key + ":", value);
      BytesConcat(key + ":" + value, if |fields| == 1 then "" else "," + tail);
      BytesConcat(",", tail);
      assert Bytes(",") == 1 && Bytes(":") == 1;
    }
  }

  /** Brackets, commas and the elements: the exact size of an array. */
  lemma ArraySize(items: seq<Value>)
    ensures Size(Array(items)) == 2 + Commas(|items|) + ItemBytes(items)
  {
    ItemsText(items);
    BytesConcat("[", PrintItems(items));
    BytesConcat("[" + PrintItems(items), "]");
    assert Bytes("[") == 1 && Bytes("]") == 1;
  }

  /** Braces, commas, quoted keys, colons and the values: the exact size of an object. */
  lemma ObjectSize(fields: seq<Field>)
    ensures Size(Object(fields)) == 2 + Commas(|fields|) + FieldBytes(fields)
  {
    FieldsText(fields);
    BytesConcat("{", PrintFields(fields));
    BytesConcat("{" + PrintFields(fields), "}");
    assert Bytes("{") == 1 && Bytes("}") == 1;
  }

  lemma {:induction false} ItemBytesAppend(items: seq<Value>, v: Value)
    ensures ItemBytes(items + [v]) == ItemBytes(items) + Size(v)
  {
    if items == [] {
      assert items + [v] == [v];
    } else {
      assert (items + [v])[1..] == items[1..] + [v];
      ItemBytesAppend(items[1..], v);
    }
  }

  lemma {:induction false} FieldBytesAppend(fields: seq<Field>, f: Field)
    ensures FieldBytes(fields + [f]) == FieldBytes(fields) + Bytes(Quote(f.key)) + 1 + Size(f.value)
  {
    if fields == [] {
      assert fields + [f] == [f];
    } else {
      assert (fields + [f])[1..] == fields[1..] + [f];
      FieldBytesAppend(fields[1..], f);
    }
  }

  function Max(a: nat, b: nat): nat {
    if a < b then b else a
  }

  /** Nesting depth as the value checker counts it: a scalar has depth one. */
  function Depth(v: Value): nat {
    match v
    case Array(items) => 1 + ItemDepth(items)
    case Object(fields) => 1 + FieldDepth(fields)
    case _ => 1
  }

  function ItemDepth(items: seq<Value>): nat {
    if items == [] then 0 else Max(Depth(items[0]), ItemDepth(items[1..]))
  }

  function FieldDepth(fields: seq<Field>): nat {
    if fields == [] then 0 else Max(Depth(fields[0].value), FieldDepth(fields[1..]))
  }

  /** Map lookup in the entry list. */
  function Lookup(fields: seq<Field>, key: string): (r: seq<Value>)
    ensures |r| <= 1
  {
    if fields == [] then [] else if fields[0].key == key then [fields[0].value] else Lookup(fields[1..], key)
  }

  // ---------------------------------------------------------------- where values lie

  /** The entry an ordered map holds under a key. */
  predicate EntryAt(fields: seq<Field>, key: string, i: int) {
    0 <= i < |fields| && fields[i].key == key && forall j :: 0 <= j < i ==> fields[j].key != key
  }

  lemma {:induction false} LookupMeans(fields: seq<Field>, key: string)
    ensures Lookup(fields, key) == [] <==> forall i :: 0 <= i < |fields| ==> fields[i].key != key
    ensures forall i: int :: EntryAt(fields, key, i) ==> Lookup(fields, key) == [fields[i].value]
    ensures Lookup(fields, key) != [] ==> exists i: int :: EntryAt(fields, key, i)
  {
    if fields != [] {
      if fields[0].key == key {
        assert EntryAt(fields, key, 0);
      } else {
        var rest := fields[1..];
        LookupMeans(rest, key);
        forall i: int
          ensures EntryAt(fields, key, i) <==> EntryAt(rest, key, i - 1)
        {
          if EntryAt(rest, key, i - 1) {
            assert forall j :: 0 < j < i ==> fields[j] == rest[j - 1];
          }
          if EntryAt(fields, key, i) {
            assert forall j :: 0 <= j < i - 1 ==> rest[j] == fields[j + 1];
          }
        }
        if i: int :| EntryAt(rest, key, i) {
          assert EntryAt(fields, key, i + 1);
        }
        assert forall i :: 0 < i < |fields| ==> fields[i] == rest[i - 1];
      }
    }
  }

  /** `w` lies in `v` at these tokens: under the key of an object, at the decimal index of an array, and so on down. */
  ghost predicate LiesAt(v: Value, tokens: seq<string>, w: Value)
    decreases |tokens|
  {
    if tokens == [] then v == w
    else
      match v
      case Object(fields) => exists i: int :: EntryAt(fields, tokens[0], i) && LiesAt(fields[i].value, tokens[1..], w)
      case Array(items) => exists i: nat :: i < |items| && tokens[0] == Decimal(i) && LiesAt(items[i], tokens[1..], w)
      case _ => false
  }

  /** Somewhere on the way there is no such key, or no item at that index. */
  ghost predicate Absent(v: Value, tokens: seq<string>)
    decreases |tokens|
  {
    tokens != [] &&
    match v
    case Object(fields) =>
      || (forall i :: 0 <= i < |fields| ==> fields[i].key != tokens[0])
      || (exists i: int :: EntryAt(fields, tokens[0], i) && Absent(fields[i].value, tokens[1..]))
    case Array(items) =>
      || tokens[0] == "-" || (exists n: nat :: n >= |items| && tokens[0] == Decimal(n))
      || (exists i: nat :: i < |items| && tokens[0] == Decimal(i) && Absent(items[i], tokens[1..]))
    case _ => false
  }

  /** On the way an array is asked for something that is no index. */
  ghost predicate BadIndex(v: Value, tokens: seq<string>)
    decreases |tokens|
  {
    tokens != [] &&
    match v
    case Object(fields) => exists i: int :: EntryAt(fields, tokens[0], i) && BadIndex(fields[i].value, tokens[1..])
    case Array(items) =>
      || (tokens[0] != "-" && forall n: nat :: tokens[0] != Decimal(n))
      || (exists i: nat :: i < |items| && tokens[0] == Decimal(i) && BadIndex(items[i], tokens[1..]))
    case _ => false
  }

  /** On the way something is looked up inside a scalar. */
  ghost predicate IntoScalar(v: Value, tokens: seq<string>)
    decreases |tokens|
  {
    tokens != [] &&
    match v
    case Object(fields) => exists i: int :: EntryAt(fields, tokens[0], i) && IntoScalar(fields[i].value, tokens[1..])
    case Array(items) => exists i: nat :: i < |items| && tokens[0] == Decimal(i) && IntoScalar(items[i], tokens[1..])
    case _ => true
  }

  /** `n` values nested in one another, the outermost being `v`. */
  ghost predicate Nests(v: Value, n: nat)
    decreases n
  {
    n == 1
    || (n > 1 && v.Array? && exists i :: 0 <= i < |v.items| && Nests(v.items[i], n - 1))
    || (n > 1 && v.Object? && exists i :: 0 <= i < |v.fields| && Nests(v.fields[i].value, n - 1))
  }

  /** The depth is the length of the longest chain of nesting. */
  lemma {:induction false} DepthMeans(v: Value, n: nat)
    ensures n >= 1 ==> (Nests(v, n) <==> n <= Depth(v))
    decreases n
  {
    if n > 1 {
      match v {
        case Array(items) =>
          ItemDepthMeans(items, n - 1);
          forall i | 0 <= i < |items|
            ensures Nests(items[i], n - 1) <==> n - 1 <= Depth(items[i])
          {
            DepthMeans(items[i], n - 1);
          }
        case Object(fields) =>
          FieldDepthMeans(fields, n - 1);
          forall i | 0 <= i < |fields|
            ensures Nests(fields[i].value, n - 1) <==> n - 1 <= Depth(fields[i].value)
          {
            DepthMeans(fields[i].value, n - 1);
          }
        case _ =>
      }
    }
  }

  lemma {:induction false} ItemDepthMeans(items: seq<Value>, n: nat)
    ensures n >= 1 ==> (n <= ItemDepth(items) <==> exists i :: 0 <= i < |items| && n <= Depth(items[i]))
  {
    if items != [] {
      ItemDepthMeans(items[1..], n);
      assert forall i :: 0 < i < |items| ==> items[i] == items[1..][i - 1];
      assert n >= 1 && n <= ItemDepth(items[1..]) ==> exists i :: 0 <= i < |items| && n <= Depth(items[i]) by {
        if n >= 1 && n <= ItemDepth(items[1..]) {
          var i :| 0 <= i < |items[1..]| && n <= Depth(items[1..][i]);
          assert n <= Depth(items[i + 1]);
        }
      }
    }
  }

  lemma {:induction false} FieldDepthMeans(fields: seq<Field>, n: nat)
    ensures n >= 1 ==> (n <= FieldDepth(fields) <==> exists i :: 0 <= i < |fields| && n <= Depth(fields[i].value))
  {
    if fields != [] {
      FieldDepthMeans(fields[1..], n);
      assert forall i :: 0 < i < |fields| ==> fields[i] == fields[1..][i - 1];
      assert n >= 1 && n <= FieldDepth(fields[1..]) ==> exists i :: 0 <= i < |fields| && n <= Depth(fields[i].value) by {
        if n >= 1 && n <= FieldDepth(fields[1..]) {
          var i :| 0 <= i < |fields[1..]| && n <= Depth(fields[1..][i].value);
          assert n <= Depth(fields[i + 1].value);
        }
      }
    }
  }
}
