/** The canonical array of a purchase request as the JSON text that is stored and compared: reading it
    back gives the same array, so two requests have the same text only if they are the same. */
module CanonicalArray {
  import opened AdmissionTypes

  datatype Item = Text(text: string) | Count(number: nat) | Null

  // ----- writing ---------------------------------------------------------------------------

  function HexDigit(n: nat): char
    requires n < 16
  {
    if n < 10 then ('0' as int + n) as char else ('a' as int + n - 10) as char
  }

  /** JSON.stringify escapes quotes, backslashes and control characters. */
  function EscapeChar(c: char): string {
    if c == '"' then "\\\""
    else if c == '\\' then "\\\\"
    else if c == 8 as char then "\\b"
    else if c == 9 as char then "\\t"
    else if c == 10 as char then "\\n"
    else if c == 12 as char then "\\f"
    else if c == 13 as char then "\\r"
    else if c < ' ' then "\\u00" + [HexDigit(c as int / 16), HexDigit(c as int % 16)]
    else [c]
  }

  function Escape(s: string): string {
    if s == "" then "" else EscapeChar(s[0]) + Escape(s[1..])
  }

  function Digits(n: nat): string {
    if n < 10 then [HexDigit(n)] else Digits(n / 10) + [HexDigit(n % 10)]
  }

  function WriteItem(i: Item): string {
    match i
    case Text(text) => "\"" + Escape(text) + "\""
    case Count(number) => Digits(number)
    case Null => "null"
  }

  /** The items after the opening bracket. */
  function WriteRest(items: seq<Item>): string
    requires items != []
  {
    if |items| == 1 then WriteItem(items[0]) + "]" else WriteItem(items[0]) + "," + WriteRest(items[1..])
  }

  function Write(items: seq<Item>): string
    requires items != []
  {
    "[" + WriteRest(items)
  }

  // ----- reading ---------------------------------------------------------------------------

  function HexValue(c: char): nat {
    if '0' <= c <= '9' then c as int - '0' as int else if 'a' <= c <= 'f' then c as int - 'a' as int + 10 else 0
  }

  /** The first character of the text and what follows its escape. */
  function ReadChar(s: string): Option<(char, string)> {
    if s == "" || s[0] == '"' then None
    else if s[0] != '\\' then Some((s[0], s[1..]))
    else if |s| < 2 then None
    else match s[1]
      case '"' => Some(('"', s[2..]))
      case '\\' => Some(('\\', s[2..]))
      case 'b' => Some((8 as char, s[2..]))
      case 't' => Some((9 as char, s[2..]))
      case 'n' => Some((10 as char, s[2..]))
      case 'f' => Some((12 as char, s[2..]))
      case 'r' => Some((13 as char, s[2..]))
      case 'u' => if |s| < 6 then None else Some(((HexValue(s[4]) * 16 + HexValue(s[5])) as char, s[6..]))
      case _ => None
  }

  function ReadText(s: string): Option<(string, string)>
    decreases |s|
  {
    if s == "" then None
    else if s[0] == '"' then Some(("", s[1..]))
    else
      var first := ReadChar(s);
      if first.None? || |first.value.1| >= |s| then None else
        var rest := ReadText(first.value.1);
        if rest.None? then None else Some(([first.value.0] + rest.value.0, rest.value.1))
  }

  predicate Decimal(c: char) { '0' <= c <= '9' }

  function Leading(s: string): nat
    ensures Leading(s) <= |s|
  {
    if s == "" || !Decimal(s[0]) then 0 else 1 + Leading(s[1..])
  }

  function Value(s: string): nat {
    if s == "" then 0 else Value(s[..|s| - 1]) * 10 + HexValue(s[|s| - 1])
  }

  function ReadItem(s: string): Option<(Item, string)> {
    if s == "" then None
    else if s[0] == '"' then
      var t := ReadText(s[1..]);
      if t.None? then None else Some((Text(t.value.0), t.value.1))
    else if Decimal(s[0]) then Some((Count(Value(s[..Leading(s)])), s[Leading(s)..]))
    else if |s| >= 4 && s[..4] == "null" then Some((Null, s[4..]))
    else None
  }

  function ReadRest(s: string): Option<seq<Item>>
    decreases |s|
  {
    var i := ReadItem(s);
    if i.None? || i.value.1 == "" || |i.value.1| > |s| then None
    else if i.value.1 == "]" then Some([i.value.0])
    else if i.value.1[0] != ',' then None
    else
      var rest := ReadRest(i.value.1[1..]);
      if rest.None? then None else Some([i.value.0] + rest.value)
  }

  function Read(s: string): Option<seq<Item>> {
    if s == "" || s[0] != '[' then None else ReadRest(s[1..])
  }

  // ----- round trip ------------------------------------------------------------------------

  lemma HexRoundTrip(n: nat)
    requires n < 16
    ensures HexValue(HexDigit(n)) == n && HexDigit(n) != '"' && (n < 10 ==> Decimal(HexDigit(n)))
  {}

  lemma ReadsChar(c: char, rest: string)
    ensures ReadChar(EscapeChar(c) + rest) == Some((c, rest))
    ensures EscapeChar(c) != "" && EscapeChar(c)[0] != '"'
  {
    var s := EscapeChar(c) + rest;
    if c < ' ' && |EscapeChar(c)| == 6 {
      HexRoundTrip(c as int / 16);
      HexRoundTrip(c as int % 16);
      assert s[..6] == EscapeChar(c);
      assert s[4] == HexDigit(c as int / 16) && s[5] == HexDigit(c as int % 16);
      assert s[6..] == rest;
    } else if |EscapeChar(c)| == 2 {
      assert s[2..] == rest;
    } else {
      assert s[1..] == rest;
    }
  }

  lemma {:induction false} ReadsText(t: string, rest: string)
    ensures ReadText(Escape(t) + "\"" + rest) == Some((t, rest))
  {
    if t == "" {
      assert Escape(t) + "\"" + rest == "\"" + rest;
      assert ("\"" + rest)[1..] == rest;
    } else {
      var tail := Escape(t[1..]) + "\"" + rest;
      assert Escape(t) + "\"" + rest == EscapeChar(t[0]) + tail;
      ReadsChar(t[0], tail);
      ReadsText(t[1..], rest);
      assert [t[0]] + t[1..] == t;
    }
  }

  lemma {:induction false} DigitsAreDecimal(n: nat)
    ensures Digits(n) != "" && (forall i | 0 <= i < |Digits(n)| :: Decimal(Digits(n)[i])) && Value(Digits(n)) == n
  {
    if n < 10 {
      HexRoundTrip(n);
      assert Digits(n)[..0] == "";
    } else {
      DigitsAreDecimal(n / 10);
      HexRoundTrip(n % 10);
      assert Digits(n)[..|Digits(n)| - 1] == Digits(n / 10);
    }
  }

  lemma {:induction false} LeadingDigits(d: string, rest: string)
    requires (forall i | 0 <= i < |d| :: Decimal(d[i])) && (rest == "" || !Decimal(rest[0]))
    ensures Leading(d + rest) == |d|
  {
    if d == "" {
      assert d + rest == rest;
    } else {
      assert (d + rest)[1..] == d[1..] + rest;
      LeadingDigits(d[1..], rest);
    }
  }

  lemma TakesAndDrops(a: string, b: string)
    ensures (a + b)[..|a|] == a && (a + b)[|a|..] == b
  {}

  lemma ReadsCount(number: nat, rest: string)
    requires rest != "" && !Decimal(rest[0])
    ensures ReadItem(Digits(number) + rest) == Some((Count(number), rest))
  {
    hide Digits; hide Leading; hide Value; hide ReadText;
    var d := Digits(number);
    DigitsAreDecimal(number);
    LeadingDigits(d, rest);
    TakesAndDrops(d, rest);
    assert (d + rest)[0] == d[0];
  }

  lemma ReadsItem(i: Item, rest: string)
    requires rest != "" && (rest[0] == ',' || rest[0] == ']')
    ensures ReadItem(WriteItem(i) + rest) == Some((i, rest))
  {
    hide Digits; hide Leading; hide Value; hide ReadText; hide Escape;
    var s := WriteItem(i) + rest;
    match i
    case Text(text) =>
      assert s[1..] == Escape(text) + "\"" + rest;
      ReadsText(text, rest);
    case Count(number) =>
      ReadsCount(number, rest);
    case Null =>
      TakesAndDrops("null", rest);
  }

  lemma WritesSomething(items: seq<Item>)
    requires items != []
    ensures WriteRest(items) != ""
  {}

  lemma {:induction false} ReadsRest(items: seq<Item>)
    requires items != []
    ensures ReadRest(WriteRest(items)) == Some(items)
  {
    hide ReadItem; hide WriteItem;
    var s := WriteRest(items);
    if |items| == 1 {
      assert s == WriteItem(items[0]) + "]";
      ReadsItem(items[0], "]");
      assert items == [items[0]];
    } else {
      var tail := "," + WriteRest(items[1..]);
      assert s == WriteItem(items[0]) + tail;
      ReadsItem(items[0], tail);
      assert tail[1..] == WriteRest(items[1..]);
      ReadsRest(items[1..]);
      WritesSomething(items[1..]);
      assert [items[0]] + items[1..] == items;
    }
  }

  /** Reading what was written gives the array back. */
  lemma ReadsBack(items: seq<Item>)
    requires items != []
    ensures Read(Write(items)) == Some(items)
  {
    assert Write(items)[1..] == WriteRest(items);
    ReadsRest(items);
  }

  // ----- purchase requests -----------------------------------------------------------------

  datatype PurchaseText = PurchaseText(user: string, event: string, epoch: string, operation: string, tier: string, quantity: nat, key: Option<string>)

  function ArrayOf(p: PurchaseText): seq<Item> {
    [Text(p.user), Text(p.event), Text(p.epoch), Text(p.operation), Text(p.tier), Count(p.quantity),
     if p.key.Some? then Text(p.key.value) else Null]
  }

  function FingerprintText(p: PurchaseText): string {
    Write(ArrayOf(p))
  }

  /** Equal fingerprints are of equal requests, and the reclaimer finds the operation in fourth place. */
  lemma FingerprintIsInjective(p: PurchaseText, q: PurchaseText)
    ensures FingerprintText(p) == FingerprintText(q) <==> p == q
    ensures Read(FingerprintText(p)).Some? && |Read(FingerprintText(p)).value| == 7 && Read(FingerprintText(p)).value[3] == Text(p.operation)
  {
    ReadsBack(ArrayOf(p));
    ReadsBack(ArrayOf(q));
    if FingerprintText(p) == FingerprintText(q) {
      var a, b := ArrayOf(p), ArrayOf(q);
      assert a == b;
      assert a[0] == b[0] && a[1] == b[1] && a[2] == b[2] && a[3] == b[3] && a[4] == b[4] && a[5] == b[5] && a[6] == b[6];
    }
  }
}
