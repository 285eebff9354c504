/**
 Formatting of log lines (src/LogStream.cpp, include/LogStream.h): integers are converted
 through C++ truncating division and a mirrored digit table into a fixed-size buffer.
 */
module LogStreams {
  import opened Bytes

  const MIN_SIGNED: int := -0x8000_0000_0000_0000
  const MAX_UNSIGNED: int := 0xFFFF_FFFF_FFFF_FFFF
  const MAX_NUMERIC_SIZE: nat := 32
  const SMALL_BUFFER: nat := 4000

  // ----- Decimal text -----

  /** C++ `/` and `%` by ten, which round towards zero. */
  function TruncDiv10(a: int): int {
    if 0 <= a then a / 10 else -((-a) / 10)
  }

  function TruncMod10(a: int): int {
    a - 10 * TruncDiv10(a)
  }

  const MIRRORED_DIGITS: string := "9876543210123456789"

  function Abs(a: int): nat {
    if 0 <= a then a else -a
  }

  function Digit(d: nat): char
    requires d < 10
  {
    "0123456789"[d]
  }

  /** The digits of `n`, most significant first. */
  function Digits(n: nat): (text: string)
    ensures text != []
  {
    if n < 10 then [Digit(n)] else Digits(n / 10) + [Digit(n % 10)]
  }

  function Decimal(v: int): string {
    if v < 0 then "-" + Digits(Abs(v)) else Digits(v)
  }

  predicate IsDigit(c: char) {
    '0' <= c <= '9'
  }

  function DigitValue(c: char): nat
    requires IsDigit(c)
  {
    c as int - '0' as int
  }

  predicate AllDigits(text: string) {
    forall k :: 0 <= k < |text| ==> IsDigit(text[k])
  }

  function NatValue(text: string): nat
    requires AllDigits(text)
  {
    if text == [] then 0 else 10 * NatValue(text[..|text| - 1]) + DigitValue(text[|text| - 1])
  }

  /** Decimal texts a reader accepts: digits without a spare leading zero, no "-0". */
  predicate Canonical(text: string) {
    if text != [] && text[0] == '-' then
      CanonicalNat(text[1..]) && text[1] != '0'
    else
      CanonicalNat(text)
  }

  predicate CanonicalNat(text: string) {
    text != [] && AllDigits(text) && (text[0] == '0' ==> |text| == 1)
  }

  function Value(text: string): int
    requires Canonical(text)
  {
    if text[0] == '-' then 0 - NatValue(text[1..]) else NatValue(text)
  }

  lemma DigitRoundTrip(d: nat)
    requires d < 10
    ensures IsDigit(Digit(d)) && DigitValue(Digit(d)) == d && (Digit(d) == '0' <==> d == 0)
  {
    assert Digit(d) == ('0' as int + d) as char;
  }

  lemma {:induction false} DigitsAreCanonical(n: nat)
    ensures CanonicalNat(Digits(n)) && NatValue(Digits(n)) == n
    ensures n > 0 ==> Digits(n)[0] != '0'
  {
    DigitRoundTrip(n % 10);
    if 10 <= n {
      DigitsAreCanonical(n / 10);
      var text := Digits(n);
      assert text[..|text| - 1] == Digits(n / 10);
    } else {
      assert Digits(n)[..0] == [];
    }
  }

  lemma DigitOfValue(c: char)
    requires IsDigit(c)
    ensures DigitValue(c) < 10 && Digit(DigitValue(c)) == c
  {
    assert c == ('0' as int + DigitValue(c)) as char;
  }

  lemma {:induction false} CanonicalNatIsDigits(text: string)
    requires CanonicalNat(text)
    ensures Digits(NatValue(text)) == text
    ensures |text| > 1 ==> 10 <= NatValue(text)
    decreases |text|
  {
    var last := text[|text| - 1];
    DigitOfValue(last);
    var init := text[..|text| - 1];
    if |text| > 1 {
      CanonicalNatIsDigits(init);
      assert NatValue(text) / 10 == NatValue(init);
      if |init| == 1 {
        DigitOfValue(init[0]);
        assert init[..0] == [];
        DigitRoundTrip(DigitValue(init[0]));
      }
      assert text == init + [last];
    } else {
      assert init == [] && text == [last];
    }
  }

  /** The text of every integer is canonical and reads back as that integer. */
  lemma DecimalRoundTrip(v: int)
    ensures Canonical(Decimal(v)) && Value(Decimal(v)) == v
  {
    DigitsAreCanonical(Abs(v));
    if v < 0 {
      assert Decimal(v)[1..] == Digits(Abs(v));
    }
  }

  /** Conversely every canonical text is the text of its value, so the text is unique. */
  lemma CanonicalIsDecimal(text: string)
    requires Canonical(text)
    ensures Decimal(Value(text)) == text
  {
    if text[0] == '-' {
      CanonicalNatIsDigits(text[1..]);
      assert Digits(0) == "0";
    } else {
      CanonicalNatIsDigits(text);
    }
  }

  // ----- Length -----

  function Pow10(k: nat): nat {
    if k == 0 then 1 else 10 * Pow10(k - 1)
  }

  lemma {:induction false} DigitsFit(n: nat, k: nat)
    requires 1 <= k && n < Pow10(k)
    ensures |Digits(n)| <= k
    decreases k
  {
    if 10 <= n {
      assert Pow10(k) == 10 * Pow10(k - 1);
      assert Pow10(0) == 1;
      DigitsFit(n / 10, k - 1);
    }
  }

  /** Every signed or unsigned 64-bit value takes at most twenty characters. */
  lemma DecimalFits(v: int)
    requires MIN_SIGNED <= v <= MAX_UNSIGNED
    ensures |Decimal(v)| <= 20
  {
    assert Pow10(4) == 1_0000;
    assert Pow10(8) == 1_0000_0000;
    assert Pow10(12) == 1_0000_0000_0000;
    assert Pow10(16) == 1_0000_0000_0000_0000;
    assert Pow10(19) == 1000_0000_0000_0000_0000;
    assert Pow10(20) == 1_0000_0000_0000_0000_0000;
    if v < 0 {
      DigitsFit(Abs(v), 19);
    } else {
      DigitsFit(v, 20);
    }
  }

  // ----- Reversal -----

  function Reversed(s: string): (r: string)
    ensures |r| == |s|
  {
    if s == [] then [] else Reversed(s[1..]) + [s[0]]
  }

  lemma {:induction false} ReversedSnoc(s: string, c: char)
    ensures Reversed(s + [c]) == [c] + Reversed(s)
    decreases |s|
  {
    if s == [] {
      assert s + [c] == [c];
    } else {
      assert (s + [c])[1..] == s[1..] + [c];
      ReversedSnoc(s[1..], c);
    }
  }

  lemma {:induction false} ReversedAt(s: string, k: nat)
    requires k < |s|
    ensures Reversed(s)[k] == s[|s| - 1 - k]
    decreases |s|
  {
    if k < |s| - 1 {
      ReversedAt(s[1..], k);
    }
  }

  lemma ReversedIs(s: string, r: string)
    requires |r| == |s| && forall k :: 0 <= k < |s| ==> r[k] == s[|s| - 1 - k]
    ensures r == Reversed(s)
  {
    forall k | 0 <= k < |s|
      ensures r[k] == Reversed(s)[k]
    {
      ReversedAt(s, k);
    }
  }

  /** `std::reverse` on the characters from `lo` up to `hi`. */
  method ReverseRange(a: array<char>, lo: nat, hi: nat)
    requires lo <= hi <= a.Length
    modifies a
    ensures a[lo..hi] == Reversed(old(a[lo..hi]))
    ensures forall k :: 0 <= k < lo || hi <= k < a.Length ==> a[k] == old(a[k])
  {
    var i, j := lo, hi;
    while i + 1 < j
      invariant lo <= i <= j + 1 <= hi + 1 && i - lo == hi - j
      invariant forall k :: lo <= k < i ==> a[k] == old(a[hi + lo - 1 - k])
      invariant forall k :: j <= k < hi ==> a[k] == old(a[hi + lo - 1 - k])
      invariant forall k :: i <= k < j ==> a[k] == old(a[k])
      invariant forall k :: 0 <= k < lo || hi <= k < a.Length ==> a[k] == old(a[k])
    {
      j := j - 1;
      a[i], a[j] := a[j], a[i];
      i := i + 1;
    }
    ghost var was, now := old(a[lo..hi]), a[lo..hi];
    forall k | 0 <= k < |was|
      ensures now[k] == was[|was| - 1 - k]
    {
      assert now[k] == a[lo + k];
      assert was[|was| - 1 - k] == old(a[hi + lo - 1 - (lo + k)]);
    }
    ReversedIs(was, now);
  }

  // ----- Conversion -----

  /** One turn of the loop: the mirrored table yields the last digit whatever the sign. */
  lemma LastDigit(i: int)
    ensures -9 <= TruncMod10(i) <= 9
    ensures MIRRORED_DIGITS[9 + TruncMod10(i)] == Digit(Abs(i) % 10)
    ensures Abs(TruncDiv10(i)) == Abs(i) / 10
    ensures TruncDiv10(i) == 0 <==> Abs(i) < 10
  {
    var m := Abs(i) % 10;
    assert TruncMod10(i) == (if 0 <= i then m else -m);
    assert MIRRORED_DIGITS[9 + m] == Digit(m) && MIRRORED_DIGITS[9 - m] == Digit(m);
  }

  /** The digits found so far, reversed, complete the digits still to come. */
  lemma PushDigit(whole: string, rest: nat, out: string)
    requires whole == Digits(rest) + Reversed(out)
    ensures var out' := out + [Digit(rest % 10)];
            whole == if rest < 10 then Reversed(out') else Digits(rest / 10) + Reversed(out')
  {
    var d := Digit(rest % 10);
    ReversedSnoc(out, d);
    if rest < 10 {
      assert Digits(rest) == [d];
    } else {
      assert Digits(rest) == Digits(rest / 10) + [d];
      AppendAssoc(Digits(rest / 10), [d], Reversed(out));
    }
  }

  /** `*p++ = c`, behind the characters already written from `start`. */
  method Put(buf: array<char>, start: nat, p: nat, c: char)
    requires start <= p < buf.Length
    modifies buf
    ensures buf[start..p + 1] == old(buf[start..p]) + [c]
    ensures forall k :: 0 <= k < buf.Length && k != p ==> buf[k] == old(buf[k])
  {
    buf[p] := c;
  }

  /** The do-while loop: the digits, least significant first. */
  method EmitDigits(buf: array<char>, start: nat, value: int) returns (p: nat)
    requires start + |Digits(Abs(value))| <= buf.Length
    modifies buf
    ensures p == start + |Digits(Abs(value))|
    ensures Reversed(buf[start..p]) == Digits(Abs(value))
    ensures forall k :: 0 <= k < start || p <= k < buf.Length ==> buf[k] == old(buf[k])
  {
    var i := value;
    p := start;
    ghost var out: string := [];
    while true
      invariant Digits(Abs(value)) == Digits(Abs(i)) + Reversed(out)
      invariant |out| + |Digits(Abs(i))| == |Digits(Abs(value))|
      invariant p == start + |out| && buf[start..p] == out
      invariant forall k :: 0 <= k < start || p <= k < buf.Length ==> buf[k] == old(buf[k])
      decreases Abs(i)
    {
      LastDigit(i);
      PushDigit(Digits(Abs(value)), Abs(i), out);
      var lsd := TruncMod10(i);
      out := out + [MIRRORED_DIGITS[9 + lsd]];
      i := TruncDiv10(i);
      Put(buf, start, p, MIRRORED_DIGITS[9 + lsd]);
      p := p + 1;
      if i == 0 {
        return;
      }
    }
  }

  /**
   `convert`: the decimal text of `value` and a NUL at `buf + start`.  The value ranges over
   both 64-bit types the template is instantiated with.
   */
  method Convert(buf: array<char>, start: nat, value: int) returns (len: nat)
    requires MIN_SIGNED <= value <= MAX_UNSIGNED
    requires start + 21 <= buf.Length
    modifies buf
    ensures len == |Decimal(value)| <= 20
    ensures buf[start..start + len] == Decimal(value) && buf[start + len] == '\0'
    ensures forall k :: 0 <= k < start || start + len < k < buf.Length ==> buf[k] == old(buf[k])
  {
    DecimalFits(value);
    var p := EmitDigits(buf, start, value);
    if value < 0 {
      ReversedSnoc(buf[start..p], '-');
      Put(buf, start, p, '-');
      p := p + 1;
    }
    ghost var out := buf[start..p];
    buf[p] := '\0';
    assert buf[start..p] == out;
    ReverseRange(buf, start, p);
    len := p - start;
  }

  // ----- Insertion into the fixed buffer -----

  datatype Item = Integer(value: int) | Chars(text: string)

  predicate Representable(item: Item) {
    item.Integer? ==> MIN_SIGNED <= item.value <= MAX_UNSIGNED
  }

  function Render(item: Item): string {
    match item
    case Integer(v) => Decimal(v)
    case Chars(text) => text
  }

  /** Whether an insertion behind `used` bytes is taken: integers want 32 free bytes, text one to spare. */
  predicate HasRoom(used: nat, item: Item) {
    match item
    case Integer(_) => used + MAX_NUMERIC_SIZE <= SMALL_BUFFER
    case Chars(more) => used + |more| < SMALL_BUFFER
  }

  function Insert(text: string, item: Item): string {
    if HasRoom(|text|, item) then text + Render(item) else text
  }

  function InsertAll(text: string, items: seq<Item>): string
    decreases |items|
  {
    if items == [] then text else InsertAll(Insert(text, items[0]), items[1..])
  }

  function RenderAll(items: seq<Item>): string {
    if items == [] then [] else Render(items[0]) + RenderAll(items[1..])
  }

  lemma InsertLeavesRoom(text: string, item: Item)
    requires |text| < SMALL_BUFFER && Representable(item)
    ensures |Insert(text, item)| < SMALL_BUFFER
    ensures !HasRoom(|text|, item) ==> Render(item) != []
  {
    if item.Integer? {
      DecimalFits(item.value);
      DecimalRoundTrip(item.value);
    }
  }

  /** After any insertions the buffer still has a free byte. */
  lemma {:induction false} AlwaysOneFreeByte(text: string, items: seq<Item>)
    requires |text| < SMALL_BUFFER
    requires forall item :: item in items ==> Representable(item)
    ensures |InsertAll(text, items)| < SMALL_BUFFER
    decreases |items|
  {
    if items != [] {
      assert Representable(items[0]);
      InsertLeavesRoom(text, items[0]);
      AlwaysOneFreeByte(Insert(text, items[0]), items[1..]);
    }
  }

  lemma {:induction false} NothingIsInvented(text: string, items: seq<Item>)
    ensures |InsertAll(text, items)| <= |text| + |RenderAll(items)|
    decreases |items|
  {
    if items != [] {
      NothingIsInvented(Insert(text, items[0]), items[1..]);
    }
  }

  /** As long as 32 bytes to spare remain for the whole line, nothing is dropped. */
  lemma {:induction false} ShortLinesAreComplete(text: string, items: seq<Item>)
    requires |text| + |RenderAll(items)| + MAX_NUMERIC_SIZE <= SMALL_BUFFER
    ensures InsertAll(text, items) == text + RenderAll(items)
    decreases |items|
  {
    if items == [] {
      assert text + RenderAll(items) == text;
    } else {
      ShortLinesAreComplete(Insert(text, items[0]), items[1..]);
      AppendAssoc(text, Render(items[0]), RenderAll(items[1..]));
    }
  }

  /** Each item finds room behind the items before it, all of those taken. */
  ghost predicate AllHaveRoom(used: nat, items: seq<Item>) {
    forall i :: 0 <= i < |items| ==> HasRoom(used + |RenderAll(items[..i])|, items[i])
  }

  lemma AllHaveRoomSplit(used: nat, items: seq<Item>)
    requires items != []
    ensures AllHaveRoom(used, items) <==>
              HasRoom(used, items[0]) && AllHaveRoom(used + |Render(items[0])|, items[1..])
  {
    var rest := items[1..];
    assert RenderAll(items[..0]) == [];
    forall i | 0 <= i < |rest|
      ensures used + |RenderAll(items[..i + 1])| == used + |Render(items[0])| + |RenderAll(rest[..i])|
      ensures items[i + 1] == rest[i]
    {
      assert items[..i + 1][1..] == rest[..i];
    }
    if AllHaveRoom(used, items) {
      assert HasRoom(used + |RenderAll(items[..0])|, items[0]);
      forall i | 0 <= i < |rest|
        ensures HasRoom(used + |Render(items[0])| + |RenderAll(rest[..i])|, rest[i])
      {
        assert HasRoom(used + |RenderAll(items[..i + 1])|, items[i + 1]);
      }
    }
    if HasRoom(used, items[0]) && AllHaveRoom(used + |Render(items[0])|, rest) {
      forall i | 0 <= i < |items|
        ensures HasRoom(used + |RenderAll(items[..i])|, items[i])
      {
        assert i > 0 ==> HasRoom(used + |Render(items[0])| + |RenderAll(rest[..i - 1])|, rest[i - 1]);
      }
    }
  }

  /** Nothing is dropped exactly when each item finds room behind those before it. */
  lemma {:induction false} LinesAreCompleteExactly(text: string, items: seq<Item>)
    requires |text| < SMALL_BUFFER
    requires forall item :: item in items ==> Representable(item)
    ensures InsertAll(text, items) == text + RenderAll(items) <==> AllHaveRoom(|text|, items)
    decreases |items|
  {
    if items == [] {
      assert text + RenderAll(items) == text;
    } else {
      var item, rest := items[0], items[1..];
      assert Representable(item);
      AllHaveRoomSplit(|text|, items);
      InsertLeavesRoom(text, item);
      NothingIsInvented(text, rest);
      LinesAreCompleteExactly(Insert(text, item), rest);
      AppendAssoc(text, Render(item), RenderAll(rest));
    }
  }

  /** `FixedBuffer<SIZE>`. */
  class FixedBuffer {
    const data: array<char>
    var cur: nat

    ghost predicate Valid()
      reads this
    {
      cur < data.Length
    }

    ghost function Text(): string
      reads this, data
      requires Valid()
    {
      data[..cur]
    }

    constructor (size: nat)
      requires 0 < size
      ensures Valid() && fresh(data) && data.Length == size && Text() == []
    {
      data := new char[size](_ => '\0');
      cur := 0;
    }

    /** All of `text` or, when it does not leave a byte to spare, nothing. */
    method Append(text: string)
      requires Valid()
      modifies this, data
      ensures Valid()
      ensures Text() == BoundedAppend(old(Text()), text, data.Length)
    {
      if |text| < data.Length - cur {
        forall k | 0 <= k < |text| {
          data[cur + k] := text[k];
        }
        cur := cur + |text|;
        assert data[..cur] == old(data[..cur]) + text;
      }
    }

    method Reset()
      requires Valid()
      modifies this`cur
      ensures Valid() && Text() == []
    {
      cur := 0;
    }
  }

  class LogStream {
    const buffer: FixedBuffer

    ghost predicate Valid()
      reads this, buffer
    {
      buffer.Valid() && buffer.data.Length == SMALL_BUFFER
    }

    constructor ()
      ensures Valid() && fresh(buffer) && fresh(buffer.data) && buffer.Text() == []
    {
      buffer := new FixedBuffer(SMALL_BUFFER);
    }

    /** `formatInteger`: digits, sign and NUL go straight behind the text. */
    method FormatInteger(v: int)
      requires Valid() && Representable(Integer(v))
      modifies buffer, buffer.data
      ensures Valid()
      ensures buffer.Text() == Insert(old(buffer.Text()), Integer(v))
    {
      if MAX_NUMERIC_SIZE <= buffer.data.Length - buffer.cur {
        var len := Convert(buffer.data, buffer.cur, v);
        buffer.cur := buffer.cur + len;
        assert buffer.data[..buffer.cur] == old(buffer.Text()) + Decimal(v);
      }
    }

    /** `operator<<` for characters, strings and booleans. */
    method InsertText(text: string)
      requires Valid()
      modifies buffer, buffer.data
      ensures Valid()
      ensures buffer.Text() == Insert(old(buffer.Text()), Chars(text))
    {
      buffer.Append(text);
    }

    method InsertBool(v: bool)
      requires Valid()
      modifies buffer, buffer.data
      ensures Valid()
      ensures buffer.Text() == Insert(old(buffer.Text()), Chars(if v then "1" else "0"))
    {
      buffer.Append(if v then "1" else "0");
    }
  }
}
