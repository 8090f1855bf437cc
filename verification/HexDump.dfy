/** The hex dumper `debug_dump_ptr` of src/util/debug.c: a row buffer of fixed size that is
    zeroed once and overwritten row after row. */
module HexDump {
  import opened Basics

  const ROW_BUF_SIZE := 300
  const COLUMNS := 16
  const NUL := '\0'

  // ---- What a dump is ------------------------------------------------------------------------

  /** `0` to `9`, then `a` to `f`. */
  function Digit(d: nat): char
    requires d < 16
  {
    if d < 10 then ('0' as int + d) as char else ('a' as int + (d - 10)) as char
  }

  /** `%zu`. */
  function Decimal(n: nat): string {
    if n < 10 then [Digit(n)] else Decimal(n / 10) + [Digit(n % 10)]
  }

  /** `%04zu`. */
  function Padded(s: string): string {
    if |s| >= 4 then s else seq(4 - |s|, _ => '0') + s
  }

  function HexByte(b: byte): (s: string)
    ensures |s| == 3
  {
    [' ', Digit(b as int / 16), Digit(b as int % 16)]
  }

  /** ` %02x` for every byte. */
  function HexText(data: seq<byte>): (s: string)
    ensures |s| == 3 * |data|
  {
    if data == [] then []
    else HexText(data[..|data| - 1]) + HexByte(data[|data| - 1])
  }

  function Rows(n: nat): nat { (n + (COLUMNS - 1)) / COLUMNS }

  function Min(a: int, b: int): int { if a < b then a else b }

  function RowBytes(data: seq<byte>, row: nat): seq<byte>
    requires COLUMNS * row <= |data|
  {
    data[COLUMNS * row..Min(COLUMNS * row + COLUMNS, |data|)]
  }

  function RowText(data: seq<byte>, row: nat): string
    requires COLUMNS * row <= |data|
  {
    Padded(Decimal(COLUMNS * row)) + HexText(RowBytes(data, row))
  }

  lemma RowFits(n: nat, row: nat)
    requires row < Rows(n)
    ensures COLUMNS * row < n && (row + 1 < Rows(n) ==> COLUMNS * row + COLUMNS <= n)
  {
  }

  function Dump(data: seq<byte>): (rows: seq<string>)
    ensures |rows| == Rows(|data|)
  {
    seq(Rows(|data|), row requires 0 <= row < Rows(|data|) => RowFits(|data|, row); RowText(data, row))
  }

  // ---- Reading a dump back -----------------------------------------------------------------------

  function DigitValue(c: char): int {
    if '0' <= c <= '9' then c as int - '0' as int
    else if 'a' <= c <= 'f' then 10 + c as int - 'a' as int
    else 0
  }

  /** The pairs of hex digits after each space. */
  function ParseHex(s: string): seq<int> {
    if |s| < 3 then [] else [16 * DigitValue(s[1]) + DigitValue(s[2])] + ParseHex(s[3..])
  }

  /** The text before the first space, and the rest. */
  function Label(s: string): string {
    if s == [] || s[0] == ' ' then [] else [s[0]] + Label(s[1..])
  }

  function NumberOf(s: string): int {
    if s == [] then 0 else 10 * NumberOf(s[..|s| - 1]) + DigitValue(s[|s| - 1])
  }

  lemma LabelShorter(s: string)
    ensures |Label(s)| <= |s|
  {
  }

  function ParseRow(s: string): seq<int>
  {
    LabelShorter(s);
    ParseHex(s[|Label(s)|..])
  }

  function ParseDump(rows: seq<string>): seq<int> {
    if rows == [] then [] else ParseDump(rows[..|rows| - 1]) + ParseRow(rows[|rows| - 1])
  }

  function Values(data: seq<byte>): seq<int> { seq(|data|, i requires 0 <= i < |data| => data[i] as int) }

  predicate Digits(s: string) { forall i | 0 <= i < |s| :: '0' <= s[i] <= '9' }

  lemma DigitOf(d: nat)
    requires d < 16
    ensures DigitValue(Digit(d)) == d && Digit(d) != NUL && Digit(d) != ' '
    ensures d < 10 ==> '0' <= Digit(d) <= '9'
  {
  }

  lemma {:induction false} DecimalReads(n: nat)
    ensures Digits(Decimal(n)) && NumberOf(Decimal(n)) == n && Decimal(n) != []
  {
    DigitOf(n % 10);
    if n < 10 {
    } else {
      DecimalReads(n / 10);
      assert Decimal(n)[..|Decimal(n)| - 1] == Decimal(n / 10);
    }
  }

  lemma {:induction false} LeadingZeros(k: nat, s: string)
    ensures NumberOf(seq(k, _ => '0') + s) == NumberOf(s)
    decreases |s|, k
  {
    var z := seq(k, _ => '0');
    if k == 0 && s == [] {
    } else if s == [] {
      LeadingZeros(k - 1, []);
      assert (z + s)[..k - 1] == seq(k - 1, _ => '0') + [];
    } else {
      LeadingZeros(k, s[..|s| - 1]);
      assert (z + s)[..|z + s| - 1] == z + s[..|s| - 1];
    }
  }

  lemma PaddedReads(n: nat)
    ensures Digits(Padded(Decimal(n))) && NumberOf(Padded(Decimal(n))) == n
  {
    DecimalReads(n);
    if |Decimal(n)| < 4 { LeadingZeros(4 - |Decimal(n)|, Decimal(n)); }
  }

  lemma {:induction false} LabelOf(head: string, rest: string)
    requires Digits(head) && (rest == [] || rest[0] == ' ')
    ensures Label(head + rest) == head
  {
    if head == [] {
      assert head + rest == rest;
    } else {
      LabelOf(head[1..], rest);
      assert (head + rest)[1..] == head[1..] + rest;
    }
  }

  lemma {:induction false} ParseHexAppend(s: string, t: string)
    requires |s| % 3 == 0
    ensures ParseHex(s + t) == ParseHex(s) + ParseHex(t)
  {
    if s == [] {
      assert s + t == t;
    } else {
      ParseHexAppend(s[3..], t);
      assert (s + t)[3..] == s[3..] + t;
      var h := [16 * DigitValue(s[1]) + DigitValue(s[2])];
      assert ParseHex(s + t) == h + (ParseHex(s[3..]) + ParseHex(t));
      assert ParseHex(s + t) == (h + ParseHex(s[3..])) + ParseHex(t);
    }
  }

  lemma {:induction false} HexReads(data: seq<byte>)
    ensures ParseHex(HexText(data)) == Values(data)
    ensures HexText(data) == [] || HexText(data)[0] == ' '
    ensures forall i | 0 <= i < |HexText(data)| :: HexText(data)[i] != NUL
  {
    if data == [] {
    } else {
      var init, b := data[..|data| - 1], data[|data| - 1];
      HexReads(init);
      ParseHexAppend(HexText(init), HexByte(b));
      DigitOf(b as int / 16);
      DigitOf(b as int % 16);
      assert HexByte(b)[3..] == [];
      assert ParseHex(HexByte(b)) == [b as int];
    }
  }

  lemma {:induction false} DecimalLeads(n: nat)
    ensures n > 0 ==> Decimal(n)[0] != '0'
    decreases n
  {
    if n < 10 {
    } else {
      DecimalLeads(n / 10);
      DecimalReads(n / 10);
    }
  }

  /** A padded number has at least four digits, and is longer only without a leading zero. */
  lemma PaddedWidth(n: nat)
    ensures |Padded(Decimal(n))| >= 4 && (|Padded(Decimal(n))| > 4 ==> Padded(Decimal(n))[0] != '0')
  {
    DecimalLeads(n);
  }

  /** Row `row` of a dump starts with the decimal number of its first byte, filled up with zeros
      to four digits, and carries the next 16 bytes, or what is left of them. */
  lemma RowReads(data: seq<byte>, row: nat)
    requires row < Rows(|data|)
    ensures COLUMNS * row < |data|
    ensures NumberOf(Label(Dump(data)[row])) == COLUMNS * row
    ensures var text := Label(Dump(data)[row]); |text| >= 4 && (|text| > 4 ==> text[0] != '0')
    ensures ParseRow(Dump(data)[row]) == Values(RowBytes(data, row))
    ensures row + 1 < Rows(|data|) ==> |RowBytes(data, row)| == COLUMNS
  {
    RowFits(|data|, row);
    var head, hex := Padded(Decimal(COLUMNS * row)), HexText(RowBytes(data, row));
    PaddedReads(COLUMNS * row);
    PaddedWidth(COLUMNS * row);
    HexReads(RowBytes(data, row));
    LabelOf(head, hex);
    assert Dump(data)[row] == head + hex;
    assert (head + hex)[|head|..] == hex;
  }

  lemma PrefixGrows<T>(s: seq<T>, k: nat)
    requires k < |s|
    ensures s[..k + 1] == s[..k] + [s[k]]
  {
  }

  /** The next row of a dump. */
  lemma DumpGrows(data: seq<byte>, row: nat)
    requires row < Rows(|data|)
    ensures COLUMNS * row < |data|
    ensures Dump(data)[row] == RowText(data, row)
    ensures Dump(data)[..row + 1] == Dump(data)[..row] + [RowText(data, row)]
  {
    RowFits(|data|, row);
    PrefixGrows(Dump(data), row);
  }

  lemma NextRowReads(rows: seq<string>, row: string)
    ensures ParseDump(rows + [row]) == ParseDump(rows) + ParseRow(row)
  {
    assert (rows + [row])[..|rows|] == rows;
  }

  lemma ValuesSplit(data: seq<byte>, m: nat, n: nat)
    requires m <= n <= |data|
    ensures Values(data[..n]) == Values(data[..m]) + Values(data[m..n])
  {
  }

  lemma RowExtends(data: seq<byte>, row: nat)
    requires row < Rows(|data|)
    ensures COLUMNS * row < |data|
    ensures Values(data[..Min(COLUMNS * (row + 1), |data|)])
            == Values(data[..COLUMNS * row]) + Values(RowBytes(data, row))
  {
    RowFits(|data|, row);
    ValuesSplit(data, COLUMNS * row, Min(COLUMNS * (row + 1), |data|));
  }

  lemma {:induction false} PrefixReads(data: seq<byte>, k: nat)
    requires k <= Rows(|data|)
    ensures ParseDump(Dump(data)[..k]) == Values(data[..Min(COLUMNS * k, |data|)])
  {
    if k == 0 {
    } else {
      PrefixReads(data, k - 1);
      RowReads(data, k - 1);
      DumpGrows(data, k - 1);
      NextRowReads(Dump(data)[..k - 1], Dump(data)[k - 1]);
      RowExtends(data, k - 1);
    }
  }

  /** A dump determines the dumped bytes. */
  lemma DumpRoundTrip(data: seq<byte>)
    ensures ParseDump(Dump(data)) == Values(data)
  {
    PrefixReads(data, Rows(|data|));
    assert Dump(data)[..Rows(|data|)] == Dump(data);
    assert data[..|data|] == data;
  }

  // ---- The row buffer ---------------------------------------------------------------------------------

  const MAX_LENGTH := 0x8000_0000_0000_0000

  function Power10(k: nat): nat { if k == 0 then 1 else 10 * Power10(k - 1) }

  lemma {:induction false} DecimalShort(n: nat, k: nat)
    requires 1 <= k && n < Power10(k)
    ensures |Decimal(n)| <= k
    decreases k
  {
    if n < 10 {
    } else {
      DecimalShort(n / 10, k - 1);
    }
  }

  lemma LengthFits(n: nat)
    requires n < MAX_LENGTH
    ensures n < Power10(19)
  {
    assert Power10(3) == 1000;
    assert Power10(6) == 1000 * 1000;
    assert Power10(9) == 1000_000_000;
    assert Power10(12) == 1000_000_000_000;
    assert Power10(15) == 1000_000_000_000_000;
    assert Power10(17) == 100_000_000_000_000_000;
  }

  /** No row of a buffer shorter than 2^63 bytes has more than 19 + 48 characters. */
  lemma RowIsShort(data: seq<byte>, row: nat)
    requires |data| < MAX_LENGTH && row < Rows(|data|)
    ensures |Dump(data)[row]| <= 19 + 3 * COLUMNS < ROW_BUF_SIZE
  {
    RowFits(|data|, row);
    LengthFits(COLUMNS * row);
    DecimalShort(COLUMNS * row, 19);
  }

  /** What `%s` prints of a character array. */
  function CString(s: string): string {
    if s == [] || s[0] == NUL then [] else [s[0]] + CString(s[1..])
  }

  lemma {:induction false} CStringOf(text: string, rest: string)
    requires forall i | 0 <= i < |text| :: text[i] != NUL
    requires rest != [] && rest[0] == NUL
    ensures CString(text + rest) == text
  {
    if text == [] {
      assert text + rest == rest;
    } else {
      CStringOf(text[1..], rest);
      assert (text + rest)[1..] == text[1..] + rest;
    }
  }

  /** snprintf at `at`, with room for `size` characters: truncates to size - 1 of them, adds
      the terminator, and returns the length it wanted to write. */
  method Snprintf(buf: array<char>, at: nat, size: nat, text: string) returns (n: nat)
    requires at + size <= buf.Length
    modifies buf
    ensures n == |text|
    ensures size == 0 ==> buf[..] == old(buf[..])
    ensures size > 0 ==>
      var k := Min(|text|, size - 1);
      && buf[..at + k] == old(buf[..at]) + text[..k]
      && buf[at + k] == NUL
      && buf[at + k + 1..] == old(buf[at + k + 1..])
  {
    n := |text|;
    if size > 0 {
      var k := Min(|text|, size - 1);
      forall i | 0 <= i < k {
        buf[at + i] := text[i];
      }
      buf[at + k] := NUL;
    }
  }

  lemma SliceOfSlice<T>(s: seq<T>, i: nat, j: nat, a: nat, b: nat)
    requires i <= j <= |s| && a <= b <= j - i
    ensures s[i..j][a..b] == s[i + a..i + b]
  {
    var x, y := s[i..j][a..b], s[i + a..i + b];
    forall k | 0 <= k < |x| ensures x[k] == y[k] {
      assert x[k] == s[i..j][a + k];
    }
  }

  lemma RowSlice(mem: seq<byte>, start: nat, end: nat, row: nat)
    requires start < end <= |mem| && row < Rows(end - start)
    ensures start + COLUMNS * row < end
    ensures var from := start + COLUMNS * row;
      RowBytes(mem[start..end], row) == mem[from..Min(from + COLUMNS, end)]
  {
    RowFits(end - start, row);
    SliceOfSlice(mem, start, end, COLUMNS * row, Min(COLUMNS * row + COLUMNS, end - start));
  }

  /** The next row of the dump of `mem[start..end]`, read from the memory. */
  lemma NextRow(mem: seq<byte>, start: nat, end: nat, row: nat, cur: nat)
    requires start < end <= |mem| && row < Rows(end - start) && cur == start + COLUMNS * row
    ensures cur < end
    ensures var data := mem[start..end];
      Dump(data)[..row + 1]
      == Dump(data)[..row] + [Padded(Decimal(COLUMNS * row)) + HexText(mem[cur..Min(cur + COLUMNS, end)])]
  {
    var data := mem[start..end];
    RowSlice(mem, start, end, row);
    DumpGrows(data, row);
    assert RowBytes(data, row) == mem[cur..Min(cur + COLUMNS, end)];
  }

  lemma LineGrows(prefix: string, mem: seq<byte>, from: nat, cur: nat)
    requires from <= cur < |mem|
    ensures prefix + HexText(mem[from..cur]) + HexByte(mem[cur]) == prefix + HexText(mem[from..cur + 1])
  {
    assert mem[from..cur + 1][..cur - from] == mem[from..cur];
  }

  /** The column loop, behind a prefix already in the buffer. */
  method DumpColumns(rowBuf: array<char>, first: nat, mem: seq<byte>, from: nat, end: nat, ghost prefix: string)
    returns (cur: nat)
    requires rowBuf.Length == ROW_BUF_SIZE + 1 && first == |prefix| <= 19
    requires rowBuf[..first] == prefix && rowBuf[first] == NUL
    requires from < end <= |mem|
    modifies rowBuf
    ensures cur == Min(from + COLUMNS, end)
    ensures rowBuf[..first + 3 * (cur - from)] == prefix + HexText(mem[from..cur])
    ensures rowBuf[first + 3 * (cur - from)] == NUL
  {
    var rowOffset, column := first, 0;
    cur := from;
    while column < COLUMNS && cur < end && rowOffset < rowBuf.Length
      invariant 0 <= column <= COLUMNS && cur == from + column <= end
      invariant rowOffset == first + 3 * column
      invariant rowBuf[..rowOffset] == prefix + HexText(mem[from..cur])
      invariant rowBuf[rowOffset] == NUL
    {
      var hex := HexByte(mem[cur]);
      LineGrows(prefix, mem, from, cur);
      var n := Snprintf(rowBuf, rowOffset, ROW_BUF_SIZE - rowOffset, hex);
      assert hex[..3] == hex;
      rowOffset := rowOffset + n;
      cur, column := cur + 1, column + 1;
    }
  }

  lemma Terminated(buf: string, text: string)
    requires |text| < |buf| && buf[..|text|] == text && buf[|text|] == NUL
    requires forall i | 0 <= i < |text| :: text[i] != NUL
    ensures CString(buf) == text
  {
    CStringOf(text, buf[|text|..]);
    assert buf == text + buf[|text|..];
  }

  lemma LineHasNoNul(prefix: string, data: seq<byte>)
    requires Digits(prefix)
    ensures var text := prefix + HexText(data); forall i | 0 <= i < |text| :: text[i] != NUL
  {
    HexReads(data);
  }

  /** A terminated line prints as itself, whatever is behind the terminator. */
  lemma Printed(buf: string, prefix: string, data: seq<byte>)
    requires Digits(prefix) && |prefix| + 3 * |data| < |buf|
    requires buf[..|prefix| + 3 * |data|] == prefix + HexText(data) && buf[|prefix| + 3 * |data|] == NUL
    ensures CString(buf) == prefix + HexText(data)
  {
    LineHasNoNul(prefix, data);
    Terminated(buf, prefix + HexText(data));
  }

  /** The row buffer may hold anything of earlier rows; the printed text does not depend on it. */
  method DumpLine(rowBuf: array<char>, prefix: string, mem: seq<byte>, from: nat, end: nat)
    returns (text: string, cur: nat)
    requires rowBuf.Length == ROW_BUF_SIZE + 1
    requires Digits(prefix) && |prefix| <= 19 && from < end <= |mem|
    modifies rowBuf
    ensures cur == Min(from + COLUMNS, end)
    ensures text == prefix + HexText(mem[from..cur])
  {
    var rowOffset := Snprintf(rowBuf, 0, rowBuf.Length, prefix);
    assert prefix[..|prefix|] == prefix;
    cur := DumpColumns(rowBuf, rowOffset, mem, from, end, prefix);
    text := CString(rowBuf[..]);
    assert rowBuf[..][..|prefix| + 3 * (cur - from)] == rowBuf[..|prefix| + 3 * (cur - from)];
    Printed(rowBuf[..], prefix, mem[from..cur]);
  }

  lemma PrefixIsShort(n: nat)
    requires n < MAX_LENGTH
    ensures Digits(Padded(Decimal(n))) && |Padded(Decimal(n))| <= 19
  {
    LengthFits(n);
    DecimalShort(n, 19);
    PaddedReads(n);
  }

  /** One row: the number, then the bytes from `from` on. */
  method DumpRow(rowBuf: array<char>, start: nat, mem: seq<byte>, from: nat, end: nat)
    returns (text: string, cur: nat)
    requires rowBuf.Length == ROW_BUF_SIZE + 1
    requires start < MAX_LENGTH && from < end <= |mem|
    modifies rowBuf
    ensures cur == Min(from + COLUMNS, end)
    ensures text == Padded(Decimal(start)) + HexText(mem[from..cur])
  {
    PrefixIsShort(start);
    text, cur := DumpLine(rowBuf, Padded(Decimal(start)), mem, from, end);
  }

  /** The row loop.  The buffer is zeroed before it and never again. */
  method DumpRows(mem: seq<byte>, start: nat, end: nat) returns (out: seq<string>)
    requires start < end <= |mem| < MAX_LENGTH
    ensures out == Dump(mem[start..end])
  {
    var rowBuf := new char[ROW_BUF_SIZE + 1](_ => NUL);
    var maxRow := Rows(end - start);
    var cur, row := start, 0;
    out := [];
    while row < maxRow
      invariant 0 <= row <= maxRow
      invariant row < maxRow ==> cur == start + COLUMNS * row
      invariant out == Dump(mem[start..end])[..row]
    {
      NextRow(mem, start, end, row, cur);
      RowFits(end - start, row);
      var text;
      text, cur := DumpRow(rowBuf, COLUMNS * row, mem, cur, end);
      out := out + [text];
      row := row + 1;
    }
  }

  method DumpPtr(level: int, debugLevel: int, mem: seq<byte>, start: Option<nat>, end: Option<nat>)
    returns (out: seq<string>, warned: bool)
    requires end.Some? ==> end.value <= |mem|
    requires |mem| < MAX_LENGTH
    ensures level <= debugLevel ==> out == [] && !warned
    ensures level > debugLevel ==> (warned <==> start.None? || end.None? || end.value <= start.value)
    ensures warned ==> out == []
    ensures level > debugLevel && !warned ==> out == Dump(mem[start.value..end.value])
  {
    out, warned := [], false;
    if level <= debugLevel {
      return;
    }
    if start.None? || end.None? {
      warned := true;
      return;
    }
    var dataLen := end.value - start.value;
    if dataLen <= 0 {
      warned := true;
      return;
    }
    out := DumpRows(mem, start.value, end.value);
  }
}
