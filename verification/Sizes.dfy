/** Sizes as text (internal/retycclient/client.go): what FormatSize renders, and the number of bytes that such a
    text denotes. */
module Sizes {
  import opened Base

  datatype Unit = Unit(suffix: string, size: nat)

  /** The units of FormatSize, the largest first. */
  const UNITS := [Unit("TiB", 0x100_0000_0000), Unit("GiB", 0x4000_0000), Unit("MiB", 0x10_0000), Unit("KiB", 0x400)]

  // ---------------------------------------------------------------- decimal numbers

  predicate IsDigit(c: char) { '0' <= c <= '9' }

  function Digit(d: nat): (c: char)
    requires d < 10
    ensures IsDigit(c)
  {
    '0' + d as char
  }

  function Value(c: char): nat
    requires IsDigit(c)
  {
    (c - '0') as nat
  }

  /** strconv.FormatInt, base 10, of a number that is not negative. */
  function Decimal(n: nat): (s: string)
    ensures s != "" && forall i :: 0 <= i < |s| ==> IsDigit(s[i])
  {
    if n < 10 then [Digit(n)] else Decimal(n / 10) + [Digit(n % 10)]
  }

  function FormatInt(n: int): string { if n < 0 then "-" + Decimal(-n) else Decimal(n) }

  /** The number a string of digits stands for. */
  function Number(s: string): nat
    requires forall i :: 0 <= i < |s| ==> IsDigit(s[i])
  {
    if s == "" then 0 else 10 * Number(s[..|s| - 1]) + Value(s[|s| - 1])
  }

  lemma {:induction false} DecimalDenotes(n: nat)
    ensures Number(Decimal(n)) == n
  {
    if n >= 10 {
      DecimalDenotes(n / 10);
      var s := Decimal(n);
      assert s[..|s| - 1] == Decimal(n / 10);
    }
  }

  // ---------------------------------------------------------------- sizes

  /** How many digits a text starts with. */
  function Leading(s: string): (k: nat)
    ensures k <= |s| && (forall i :: 0 <= i < k ==> IsDigit(s[i])) && (k < |s| ==> !IsDigit(s[k]))
  {
    if s == "" || !IsDigit(s[0]) then 0 else 1 + Leading(s[1..])
  }

  function SizeOf(suffix: string): Option<nat> {
    if suffix == "B" || suffix == "" then Some(1)
    else if suffix == "KiB" then Some(0x400)
    else if suffix == "MiB" then Some(0x10_0000)
    else if suffix == "GiB" then Some(0x4000_0000)
    else if suffix == "TiB" then Some(0x100_0000_0000)
    else None
  }

  /** The bytes a size denotes: a decimal number of binary units, or of bytes; not zero, not negative. */
  function Bytes(text: string): Option<nat> {
    var k := Leading(text);
    var unit := SizeOf(text[k..]);
    if k == 0 || unit.None? || Number(text[..k]) == 0 then None else Some(Number(text[..k]) * unit.value)
  }

  lemma {:induction false} LeadingOf(digits: string, suffix: string)
    requires forall i :: 0 <= i < |digits| ==> IsDigit(digits[i])
    requires suffix != "" && !IsDigit(suffix[0])
    ensures Leading(digits + suffix) == |digits|
  {
    if digits == "" {
      assert digits + suffix == suffix;
    } else {
      LeadingOf(digits[1..], suffix);
      assert (digits + suffix)[1..] == digits[1..] + suffix;
    }
  }

  lemma SizeDenotes(n: nat, suffix: string)
    requires n > 0 && suffix != "" && !IsDigit(suffix[0]) && SizeOf(suffix).Some?
    ensures Bytes(Decimal(n) + suffix) == Some(n * SizeOf(suffix).value)
  {
    var text := Decimal(n) + suffix;
    LeadingOf(Decimal(n), suffix);
    DecimalDenotes(n);
    assert text[..|Decimal(n)|] == Decimal(n) && text[|Decimal(n)|..] == suffix;
  }

  lemma Divides(n: nat, size: nat)
    requires 0 < size && 0 < n && n % size == 0
    ensures n / size > 0 && n / size * size == n
  {}

  /** The text is a number of some unit, and no larger unit divides the size. */
  ghost predicate InLargestUnit(text: string, bytes: int) {
    exists n: nat, suffix: string {:trigger Decimal(n) + suffix} :: text == Decimal(n) + suffix && Largest(bytes, suffix)
  }

  predicate Largest(bytes: int, suffix: string) {
    SizeOf(suffix).Some? && forall i :: 0 <= i < |UNITS| && bytes % UNITS[i].size == 0 ==> SizeOf(suffix).value >= UNITS[i].size
  }

  lemma UnitIsLargest(bytes: nat, i: nat)
    requires i < |UNITS| && forall j :: 0 <= j < i ==> bytes % UNITS[j].size != 0
    ensures SizeOf(UNITS[i].suffix) == Some(UNITS[i].size) && UNITS[i].suffix != "" && !IsDigit(UNITS[i].suffix[0])
    ensures Largest(bytes, UNITS[i].suffix)
  {
    forall j | i <= j < |UNITS| ensures UNITS[i].size >= UNITS[j].size {}
  }

  lemma Rendered(bytes: nat, u: Unit)
    requires bytes > 0 && 0 < u.size && bytes % u.size == 0 && Largest(bytes, u.suffix)
    requires SizeOf(u.suffix) == Some(u.size) && u.suffix != "" && !IsDigit(u.suffix[0])
    ensures var text := FormatInt(bytes / u.size) + u.suffix;
            Bytes(text) == Some(bytes) && InLargestUnit(text, bytes)
  {
    Divides(bytes, u.size);
    SizeDenotes(bytes / u.size, u.suffix);
  }

  /** FormatSize: the search over the units. Nothing is rounded, whatever the size, and no larger unit would do. */
  method FormatSize(bytes: int) returns (text: string)
    ensures bytes > 0 ==> Bytes(text) == Some(bytes) && InLargestUnit(text, bytes)
    ensures bytes <= 0 ==> Bytes(text).None?
  {
    for i := 0 to |UNITS|
      invariant bytes > 0 ==> forall j :: 0 <= j < i ==> bytes % UNITS[j].size != 0
    {
      var u := UNITS[i];
      if bytes > 0 && bytes % u.size == 0 {
        UnitIsLargest(bytes, i);
        Rendered(bytes, u);
        text := FormatInt(bytes / u.size) + u.suffix;
        return;
      }
    }
    text := FormatInt(bytes) + "B";
    if bytes > 0 {
      SizeDenotes(bytes, "B");
      assert text == Decimal(bytes) + "B" && Largest(bytes, "B");
    } else if bytes == 0 {
      LeadingOf("0", "B");
      assert text[..1] == "0";
    } else {
      assert text[0] == '-';
    }
  }
}
