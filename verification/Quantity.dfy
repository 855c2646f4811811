/** Quantities in JSON-RPC (section "Quantity" of EIP-1474): block numbers (util/rpc/types.go) and
    subscription ids (util/rpc/subscription.go, `encodeID`). */
module Quantity {
  import opened Common

  const Int64Max: int := 0x7fff_ffff_ffff_ffff
  const Int64Min: int := -0x8000_0000_0000_0000
  const Word: nat := 0x1_0000_0000_0000_0000

  // ---------- hexadecimal digits ----------

  type Digit = d: nat | d < 16

  function HexDigit(d: Digit): char {
    "0123456789abcdef"[d]
  }

  function DigitOf(c: char): Option<Digit> {
    if '0' <= c <= '9' then Some((c - '0') as int)
    else if 'a' <= c <= 'f' then Some((c - 'a') as int + 10)
    else if 'A' <= c <= 'F' then Some((c - 'A') as int + 10)
    else None
  }

  function Text(ds: seq<Digit>): string {
    seq(|ds|, i requires 0 <= i < |ds| => HexDigit(ds[i]))
  }

  /** Positional value, most significant digit first. */
  function Value(ds: seq<Digit>): nat {
    if ds == [] then 0 else 16 * Value(ds[..|ds| - 1]) + ds[|ds| - 1]
  }

  /** The shortest digits of a number. */
  function Digits(n: nat): seq<Digit> {
    if n < 16 then [n] else Digits(n / 16) + [n % 16]
  }

  ghost predicate Canonical(ds: seq<Digit>) {
    |ds| == 1 || (|ds| > 1 && ds[0] != 0)
  }

  lemma {:induction false} ValueOfDigits(n: nat)
    ensures Value(Digits(n)) == n && Canonical(Digits(n)) && (Digits(n)[0] == 0 ==> n == 0)
  {
    if n >= 16 {
      ValueOfDigits(n / 16);
      assert Digits(n)[..|Digits(n)| - 1] == Digits(n / 16);
    }
  }

  lemma {:induction false} DigitsOfValue(ds: seq<Digit>)
    requires Canonical(ds)
    ensures Digits(Value(ds)) == ds && (ds[0] != 0 ==> Value(ds) > 0)
  {
    var n := |ds| - 1;
    if n == 0 {
      assert ds[..0] == [];
      assert ds == [ds[0]];
    } else {
      DigitsOfValue(ds[..n]);
      assert Value(ds) / 16 == Value(ds[..n]) && Value(ds) % 16 == ds[n];
      assert ds == ds[..n] + [ds[n]];
    }
  }

  // ---------- hexutil ----------

  datatype ParseError = EmptyString | MissingPrefix | EmptyNumber | LeadingZero | Syntax | Uint64Range | AboveInt64

  datatype Parsed<T> = Ok(value: T) | Error(e: ParseError)

  function EncodeUint64(n: nat): string {
    "0x" + Text(Digits(n))
  }

  /** strconv.ParseUint(s, 16, 64) on non-empty text: from the left, up to the first character that is no
      digit or that takes the value out of range. */
  function ParseUint(s: string): Parsed<nat> {
    if s == "" then Ok(0)
    else match ParseUint(s[..|s| - 1])
      case Error(e) => Error(e)
      case Ok(n) =>
        var d := DigitOf(s[|s| - 1]);
        if d.None? then Error(Syntax)
        else if 16 * n + d.value >= Word then Error(Uint64Range)
        else Ok(16 * n + d.value)
  }

  function DecodeUint64(s: string): Parsed<nat> {
    if s == "" then Error(EmptyString)
    else if |s| < 2 || s[0] != '0' || (s[1] != 'x' && s[1] != 'X') then Error(MissingPrefix)
    else
      var raw := s[2..];
      if raw == "" then Error(EmptyNumber)
      else if |raw| > 1 && raw[0] == '0' then Error(LeadingZero)
      else ParseUint(raw)
  }

  lemma DigitChars(d: Digit)
    ensures "0123456789abcdef"[d] as int == (if d < 10 then 48 else 87) + d
    ensures "0123456789ABCDEF"[d] as int == (if d < 10 then 48 else 55) + d
  {
  }

  /** A hexadecimal digit in either case, and nothing else. */
  lemma DigitMeans(c: char)
    ensures match DigitOf(c)
            case Some(d) => c == "0123456789abcdef"[d] || c == "0123456789ABCDEF"[d]
            case None => !('0' <= c <= '9') && !('a' <= c <= 'f') && !('A' <= c <= 'F')
  {
    if DigitOf(c).Some? { DigitChars(DigitOf(c).value); }
  }

  /** The digits of a text, all of which are hexadecimal. */
  ghost predicate Spells(s: string, ds: seq<Digit>) {
    |s| == |ds| && forall i :: 0 <= i < |s| ==> DigitOf(s[i]) == Some(ds[i])
  }

  /** The first `i` characters are digits and in range, and the next is no digit. */
  ghost predicate BadAt(s: string, i: nat, ds: seq<Digit>) {
    i < |s| && Spells(s[..i], ds) && Value(ds) < 0x1_0000_0000_0000_0000 && DigitOf(s[i]).None?
  }

  /** The first `i` characters are digits, and out of range. */
  ghost predicate TooBigAt(s: string, i: nat, ds: seq<Digit>) {
    i <= |s| && Spells(s[..i], ds) && Value(ds) >= 0x1_0000_0000_0000_0000
  }

  lemma {:induction false} ParseUintMeans(s: string)
    ensures match ParseUint(s)
            case Ok(n) => n < 0x1_0000_0000_0000_0000 && exists ds :: Spells(s, ds) && Value(ds) == n
            case Error(e) =>
              || (e == Syntax && exists i: nat, ds :: BadAt(s, i, ds))
              || (e == Uint64Range && exists i: nat, ds :: TooBigAt(s, i, ds))
  {
    if s == "" {
      assert Spells(s, []) && Value([]) == 0;
    } else {
      var n := |s| - 1;
      ParseUintMeans(s[..n]);
      match ParseUint(s[..n])
      case Ok(v) =>
        var ds :| Spells(s[..n], ds) && Value(ds) == v;
        if DigitOf(s[n]).None? {
          assert BadAt(s, n, ds);
        } else {
          SpellsMore(s, ds, DigitOf(s[n]).value);
        }
      case Error(e) =>
        if e == Syntax {
          var i: nat, ds :| BadAt(s[..n], i, ds);
          FaultStays(s, n, i, ds);
        } else {
          var i: nat, ds :| TooBigAt(s[..n], i, ds);
          FaultStays(s, n, i, ds);
        }
    }
  }

  lemma SpellsMore(s: string, ds: seq<Digit>, d: Digit)
    requires s != "" && Spells(s[..|s| - 1], ds) && DigitOf(s[|s| - 1]) == Some(d)
    ensures Spells(s, ds + [d]) && Value(ds + [d]) == 16 * Value(ds) + d
    ensures Value(ds + [d]) >= Word ==> TooBigAt(s, |s|, ds + [d])
  {
    var n := |s| - 1;
    assert (ds + [d])[..n] == ds;
    forall i | 0 <= i < |s|
      ensures DigitOf(s[i]) == Some((ds + [d])[i])
    {
      assert i < n ==> s[i] == s[..n][i];
    }
    assert s[..|s|] == s;
  }

  lemma FaultStays(s: string, n: nat, i: nat, ds: seq<Digit>)
    requires n <= |s|
    ensures BadAt(s[..n], i, ds) ==> BadAt(s, i, ds)
    ensures TooBigAt(s[..n], i, ds) ==> TooBigAt(s, i, ds)
  {
    if i <= n { assert s[..n][..i] == s[..i]; }
  }

  ghost predicate Prefixed(s: string) {
    |s| >= 2 && s[0] == '0' && s[1] in "xX"
  }

  ghost predicate LeadsWithZero(s: string) {
    |s| > 3 && s[2] == '0'
  }

  /** What decoding accepts and refuses, for any text: a quantity is 0x or 0X and hexadecimal digits in
      either case, at least one, without leading zeros, below 2^64; each error has its own fault. */
  lemma DecodeMeans(s: string)
    ensures match DecodeUint64(s)
            case Ok(n) =>
              && Prefixed(s) && |s| > 2 && !LeadsWithZero(s) && n < 0x1_0000_0000_0000_0000
              && exists ds :: Spells(s[2..], ds) && Value(ds) == n
            case Error(EmptyString) => s == ""
            case Error(MissingPrefix) => s != "" && !Prefixed(s)
            case Error(EmptyNumber) => Prefixed(s) && |s| == 2
            case Error(LeadingZero) => Prefixed(s) && LeadsWithZero(s)
            case Error(Syntax) =>
              Prefixed(s) && |s| > 2 && !LeadsWithZero(s) && exists i: nat, ds :: BadAt(s[2..], i, ds)
            case Error(Uint64Range) =>
              Prefixed(s) && |s| > 2 && !LeadsWithZero(s) && exists i: nat, ds :: TooBigAt(s[2..], i, ds)
            case Error(AboveInt64) => false
  {
    if Prefixed(s) { ParseUintMeans(s[2..]); }
  }

  lemma DigitReads(d: Digit)
    ensures DigitOf(HexDigit(d)) == Some(d)
  {
    DigitChars(d);
  }

  /** One more digit. */
  lemma ParseOneMore(s: string, d: Digit, v: nat)
    requires s != "" && DigitOf(s[|s| - 1]) == Some(d)
    requires ParseUint(s[..|s| - 1]) == if v < Word then Ok(v) else Error(Uint64Range)
    ensures ParseUint(s) == if 16 * v + d < Word then Ok(16 * v + d) else Error(Uint64Range)
  {
  }

  lemma {:induction false} ParseText(ds: seq<Digit>)
    ensures ParseUint(Text(ds)) == if Value(ds) < Word then Ok(Value(ds)) else Error(Uint64Range)
  {
    if ds != [] {
      var n, s := |ds| - 1, Text(ds);
      ParseText(ds[..n]);
      assert s[..n] == Text(ds[..n]);
      DigitReads(ds[n]);
      ParseOneMore(s, ds[n], Value(ds[..n]));
    }
  }

  lemma TextInjective(a: seq<Digit>, b: seq<Digit>)
    requires Text(a) == Text(b)
    ensures a == b
  {
    forall i | 0 <= i < |a|
      ensures a[i] == b[i]
    {
      DigitReads(a[i]);
      DigitReads(b[i]);
      assert Text(a)[i] == HexDigit(a[i]) && Text(b)[i] == HexDigit(b[i]);
    }
  }

  lemma DecodeEncode(n: nat)
    ensures DecodeUint64(EncodeUint64(n)) == if n < Word then Ok(n) else Error(Uint64Range)
  {
    var ds := Digits(n);
    ValueOfDigits(n);
    ParseText(ds);
    assert EncodeUint64(n)[2..] == Text(ds);
    assert |ds| > 1 ==> Text(ds)[0] != '0';
  }

  // ---------- block numbers ----------

  const Pending := -2
  const Latest := -1
  const Earliest := 0

  function MarshalText(bn: int): string {
    if bn == Earliest then "earliest"
    else if bn == Latest then "latest"
    else if bn == Pending then "pending"
    else EncodeUint64(bn % Word)     // conversion to uint64
  }

  /** unicode.IsSpace: the characters with the White_Space property. */
  predicate IsSpace(c: char) {
    var n := c as int;
    || 9 <= n <= 13 || 0x2000 <= n <= 0x200A
    || n == 32 || n == 0x85 || n == 0xA0 || n == 0x1680
    || n == 0x2028 || n == 0x2029 || n == 0x202F || n == 0x205F || n == 0x3000
  }

  function TrimLeftSpace(s: string): string {
    if s != "" && IsSpace(s[0]) then TrimLeftSpace(s[1..]) else s
  }

  function TrimRightSpace(s: string): string {
    if s != "" && IsSpace(s[|s| - 1]) then TrimRightSpace(s[..|s| - 1]) else s
  }

  function Unquote(s: string): string {
    if |s| >= 2 && s[0] == '"' && s[|s| - 1] == '"' then s[1..|s| - 1] else s
  }

  function ParseBlockNumber(data: string): Parsed<int> {
    ParseInput(Unquote(TrimRightSpace(TrimLeftSpace(data))))
  }

  function ParseInput(input: string): Parsed<int> {
    if input == "earliest" then Ok(Earliest)
    else if input == "latest" then Ok(Latest)
    else if input == "pending" then Ok(Pending)
    else match DecodeUint64(input)
      case Error(e) => Error(e)
      case Ok(n) => if n > Int64Max then Error(AboveInt64) else Ok(n)
  }

  /** A variable of type BlockNumber. */
  class BlockNumber {
    var value: int

    constructor (value: int)
      ensures this.value == value
    {
      this.value := value;
    }

    /** Writes through the receiver on success only. */
    method UnmarshalJSON(data: string) returns (err: Option<ParseError>)
      modifies this
      ensures match ParseBlockNumber(data)
              case Ok(n) => err.None? && value == n
              case Error(e) => err == Some(e) && value == old(value)
    {
      err := None;
      var input := Unquote(TrimRightSpace(TrimLeftSpace(data)));
      if input == "earliest" {
        value := Earliest;
        return;
      } else if input == "latest" {
        value := Latest;
        return;
      } else if input == "pending" {
        value := Pending;
        return;
      }
      var n := DecodeUint64(input);
      if n.Error? {
        return Some(n.e);
      }
      if n.value > Int64Max {
        return Some(AboveInt64);
      }
      value := n.value;
    }
  }

  /** Text that needs no trimming. */
  ghost predicate Solid(s: string) {
    s != "" && !IsSpace(s[0]) && !IsSpace(s[|s| - 1])
  }

  lemma EncodeSolid(n: nat)
    ensures Solid(EncodeUint64(n)) && EncodeUint64(n)[0] == '0'
  {
    var ds, s := Digits(n), EncodeUint64(n);
    ValueOfDigits(n);
    assert s[|s| - 1] == Text(ds)[|ds| - 1] == HexDigit(ds[|ds| - 1]);
  }

  lemma MarshalSolid(bn: int)
    ensures Solid(MarshalText(bn)) && MarshalText(bn)[0] != '"'
  {
    EncodeSolid(bn % Word);
  }

  lemma EncodeNotWord(n: nat)
    ensures EncodeUint64(n) != "earliest" && EncodeUint64(n) != "latest" && EncodeUint64(n) != "pending"
  {
    assert EncodeUint64(n)[0] == '0';
  }

  lemma ReadsUnquoted(s: string)
    requires Solid(s) && s[0] != '"'
    ensures ParseBlockNumber(s) == ParseInput(s)
    ensures ParseBlockNumber("\"" + s + "\"") == ParseInput(s)
  {
    var quoted := "\"" + s + "\"";
    assert TrimLeftSpace(s) == s && TrimRightSpace(s) == s && Unquote(s) == s;
    assert TrimLeftSpace(quoted) == quoted && TrimRightSpace(quoted) == quoted;
    assert Unquote(quoted) == s;
  }

  lemma ReadsEncoded(bn: int)
    requires Int64Min <= bn < Pending || Earliest < bn <= Int64Max
    ensures ParseInput(EncodeUint64(bn % Word)) == if bn > 0 then Ok(bn) else Error(AboveInt64)
  {
    var n := if bn < 0 then bn + Word else bn;
    assert bn % Word == n;
    EncodeNotWord(n);
    DecodeEncode(n);
  }

  /** As text or as a JSON string, a marshalled block number reads back as itself exactly when it is
      one of the three tags or a proper block number. */
  lemma BlockNumberRoundTripIff(bn: int)
    requires -0x8000_0000_0000_0000 <= bn <= 0x7fff_ffff_ffff_ffff
    ensures ParseBlockNumber(MarshalText(bn)) == Ok(bn) <==> bn >= Pending
    ensures ParseBlockNumber("\"" + MarshalText(bn) + "\"") == Ok(bn) <==> bn >= Pending
    ensures bn < Pending ==> ParseBlockNumber(MarshalText(bn)) == Error(AboveInt64)
  {
    MarshalSolid(bn);
    ReadsUnquoted(MarshalText(bn));
    if bn < Pending || bn > Earliest { ReadsEncoded(bn); }
  }

  /** The tags, in both directions. */
  lemma TagTexts()
    ensures MarshalText(0) == "earliest" && ParseBlockNumber("earliest") == Ok(0)
    ensures MarshalText(-1) == "latest" && ParseBlockNumber("latest") == Ok(-1)
    ensures MarshalText(-2) == "pending" && ParseBlockNumber("pending") == Ok(-2)
  {
    ReadsUnquoted("earliest");
    ReadsUnquoted("latest");
    ReadsUnquoted("pending");
  }

  ghost predicate AllSpace(s: string) {
    forall i :: 0 <= i < |s| ==> IsSpace(s[i])
  }

  lemma {:induction false} TrimRight(s: string, r: string)
    requires AllSpace(r) && Solid(s)
    ensures TrimRightSpace(s + r) == s
  {
    if r == "" {
      assert s + r == s;
    } else {
      var t := s + r;
      assert t[..|t| - 1] == s + r[..|r| - 1];
      TrimRight(s, r[..|r| - 1]);
    }
  }

  lemma {:induction false} TrimLeftPast(l: string, s: string, r: string)
    requires AllSpace(l) && Solid(s)
    ensures TrimLeftSpace(l + s + r) == s + r
  {
    var t := l + s + r;
    if l == "" {
      assert t == s + r;
    } else {
      assert t[1..] == l[1..] + s + r;
      TrimLeftPast(l[1..], s, r);
    }
  }

  /** The code points with the White_Space property. */
  ghost predicate WhiteSpace(c: char) {
    c as int in {9, 10, 11, 12, 13, 32, 0x85, 0xA0, 0x1680, 0x2000, 0x2001, 0x2002, 0x2003, 0x2004, 0x2005, 0x2006,
                 0x2007, 0x2008, 0x2009, 0x200A, 0x2028, 0x2029, 0x202F, 0x205F, 0x3000}
  }

  lemma SpaceMeans(c: char)
    ensures IsSpace(c) <==> WhiteSpace(c)
  {
  }

  /** White space around a block number changes nothing. */
  lemma PaddingIgnored(l: string, s: string, r: string)
    requires forall i :: 0 <= i < |l| ==> WhiteSpace(l[i])
    requires forall i :: 0 <= i < |r| ==> WhiteSpace(r[i])
    requires s != "" && !WhiteSpace(s[0]) && !WhiteSpace(s[|s| - 1])
    ensures ParseBlockNumber(l + s + r) == ParseBlockNumber(s)
  {
    forall c
      ensures IsSpace(c) <==> WhiteSpace(c)
    {
      SpaceMeans(c);
    }
    TrimRight(s, "");
    TrimLeftPast("", s, "");
    assert "" + s + "" == s && s + "" == s;
    TrimLeftPast(l, s, r);
    TrimRight(s, r);
  }

  // ---------- subscription ids ----------

  type Byte = b: nat | b < 256

  /** hex.EncodeToString */
  function HexBytes(b: seq<Byte>): string {
    Text(Nibbles(b))
  }

  function Nibbles(b: seq<Byte>): seq<Digit> {
    if b == [] then [] else Nibbles(b[..|b| - 1]) + [b[|b| - 1] / 16, b[|b| - 1] % 16]
  }

  /** strings.TrimLeft(s, "0") */
  function TrimZeros(s: string): string {
    if s != "" && s[0] == '0' then TrimZeros(s[1..]) else s
  }

  function EncodeId(b: seq<Byte>): string {
    var id := TrimZeros(HexBytes(b));
    "0x" + if id == "" then "0" else id
  }

  function BigEndian(b: seq<Byte>): nat {
    if b == [] then 0 else 256 * BigEndian(b[..|b| - 1]) + b[|b| - 1]
  }

  lemma {:induction false} NibblesValue(b: seq<Byte>)
    ensures Value(Nibbles(b)) == BigEndian(b)
  {
    if b != [] {
      var n := |b| - 1;
      NibblesValue(b[..n]);
      var ds, hi, lo := Nibbles(b[..n]), b[n] / 16, b[n] % 16;
      assert Nibbles(b)[..|Nibbles(b)| - 1] == ds + [hi];
      assert (ds + [hi])[..|ds|] == ds;
    }
  }

  function DropZeros(ds: seq<Digit>): seq<Digit> {
    if ds != [] && ds[0] == 0 then DropZeros(ds[1..]) else ds
  }

  lemma {:induction false} TrimIsDrop(ds: seq<Digit>)
    ensures TrimZeros(Text(ds)) == Text(DropZeros(ds))
  {
    if ds != [] {
      assert Text(ds)[1..] == Text(ds[1..]);
      TrimIsDrop(ds[1..]);
    }
  }

  lemma {:induction false} LeadingZeroValue(ds: seq<Digit>)
    requires ds != [] && ds[0] == 0
    ensures Value(ds) == Value(ds[1..])
  {
    if |ds| > 1 {
      var n := |ds| - 1;
      LeadingZeroValue(ds[..n]);
      assert ds[1..][..n - 1] == ds[..n][1..];
    } else {
      assert ds[..0] == [] && ds[1..] == [];
    }
  }

  lemma {:induction false} DropZerosValue(ds: seq<Digit>)
    ensures Value(DropZeros(ds)) == Value(ds)
    ensures DropZeros(ds) == [] || DropZeros(ds)[0] != 0
  {
    if ds != [] && ds[0] == 0 {
      LeadingZeroValue(ds);
      DropZerosValue(ds[1..]);
    }
  }

  /** An id is the quantity encoding of the bytes' big-endian value: no leading zeros, and 0x0 for zero. */
  lemma EncodeIdIsQuantity(b: seq<Byte>)
    ensures EncodeId(b) == EncodeUint64(BigEndian(b))
  {
    var ds := Nibbles(b);
    NibblesValue(b);
    TrimIsDrop(ds);
    DropZerosValue(ds);
    var kept := DropZeros(ds);
    if kept == [] {
      assert Text([0]) == "0";
    } else {
      DigitsOfValue(kept);
    }
  }

  lemma LastByte(x: nat, b: Byte, y: nat, c: Byte)
    requires 256 * x + b == 256 * y + c
    ensures x == y && b == c
  {
  }

  lemma {:induction false} BigEndianInjective(a: seq<Byte>, b: seq<Byte>)
    requires |a| == |b| && BigEndian(a) == BigEndian(b)
    ensures a == b
  {
    if a != [] {
      var n := |a| - 1;
      LastByte(BigEndian(a[..n]), a[n], BigEndian(b[..n]), b[n]);
      BigEndianInjective(a[..n], b[..n]);
      assert a == a[..n] + [a[n]] && b == b[..n] + [b[n]];
    }
  }

  /** Distinct byte strings of one length get distinct ids. */
  lemma EncodeIdInjective(a: seq<Byte>, b: seq<Byte>)
    requires |a| == |b|
    ensures EncodeId(a) == EncodeId(b) <==> a == b
  {
    EncodeIdIsQuantity(a);
    EncodeIdIsQuantity(b);
    if EncodeId(a) == EncodeId(b) {
      var m, n := BigEndian(a), BigEndian(b);
      assert EncodeUint64(m)[2..] == Text(Digits(m)) && EncodeUint64(n)[2..] == Text(Digits(n));
      TextInjective(Digits(m), Digits(n));
      ValueOfDigits(m);
      ValueOfDigits(n);
      BigEndianInjective(a, b);
    }
  }
}
