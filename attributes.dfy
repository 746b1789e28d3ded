/**
 * The attribute reader the translator consumes: a Terraform resource's
 * attributes as typed scalars under string keys, with the lookups and
 * coercions the translator relies on (existence check, and reading a value
 * as a string, an integer or a boolean, each giving the type's zero value
 * for a missing key).
 */
module Attributes {
  import opened Wrappers

  /** One attribute value. `Null` is a key that is present with a JSON null. */
  datatype Scalar = Str(s: string) | Num(n: int) | Bool(b: bool) | Null {

    /** The value read as a string: numbers give their decimal text. */
    function AsString(): string
    {
      match this
      case Str(s) => s
      case Num(n) => DecimalText(n)
      case Bool(b) => if b then "true" else "false"
      case Null => ""
    }

    /** The value read as an integer: a string is parsed, anything unparsable is 0. */
    function AsInt(): int
    {
      match this
      case Str(s) => ParseInt(s).GetOr(0)
      case Num(n) => n
      case Bool(b) => if b then 1 else 0
      case Null => 0
    }

    /** The value read as a boolean: a string is true when its lower-case form is "1", "t" or "true". */
    function AsBool(): bool
    {
      match this
      case Str(s) => AsciiLower(s) in {"1", "t", "true"}
      case Num(n) => n != 0
      case Bool(b) => b
      case Null => false
    }
  }

  /** One attribute block (a resource's top level, or one nested block). */
  type Block = map<string, Scalar>

  /**
   * A resource as the translator receives it: its address, its top-level
   * attributes, and its nested blocks under the fixed dotted path that
   * reaches each one.
   */
  datatype ResourceData = ResourceData(address: string, attrs: Block, blocks: map<string, Block>)

  /** The block at `path`; a block that is not there reads as the empty block, never as a failure. */
  function BlockAt(d: ResourceData, path: string): (b: Block)
    ensures path in d.blocks ==> b == d.blocks[path]
    ensures path !in d.blocks ==> b == map[]
  {
    if path in d.blocks then d.blocks[path] else map[]
  }

  predicate Exists(b: Block, key: string)
  {
    key in b
  }

  function GetString(b: Block, key: string): (r: string)
    ensures !Exists(b, key) ==> r == ""
    ensures key in b && b[key].Str? ==> r == b[key].s
  {
    if key in b then b[key].AsString() else ""
  }

  function GetInt(b: Block, key: string): (r: int)
    ensures !Exists(b, key) ==> r == 0
    ensures key in b && b[key].Num? ==> r == b[key].n
  {
    if key in b then b[key].AsInt() else 0
  }

  function GetBool(b: Block, key: string): (r: bool)
    ensures !Exists(b, key) ==> !r
    ensures key in b && b[key].Bool? ==> r == b[key].b
  {
    if key in b then b[key].AsBool() else false
  }

  /** A key is empty when it is missing, null or the empty string. */
  predicate IsEmpty(b: Block, key: string)
  {
    key !in b || b[key] == Null || b[key] == Str("")
  }

  /** A key that is not empty reads as a non-empty string. */
  lemma NotEmptyHasText(b: Block, key: string)
    requires !IsEmpty(b, key)
    ensures GetString(b, key) != ""
  {
  }

  function LowerChar(c: char): (r: char)
    ensures 'A' <= c <= 'Z' ==> 'a' <= r <= 'z' && r as int - 'a' as int == c as int - 'A' as int
    ensures !('A' <= c <= 'Z') ==> r == c
  {
    if 'A' <= c <= 'Z' then (c as int - 'A' as int + 'a' as int) as char else c
  }

  /** Lower-cases the ASCII letters of `s`; every other character is kept. */
  function AsciiLower(s: string): (r: string)
    ensures |r| == |s|
    ensures forall i :: 0 <= i < |s| ==> r[i] == LowerChar(s[i])
  {
    seq(|s|, i requires 0 <= i < |s| => LowerChar(s[i]))
  }

  predicate IsDigit(c: char)
  {
    '0' <= c <= '9'
  }

  predicate AllDigits(s: string)
  {
    forall i :: 0 <= i < |s| ==> IsDigit(s[i])
  }

  function DigitChar(d: nat): (c: char)
    requires d < 10
    ensures IsDigit(c) && c as int - '0' as int == d
  {
    ('0' as int + d) as char
  }

  /** The decimal digits of `n`, most significant first, with no leading zero. */
  function NatText(n: nat): (r: string)
    ensures |r| > 0 && AllDigits(r)
    ensures |r| > 1 ==> r[0] != '0'
  {
    if n < 10 then [DigitChar(n)] else NatText(n / 10) + [DigitChar(n % 10)]
  }

  /** The text of an integer, with a leading '-' when it is negative. */
  function DecimalText(n: int): (r: string)
    ensures |r| > 0
    ensures n >= 0 ==> AllDigits(r)
    ensures n < 0 ==> r[0] == '-' && |r| > 1 && AllDigits(r[1..])
  {
    if n < 0 then "-" + NatText(-n) else NatText(n)
  }

  /** The value of a string of decimal digits. */
  function DigitsValue(s: string): nat
    requires AllDigits(s)
  {
    if |s| == 0 then 0 else DigitsValue(s[..|s| - 1]) * 10 + (s[|s| - 1] as int - '0' as int)
  }

  /**
   * Integer parsing as the reader does it: an optional '-', then one or
   * more decimal digits and nothing else.
   */
  function ParseInt(s: string): (r: Option<int>)
    ensures r.Some? <==> (AllDigits(s) && |s| > 0) || (|s| > 1 && s[0] == '-' && AllDigits(s[1..]))
  {
    if |s| > 0 && s[0] == '-' then
      if |s| > 1 && AllDigits(s[1..]) then var v: int := DigitsValue(s[1..]); Some(-v) else None
    else if |s| > 0 && AllDigits(s) then Some(DigitsValue(s))
    else None
  }

  lemma {:induction false} NatTextValue(n: nat)
    ensures DigitsValue(NatText(n)) == n
  {
    if n >= 10 {
      var t := NatText(n);
      assert t[..|t| - 1] == NatText(n / 10);
      NatTextValue(n / 10);
    }
  }

  /** Reading the text of a number back as an integer gives the number. */
  lemma ParseDecimalText(n: int)
    ensures ParseInt(DecimalText(n)) == Some(n)
  {
    if n < 0 {
      assert DecimalText(n)[1..] == NatText(-n);
      NatTextValue(-n);
    } else {
      NatTextValue(n);
    }
  }
}
