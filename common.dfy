/** Values, strings and HTTP responses shared by every page controller of the dashboard. */
module Common {

  datatype Option<T> = None | Some(value: T)
  {
    function GetOr(default: T): T
    {
      if Some? then value else default
    }
  }

  /** A JavaScript primitive as it arrives in a parsed JSON body (numbers are integers here). */
  datatype Scalar = Bool(b: bool) | Num(n: int) | Str(s: string) | Null | Undefined

  /** JavaScript truthiness of a primitive. */
  predicate Truthy(v: Scalar)
  {
    match v
    case Bool(b) => b
    case Num(n) => n != 0
    case Str(s) => s != ""
    case Null => false
    case Undefined => false
  }

  /** Truthiness of an optional string field: an absent field and "" are both falsy. */
  predicate Present(s: Option<string>)
  {
    s.Some? && s.value != ""
  }

  /** `s || fallback` for an optional string field. */
  function OrElse(s: Option<string>, fallback: string): string
  {
    if Present(s) then s.value else fallback
  }

  /** `${s}` in a template literal: an absent field prints as "undefined". */
  function TemplateText(s: Option<string>): string
  {
    if s.Some? then s.value else "undefined"
  }

  /** `${v}` or `String(v)` for a JSON field: null prints as "null", a missing field as
      "undefined". */
  function ValueText(v: Scalar): (t: string)
    ensures v.Str? ==> t == v.s
    ensures v.Null? ==> t == "null"
    ensures v.Undefined? ==> t == "undefined"
  {
    match v
    case Bool(b) => if b then "true" else "false"
    case Num(n) => IntToString(n)
    case Str(s) => s
    case Null => "null"
    case Undefined => "undefined"
  }

  /** What an element shows after `textContent = s`: `undefined` becomes the empty string. */
  function DomText(s: Option<string>): string
  {
    if s.Some? then s.value else ""
  }

  /** The body of a response once `response.json()` has run: a value, or the reason it threw. */
  datatype Parsed<B> = Parsed(value: B) | Unparsable(reason: string)

  /** What `await fetch(...)` yields: a status with a body, or a rejected promise. */
  datatype Response<B> = Response(status: nat, body: Parsed<B>) | NetworkFailure(reason: string)

  /** `response.ok`. */
  predicate Ok(status: nat)
  {
    200 <= status <= 299
  }

  /** One call of successNotification or errorNotification: the text and the timeout in seconds. */
  datatype Notice = Success(message: string, seconds: int) | Failure(message: string, seconds: int)

  const DefaultSeconds: int := 5

  /** The label of a submit button: plain text, or the loading spinner with a caption. */
  datatype Label = Caption(text: string) | Spinner(caption: string)

  /** A form's submit button, which the handlers disable while a request is in flight. */
  class Button {
    var disabled: bool
    var content: Label

    constructor (content: Label)
      ensures !disabled && this.content == content
    {
      disabled := false;
      this.content := content;
    }

    /** The first step of every submit handler. */
    method ShowBusy(caption: string)
      modifies this
      ensures disabled && content == Spinner(caption)
    {
      disabled := true;
      content := Spinner(caption);
    }

    /** The `finally` step of every submit handler. */
    method Restore(text: string)
      modifies this
      ensures !disabled && content == Caption(text)
    {
      disabled := false;
      content := Caption(text);
    }
  }

  // ---- Strings ----

  /** `toLowerCase()` on the ASCII letters; other characters are left as they are. */
  function LowerChar(c: char): char
  {
    if 'A' <= c <= 'Z' then (c as int + 32) as char else c
  }

  function Lower(s: string): (r: string)
    ensures |r| == |s| && forall i :: 0 <= i < |s| ==> r[i] == LowerChar(s[i])
  {
    seq(|s|, i requires 0 <= i < |s| => LowerChar(s[i]))
  }

  /** `s.includes(sub)`: `sub` occurs in `s` at some position. */
  predicate Includes(s: string, sub: string)
    decreases |s|
  {
    sub <= s || (s != [] && Includes(s[1..], sub))
  }

  /** `sub` occurs in `s` starting at index `i`. */
  predicate OccursAt(s: string, sub: string, i: int)
  {
    0 <= i <= |s| - |sub| && s[i..i + |sub|] == sub
  }

  /** `includes` means an occurrence at some index. */
  lemma IncludesAt(s: string, sub: string)
    ensures Includes(s, sub) <==> exists i :: OccursAt(s, sub, i)
  {
    if Includes(s, sub) {
      var i := IncludesSomewhere(s, sub);
    }
    if exists i :: OccursAt(s, sub, i) {
      var i :| OccursAt(s, sub, i);
      OccurrenceIncluded(s, sub, i);
    }
  }

  /** An inclusion names the index of an occurrence. */
  lemma {:induction false} IncludesSomewhere(s: string, sub: string) returns (i: int)
    requires Includes(s, sub)
    ensures OccursAt(s, sub, i)
    decreases |s|
  {
    if sub <= s {
      i := 0;
    } else {
      var j := IncludesSomewhere(s[1..], sub);
      assert s[j + 1..j + 1 + |sub|] == s[1..][j..j + |sub|];
      i := j + 1;
    }
  }

  /** An occurrence at any index is an inclusion. */
  lemma {:induction false} OccurrenceIncluded(s: string, sub: string, i: int)
    requires OccursAt(s, sub, i)
    ensures Includes(s, sub)
    decreases |s|
  {
    if i == 0 {
      assert s[..|sub|] == sub;
    } else {
      assert s[1..][i - 1..i - 1 + |sub|] == s[i..i + |sub|];
      OccurrenceIncluded(s[1..], sub, i - 1);
    }
  }

  /** Lower-casing both sides keeps every occurrence: matching ignores the case of the text. */
  lemma {:induction false} IncludesLower(s: string, sub: string)
    requires Includes(s, sub)
    ensures Includes(Lower(s), Lower(sub))
    decreases |s|
  {
    if sub <= s {
      assert Lower(sub) <= Lower(s);
    } else {
      IncludesLower(s[1..], sub);
      assert Lower(s[1..]) == Lower(s)[1..];
    }
  }

  /** The characters `String.prototype.trim` removes. */
  predicate IsSpace(c: char)
  {
    c == ' ' || c == '\t' || c == '\n' || c == '\r' || c == '\U{000B}' || c == '\U{000C}' ||
    c == '\U{00A0}' || c == '\U{1680}' || ('\U{2000}' <= c <= '\U{200A}') || c == '\U{2028}' ||
    c == '\U{2029}' || c == '\U{202F}' || c == '\U{205F}' || c == '\U{3000}' || c == '\U{FEFF}'
  }

  function TrimStart(s: string): string
    decreases |s|
  {
    if s != [] && IsSpace(s[0]) then TrimStart(s[1..]) else s
  }

  function TrimEnd(s: string): string
    decreases |s|
  {
    if s != [] && IsSpace(s[|s| - 1]) then TrimEnd(s[..|s| - 1]) else s
  }

  /** `s.trim()`. */
  function Trim(s: string): string
  {
    TrimEnd(TrimStart(s))
  }

  predicate IsDigit(c: char)
  {
    '0' <= c <= '9'
  }

  function DigitChar(d: nat): char
    requires d < 10
  {
    ('0' as int + d) as char
  }

  /** `String(n)` for a non-negative integer. */
  function NatToString(n: nat): string
    decreases n
  {
    if n < 10 then [DigitChar(n)] else NatToString(n / 10) + [DigitChar(n % 10)]
  }

  /** `String(i)` / `${i}` for an integer. */
  function IntToString(i: int): string
  {
    if i < 0 then "-" + NatToString(-i) else NatToString(i)
  }

  /** The longest prefix of `s` made of decimal digits. */
  function LeadingDigits(s: string): string
    decreases |s|
  {
    if s != [] && IsDigit(s[0]) then [s[0]] + LeadingDigits(s[1..]) else []
  }

  function DecimalValue(ds: string): nat
    requires forall i :: 0 <= i < |ds| ==> IsDigit(ds[i])
    decreases |ds|
  {
    if ds == [] then 0
    else
      var last := ds[|ds| - 1];
      assert IsDigit(last);
      DecimalValue(ds[..|ds| - 1]) * 10 + (last as int - '0' as int)
  }

  lemma {:induction false} LeadingDigitsAreDigits(s: string)
    ensures var ds := LeadingDigits(s); |ds| <= |s| && forall i :: 0 <= i < |ds| ==> IsDigit(ds[i])
    decreases |s|
  {
    if s != [] && IsDigit(s[0]) {
      LeadingDigitsAreDigits(s[1..]);
    }
  }

  /** The text after the leading white space and the optional sign. */
  function Unsigned(s: string): string
  {
    var t := TrimStart(s);
    if |t| > 0 && (t[0] == '-' || t[0] == '+') then t[1..] else t
  }

  /** The sign after the leading white space is a minus. */
  predicate Negative(s: string)
  {
    var t := TrimStart(s);
    |t| > 0 && t[0] == '-'
  }

  /** `parseInt(s, 10)`: leading white space, an optional sign, then the longest run of
      digits; `None` stands for NaN. */
  function ParseInt(s: string): Option<int>
  {
    var negative := Negative(s);
    var unsigned := Unsigned(s);
    var ds := LeadingDigits(unsigned);
    LeadingDigitsAreDigits(unsigned);
    if ds == [] then None
    else
      var magnitude: int := DecimalValue(ds);
      Some(if negative then -magnitude else magnitude)
  }

  predicate IsHexDigit(c: char)
  {
    IsDigit(c) || 'a' <= c <= 'f' || 'A' <= c <= 'F'
  }

  function HexDigitValue(c: char): nat
    requires IsHexDigit(c)
  {
    if IsDigit(c) then c as int - '0' as int
    else if 'a' <= c <= 'f' then c as int - 'a' as int + 10
    else c as int - 'A' as int + 10
  }

  /** The longest prefix of `s` made of hexadecimal digits. */
  function LeadingHexDigits(s: string): (ds: string)
    ensures |ds| <= |s| && forall i :: 0 <= i < |ds| ==> IsHexDigit(ds[i])
    decreases |s|
  {
    if s != [] && IsHexDigit(s[0]) then [s[0]] + LeadingHexDigits(s[1..]) else []
  }

  function HexValue(ds: string): nat
    requires forall i :: 0 <= i < |ds| ==> IsHexDigit(ds[i])
    decreases |ds|
  {
    if ds == [] then 0
    else
      var last := ds[|ds| - 1];
      assert IsHexDigit(last);
      HexValue(ds[..|ds| - 1]) * 16 + HexDigitValue(last)
  }

  /** After the sign comes "0x" or "0X". */
  predicate HexPrefixed(s: string)
  {
    var u := Unsigned(s);
    |u| >= 2 && u[0] == '0' && (u[1] == 'x' || u[1] == 'X')
  }

  /** `parseInt(s)` without a radix: as `parseInt(s, 10)`, except that a "0x" or "0X" after the
      sign selects base 16 (and a prefix with no hexadecimal digit after it is NaN). */
  function ParseIntAuto(s: string): (r: Option<int>)
    ensures !HexPrefixed(s) ==> r == ParseInt(s)
    ensures HexPrefixed(s) ==> (r.None? <==> LeadingHexDigits(Unsigned(s)[2..]) == [])
  {
    if HexPrefixed(s) then
      var ds := LeadingHexDigits(Unsigned(s)[2..]);
      if ds == [] then None
      else
        var magnitude: int := HexValue(ds);
        Some(if Negative(s) then -magnitude else magnitude)
    else ParseInt(s)
  }

  lemma {:induction false} NatToStringDigits(n: nat)
    ensures |NatToString(n)| > 0
    ensures forall i :: 0 <= i < |NatToString(n)| ==> IsDigit(NatToString(n)[i])
    ensures DecimalValue(NatToString(n)) == n
    decreases n
  {
    if n >= 10 {
      NatToStringDigits(n / 10);
      var s := NatToString(n);
      assert s[..|s| - 1] == NatToString(n / 10);
    }
  }

  lemma {:induction false} LeadingDigitsOfDigits(s: string)
    requires forall i :: 0 <= i < |s| ==> IsDigit(s[i])
    ensures LeadingDigits(s) == s
    decreases |s|
  {
    if s != [] {
      LeadingDigitsOfDigits(s[1..]);
    }
  }

  /** Reading back a rendered integer: `parseInt(String(i), 10) === i`. */
  lemma ParseIntOfIntToString(i: int)
    ensures ParseInt(IntToString(i)) == Some(i)
  {
    var n: nat := if i < 0 then -i else i;
    var ds := NatToString(n);
    NatToStringDigits(n);
    LeadingDigitsOfDigits(ds);
    assert IsDigit(ds[0]);
    var s := IntToString(i);
    if i < 0 {
      assert s == "-" + ds && s[0] == '-' && s[1..] == ds;
    } else {
      assert s == ds && s[0] != '-' && s[0] != '+';
    }
    assert !IsSpace(s[0]);
    assert TrimStart(s) == s;
  }

  /** `names.join(sep)`. */
  function Join(names: seq<string>, sep: string): string
    decreases |names|
  {
    if names == [] then "" else if |names| == 1 then names[0] else names[0] + sep + Join(names[1..], sep)
  }
}
