/**
 * The Python values the views handle: decoded JSON request bodies and the
 * dictionaries returned by the content generator, with the bits of Python
 * semantics the views rely on (dict.get, truthiness and the built-in int()).
 */
module PyJson {
  import opened Wrappers

  /** A decoded JSON value. JSON numbers with a fraction are not modelled. */
  datatype Json =
    | Null
    | Bool(b: bool)
    | Int(i: int)
    | Str(s: string)
    | Arr(items: seq<Json>)
    | Obj(fields: map<string, Json>)

  /** dict.get(key, default) */
  function Get(d: map<string, Json>, key: string, default: Json): (v: Json)
    ensures key in d ==> v == d[key]
    ensures key !in d ==> v == default
  {
    if key in d then d[key] else default
  }

  /** Python's truth value of a JSON value, as used by `if value:` */
  predicate Truthy(v: Json)
  {
    match v
    case Null => false
    case Bool(b) => b
    case Int(i) => i != 0
    case Str(s) => s != ""
    case Arr(items) => items != []
    case Obj(fields) => fields != map[]
  }

  // ---------------------------------------------------------------------
  // int(x)
  // ---------------------------------------------------------------------

  /**
   * The ASCII whitespace int() skips around a literal: space, tab, line
   * feed, vertical tab, form feed and carriage return (the C locale's
   * whitespace; the separators 0x1C-0x1F that str.isspace() also accepts
   * are not skipped).
   */
  predicate IsSpace(c: char)
  {
    c == ' ' || ('\t' <= c <= '\r')
  }

  predicate IsDigit(c: char)
  {
    '0' <= c <= '9'
  }

  function TrimLeft(s: string): (t: string)
    ensures |t| <= |s| && t == s[|s| - |t|..]
    ensures t != [] ==> !IsSpace(t[0])
    ensures forall i :: 0 <= i < |s| - |t| ==> IsSpace(s[i])
  {
    if s != [] && IsSpace(s[0]) then TrimLeft(s[1..]) else s
  }

  function TrimRight(s: string): (t: string)
    ensures |t| <= |s| && t == s[..|t|]
    ensures t != [] ==> !IsSpace(t[|t| - 1])
    ensures forall i :: |t| <= i < |s| ==> IsSpace(s[i])
  {
    if s != [] && IsSpace(s[|s| - 1]) then TrimRight(s[..|s| - 1]) else s
  }

  /** The literal int() reads: s without the whitespace around it. */
  function Strip(s: string): string
  {
    TrimRight(TrimLeft(s))
  }

  /**
   * The digit part of a decimal literal as int() accepts it: digits, where
   * a single underscore may stand between two digits.
   */
  predicate IsDigitRun(b: string)
  {
    && |b| > 0
    && IsDigit(b[0])
    && forall i {:trigger b[i]} :: 0 <= i < |b| ==>
         IsDigit(b[i]) || (b[i] == '_' && i + 1 < |b| && IsDigit(b[i + 1]))
  }

  function DropUnderscores(b: string): string
  {
    if b == [] then []
    else if b[|b| - 1] == '_' then DropUnderscores(b[..|b| - 1])
    else DropUnderscores(b[..|b| - 1]) + [b[|b| - 1]]
  }

  /** The value of a string of decimal digits, most significant first. */
  function DigitsValue(d: string): nat
  {
    if d == [] then 0
    else
      var last := d[|d| - 1];
      DigitsValue(d[..|d| - 1]) * 10 + (if IsDigit(last) then last as int - '0' as int else 0)
  }

  /** The literal without its leading sign, if it has one. */
  function Unsigned(t: string): (b: string)
    ensures t != [] && (t[0] == '-' || t[0] == '+') ==> b == t[1..]
    ensures !(t != [] && (t[0] == '-' || t[0] == '+')) ==> b == t
  {
    if t != [] && (t[0] == '-' || t[0] == '+') then t[1..] else t
  }

  /** int() on a literal already stripped of whitespace. */
  function ParseStripped(t: string): Option<int>
  {
    if t == [] then None
    else
      var body := Unsigned(t);
      if !IsDigitRun(body) then None
      else
        var n: int := DigitsValue(DropUnderscores(body));
        Some(if t[0] == '-' then -n else n)
  }

  /**
   * int(s) for a string s: None where Python raises ValueError.
   */
  function ParseDecimal(s: string): Option<int>
  {
    ParseStripped(Strip(s))
  }

  /** The digit for 0 <= k < 10. */
  function Digit(k: nat): (c: char)
    requires k < 10
    ensures IsDigit(c) && c as int - '0' as int == k
  {
    ('0' as int + k) as char
  }

  /** str(n) for a non-negative n: its decimal digits, without leading zeros. */
  function NatDigits(n: nat): (d: string)
    ensures |d| > 0 && forall i :: 0 <= i < |d| ==> IsDigit(d[i])
    ensures |d| > 1 ==> d[0] != '0'
  {
    if n < 10 then [Digit(n)] else NatDigits(n / 10) + [Digit(n % 10)]
  }

  /** str(n) */
  function Decimal(n: int): string
  {
    if n < 0 then "-" + NatDigits(-n) else NatDigits(n)
  }

  lemma {:induction false} DigitsValueOfNatDigits(n: nat)
    ensures DigitsValue(NatDigits(n)) == n
  {
    var d := NatDigits(n);
    if n >= 10 {
      DigitsValueOfNatDigits(n / 10);
      assert d[..|d| - 1] == NatDigits(n / 10);
    }
  }

  lemma {:induction false} DropUnderscoresOfDigits(d: string)
    requires forall i :: 0 <= i < |d| ==> IsDigit(d[i])
    ensures DropUnderscores(d) == d
  {
    if d != [] {
      DropUnderscoresOfDigits(d[..|d| - 1]);
    }
  }

  lemma TrimLeftKeeps(s: string)
    requires s != [] && !IsSpace(s[0])
    ensures TrimLeft(s) == s
  {
  }

  lemma TrimRightKeeps(s: string)
    requires s != [] && !IsSpace(s[|s| - 1])
    ensures TrimRight(s) == s
  {
  }

  /** int(str(n)) == n: the decimal rendering of an integer reads back as itself. */
  lemma {:induction false} ParseDecimalOfDecimal(n: int)
    ensures ParseDecimal(Decimal(n)) == Some(n)
  {
    var s := Decimal(n);
    var m: nat := if n < 0 then -n else n;
    var d := NatDigits(m);
    assert s == if n < 0 then "-" + d else d;
    assert s[|s| - 1] == d[|d| - 1];
    TrimLeftKeeps(s);
    TrimRightKeeps(s);
    assert Strip(s) == s;
    assert Unsigned(s) == d;
    assert IsDigitRun(d);
    DropUnderscoresOfDigits(d);
    DigitsValueOfNatDigits(m);
  }

  /**
   * Python's int(x) on a JSON value: integers are kept, booleans become 0
   * or 1, strings are read as decimal literals; anything else raises, which
   * is the Err case, carrying the exception's kind.
   */
  function PyInt(v: Json): (r: Result<int, string>)
    ensures v.Int? ==> r == Ok(v.i)
    ensures v.Bool? ==> r == Ok(if v.b then 1 else 0)
    ensures v.Str? ==> (r.Ok? <==> ParseDecimal(v.s).Some?)
    ensures v.Str? && r.Ok? ==> r.value == ParseDecimal(v.s).value
    ensures (v.Null? || v.Arr? || v.Obj?) ==> r.Err?
  {
    match v
    case Int(i) => Ok(i)
    case Bool(b) => Ok(if b then 1 else 0)
    case Str(s) =>
      (match ParseDecimal(s)
       case Some(n) => Ok(n)
       case None => Err("ValueError"))
    case _ => Err("TypeError")
  }

  /** A string that neither starts nor ends with whitespace is its own strip. */
  lemma StripKeeps(s: string)
    requires s != [] && !IsSpace(s[0]) && !IsSpace(s[|s| - 1])
    ensures Strip(s) == s
  {
    TrimLeftKeeps(s);
    TrimRightKeeps(s);
  }

  /** The sign in front of a digit run is the one Unsigned removes. */
  lemma UnsignedOfSigned(sign: string, b: string)
    requires IsDigitRun(b) && (sign == "" || sign == "+" || sign == "-")
    ensures sign + b != [] && Unsigned(sign + b) == b
    ensures (sign + b)[0] == '-' <==> sign == "-"
  {
    if sign == "" {
      assert sign + b == b;
    } else {
      assert (sign + b)[0] == sign[0];
      assert (sign + b)[1..] == b;
    }
  }

  /**
   * int() accepts an optional sign followed by digits with single
   * underscores between them, and reads the digits with the underscores
   * dropped, negated after a minus.
   */
  lemma ParseDecimalOfDigitRun(sign: string, b: string)
    requires IsDigitRun(b) && (sign == "" || sign == "+" || sign == "-")
    ensures var n: int := DigitsValue(DropUnderscores(b));
            ParseDecimal(sign + b) == Some(if sign == "-" then -n else n)
  {
    var s := sign + b;
    UnsignedOfSigned(sign, b);
    assert s[0] == '-' || s[0] == '+' || s[0] == b[0];
    assert s[|s| - 1] == b[|b| - 1];
    StripKeeps(s);
  }

  /** For example, int("+1_000") is 1000. */

  lemma ParseDecimalSignAndUnderscores()
    ensures ParseDecimal("+1_000") == Some(1000)
  {
    var t := "+1_000";
    assert TrimLeft(t) == t && TrimRight(t) == t;
    assert t[1..] == "1_000";
    assert IsDigitRun("1_000");
    assert DropUnderscores("1_000") == "1000" by {
      assert "1_000"[..4] == "1_00";
      assert "1_00"[..3] == "1_0";
      assert "1_0"[..2] == "1_";
      assert "1_"[..1] == "1";
    }
    assert DigitsValue("1000") == 1000 by {
      assert "1000"[..3] == "100";
      assert "100"[..2] == "10";
      assert "10"[..1] == "1";
    }
  }

  predicate AllSpace(w: string)
  {
    forall i :: 0 <= i < |w| ==> IsSpace(w[i])
  }

  lemma AllSpaceTrimLeft(w: string)
    requires AllSpace(w)
    ensures TrimLeft(w) == []
  {
  }

  lemma {:induction false} TrimLeftAppend(s: string, post: string)
    ensures TrimLeft(s + post) == if TrimLeft(s) != [] then TrimLeft(s) + post else TrimLeft(post)
  {
    if s == [] {
      assert s + post == post;
    } else {
      assert (s + post)[0] == s[0];
      if IsSpace(s[0]) {
        assert (s + post)[1..] == s[1..] + post;
        TrimLeftAppend(s[1..], post);
      }
    }
  }

  lemma {:induction false} TrimLeftSpaces(pre: string, s: string)
    requires AllSpace(pre)
    ensures TrimLeft(pre + s) == TrimLeft(s)
  {
    if pre != [] {
      assert (pre + s)[0] == pre[0];
      assert (pre + s)[1..] == pre[1..] + s;
      TrimLeftSpaces(pre[1..], s);
    } else {
      assert pre + s == s;
    }
  }

  lemma {:induction false} TrimRightSpaces(s: string, post: string)
    requires AllSpace(post)
    ensures TrimRight(s + post) == TrimRight(s)
  {
    if post != [] {
      var p := post[..|post| - 1];
      assert (s + post)[|s + post| - 1] == post[|post| - 1];
      assert (s + post)[..|s + post| - 1] == s + p;
      TrimRightSpaces(s, p);
    } else {
      assert s + post == s;
    }
  }

  /** int() ignores whitespace around the literal. */
  lemma ParseDecimalIgnoresSpace(pre: string, s: string, post: string)
    requires AllSpace(pre) && AllSpace(post)
    ensures ParseDecimal(pre + s + post) == ParseDecimal(s)
  {
    assert Strip(pre + s + post) == Strip(s) by {
      assert pre + s + post == pre + (s + post);
      TrimLeftSpaces(pre, s + post);
      TrimLeftAppend(s, post);
      if TrimLeft(s) != [] {
        TrimRightSpaces(TrimLeft(s), post);
      } else {
        AllSpaceTrimLeft(post);
      }
    }
  }

  /** int() rejects a string made only of whitespace. */
  lemma ParseDecimalRejectsBlank(w: string)
    requires AllSpace(w)
    ensures ParseDecimal(w) == None
  {
    AllSpaceTrimLeft(w);
  }

  /**
   * The stripped literal is the slice of s from the first to the last
   * character that is not whitespace.
   */
  lemma StripIsSlice(s: string) returns (off: nat)
    ensures off + |Strip(s)| <= |s|
    ensures Strip(s) == s[off..off + |Strip(s)|]
    ensures forall i :: 0 <= i < |s| && !IsSpace(s[i]) ==> off <= i < off + |Strip(s)|
  {
    var l := TrimLeft(s);
    off := |s| - |l|;
    var t := TrimRight(l);
    assert Strip(s) == t;
    SliceBetweenSpaces(s, l, t, off);
  }

  /**
   * A slice t of s with only whitespace before it and after it holds every
   * character of s that is not whitespace.
   */
  lemma SliceBetweenSpaces(s: string, l: string, t: string, off: nat)
    requires off <= |s| && l == s[off..] && |t| <= |l| && t == l[..|t|]
    requires forall i :: 0 <= i < off ==> IsSpace(s[i])
    requires forall i :: |t| <= i < |l| ==> IsSpace(l[i])
    ensures off + |t| <= |s| && t == s[off..off + |t|]
    ensures forall i :: 0 <= i < |s| && !IsSpace(s[i]) ==> off <= i < off + |t|
  {
    forall i | off + |t| <= i < |s|
      ensures IsSpace(s[i])
    {
      assert l[i - off] == s[i];
    }
  }

  /**
   * The digit part int() examines is the slice of s after the whitespace
   * and the sign; every other character of s is whitespace or that sign.
   */
  lemma BodyIsSlice(s: string) returns (o: nat)
    ensures SliceOf(Unsigned(Strip(s)), s, o)
  {
    var off := StripIsSlice(s);
    o := UnsignedSlice(s, Strip(s), off);
  }

  /** Dropping the sign of a slice between whitespace leaves a slice of s. */
  lemma UnsignedSlice(s: string, t: string, off: nat) returns (o: nat)
    requires off + |t| <= |s| && t == s[off..off + |t|]
    requires forall i :: 0 <= i < |s| && !IsSpace(s[i]) ==> off <= i < off + |t|
    ensures SliceOf(Unsigned(t), s, o)
  {
    var b := Unsigned(t);
    if t != [] && (t[0] == '-' || t[0] == '+') {
      o := off + 1;
      assert b == t[1..];
      assert b == s[o..o + |b|];
      assert s[off] == t[0];
    } else {
      o := off;
      assert b == t;
    }
  }

  lemma RejectedBody(s: string)
    requires !IsDigitRun(Unsigned(Strip(s)))
    ensures ParseDecimal(s) == None
  {
  }

  /** A body that has a character which is neither digit nor underscore is rejected. */
  lemma NotDigitRunAt(b: string, j: nat)
    requires j < |b|
    requires !IsDigit(b[j]) && (b[j] != '_' || j + 1 == |b| || !IsDigit(b[j + 1]))
    ensures !IsDigitRun(b)
  {
  }

  /**
   * b is the slice s[o..o + |b|], and every character of s outside it is
   * whitespace or a sign.
   */
  predicate SliceOf(b: string, s: string, o: nat)
  {
    && o + |b| <= |s|
    && b == s[o..o + |b|]
    && forall i :: 0 <= i < |s| && !IsSpace(s[i]) && s[i] != '-' && s[i] != '+' ==> o <= i < o + |b|
  }

  lemma StrayInSlice(b: string, s: string, o: nat, k: nat)
    requires SliceOf(b, s, o)
    requires k < |s| && !IsSpace(s[k]) && !IsDigit(s[k]) && s[k] != '_' && s[k] != '-' && s[k] != '+'
    ensures !IsDigitRun(b)
  {
    assert b[k - o] == s[k];
    NotDigitRunAt(b, k - o);
  }

  lemma TrailingUnderscoreInSlice(b: string, s: string, o: nat, k: nat)
    requires SliceOf(b, s, o)
    requires k < |s| && s[k] == '_' && (k + 1 == |s| || !IsDigit(s[k + 1]))
    ensures !IsDigitRun(b)
  {
    var j := k - o;
    assert b[j] == '_';
    if j + 1 < |b| {
      assert b[j + 1] == s[k + 1];
    }
    NotDigitRunAt(b, j);
  }

  lemma LeadingUnderscoreInSlice(b: string, s: string, o: nat, k: nat)
    requires SliceOf(b, s, o)
    requires k < |s| && s[k] == '_' && (k == 0 || !IsDigit(s[k - 1]))
    ensures !IsDigitRun(b)
  {
    var j := k - o;
    assert b[j] == '_';
    if j > 0 {
      assert b[j - 1] == s[k - 1];
      NotDigitRunAt(b, j - 1);
    }
  }

  /** int() rejects a character that is neither whitespace, sign, digit nor underscore. */
  lemma ParseDecimalRejectsStray(s: string, k: nat)
    requires k < |s| && !IsSpace(s[k]) && !IsDigit(s[k]) && s[k] != '_' && s[k] != '-' && s[k] != '+'
    ensures ParseDecimal(s) == None
  {
    var o := BodyIsSlice(s);
    StrayInSlice(Unsigned(Strip(s)), s, o, k);
    RejectedBody(s);
  }

  /**
   * int() does not skip the information separators 0x1C-0x1F, although
   * str.isspace() counts them as whitespace: one anywhere rejects the string.
   */
  lemma ParseDecimalRejectsSeparator(s: string, k: nat)
    requires k < |s| && '\U{1C}' <= s[k] <= '\U{1F}'
    ensures ParseDecimal(s) == None
  {
    ParseDecimalRejectsStray(s, k);
  }

  /** int() rejects an underscore that is not followed by a digit. */
  lemma ParseDecimalRejectsTrailingUnderscore(s: string, k: nat)
    requires k < |s| && s[k] == '_'
    requires k + 1 == |s| || !IsDigit(s[k + 1])
    ensures ParseDecimal(s) == None
  {
    var o := BodyIsSlice(s);
    TrailingUnderscoreInSlice(Unsigned(Strip(s)), s, o, k);
    RejectedBody(s);
  }

  /** int() rejects an underscore that is not preceded by a digit. */
  lemma ParseDecimalRejectsLeadingUnderscore(s: string, k: nat)
    requires k < |s| && s[k] == '_'
    requires k == 0 || !IsDigit(s[k - 1])
    ensures ParseDecimal(s) == None
  {
    var o := BodyIsSlice(s);
    LeadingUnderscoreInSlice(Unsigned(Strip(s)), s, o, k);
    RejectedBody(s);
  }

  /** int() accepts whatever str() renders for an integer. */
  lemma PyIntOfRenderedInt(n: int)
    ensures PyInt(Str(Decimal(n))) == Ok(n)
  {
    ParseDecimalOfDecimal(n);
  }
}
