/**
 * The small part of Python's value semantics the batch engine relies on:
 * parameter dictionaries, truthiness, `str()`, `int()`, the "absent, None
 * or ''" test, `os.path.join` and `str.split`.
 */
module PyValues {
  import opened Wrappers

  /** A scalar Python value as it appears in a parameter or option dictionary. */
  datatype Value = Null | Bool(b: bool) | Int(i: int) | Str(s: string)

  /** A Python dictionary with string keys. */
  type Dict = map<string, Value>

  /** `d.get(k)`: the value stored under `k`, or None when the key is absent. */
  function Get(d: Dict, k: string): Value
  {
    if k in d then d[k] else Null
  }

  /** Python truthiness: None, False, 0 and '' are false. */
  predicate Truthy(v: Value)
  {
    match v
    case Null => false
    case Bool(b) => b
    case Int(i) => i != 0
    case Str(s) => s != ""
  }

  /** `k not in d or d[k] == None or d[k] == ''`. */
  predicate IsBlank(d: Dict, k: string)
  {
    k !in d || d[k] == Null || d[k] == Str("")
  }

  /** The first key of `keys` that is blank in `d`, scanning in list order. */
  function FirstBlank(keys: seq<string>, d: Dict): (r: Option<string>)
    ensures r.None? <==> forall i :: 0 <= i < |keys| ==> !IsBlank(d, keys[i])
    ensures r.Some? ==> exists i :: 0 <= i < |keys| && keys[i] == r.value && IsBlank(d, keys[i])
                                   && forall j :: 0 <= j < i ==> !IsBlank(d, keys[j])
    decreases |keys|
  {
    if keys == [] then None
    else if IsBlank(d, keys[0]) then Some(keys[0])
    else
      var r := FirstBlank(keys[1..], d);
      if r.Some? then
        ghost var i :| 0 <= i < |keys| - 1 && keys[1..][i] == r.value && IsBlank(d, keys[1..][i])
                       && forall j :: 0 <= j < i ==> !IsBlank(d, keys[1..][j]);
        assert keys[i + 1] == r.value && forall j :: 0 <= j < i + 1 ==> !IsBlank(d, keys[j]) by {
          forall j | 0 <= j < i + 1 ensures !IsBlank(d, keys[j]) {
            if j > 0 { assert keys[j] == keys[1..][j - 1]; }
          }
        }
        r
      else
        assert forall i :: 0 <= i < |keys| ==> !IsBlank(d, keys[i]) by {
          forall i | 0 <= i < |keys| ensures !IsBlank(d, keys[i]) {
            if i > 0 { assert keys[i] == keys[1..][i - 1]; }
          }
        }
        r
  }

  /** The scan for a blank key sees only whether each listed key is blank. */
  lemma {:induction false} FirstBlankAgree(keys: seq<string>, d1: Dict, d2: Dict)
    requires forall i :: 0 <= i < |keys| ==> (IsBlank(d1, keys[i]) <==> IsBlank(d2, keys[i]))
    ensures FirstBlank(keys, d1) == FirstBlank(keys, d2)
    decreases |keys|
  {
    if keys != [] {
      assert forall i :: 0 <= i < |keys| - 1 ==> keys[1..][i] == keys[i + 1];
      FirstBlankAgree(keys[1..], d1, d2);
    }
  }

  /** The first key of `keys` absent from `d`: where `d[k]` raises KeyError. */
  function FirstAbsent(keys: seq<string>, d: Dict): (r: Option<string>)
    ensures r.None? <==> forall i :: 0 <= i < |keys| ==> keys[i] in d
    ensures r.Some? ==> r.value in keys && r.value !in d
    decreases |keys|
  {
    if keys == [] then None
    else if keys[0] !in d then Some(keys[0])
    else
      var r := FirstAbsent(keys[1..], d);
      assert r.None? ==> forall i :: 0 <= i < |keys| ==> keys[i] in d by {
        if r.None? {
          forall i | 0 <= i < |keys| ensures keys[i] in d {
            if i > 0 { assert keys[i] == keys[1..][i - 1]; }
          }
        }
      }
      r
  }

  /** The scan for an absent key stops at the first one: every key before it is present. */
  lemma {:induction false} FirstAbsentAt(keys: seq<string>, d: Dict, i: int)
    requires 0 <= i < |keys| && keys[i] !in d
    requires forall j :: 0 <= j < i ==> keys[j] in d
    ensures FirstAbsent(keys, d) == Some(keys[i])
    decreases i
  {
    if i > 0 {
      assert forall j :: 0 <= j < i - 1 ==> keys[1..][j] == keys[j + 1];
      FirstAbsentAt(keys[1..], d, i - 1);
    }
  }

  // ---------------------------------------------------------------------
  // str() and int() on integers

  predicate IsDigit(c: char)
  {
    '0' <= c <= '9'
  }

  predicate AllDigits(s: string)
  {
    forall i :: 0 <= i < |s| ==> IsDigit(s[i])
  }

  function DigitChar(d: nat): char
    requires d < 10
  {
    (('0' as int) + d) as char
  }

  /** The decimal digits of a natural number, most significant first. */
  function Digits(n: nat): string
    decreases n
  {
    if n < 10 then [DigitChar(n)] else Digits(n / 10) + [DigitChar(n % 10)]
  }

  /** Python's `str(n)` for an int. */
  function DecimalString(n: int): string
  {
    if n < 0 then "-" + Digits(-n) else Digits(n)
  }

  /** The number a string of decimal digits denotes. */
  function DigitsValue(s: string): nat
    requires AllDigits(s)
    decreases |s|
  {
    if s == [] then 0
    else DigitsValue(s[..|s| - 1]) * 10 + ((s[|s| - 1] as int) - ('0' as int))
  }

  function ParseDigits(s: string): Option<nat>
  {
    if s != [] && AllDigits(s) then Some(DigitsValue(s)) else None
  }

  /**
   * Python's `int(s)` for a string: an optional sign followed by at least
   * one decimal digit; anything else raises ValueError (None here).
   */
  function ParseInt(s: string): Option<int>
  {
    if s != [] && (s[0] == '-' || s[0] == '+') then
      match ParseDigits(s[1..])
      case None => None
      case Some(n) =>
        var k: int := n;
        Some(if s[0] == '-' then -k else k)
    else
      match ParseDigits(s)
      case None => None
      case Some(n) => Some(n)
  }

  /** Python's `str(v)`. */
  function ToStr(v: Value): string
  {
    match v
    case Null => "None"
    case Bool(b) => if b then "True" else "False"
    case Int(i) => DecimalString(i)
    case Str(s) => s
  }

  /** Python's `int(v)`; None when it raises TypeError or ValueError. */
  function ToInt(v: Value): Option<int>
  {
    match v
    case Null => None
    case Bool(b) => Some(if b then 1 else 0)
    case Int(i) => Some(i)
    case Str(s) => ParseInt(s)
  }

  lemma {:induction false} DigitsRoundTrip(n: nat)
    ensures Digits(n) != [] && AllDigits(Digits(n)) && DigitsValue(Digits(n)) == n
    decreases n
  {
    if n >= 10 {
      DigitsRoundTrip(n / 10);
      var s := Digits(n);
      var last := DigitChar(n % 10);
      assert s == Digits(n / 10) + [last];
      assert s[..|s| - 1] == Digits(n / 10);
      assert s[|s| - 1] == last && (last as int) - ('0' as int) == n % 10;
    }
  }

  /** `int(str(n)) == n` for every int. */
  lemma DecimalRoundTrip(n: int)
    ensures ParseInt(DecimalString(n)) == Some(n)
  {
    DigitsRoundTrip(if n < 0 then -n else n);
    if n < 0 {
      var s := DecimalString(n);
      assert s[1..] == Digits(-n);
    } else {
      assert IsDigit(Digits(n)[0]);
    }
  }

  /** `str(v) == '1'` holds exactly for the int 1 and the string '1'. */
  lemma StrIsOne(v: Value)
    ensures ToStr(v) == "1" <==> v == Int(1) || v == Str("1")
  {
    if v.Int? && ToStr(v) == "1" {
      DecimalRoundTrip(v.i);
      assert ParseInt("1") == Some(1) by {
        assert DigitsValue("1") == DigitsValue([]) * 10 + 1;
      }
    }
  }

  // ---------------------------------------------------------------------
  // os.path.join and str.split

  /** POSIX `os.path.join(a, b)`: an absolute `b` replaces `a`. */
  function PathJoin(a: string, b: string): string
  {
    if b != "" && b[0] == '/' then b
    else if a == "" || a[|a| - 1] == '/' then a + b
    else a + "/" + b
  }

  /**
   * `os.path.join` ends with its last part, and keeps its first part in front
   * unless the last part is absolute.
   */
  lemma PathJoinParts(a: string, b: string)
    ensures |b| <= |PathJoin(a, b)| && PathJoin(a, b)[|PathJoin(a, b)| - |b|..] == b
    ensures b != "" && b[0] == '/' ==> PathJoin(a, b) == b
    ensures (b == "" || b[0] != '/') ==> a <= PathJoin(a, b)
  {
  }

  /** `sep.join(parts)`. */
  function JoinWith(parts: seq<string>, sep: string): string
    decreases |parts|
  {
    if parts == [] then ""
    else if |parts| == 1 then parts[0]
    else parts[0] + sep + JoinWith(parts[1..], sep)
  }

  /** Python's `s.split(c)` for a single-character separator: empty fields are kept. */
  function Split(s: string, c: char): (parts: seq<string>)
    ensures |parts| >= 1
    decreases |s|
  {
    if s == "" then [""]
    else if s[0] == c then [""] + Split(s[1..], c)
    else
      var rest := Split(s[1..], c);
      [[s[0]] + rest[0]] + rest[1..]
  }

  /** Splitting on `c` and joining back with `c` gives the original string, and no field holds `c`. */
  lemma {:induction false} SplitJoinRoundTrip(s: string, c: char)
    ensures JoinWith(Split(s, c), [c]) == s
    ensures forall k :: 0 <= k < |Split(s, c)| ==> c !in Split(s, c)[k]
    decreases |s|
  {
    if s != "" {
      SplitJoinRoundTrip(s[1..], c);
      var rest := Split(s[1..], c);
      if s[0] == c {
        assert Split(s, c) == [""] + rest;
        assert ([""] + rest)[1..] == rest;
        assert s == [c] + s[1..];
      } else {
        var parts := Split(s, c);
        assert parts == [[s[0]] + rest[0]] + rest[1..];
        if |rest| == 1 {
          assert s == [s[0]] + s[1..];
        } else {
          assert parts[1..] == rest[1..];
          assert JoinWith(rest, [c]) == rest[0] + [c] + JoinWith(rest[1..], [c]);
          assert s == [s[0]] + s[1..];
        }
        forall k | 0 <= k < |parts| ensures c !in parts[k] {
          if k == 0 {
            assert c !in rest[0];
          } else {
            assert parts[k] == rest[k];
          }
        }
      }
    }
  }

  /**
   * The first field of `s.split(c)` is everything before the first `c`; there
   * is a second field exactly when `s` holds a `c`.
   */
  lemma {:induction false} SplitFirst(s: string, c: char)
    ensures c !in s ==> Split(s, c) == [s]
    ensures c in s ==> && |Split(s, c)| >= 2 && |Split(s, c)[0]| < |s|
                       && s[..|Split(s, c)[0]| + 1] == Split(s, c)[0] + [c]
    ensures c !in Split(s, c)[0]
    decreases |s|
  {
    if s != "" {
      SplitFirst(s[1..], c);
      var rest := Split(s[1..], c);
      if s[0] == c {
        assert Split(s, c) == [""] + rest;
        assert s[..1] == [c];
      } else {
        var first := [s[0]] + rest[0];
        assert Split(s, c) == [first] + rest[1..];
        assert c in s <==> c in s[1..] by {
          if c in s {
            var k :| 0 <= k < |s| && s[k] == c;
            assert s[1..][k - 1] == c;
          }
        }
        if c !in s {
          assert s == [s[0]] + s[1..];
        } else {
          assert s[..|first| + 1] == [s[0]] + s[1..][..|rest[0]| + 1];
        }
      }
    }
  }

  /** `needle` occurs in `hay` starting at offset `i`. */
  predicate OccursAt(hay: string, needle: string, i: int)
  {
    0 <= i <= |hay| - |needle| && hay[i..i + |needle|] == needle
  }

  /** `needle` occurs in `hay` as a contiguous substring. */
  ghost predicate Contains(hay: string, needle: string)
  {
    exists i :: OccursAt(hay, needle, i)
  }

  lemma ContainsMiddle(p: string, t: string, q: string)
    ensures OccursAt(p + t + q, t, |p|) && Contains(p + t + q, t)
  {
    var h := p + t + q;
    assert h[|p|..|p| + |t|] == t;
    assert OccursAt(h, t, |p|);
  }
}
