/**
 * The PHP string built-ins the model relies on: `rtrim`/`trim` with their
 * default character list, `explode(...)[0]`, `strrchr`, `implode` and the
 * decimal conversion of an integer.
 */
module PhpStrings {
  import opened Wrappers

  /** The characters `trim` and `rtrim` strip when given no character list. */
  predicate IsBlank(c: char) {
    c == ' ' || c == '\t' || c == '\n' || c == '\r' || c == '\0' || c == '\U{000B}'
  }

  /** `rtrim($s)`: `s` without its trailing blank characters. */
  function RTrim(s: string): (r: string)
    ensures |r| <= |s| && r == s[..|r|]
    ensures r == [] || !IsBlank(r[|r| - 1])
    ensures forall i :: |r| <= i < |s| ==> IsBlank(s[i])
  {
    if s == [] || !IsBlank(s[|s| - 1]) then s else RTrim(s[..|s| - 1])
  }

  /** `ltrim($s)`: `s` without its leading blank characters. */
  function LTrim(s: string): (r: string)
    ensures |r| <= |s| && r == s[|s| - |r|..]
    ensures r == [] || !IsBlank(r[0])
    ensures forall i :: 0 <= i < |s| - |r| ==> IsBlank(s[i])
  {
    if s == [] || !IsBlank(s[0]) then s else LTrim(s[1..])
  }

  /** `trim($s)`: both ends stripped. */
  function Trim(s: string): (r: string)
    ensures r == [] || (!IsBlank(r[0]) && !IsBlank(r[|r| - 1]))
    ensures exists i, j ::
              && 0 <= i <= j <= |s| && r == s[i..j]
              && (forall k :: 0 <= k < i ==> IsBlank(s[k]))
              && (forall k :: j <= k < |s| ==> IsBlank(s[k]))
  {
    var t := RTrim(s);
    var r := LTrim(t);
    var i, j := |t| - |r|, |t|;
    assert r == s[i..j];
    assert forall k :: 0 <= k < i ==> s[k] == t[k];
    r
  }

  /** A string that ends in a non-blank character is its own `rtrim`. */
  lemma RTrimNonBlankEnd(s: string)
    requires s != [] && !IsBlank(s[|s| - 1])
    ensures RTrim(s) == s
  {
  }

  /** Stripping an appended blank-only tail gives back the original when it ends non-blank. */
  lemma {:induction false} RTrimAppendBlank(s: string, tail: string)
    requires s != [] && !IsBlank(s[|s| - 1])
    requires forall i :: 0 <= i < |tail| ==> IsBlank(tail[i])
    ensures RTrim(s + tail) == s
  {
    if tail != [] {
      var front := tail[..|tail| - 1];
      assert (s + tail)[..|s + tail| - 1] == s + front;
      RTrimAppendBlank(s, front);
    }
  }

  /** `rtrim` never cuts into a prefix that ends in a non-blank character. */
  lemma RTrimKeepsPrefix(a: string, b: string)
    requires a != [] && !IsBlank(a[|a| - 1])
    ensures |RTrim(a + b)| >= |a| && RTrim(a + b)[..|a|] == a
  {
    assert (a + b)[|a| - 1] == a[|a| - 1];
    assert (a + b)[..|a|] == a;
  }

  /** `rtrim` of a concatenation only touches the second part when that part starts non-blank. */
  lemma {:induction false} RTrimSuffix(a: string, b: string)
    requires b != [] && !IsBlank(b[0])
    ensures RTrim(a + b) == a + RTrim(b)
  {
    if IsBlank(b[|b| - 1]) {
      var front := b[..|b| - 1];
      assert (a + b)[..|a + b| - 1] == a + front;
      RTrimSuffix(a, front);
    }
  }

  /**
   * `explode($sep, $s)[0]`: the text of `s` before the first `sep`, or all of
   * `s` when `sep` does not occur.
   */
  function BeforeFirst(s: string, sep: char): (r: string)
    ensures |r| <= |s| && r == s[..|r|]
    ensures sep !in r
    ensures |r| < |s| ==> s[|r|] == sep
  {
    if s == [] then []
    else if s[0] == sep then []
    else [s[0]] + BeforeFirst(s[1..], sep)
  }

  /** The position of the last `c` in `s`, if any. */
  function LastIndexOf(s: string, c: char): (r: Option<nat>)
    ensures r.Some? ==> r.value < |s| && s[r.value] == c && c !in s[r.value + 1..]
    ensures r.None? ==> c !in s
  {
    if s == [] then None
    else if s[|s| - 1] == c then Some(|s| - 1)
    else LastIndexOf(s[..|s| - 1], c)
  }

  /**
   * `substr(strrchr($s, $c), 1)`: the text after the last `c`; `strrchr`
   * yields `false` when `c` does not occur and `substr(false, 1)` is `""`.
   */
  function AfterLast(s: string, c: char): (r: string)
    ensures c !in r
    ensures c in s ==> exists i :: 0 <= i < |s| && s == s[..i] + [c] + r
    ensures c !in s ==> r == []
  {
    match LastIndexOf(s, c)
    case None => []
    case Some(i) =>
      assert s == s[..i] + [c] + s[i + 1..];
      s[i + 1..]
  }

  /** The last `c` of `a + [c] + b` is the one in the middle when `b` has none. */
  lemma {:induction false} LastIndexOfJoin(a: string, c: char, b: string)
    requires c !in b
    ensures LastIndexOf(a + [c] + b, c) == Some(|a|)
  {
    var s := a + [c] + b;
    if b != [] {
      assert s[|s| - 1] == b[|b| - 1];
      assert s[..|s| - 1] == a + [c] + b[..|b| - 1];
      LastIndexOfJoin(a, c, b[..|b| - 1]);
    }
  }

  /** `substr(strrchr(a . c . b, c), 1)` is `b` when `b` holds no `c`. */
  lemma AfterLastJoin(a: string, c: char, b: string)
    requires c !in b
    ensures AfterLast(a + [c] + b, c) == b
  {
    LastIndexOfJoin(a, c, b);
    assert (a + [c] + b)[|a| + 1..] == b;
  }

  /** `implode($sep, $parts)`. */
  function Join(parts: seq<string>, sep: string): (r: string)
    ensures parts == [] ==> r == []
    ensures |parts| == 1 ==> r == parts[0]
  {
    if parts == [] then []
    else if |parts| == 1 then parts[0]
    else parts[0] + sep + Join(parts[1..], sep)
  }

  /** Joining a list extended by one part appends the separator and the part. */
  lemma {:induction false} JoinSnoc(parts: seq<string>, p: string, sep: string)
    requires parts != []
    ensures Join(parts + [p], sep) == Join(parts, sep) + sep + p
  {
    if |parts| == 1 {
      assert parts + [p] == [parts[0], p];
    } else {
      assert (parts + [p])[1..] == parts[1..] + [p];
      JoinSnoc(parts[1..], p, sep);
    }
  }

  /** The decimal digits of a natural number. */
  function NatToDecimal(n: nat): (r: string)
    ensures r != []
    ensures forall i :: 0 <= i < |r| ==> '0' <= r[i] <= '9'
    decreases n
  {
    var d := [(('0' as int) + n % 10) as char];
    if n < 10 then d else NatToDecimal(n / 10) + d
  }

  /** PHP's conversion of an integer to a string: an optional minus sign and the digits. */
  function IntToDecimal(i: int): (r: string)
    ensures r != []
    ensures i < 0 <==> r[0] == '-'
  {
    if i < 0 then "-" + NatToDecimal(-i) else NatToDecimal(i)
  }
}
