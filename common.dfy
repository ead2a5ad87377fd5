/** Small value helpers shared by the whole model: optional values, results,
    and the handful of JavaScript string operations the application relies on
    (`includes`, `toLowerCase`, `toUpperCase`, `join`, `||` on strings and
    `toString` of an integer). */
module Common {

  datatype Option<T> = None | Some(value: T)

  /** The outcome of an operation that may throw: the value, or the message
      of the Error it threw. */
  datatype Result<T> = Ok(value: T) | Err(message: string)

  /* ---------- substrings (String.prototype.includes) ---------- */

  /** `w` occurs in `s` starting at index `i`. */
  predicate OccursAt(s: string, w: string, i: int)
  {
    0 <= i <= |s| - |w| && s[i..i + |w|] == w
  }

  /** `s.includes(w)`: `w` occurs somewhere in `s` as a contiguous substring. */
  predicate Contains(s: string, w: string)
  {
    exists i :: 0 <= i <= |s| - |w| && OccursAt(s, w, i)
  }

  /** Occurrence is transitive: a substring of a substring is a substring. */
  lemma ContainsTransitive(s: string, w: string, v: string)
    requires Contains(s, w) && Contains(w, v)
    ensures Contains(s, v)
  {
    var i :| 0 <= i <= |s| - |w| && OccursAt(s, w, i);
    var j :| 0 <= j <= |w| - |v| && OccursAt(w, v, j);
    forall t | 0 <= t < |v|
      ensures s[i + j + t] == v[t]
    {
      assert w[j + t] == v[t];
      assert s[i + j + t] == w[j + t];
    }
    assert OccursAt(s, v, i + j);
  }

  /** A word with a character that never occurs in `s` does not occur in `s`. */
  lemma AbsentChar(s: string, w: string, k: nat)
    requires k < |w| && w[k] !in s
    ensures !Contains(s, w)
  {
    forall i | 0 <= i <= |s| - |w|
      ensures !OccursAt(s, w, i)
    {
      assert s[i + k] in s;
      assert s[i..i + |w|][k] == s[i + k];
    }
  }

  /** `a` immediately followed by `b` somewhere in `s`. */
  predicate Adjacent(s: string, a: char, b: char)
  {
    exists j :: 0 <= j < |s| - 1 && s[j] == a && s[j + 1] == b
  }

  /** A word with two neighbouring characters that are never neighbours in `s`
      does not occur in `s`. */
  lemma AbsentPair(s: string, w: string, k: nat)
    requires k + 1 < |w| && !Adjacent(s, w[k], w[k + 1])
    ensures !Contains(s, w)
  {
    forall i | 0 <= i <= |s| - |w|
      ensures !OccursAt(s, w, i)
    {
      assert !(s[i + k] == w[k] && s[i + k + 1] == w[k + 1]);
      assert s[i..i + |w|][k] == s[i + k] && s[i..i + |w|][k + 1] == s[i + k + 1];
    }
  }

  /** `w` occurs at the very start of `s`. */
  lemma PrefixContained(s: string, w: string)
    requires w <= s
    ensures Contains(s, w)
  {
    assert OccursAt(s, w, 0);
  }

  /* ---------- occurrences in concatenations ---------- */

  lemma ConcatAssoc3(a: string, b: string, c: string)
    ensures a + b + c == a + (b + c)
  {
  }

  lemma ConcatAssoc4(a: string, b: string, c: string, d: string)
    ensures a + b + c + d == a + (b + (c + d))
  {
  }

  /** `w` occurs in `a + b` right after `a` exactly when `b` starts with `w`. */
  lemma OccursRightAfter(a: string, b: string, w: string)
    ensures OccursAt(a + b, w, |a|) <==> w <= b
  {
    if |w| <= |b| {
      assert (a + b)[|a|..|a| + |w|] == b[..|w|];
    }
  }

  /** An occurrence that ends within `a` is not affected by what follows `a`. */
  lemma OccursInLeft(a: string, b: string, w: string, i: int)
    requires 0 <= i && i + |w| <= |a|
    ensures OccursAt(a + b, w, i) <==> OccursAt(a, w, i)
  {
    assert (a + b)[i..i + |w|] == a[i..i + |w|];
  }

  lemma ContainsLeft(a: string, b: string, w: string)
    requires Contains(a, w)
    ensures Contains(a + b, w)
  {
    var i :| 0 <= i <= |a| - |w| && OccursAt(a, w, i);
    OccursInLeft(a, b, w, i);
  }

  lemma ContainsRight(a: string, b: string, w: string)
    requires Contains(b, w)
    ensures Contains(a + b, w)
  {
    var i :| 0 <= i <= |b| - |w| && OccursAt(b, w, i);
    assert (a + b)[|a| + i..|a| + i + |w|] == b[i..i + |w|];
    assert OccursAt(a + b, w, |a| + i);
  }

  /** A string that differs from `x` at index `k` is not a prefix of `x`. */
  lemma DifferAt(x: string, w: string, k: nat)
    requires k < |x| && k < |w| && x[k] != w[k]
    ensures !(w <= x)
  {
    assert w <= x ==> w[k] == x[k];
  }

  /** `s` ends with `w`. */
  predicate EndsWith(s: string, w: string)
  {
    |w| <= |s| && s[|s| - |w|..] == w
  }

  lemma EndsWithRight(a: string, b: string, w: string)
    requires EndsWith(b, w)
    ensures EndsWith(a + b, w)
  {
    assert (a + b)[|a + b| - |w|..] == b[|b| - |w|..];
  }

  /* ---------- ASCII case mapping ---------- */

  function LowerChar(c: char): (d: char)
    ensures 'A' <= c <= 'Z' ==> d as int == c as int + 32
    ensures !('A' <= c <= 'Z') ==> d == c
  {
    if 'A' <= c <= 'Z' then (c as int + 32) as char else c
  }

  function UpperChar(c: char): (d: char)
    ensures 'a' <= c <= 'z' ==> d as int == c as int - 32
    ensures !('a' <= c <= 'z') ==> d == c
  {
    if 'a' <= c <= 'z' then (c as int - 32) as char else c
  }

  /** `toLowerCase()`, restricted to the ASCII letters. */
  function ToLower(s: string): (r: string)
    ensures |r| == |s|
    ensures forall i :: 0 <= i < |s| ==> r[i] == LowerChar(s[i])
  {
    if s == [] then [] else [LowerChar(s[0])] + ToLower(s[1..])
  }

  /** `toUpperCase()`, restricted to the ASCII letters. */
  function ToUpper(s: string): (r: string)
    ensures |r| == |s|
    ensures forall i :: 0 <= i < |s| ==> r[i] == UpperChar(s[i])
  {
    if s == [] then [] else [UpperChar(s[0])] + ToUpper(s[1..])
  }

  /** Lower-casing twice is lower-casing once. */
  lemma ToLowerIdempotent(s: string)
    ensures ToLower(ToLower(s)) == ToLower(s)
  {
    assert forall i :: 0 <= i < |s| ==> LowerChar(LowerChar(s[i])) == LowerChar(s[i]);
  }

  /** Lower-casing forgets an earlier upper-casing. */
  lemma ToLowerOfUpper(s: string)
    ensures ToLower(ToUpper(s)) == ToLower(s)
  {
    forall i | 0 <= i < |s|
      ensures LowerChar(UpperChar(s[i])) == LowerChar(s[i])
    {
    }
  }

  /** A string without upper-case ASCII letters is its own lower-case form. */
  lemma ToLowerOfLower(s: string)
    requires forall i :: 0 <= i < |s| ==> !('A' <= s[i] <= 'Z')
    ensures ToLower(s) == s
  {
  }

  /* ---------- other JavaScript idioms ---------- */

  /** JavaScript truthiness of an optional string: present and non-empty. */
  predicate Truthy(v: Option<string>)
  {
    v.Some? && v.value != ""
  }

  /** `s || d` for a string `s`: the empty string is falsy. */
  function OrElse(s: string, d: string): (r: string)
    ensures s != "" ==> r == s
    ensures s == "" ==> r == d
    ensures r == "" <==> s == "" && d == ""
  {
    if s == "" then d else s
  }

  function DigitChar(d: int): (c: char)
    requires 0 <= d < 10
    ensures '0' <= c <= '9'
    ensures c as int == '0' as int + d
  {
    ('0' as int + d) as char
  }

  /** Decimal digits of a natural number, most significant first. */
  function NatToString(n: nat): (r: string)
    ensures |r| > 0
    ensures forall i :: 0 <= i < |r| ==> '0' <= r[i] <= '9'
    decreases n
  {
    if n < 10 then [DigitChar(n)] else NatToString(n / 10) + [DigitChar(n % 10)]
  }

  /** `n.toString()` for an integer `n`. */
  function IntToString(n: int): (r: string)
    ensures |r| > 0
    ensures n < 0 <==> r[0] == '-'
  {
    if n < 0 then "-" + NatToString(-n) else NatToString(n)
  }

  /** Different natural numbers have different decimal forms. */
  lemma {:induction false} NatToStringInjective(a: nat, b: nat)
    requires NatToString(a) == NatToString(b)
    ensures a == b
    decreases a
  {
    var s := NatToString(a);
    if a >= 10 && b >= 10 {
      assert s[|s| - 1] == DigitChar(a % 10) && s[|s| - 1] == DigitChar(b % 10);
      assert s[..|s| - 1] == NatToString(a / 10) && s[..|s| - 1] == NatToString(b / 10);
      NatToStringInjective(a / 10, b / 10);
    }
  }

  /** `toString()` of different integers gives different strings. */
  lemma IntToStringInjective(a: int, b: int)
    requires IntToString(a) == IntToString(b)
    ensures a == b
  {
    if a < 0 {
      assert IntToString(a)[1..] == NatToString(-a) && IntToString(b)[1..] == NatToString(-b);
      NatToStringInjective(-a, -b);
    } else {
      NatToStringInjective(a, b);
    }
  }

  /** `parts.join(sep)`. */
  function Join(parts: seq<string>, sep: string): (r: string)
    ensures parts == [] ==> r == ""
    ensures |parts| == 1 ==> r == parts[0]
    ensures |parts| > 0 ==> parts[0] <= r
  {
    if parts == [] then ""
    else if |parts| == 1 then parts[0]
    else parts[0] + sep + Join(parts[1..], sep)
  }

  /** The join of a non-empty list whose first part is non-empty is non-empty:
      this is what makes `list.join('\n') || fallback` pick the list. */
  lemma JoinNonEmpty(parts: seq<string>, sep: string)
    requires |parts| > 0 && parts[0] != ""
    ensures Join(parts, sep) != ""
  {
  }

  /** `xs.slice(0, n)` for n >= 0. */
  function Take<T>(xs: seq<T>, n: nat): (r: seq<T>)
    ensures |r| == if |xs| < n then |xs| else n
    ensures r <= xs
  {
    if |xs| <= n then xs else xs[..n]
  }

  /* ---------- query strings ---------- */

  /** One `URLSearchParams.append(key, value)`. */
  datatype Param = Param(key: string, value: string)

  /** `params.getAll(key)` as pairs: the pairs with that key, in order. */
  function WithKey(params: seq<Param>, key: string): (r: seq<Param>)
    ensures |r| <= |params|
    ensures forall x :: x in r <==> x in params && x.key == key
  {
    if params == [] then []
    else (if params[0].key == key then [params[0]] else []) + WithKey(params[1..], key)
  }

  lemma {:induction false} WithKeyConcat(a: seq<Param>, b: seq<Param>, key: string)
    ensures WithKey(a + b, key) == WithKey(a, key) + WithKey(b, key)
  {
    if a == [] {
      assert a + b == b;
    } else {
      assert (a + b)[1..] == a[1..] + b;
      WithKeyConcat(a[1..], b, key);
    }
  }

  /** A list whose pairs all carry `key` is its own `getAll(key)`. */
  lemma {:induction false} WithKeyAll(params: seq<Param>, key: string)
    requires forall x :: x in params ==> x.key == key
    ensures WithKey(params, key) == params
  {
    if params != [] {
      WithKeyAll(params[1..], key);
    }
  }

  /** A list without `key` has no pairs for it. */
  lemma WithKeyNone(params: seq<Param>, key: string)
    requires forall x :: x in params ==> x.key != key
    ensures WithKey(params, key) == []
  {
    if WithKey(params, key) != [] {
      assert WithKey(params, key)[0] in WithKey(params, key);
    }
  }

  /* ---------- lists ---------- */

  /** Position `k` holds the first element of `xs` satisfying `p`. */
  predicate IsFirst<T>(xs: seq<T>, p: T -> bool, k: int)
  {
    0 <= k < |xs| && p(xs[k]) && forall j :: 0 <= j < k ==> !p(xs[j])
  }

  /** `xs.findIndex(p)`: the first position satisfying `p`, or -1. */
  function FirstIndex<T>(xs: seq<T>, p: T -> bool): (r: int)
    ensures -1 <= r < |xs|
    ensures r >= 0 ==> IsFirst(xs, p, r)
    ensures r == -1 ==> forall k :: 0 <= k < |xs| ==> !p(xs[k])
  {
    if xs == [] then -1
    else if p(xs[0]) then 0
    else
      var r := FirstIndex(xs[1..], p);
      if r == -1 then -1 else r + 1
  }

  /** `message || fallback` for an optional error message. */
  function MessageOr(message: Option<string>, fallback: string): (r: string)
    ensures message.Some? && message.value != "" ==> r == message.value
    ensures message.None? || message.value == "" ==> r == fallback
    ensures r == "" <==> (message.None? || message.value == "") && fallback == ""
  {
    if message.Some? && message.value != "" then message.value else fallback
  }
}
