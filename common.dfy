/** Small building blocks shared by the handlers: an optional value, sums of
    integer sequences and of integer-valued functions over key sets, and the
    decimal text form of integers that Python's str() and int() produce and
    accept. */
module Common {

  datatype Option<+T> = None | Some(value: T)

  // ---------------------------------------------------------------------------
  // Sums
  // ---------------------------------------------------------------------------

  /** The sum of a sequence, peeled from the back so that a loop that adds
      xs[i] to an accumulator extends Sum(xs[..i]) to Sum(xs[..i+1]). */
  function Sum(xs: seq<int>): int
    decreases |xs|
  {
    if xs == [] then 0 else Sum(xs[..|xs| - 1]) + xs[|xs| - 1]
  }

  lemma SumPrefix(xs: seq<int>, i: nat)
    requires i < |xs|
    ensures Sum(xs[..i + 1]) == Sum(xs[..i]) + xs[i]
  {
    assert xs[..i + 1][..i] == xs[..i];
  }

  lemma {:induction false} SumAppend(a: seq<int>, b: seq<int>)
    ensures Sum(a + b) == Sum(a) + Sum(b)
    decreases |b|
  {
    if b == [] {
      assert a + b == a;
    } else {
      var b' := b[..|b| - 1];
      assert (a + b)[..|a + b| - 1] == a + b';
      SumAppend(a, b');
    }
  }

  /** The weight a hash gives a key: its value, or 0 when the key is absent. */
  function Weight(w: map<nat, int>, k: nat): int
  {
    if k in w then w[k] else 0
  }

  /** The sum of the weights of a finite set of keys. The key removed first is
      an arbitrary one; SumByPick shows that the choice does not matter, which
      is what makes a total over a hash (whose iteration order is unspecified)
      well defined. */
  ghost function SumBy(keys: set<nat>, w: map<nat, int>): int
    decreases keys
  {
    if keys == {} then 0 else var k :| k in keys; Weight(w, k) + SumBy(keys - {k}, w)
  }

  lemma {:induction false} SumByPick(keys: set<nat>, w: map<nat, int>, k: nat)
    requires k in keys
    ensures SumBy(keys, w) == Weight(w, k) + SumBy(keys - {k}, w)
    decreases keys
  {
    var j :| j in keys && SumBy(keys, w) == Weight(w, j) + SumBy(keys - {j}, w);
    if j != k {
      SumByPick(keys - {j}, w, k);
      SumByPick(keys - {k}, w, j);
      assert keys - {j} - {k} == keys - {k} - {j};
    }
  }

  lemma {:induction false} SumByExt(keys: set<nat>, w: map<nat, int>, v: map<nat, int>)
    requires forall k :: k in keys ==> Weight(w, k) == Weight(v, k)
    ensures SumBy(keys, w) == SumBy(keys, v)
    decreases keys
  {
    if keys != {} {
      var k :| k in keys;
      SumByPick(keys, w, k);
      SumByPick(keys, v, k);
      SumByExt(keys - {k}, w, v);
    }
  }

  /** The values of a hash, added up (the loop over HVALS in the source). */
  ghost function MapSum(m: map<nat, int>): int
  {
    SumBy(m.Keys, m)
  }

  lemma MapSumRemove(m: map<nat, int>, k: nat)
    requires k in m
    ensures MapSum(m) == m[k] + MapSum(m - {k})
  {
    var m' := m - {k};
    SumByPick(m.Keys, m, k);
    assert m'.Keys == m.Keys - {k};
    SumByExt(m'.Keys, m, m');
  }

  lemma MapSumStore(m: map<nat, int>, k: nat, v: int)
    ensures MapSum(m[k := v]) == v + MapSum(m - {k})
  {
    var m' := m[k := v];
    MapSumRemove(m', k);
    assert m' - {k} == m - {k};
  }

  // ---------------------------------------------------------------------------
  // Decimal text
  // ---------------------------------------------------------------------------

  predicate IsDigit(c: char) { '0' <= c <= '9' }

  function DigitChar(d: nat): (c: char)
    requires d < 10
    ensures IsDigit(c) && c as int - '0' as int == d
  {
    ('0' as int + d) as char
  }

  /** str(n) for a non-negative integer: no sign, no leading zero. */
  function DecimalString(n: nat): (s: string)
    ensures |s| >= 1 && forall i :: 0 <= i < |s| ==> IsDigit(s[i])
    ensures |s| > 1 ==> s[0] != '0'
    decreases n
  {
    if n < 10 then [DigitChar(n)] else DecimalString(n / 10) + [DigitChar(n % 10)]
  }

  /** The value of a non-empty run of ASCII digits. */
  function DigitsValue(s: string): nat
    requires forall i :: 0 <= i < |s| ==> IsDigit(s[i])
    decreases |s|
  {
    if s == [] then 0
    else
      var last := s[|s| - 1];
      assert IsDigit(last);
      DigitsValue(s[..|s| - 1]) * 10 + (last as int - '0' as int)
  }

  lemma {:induction false} DigitsOfDecimal(n: nat)
    ensures DigitsValue(DecimalString(n)) == n
    decreases n
  {
    var s := DecimalString(n);
    if n >= 10 {
      DigitsOfDecimal(n / 10);
      assert s[..|s| - 1] == DecimalString(n / 10);
    }
  }

  /** str(n) for any integer. */
  function IntString(n: int): string
  {
    if n < 0 then "-" + DecimalString(-n) else DecimalString(n)
  }

  /** ASCII white space as Python's str.isspace() sees it: space, tab, line
      feed, vertical tab, form feed, carriage return, and the separators
      0x1C-0x1F. */
  predicate IsSpace(c: char)
  {
    c == ' ' || c == '\t' || c == '\n' || c == '\r' || c == '\U{0B}' || c == '\U{0C}' ||
    c == '\U{1C}' || c == '\U{1D}' || c == '\U{1E}' || c == '\U{1F}'
  }

  /** The text with surrounding white space removed. */
  function Strip(s: string): (r: string)
    ensures |r| <= |s|
    ensures r != [] ==> !IsSpace(r[0]) && !IsSpace(r[|r| - 1])
    ensures s != [] && !IsSpace(s[0]) && !IsSpace(s[|s| - 1]) ==> r == s
    decreases |s|
  {
    if s == [] then []
    else if IsSpace(s[0]) then Strip(s[1..])
    else if IsSpace(s[|s| - 1]) then Strip(s[..|s| - 1])
    else s
  }

  /** Python's int() on text, restricted to ASCII: optional surrounding white
      space, an optional sign and at least one digit; anything else raises. */
  function ParseInt(s: string): Option<int>
  {
    var t := Strip(s);
    if t == [] then None
    else
      var sign, body := if t[0] == '-' then -1 else 1, if t[0] == '-' || t[0] == '+' then t[1..] else t;
      if body != [] && forall i :: 0 <= i < |body| ==> IsDigit(body[i]) then
        Some(sign * DigitsValue(body))
      else None
  }

  /** int(str(n)) == n. */
  lemma ParseIntString(n: int)
    ensures ParseInt(IntString(n)) == Some(n)
  {
    var s := IntString(n);
    if n < 0 {
      var d := DecimalString(-n);
      assert s == "-" + d;
      assert !IsSpace(s[0]) && IsDigit(s[|s| - 1]);
      assert Strip(s) == s;
      assert s[1..] == d;
      DigitsOfDecimal(-n);
    } else {
      assert !IsSpace(s[0]) && IsDigit(s[|s| - 1]);
      assert Strip(s) == s;
      DigitsOfDecimal(n);
    }
  }
}
