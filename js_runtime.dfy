/** The handful of JavaScript built-ins whose exact behaviour the server and the
    client rely on: `String.prototype.split` on one character, ASCII
    `toLowerCase`, `parseInt` without a radix, the decimal rendering of a
    number, and the insertion order of a `Set` built from an array. */
module JsRuntime {

  datatype Option<T> = None | Some(value: T)

  // ---------------------------------------------------------------------------
  // split(' ')

  /** `s.split([sep])`: the maximal runs between separators, empty runs included. */
  function Split(s: string, sep: char): (parts: seq<string>)
    ensures |parts| >= 1
    ensures forall i :: 0 <= i < |parts| ==> sep !in parts[i]
    decreases |s|
  {
    if s == [] then [""]
    else
      var rest := Split(s[1..], sep);
      if s[0] == sep then [""] + rest
      else [[s[0]] + rest[0]] + rest[1..]
  }

  /** `parts.join([sep])`, the inverse of Split. */
  function Join(parts: seq<string>, sep: char): string
    requires |parts| >= 1
  {
    if |parts| == 1 then parts[0] else parts[0] + [sep] + Join(parts[1..], sep)
  }

  lemma {:induction false} SplitThenJoin(s: string, sep: char)
    ensures Join(Split(s, sep), sep) == s
    decreases |s|
  {
    if s != [] {
      SplitThenJoin(s[1..], sep);
      var rest := Split(s[1..], sep);
      if s[0] != sep {
        if |rest| == 1 {
          assert Join(Split(s, sep), sep) == [s[0]] + rest[0];
        } else {
          assert Split(s, sep)[1..] == rest[1..];
          assert Join(Split(s, sep), sep) == ([s[0]] + rest[0]) + [sep] + Join(rest[1..], sep);
        }
        assert s == [s[0]] + s[1..];
      }
    }
  }

  /** Splitting a word that holds no separator, followed by more text after one. */
  lemma {:induction false} SplitPrefix(w: string, sep: char, tail: string)
    requires sep !in w
    ensures Split(w + [sep] + tail, sep) == [w] + Split(tail, sep)
    decreases |w|
  {
    if w == [] {
      assert w + [sep] + tail == [sep] + tail;
      assert ([sep] + tail)[1..] == tail;
    } else {
      assert (w + [sep] + tail)[1..] == w[1..] + [sep] + tail;
      SplitPrefix(w[1..], sep, tail);
      assert w == [w[0]] + w[1..];
    }
  }

  /** A string without the separator splits into itself. */
  lemma {:induction false} SplitWord(w: string, sep: char)
    requires sep !in w
    ensures Split(w, sep) == [w]
    decreases |w|
  {
    if w != [] {
      SplitWord(w[1..], sep);
      assert w == [w[0]] + w[1..];
    }
  }

  lemma {:induction false} JoinThenSplit(parts: seq<string>, sep: char)
    requires |parts| >= 1
    requires forall i :: 0 <= i < |parts| ==> sep !in parts[i]
    ensures Split(Join(parts, sep), sep) == parts
    decreases |parts|
  {
    if |parts| == 1 {
      SplitWord(parts[0], sep);
    } else {
      JoinThenSplit(parts[1..], sep);
      SplitPrefix(parts[0], sep, Join(parts[1..], sep));
      assert parts == [parts[0]] + parts[1..];
    }
  }

  // ---------------------------------------------------------------------------
  // toLowerCase (ASCII letters)

  function LowerChar(c: char): char
  {
    if 'A' <= c <= 'Z' then (c as int - 'A' as int + 'a' as int) as char else c
  }

  function ToLower(s: string): (r: string)
    ensures |r| == |s|
    ensures forall i :: 0 <= i < |s| ==> r[i] == LowerChar(s[i])
  {
    if s == [] then [] else [LowerChar(s[0])] + ToLower(s[1..])
  }

  /** A string that holds no upper-case ASCII letter is its own lower case. */
  lemma LowerCaseFixed(s: string)
    requires forall i :: 0 <= i < |s| ==> !('A' <= s[i] <= 'Z')
    ensures ToLower(s) == s
  {
  }

  // ---------------------------------------------------------------------------
  // parseInt(s) with no radix (section 19.2.5 of ECMA-262)

  /** The white space that parseInt skips: ASCII white space, line terminators,
      no-break space and the byte order mark (other Zs characters are not modelled). */
  predicate IsSpace(c: char)
  {
    c == ' ' || c == '\t' || c == '\n' || c == '\r' || c == '\U{B}' || c == '\U{C}'
    || c == '\U{A0}' || c == '\U{FEFF}' || c == '\U{2028}' || c == '\U{2029}'
  }

  function DigitValue(c: char): int
  {
    if '0' <= c <= '9' then c as int - '0' as int
    else if 'a' <= c <= 'z' then c as int - 'a' as int + 10
    else if 'A' <= c <= 'Z' then c as int - 'A' as int + 10
    else 36
  }

  predicate IsDigit(c: char, radix: int) { DigitValue(c) < radix }

  function TrimStart(s: string): (r: string)
    ensures |r| <= |s| && r == s[|s| - |r|..]
    ensures r == [] || !IsSpace(r[0])
  {
    if s != [] && IsSpace(s[0]) then TrimStart(s[1..]) else s
  }

  /** The longest prefix of digits of the given radix. */
  function DigitRun(s: string, radix: int): (r: string)
    ensures |r| <= |s| && r == s[..|r|]
    ensures forall i :: 0 <= i < |r| ==> IsDigit(r[i], radix)
    ensures |r| < |s| ==> !IsDigit(s[|r|], radix)
  {
    if s != [] && IsDigit(s[0], radix) then [s[0]] + DigitRun(s[1..], radix) else []
  }

  /** The number that a run of digits denotes, most significant first. */
  function DigitsValue(s: string, radix: int): int
  {
    if s == [] then 0 else DigitsValue(s[..|s| - 1], radix) * radix + DigitValue(s[|s| - 1])
  }

  /** `parseInt(s)`: None stands for NaN. Precision loss above 2^53 is not modelled. */
  function ParseInt(s: string): Option<int>
  {
    var t := TrimStart(s);
    if t != [] && t[0] == '-' then
      match ParseMagnitude(t[1..])
      case None => None
      case Some(m) => Some(-m)
    else if t != [] && t[0] == '+' then ParseMagnitude(t[1..])
    else ParseMagnitude(t)
  }

  /** The unsigned part: hexadecimal after a `0x` or `0X` prefix, decimal otherwise. */
  function ParseMagnitude(u: string): Option<int>
  {
    var hex := |u| >= 2 && u[0] == '0' && (u[1] == 'x' || u[1] == 'X');
    var radix := if hex then 16 else 10;
    var digits := DigitRun(if hex then u[2..] else u, radix);
    if digits == [] then None else Some(DigitsValue(digits, radix))
  }

  /** `parseInt` applied to a value that may be `undefined`. */
  function ParseIntOpt(s: Option<string>): Option<int>
  {
    match s
    case None => None
    case Some(t) => ParseInt(t)
  }

  // ---------------------------------------------------------------------------
  // Number to decimal string

  function DecimalString(n: nat): (r: string)
    ensures |r| >= 1
    ensures forall i :: 0 <= i < |r| ==> '0' <= r[i] <= '9'
    ensures r[0] == '0' ==> n == 0 && r == "0"
  {
    if n < 10 then [('0' as int + n) as char]
    else DecimalString(n / 10) + [('0' as int + n % 10) as char]
  }

  /** Rendering a count and reading it back with parseInt gives the count. */
  lemma {:induction false} ParseDecimal(n: nat)
    ensures ParseInt(DecimalString(n)) == Some(n)
  {
    var s := DecimalString(n);
    assert !IsSpace(s[0]) && s[0] != '+' && s[0] != '-';
    assert TrimStart(s) == s;
    assert ParseInt(s) == ParseMagnitude(s);
    assert !(|s| >= 2 && s[0] == '0');
    DigitRunAll(s);
    DecimalValue(n);
  }

  lemma {:induction false} DigitRunAll(s: string)
    requires forall i :: 0 <= i < |s| ==> '0' <= s[i] <= '9'
    ensures DigitRun(s, 10) == s
    decreases |s|
  {
    if s != [] {
      DigitRunAll(s[1..]);
      assert s == [s[0]] + s[1..];
    }
  }

  lemma {:induction false} DecimalValue(n: nat)
    ensures DigitsValue(DecimalString(n), 10) == n
    decreases n
  {
    if n >= 10 {
      DecimalValue(n / 10);
      var s := DecimalString(n);
      assert s[..|s| - 1] == DecimalString(n / 10);
    }
  }

  // ---------------------------------------------------------------------------
  // [...new Set(xs)]: distinct values in order of first occurrence

  function UniqueInOrder<T(==,!new)>(xs: seq<T>): (r: seq<T>)
    ensures forall x :: x in r <==> x in xs
    ensures |r| <= |xs|
  {
    if xs == [] then []
    else
      var r := UniqueInOrder(xs[..|xs| - 1]);
      assert xs == xs[..|xs| - 1] + [xs[|xs| - 1]];
      if xs[|xs| - 1] in r then r else r + [xs[|xs| - 1]]
  }

  predicate NoDuplicates<T(==)>(xs: seq<T>)
  {
    forall i, j :: 0 <= i < j < |xs| ==> xs[i] != xs[j]
  }

  /** Index of the first occurrence of x in xs. */
  function FirstIndex<T(==)>(xs: seq<T>, x: T): (k: nat)
    requires x in xs
    ensures k < |xs| && xs[k] == x && x !in xs[..k]
  {
    if xs[0] == x then 0 else 1 + FirstIndex(xs[1..], x)
  }

  lemma {:induction false} FirstIndexOfPrefix<T>(xs: seq<T>, n: nat, x: T)
    requires n <= |xs| && x in xs[..n]
    ensures FirstIndex(xs, x) == FirstIndex(xs[..n], x)
  {
    var k := FirstIndex(xs[..n], x);
    assert xs[..n][..k] == xs[..k];
    FirstIndexUnique(xs, x, k);
  }

  lemma FirstIndexUnique<T>(xs: seq<T>, x: T, k: nat)
    requires k < |xs| && xs[k] == x && x !in xs[..k]
    ensures FirstIndex(xs, x) == k
  {
  }

  /** The values come out distinct and in the order in which each first appears. */
  lemma {:induction false} UniqueInOrderSpec<T(!new)>(xs: seq<T>)
    ensures NoDuplicates(UniqueInOrder(xs))
    ensures forall i, j :: 0 <= i < j < |UniqueInOrder(xs)| ==>
              FirstIndex(xs, UniqueInOrder(xs)[i]) < FirstIndex(xs, UniqueInOrder(xs)[j])
    decreases |xs|
  {
    if xs != [] {
      var p := xs[..|xs| - 1];
      var last := xs[|xs| - 1];
      UniqueInOrderSpec(p);
      var r := UniqueInOrder(p);
      forall x | x in r ensures FirstIndex(xs, x) == FirstIndex(p, x) {
        FirstIndexOfPrefix(xs, |xs| - 1, x);
      }
      if last !in r {
        FirstIndexUnique(xs, last, |xs| - 1);
        AppendedLastOrder(xs, r);
      }
    }
  }

  /** Appending the last element of xs, seen for the first time, to an ordered
      list of earlier values keeps it distinct and ordered. */
  lemma {:induction false} AppendedLastOrder<T>(xs: seq<T>, r: seq<T>)
    requires xs != [] && xs[|xs| - 1] !in r
    requires forall x :: x in r ==> x in xs && FirstIndex(xs, x) < |xs| - 1
    requires FirstIndex(xs, xs[|xs| - 1]) == |xs| - 1
    requires NoDuplicates(r)
    requires forall i, j :: 0 <= i < j < |r| ==> FirstIndex(xs, r[i]) < FirstIndex(xs, r[j])
    ensures NoDuplicates(r + [xs[|xs| - 1]])
    ensures var r' := r + [xs[|xs| - 1]];
            forall i, j :: 0 <= i < j < |r'| ==> FirstIndex(xs, r'[i]) < FirstIndex(xs, r'[j])
  {
    var last := xs[|xs| - 1];
    var r' := r + [last];
    forall i, j | 0 <= i < j < |r'| ensures FirstIndex(xs, r'[i]) < FirstIndex(xs, r'[j]) {
      if j == |r| {
        assert r'[i] in r;
      } else {
        assert r'[i] == r[i] && r'[j] == r[j];
      }
    }
  }
}
