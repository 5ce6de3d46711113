/** The Python built-ins the pipeline leans on (`str.strip`, `str.find`,
    `str.split`, `str.splitlines`, `str.join`, `str.replace`, `str.lower`,
    `sorted`, list slicing `xs[-n:]`), restated as total functions on
    `seq<char>` together with the facts the rest of the model uses. */
module Py {
  import opened Wrappers

  /** The characters for which Python's `str.isspace()` holds. */
  predicate IsSpace(c: char) {
    c == ' ' || '\t' <= c <= '\r' || '\U{1C}' <= c <= '\U{1F}' || c == '\U{85}' || c == '\U{A0}' ||
    c == '\U{1680}' || '\U{2000}' <= c <= '\U{200A}' || c == '\U{2028}' || c == '\U{2029}' ||
    c == '\U{202F}' || c == '\U{205F}' || c == '\U{3000}'
  }

  /** The characters JavaScript's `String.prototype.trim` removes. */
  predicate IsJsSpace(c: char) {
    c == ' ' || '\t' <= c <= '\r' || c == '\U{A0}' || c == '\U{1680}' || '\U{2000}' <= c <= '\U{200A}' ||
    c == '\U{2028}' || c == '\U{2029}' || c == '\U{202F}' || c == '\U{205F}' || c == '\U{3000}' ||
    c == '\U{FEFF}'
  }

  /** The line boundaries recognised by Python's `str.splitlines()`. */
  predicate IsLineBreak(c: char) {
    '\n' <= c <= '\r' || '\U{1C}' <= c <= '\U{1E}' || c == '\U{85}' || c == '\U{2028}' || c == '\U{2029}'
  }

  /** A set of characters to strip or to search for. */
  datatype CharClass = Space | JsSpace | LineBreak | Chars(cs: set<char>)

  predicate In(c: char, k: CharClass) {
    match k
    case Space => IsSpace(c)
    case JsSpace => IsJsSpace(c)
    case LineBreak => IsLineBreak(c)
    case Chars(cs) => c in cs
  }

  predicate StartsWith(s: string, p: string) {
    |p| <= |s| && s[..|p|] == p
  }

  predicate EndsWith(s: string, p: string) {
    |p| <= |s| && s[|s| - |p|..] == p
  }

  /** `p` occurs in `s` starting at index `j`. */
  predicate OccursAt(s: string, p: string, j: nat) {
    j + |p| <= |s| && s[j..j + |p|] == p
  }

  /** `s.find(p, from)`: the first index at or after `from` where `p` occurs. */
  function FindFrom(s: string, p: string, from: nat): (r: Option<nat>)
    requires from <= |s|
    ensures r.Some? ==> from <= r.value <= |s| && OccursAt(s, p, r.value)
    ensures r.Some? ==> forall j :: from <= j < r.value ==> !OccursAt(s, p, j)
    ensures r.None? ==> forall j :: from <= j <= |s| ==> !OccursAt(s, p, j)
    decreases |s| - from
  {
    if OccursAt(s, p, from) then Some(from)
    else if from == |s| then None
    else FindFrom(s, p, from + 1)
  }

  function Find(s: string, p: string): Option<nat> {
    FindFrom(s, p, 0)
  }

  /** Python's `p in s` for strings. */
  predicate Contains(s: string, p: string) {
    Find(s, p).Some?
  }

  /** An occurrence inside a suffix is an occurrence of the whole string. */
  lemma OccursInSuffix(s: string, p: string, i: nat, j: nat)
    requires i <= j && OccursAt(s, p, j)
    ensures Contains(s[i..], p)
  {
    assert s[i..][j - i..j - i + |p|] == s[j..j + |p|];
    assert OccursAt(s[i..], p, j - i);
  }

  /** The first index at or after `from` holding a character of `cs`. */
  function FindAnyFrom(s: string, k: CharClass, from: nat): (r: Option<nat>)
    requires from <= |s|
    ensures r.Some? ==> from <= r.value < |s| && In(s[r.value], k)
    ensures r.Some? ==> forall j :: from <= j < r.value ==> !In(s[j], k)
    ensures r.None? ==> forall j :: from <= j < |s| ==> !In(s[j], k)
    decreases |s| - from
  {
    if from == |s| then None
    else if In(s[from], k) then Some(from)
    else FindAnyFrom(s, k, from + 1)
  }

  /** `s.rfind(c)` for a one-character needle. */
  function RFindChar(s: string, c: char): (r: Option<nat>)
    ensures r.Some? ==> r.value < |s| && s[r.value] == c
    ensures r.Some? ==> forall j :: r.value < j < |s| ==> s[j] != c
    ensures r.None? ==> forall j :: 0 <= j < |s| ==> s[j] != c
  {
    if s == [] then None
    else if s[|s| - 1] == c then Some(|s| - 1)
    else RFindChar(s[..|s| - 1], c)
  }

  /** `s.lstrip(chars)`. */
  function LStrip(s: string, k: CharClass): (r: string)
    ensures |r| <= |s| && r == s[|s| - |r|..]
    ensures forall i :: 0 <= i < |s| - |r| ==> In(s[i], k)
    ensures r != [] ==> !In(r[0], k)
  {
    if s != [] && In(s[0], k) then LStrip(s[1..], k) else s
  }

  /** `s.rstrip(chars)`. */
  function RStrip(s: string, k: CharClass): (r: string)
    ensures |r| <= |s| && r == s[..|r|]
    ensures forall i :: |r| <= i < |s| ==> In(s[i], k)
    ensures r != [] ==> !In(r[|r| - 1], k)
  {
    if s != [] && In(s[|s| - 1], k) then RStrip(s[..|s| - 1], k) else s
  }

  /** `s.strip(chars)`: the longest middle part whose two ends lie outside
      the class; `s.strip()` for the class `Space`. */
  function StripClass(s: string, k: CharClass): (r: string)
    ensures |r| <= |s|
    ensures r != [] ==> !In(r[0], k) && !In(r[|r| - 1], k)
    ensures r == [] <==> forall i :: 0 <= i < |s| ==> In(s[i], k)
  {
    var l := LStrip(s, k);
    var r := RStrip(l, k);
    assert r != [] ==> r[0] == l[0];
    StrippedAway(s, k);
    r
  }

  /** Both strips together leave nothing exactly when every character is
      in the class. */
  lemma StrippedAway(s: string, k: CharClass)
    ensures RStrip(LStrip(s, k), k) == [] <==> forall i :: 0 <= i < |s| ==> In(s[i], k)
  {
    var l := LStrip(s, k);
    if RStrip(l, k) == [] {
      forall i | 0 <= i < |s|
        ensures In(s[i], k)
      {
        if i >= |s| - |l| {
          assert s[i] == l[i - (|s| - |l|)];
        }
      }
    } else {
      assert s[|s| - |l|] == l[0];
    }
  }

  /** Stripping leaves a prefix in place when neither of its end characters
      is stripped. */
  lemma StripKeepsPrefix(s: string, p: string, k: CharClass)
    requires StartsWith(s, p) && p != [] && !In(p[0], k) && !In(p[|p| - 1], k)
    ensures StartsWith(StripClass(s, k), p)
  {
    assert s[0] == p[0] && s[|p| - 1] == p[|p| - 1];
    assert LStrip(s, k) == s;
    var r := RStrip(s, k);
    assert |r| >= |p| by {
      assert !In(s[|p| - 1], k);
    }
    assert r[..|p|] == s[..|p|];
  }

  /** `s.strip()`. */
  function Strip(s: string): string {
    StripClass(s, Space)
  }

  /** An optional string as an f-string renders it. */
  function Rendered(o: Option<string>): string {
    if o.Some? then o.value else "None"
  }

  /** Python's falsiness test `not s.strip()`. */
  predicate IsBlank(s: string) {
    Strip(s) == []
  }

  /** `if line.strip()` */
  predicate NotBlank(s: string) {
    !IsBlank(s)
  }

  function LowerChar(c: char): char {
    if 'A' <= c <= 'Z' then (c as int + 32) as char else c
  }

  /** `s.lower()` on the ASCII letters. */
  function Lower(s: string): (r: string)
    ensures |r| == |s|
    ensures forall i :: 0 <= i < |s| ==> r[i] == LowerChar(s[i])
  {
    seq(|s|, i requires 0 <= i < |s| => LowerChar(s[i]))
  }

  /** The list comprehension `[f(x) for x in xs if keep(x)]`. */
  function MapWhere<T, U>(xs: seq<T>, keep: T -> bool, f: T -> U): (r: seq<U>)
    ensures |r| <= |xs|
    ensures (forall i :: 0 <= i < |xs| ==> keep(xs[i])) ==>
      (|r| == |xs| && forall i :: 0 <= i < |r| ==> r[i] == f(xs[i]))
    ensures (forall i :: 0 <= i < |xs| ==> !keep(xs[i])) ==> r == []
  {
    if xs == [] then []
    else
      var rest := MapWhere(xs[1..], keep, f);
      assert forall i :: 0 <= i < |xs| - 1 ==> xs[1..][i] == xs[i + 1];
      if keep(xs[0]) then [f(xs[0])] + rest else rest
  }

  /** What holds of every `f(x)` holds of every item of the comprehension. */
  lemma {:induction false} MapWhereAll<T, U>(xs: seq<T>, keep: T -> bool, f: T -> U, post: U -> bool)
    requires forall x :: keep(x) ==> post(f(x))
    ensures forall i :: 0 <= i < |MapWhere(xs, keep, f)| ==> post(MapWhere(xs, keep, f)[i])
  {
    if xs != [] {
      MapWhereAll(xs[1..], keep, f, post);
    }
  }

  /** `sep.join(xs)`. */
  function Join(xs: seq<string>, sep: string): string {
    if |xs| == 0 then ""
    else if |xs| == 1 then xs[0]
    else xs[0] + sep + Join(xs[1..], sep)
  }

  /** `s.split(sep)` for a non-empty separator: the pieces between the
      non-overlapping occurrences of `sep`, found from left to right. */
  function Split(s: string, sep: string): (r: seq<string>)
    requires sep != []
    ensures |r| >= 1
    decreases |s|
  {
    match FindFrom(s, sep, 0)
    case None => [s]
    case Some(i) =>
      assert i + |sep| <= |s|;
      [s[..i]] + Split(s[i + |sep|..], sep)
  }

  /** Joining the pieces of a split with the same separator gives back the text. */
  lemma JoinCons(a: string, tail: seq<string>, sep: string)
    requires |tail| >= 1
    ensures Join([a] + tail, sep) == a + sep + Join(tail, sep)
  {
    assert ([a] + tail)[1..] == tail;
  }

  lemma ThreeParts(s: string, i: nat, k: nat)
    requires i <= k <= |s|
    ensures s == s[..i] + s[i..k] + s[k..]
  {
    assert s[..i] + s[i..k] == s[..k];
  }

  lemma {:induction false} JoinSplit(s: string, sep: string)
    requires sep != []
    ensures Join(Split(s, sep), sep) == s
    decreases |s|
  {
    match FindFrom(s, sep, 0)
    case None =>
    case Some(i) =>
      JoinSplit(s[i + |sep|..], sep);
      Rejoin(s, sep, i);
  }

  /** Where the first separator is at `i` and the text after it splits
      and joins back to itself, so does the whole text. */
  lemma Rejoin(s: string, sep: string, i: nat)
    requires sep != [] && FindFrom(s, sep, 0) == Some(i)
    requires Join(Split(s[i + |sep|..], sep), sep) == s[i + |sep|..]
    ensures Join(Split(s, sep), sep) == s
  {
    var tail := Split(s[i + |sep|..], sep);
    assert Split(s, sep) == [s[..i]] + tail;
    JoinCons(s[..i], tail, sep);
    assert OccursAt(s, sep, i);
    ThreeParts(s, i, i + |sep|);
  }

  /** `s.replace(old, new)`: every non-overlapping occurrence, left to right. */
  function ReplaceAll(s: string, target: string, replacement: string): string
    requires target != []
  {
    Join(Split(s, target), replacement)
  }

  /** `s.splitlines()`: lines without their boundaries; "\r\n" is one boundary
      and a final boundary does not start an empty line. */
  function SplitLines(s: string): (r: seq<string>)
    ensures s == [] <==> r == []
    ensures forall k, j :: 0 <= k < |r| && 0 <= j < |r[k]| ==> !IsLineBreak(r[k][j])
    decreases |s|
  {
    if s == [] then []
    else
      match FindAnyFrom(s, LineBreak, 0)
      case None => [s]
      case Some(i) =>
        var w := if s[i] == '\r' && i + 1 < |s| && s[i + 1] == '\n' then 2 else 1;
        [s[..i]] + SplitLines(s[i + w..])
  }

  function DigitChar(d: nat): char
    requires d < 10
  {
    ('0' as int + d) as char
  }

  predicate IsDigit(c: char) {
    '0' <= c <= '9'
  }

  predicate AllDigits(s: string) {
    forall i :: 0 <= i < |s| ==> IsDigit(s[i])
  }

  /** `str(n)` for a natural number. */
  function NatToString(n: nat): (r: string)
    ensures |r| >= 1 && AllDigits(r)
    ensures |r| > 1 ==> r[0] != '0'
    decreases n
  {
    if n < 10 then [DigitChar(n)] else NatToString(n / 10) + [DigitChar(n % 10)]
  }

  /** `str(n)` for an integer. */
  function IntToString(n: int): string {
    if n < 0 then "-" + NatToString(-n) else NatToString(n)
  }

  /** `int(s)` for a string of decimal digits. */
  function DigitsValue(s: string): nat
    requires AllDigits(s)
  {
    if s == [] then 0 else DigitsValue(s[..|s| - 1]) * 10 + (s[|s| - 1] as int - '0' as int)
  }

  /** `int(str(n)) == n`. */
  lemma {:induction false} DigitsValueOfNatToString(n: nat)
    ensures DigitsValue(NatToString(n)) == n
    decreases n
  {
    if n >= 10 {
      DigitsValueOfNatToString(n / 10);
      var s := NatToString(n);
      assert s[..|s| - 1] == NatToString(n / 10);
    }
  }

  /** Python's `xs[-n:]`: the last `n` items for `0 < n`, the whole list for
      `n == 0` (since `-0 == 0`) or `n` past the length, and for a negative `n`
      the list without its first `-n` items. */
  function Window<T>(xs: seq<T>, n: int): (r: seq<T>)
    ensures |r| <= |xs| && r == xs[|xs| - |r|..]
    ensures n == 0 || n >= |xs| ==> r == xs
    ensures 0 < n <= |xs| ==> |r| == n
    ensures n < 0 ==> |r| == if -n >= |xs| then 0 else |xs| + n
  {
    if n == 0 then xs
    else if n > 0 then (if n >= |xs| then xs else xs[|xs| - n..])
    else (if -n >= |xs| then [] else xs[-n..])
  }

  /** The order Python's `sorted` uses on strings: code point by code point,
      a proper prefix first. */
  predicate LexLess(a: string, b: string)
    decreases |a|
  {
    |b| > 0 && (|a| == 0 || a[0] < b[0] || (a[0] == b[0] && LexLess(a[1..], b[1..])))
  }

  lemma {:induction false} LexLessIrreflexive(a: string)
    ensures !LexLess(a, a)
    decreases |a|
  {
    if |a| > 0 {
      LexLessIrreflexive(a[1..]);
    }
  }

  lemma {:induction false} LexLessTransitive(a: string, b: string, c: string)
    requires LexLess(a, b) && LexLess(b, c)
    ensures LexLess(a, c)
    decreases |a|
  {
    if |a| > 0 && a[0] == b[0] && b[0] == c[0] {
      LexLessTransitive(a[1..], b[1..], c[1..]);
    }
  }

  lemma {:induction false} LexLessTotal(a: string, b: string)
    requires a != b
    ensures LexLess(a, b) || LexLess(b, a)
    decreases |a|
  {
    if |a| > 0 && |b| > 0 && a[0] == b[0] {
      assert a == [a[0]] + a[1..] && b == [b[0]] + b[1..];
      LexLessTotal(a[1..], b[1..]);
    }
  }

  predicate StrictlySorted(xs: seq<string>) {
    forall i, j :: 0 <= i < j < |xs| ==> LexLess(xs[i], xs[j])
  }

  function Elements(xs: seq<string>): set<string> {
    set x | x in xs
  }

  /** Inserts `x` into a strictly sorted list unless it is already there. */
  function InsertSorted(x: string, xs: seq<string>): (r: seq<string>)
    requires StrictlySorted(xs)
    ensures StrictlySorted(r)
    ensures Elements(r) == Elements(xs) + {x}
  {
    if xs == [] then [x]
    else if x == xs[0] then xs
    else if LexLess(x, xs[0]) then
      assert forall j :: 0 <= j < |xs| ==> LexLess(x, xs[j]) by {
        forall j | 0 < j < |xs| {
          LexLessTransitive(x, xs[0], xs[j]);
        }
      }
      [x] + xs
    else
      LexLessTotal(x, xs[0]);
      var rest := InsertSorted(x, xs[1..]);
      assert Elements(xs) == {xs[0]} + Elements(xs[1..]);
      assert forall y :: y in rest ==> LexLess(xs[0], y) by {
        forall y | y in rest
          ensures LexLess(xs[0], y)
        {
          assert y in Elements(rest);
          if y != x {
            assert y in Elements(xs[1..]);
            var j :| 0 <= j < |xs[1..]| && xs[1..][j] == y;
            assert xs[j + 1] == y;
          }
        }
      }
      assert Elements([xs[0]] + rest) == {xs[0]} + Elements(rest);
      [xs[0]] + rest
  }

  /** `sorted(set(xs))`: the distinct items of `xs` in ascending order. */
  function SortedUnique(xs: seq<string>): (r: seq<string>)
    ensures StrictlySorted(r)
    ensures Elements(r) == Elements(xs)
  {
    if xs == [] then []
    else
      var r := InsertSorted(xs[|xs| - 1], SortedUnique(xs[..|xs| - 1]));
      assert Elements(xs) == Elements(xs[..|xs| - 1]) + {xs[|xs| - 1]} by {
        assert xs == xs[..|xs| - 1] + [xs[|xs| - 1]];
      }
      r
  }

  /** A strictly sorted list never holds the same item twice. */
  lemma StrictlySortedDistinct(xs: seq<string>, i: nat, j: nat)
    requires StrictlySorted(xs) && i < j < |xs|
    ensures xs[i] != xs[j]
  {
    LexLessIrreflexive(xs[i]);
  }

  /** A strictly sorted list is determined by its items: this is why
      `sorted(set(...))` has exactly one result. */
  lemma {:induction false} StrictlySortedUnique(a: seq<string>, b: seq<string>)
    requires StrictlySorted(a) && StrictlySorted(b) && Elements(a) == Elements(b)
    ensures a == b
    decreases |a|
  {
    assert |a| == 0 || a[0] in Elements(a);
    assert |b| == 0 || b[0] in Elements(b);
    if a != [] && b != [] {
      var i :| 0 <= i < |a| && a[i] == b[0];
      var j :| 0 <= j < |b| && b[j] == a[0];
      if i > 0 && j > 0 {
        LexLessTransitive(a[0], b[0], a[0]);
        LexLessIrreflexive(a[0]);
        assert false;
      }
      assert a[0] == b[0];
      assert Elements(a[1..]) == Elements(b[1..]) by {
        forall x | x in Elements(a[1..])
          ensures x in Elements(b[1..])
        {
          var k :| 0 <= k < |a[1..]| && a[1..][k] == x;
          StrictlySortedDistinct(a, 0, k + 1);
          assert a[k + 1] == x && x in Elements(a);
          var m :| 0 <= m < |b| && b[m] == x;
          assert m != 0;
          assert b[1..][m - 1] == x;
        }
        forall x | x in Elements(b[1..])
          ensures x in Elements(a[1..])
        {
          var k :| 0 <= k < |b[1..]| && b[1..][k] == x;
          StrictlySortedDistinct(b, 0, k + 1);
          assert b[k + 1] == x && x in Elements(b);
          var m :| 0 <= m < |a| && a[m] == x;
          assert m != 0;
          assert a[1..][m - 1] == x;
        }
      }
      StrictlySortedUnique(a[1..], b[1..]);
      assert a == [a[0]] + a[1..] && b == [b[0]] + b[1..];
    }
  }

  /** The first index at or after `from` whose item satisfies `p`. */
  function FirstWhereFrom<T>(xs: seq<T>, p: T -> bool, from: nat): (r: Option<nat>)
    requires from <= |xs|
    ensures r.Some? ==> from <= r.value < |xs| && p(xs[r.value])
    ensures r.Some? ==> forall j :: from <= j < r.value ==> !p(xs[j])
    ensures r.None? ==> forall j :: from <= j < |xs| ==> !p(xs[j])
    decreases |xs| - from
  {
    if from == |xs| then None
    else if p(xs[from]) then Some(from)
    else FirstWhereFrom(xs, p, from + 1)
  }

  /** The first index whose item satisfies `p`: a `for` loop with `break`,
      or `next(...)` over a generator. */
  function FirstWhere<T>(xs: seq<T>, p: T -> bool): Option<nat> {
    FirstWhereFrom(xs, p, 0)
  }

  /** The search from `i` stops at `i` when the item there satisfies `p`
      and otherwise goes on from `i + 1`. */
  lemma FirstWhereStep<T>(xs: seq<T>, p: T -> bool, i: nat)
    requires i < |xs|
    ensures p(xs[i]) ==> FirstWhereFrom(xs, p, i) == Some(i)
    ensures !p(xs[i]) ==> FirstWhereFrom(xs, p, i) == FirstWhereFrom(xs, p, i + 1)
  {
  }

  /** The last index whose item satisfies `p`: the item a loop that keeps
      overwriting a variable ends with. */
  function LastWhere<T>(xs: seq<T>, p: T -> bool): (r: Option<nat>)
    ensures r.Some? ==> r.value < |xs| && p(xs[r.value])
    ensures r.Some? ==> forall j :: r.value < j < |xs| ==> !p(xs[j])
    ensures r.None? ==> forall j :: 0 <= j < |xs| ==> !p(xs[j])
  {
    if xs == [] then None
    else if p(xs[|xs| - 1]) then Some(|xs| - 1)
    else LastWhere(xs[..|xs| - 1], p)
  }

  /** An occurrence anywhere makes `p in s` hold. */
  lemma OccursContains(s: string, p: string, j: nat)
    requires OccursAt(s, p, j)
    ensures Contains(s, p)
  {
  }

  /** Text found in a prefix is found in the whole. */
  lemma PrefixContains(t: string, p: string, q: string)
    requires StartsWith(t, p) && Contains(p, q)
    ensures Contains(t, q)
  {
    var j := Find(p, q).value;
    assert OccursAt(p, q, j);
    assert t[j..j + |q|] == q by {
      forall i | 0 <= i < |q|
        ensures t[j + i] == q[i]
      {
        assert p[j + i] == q[i];
        assert t[..|p|][j + i] == t[j + i];
      }
    }
    OccursContains(t, q, j);
  }

  /** Text found in a suffix is found in the whole. */
  lemma SuffixContains(s: string, a: nat, q: string)
    requires a <= |s| && Contains(s[a..], q)
    ensures Contains(s, q)
  {
    var j := Find(s[a..], q).value;
    assert OccursAt(s[a..], q, j);
    assert s[a + j..a + j + |q|] == s[a..][j..j + |q|];
    OccursContains(s, q, a + j);
  }

  /** Text found in a stripped string is found in the string itself. */
  lemma ContainsThroughStrip(s: string, q: string, k: CharClass)
    requires Contains(StripClass(s, k), q)
    ensures Contains(s, q)
  {
    var a := StripStart(s, k);
    PrefixContains(s[a..], StripClass(s, k), q);
    SuffixContains(s, a, q);
  }

  /** Where the stripped text begins: it is a prefix of what follows. */
  function StripStart(s: string, k: CharClass): (a: nat)
    ensures a <= |s| && StartsWith(s[a..], StripClass(s, k))
  {
    var l := LStrip(s, k);
    assert l == s[|s| - |l|..];
    assert StartsWith(l, RStrip(l, k));
    |s| - |l|
  }

  /** `s.split(sep, 1)[1]`, defined when `sep` occurs in `s`: what follows
      the first occurrence. */
  function AfterFirst(s: string, sep: string): (r: string)
    requires Contains(s, sep)
    ensures |r| + |sep| <= |s| && EndsWith(s, r)
  {
    s[Find(s, sep).value + |sep|..]
  }

  /** Stripping leaves alone a text with no class character at either end. */
  lemma StripTrimmed(s: string, k: CharClass)
    requires s == [] || (!In(s[0], k) && !In(s[|s| - 1], k))
    ensures StripClass(s, k) == s
  {
    assert LStrip(s, k) == s;
    assert RStrip(s, k) == s;
  }

  /** Characters of the class in front of a text are stripped with the
      text's own. */
  lemma {:induction false} LStripLeading(lead: string, s: string, k: CharClass)
    requires LStrip(lead, k) == []
    ensures LStrip(lead + s, k) == LStrip(s, k)
    decreases |lead|
  {
    var t := lead + s;
    if lead == [] {
      assert t == s;
    } else {
      assert In(lead[0], k) && LStrip(lead[1..], k) == [] by {
        assert lead != LStrip(lead, k);
      }
      assert t[1..] == lead[1..] + s;
      assert LStrip(t, k) == LStrip(t[1..], k) by {
        assert t[0] == lead[0];
      }
      LStripLeading(lead[1..], s, k);
    }
  }

  lemma StripLeading(lead: string, s: string, k: CharClass)
    requires LStrip(lead, k) == []
    ensures StripClass(lead + s, k) == StripClass(s, k)
  {
    LStripLeading(lead, s, k);
  }

  /** One space in front of a text with no white space at either end is
      all that `strip()` removes. */
  lemma StripSpaced(s: string)
    requires s != [] && !IsSpace(s[0]) && !IsSpace(s[|s| - 1])
    ensures Strip(" " + s) == s
  {
    assert LStrip(" ", Space) == [] by {
      assert " "[1..] == [];
    }
    StripLeading(" ", s, Space);
    StripTrimmed(s, Space);
  }

  /** Characters of the class behind a text are stripped with the text's
      own. */
  lemma {:induction false} RStripTrailing(s: string, trail: string, k: CharClass)
    requires RStrip(trail, k) == []
    ensures RStrip(s + trail, k) == RStrip(s, k)
    decreases |trail|
  {
    if trail != [] {
      var n := |trail|;
      assert In(trail[n - 1], k) && RStrip(trail[..n - 1], k) == [] by {
        assert trail != RStrip(trail, k);
      }
      InitOfAppend(s, trail);
      RStripTrailing(s, trail[..n - 1], k);
    } else {
      assert s + trail == s;
    }
  }

  lemma InitOfAppend(s: string, trail: string)
    requires trail != []
    ensures (s + trail)[..|s + trail| - 1] == s + trail[..|trail| - 1]
    ensures (s + trail)[|s + trail| - 1] == trail[|trail| - 1]
  {
  }

  /** A one-character needle is found at its first occurrence. */
  lemma FindFirstChar(s: string, c: char, i: nat)
    requires i < |s| && s[i] == c
    requires forall j :: 0 <= j < i ==> s[j] != c
    ensures Find(s, [c]) == Some(i)
  {
    assert OccursAt(s, [c], i);
    var r := Find(s, [c]);
    assert r.Some? && r.value <= i;
    assert s[r.value] == s[r.value..r.value + 1][0];
  }

  /** A one-character needle that does not occur is not found. */
  lemma FindNoChar(s: string, c: char)
    requires forall j :: 0 <= j < |s| ==> s[j] != c
    ensures Find(s, [c]) == None
  {
    forall j | 0 <= j <= |s|
      ensures !OccursAt(s, [c], j)
    {
      assert j < |s| ==> s[j..j + 1][0] == s[j];
    }
  }

  /** Splitting at the first occurrence of a one-character separator. */
  lemma SplitAtChar(s: string, c: char, i: nat)
    requires i < |s| && s[i] == c
    requires forall j :: 0 <= j < i ==> s[j] != c
    ensures Split(s, [c]) == [s[..i]] + Split(s[i + 1..], [c])
  {
    FindFirstChar(s, c, i);
  }

  /** A piece free of the separator, then the separator: the piece is the
      first part. */
  lemma SplitAfterHead(head: string, c: char, rest: string)
    requires forall j :: 0 <= j < |head| ==> head[j] != c
    ensures Split(head + [c] + rest, [c]) == [head] + Split(rest, [c])
  {
    var s := head + [c] + rest;
    assert forall j :: 0 <= j < |head| ==> s[j] == head[j];
    SplitAtChar(s, c, |head|);
    assert s[..|head|] == head;
    assert s[|head| + 1..] == rest;
  }

  /** A text without the separator splits into itself. */
  lemma SplitNoChar(s: string, c: char)
    requires forall j :: 0 <= j < |s| ==> s[j] != c
    ensures Split(s, [c]) == [s]
  {
    FindNoChar(s, c);
  }

  /** The first and last characters of a join of non-empty items. */
  lemma {:induction false} JoinEnds(xs: seq<string>, sep: string)
    requires xs != [] && forall i :: 0 <= i < |xs| ==> xs[i] != []
    ensures |Join(xs, sep)| > 0
    ensures Join(xs, sep)[0] == xs[0][0]
    ensures Join(xs, sep)[|Join(xs, sep)| - 1] == xs[|xs| - 1][|xs[|xs| - 1]| - 1]
    decreases |xs|
  {
    if |xs| > 1 {
      var tail := xs[1..];
      JoinEnds(tail, sep);
      var rest := Join(tail, sep);
      var j := Join(xs, sep);
      assert j == xs[0] + sep + rest;
      assert tail[|tail| - 1] == xs[|xs| - 1];
      assert j[0] == xs[0][0];
      assert j[|j| - 1] == rest[|rest| - 1];
    }
  }

  /** A character absent from the items and the separator is absent from
      the join. */
  lemma {:induction false} JoinFree(xs: seq<string>, sep: string, c: char)
    requires forall i :: 0 <= i < |xs| ==> c !in xs[i]
    requires c !in sep
    ensures c !in Join(xs, sep)
    decreases |xs|
  {
    if |xs| > 1 {
      JoinFree(xs[1..], sep, c);
      assert xs[0] + sep + Join(xs[1..], sep) == Join(xs, sep);
    }
  }

  /** Splitting at a one-character separator undoes joining with it, when
      no item holds the separator. */
  lemma {:induction false} SplitJoinChar(xs: seq<string>, c: char)
    requires xs != [] && forall i :: 0 <= i < |xs| ==> c !in xs[i]
    ensures Split(Join(xs, [c]), [c]) == xs
    decreases |xs|
  {
    if |xs| == 1 {
      SplitNoChar(xs[0], c);
    } else {
      var rest := Join(xs[1..], [c]);
      SplitJoinChar(xs[1..], c);
      assert Join(xs, [c]) == xs[0] + [c] + rest;
      SplitAfterHead(xs[0], c, rest);
      assert xs == [xs[0]] + xs[1..];
    }
  }

  /** Lower-casing works character by character. */
  lemma LowerConcat(a: string, b: string)
    ensures Lower(a + b) == Lower(a) + Lower(b)
  {
  }

  /** Lower-casing twice is lower-casing once. */
  lemma LowerIdempotent(s: string)
    ensures Lower(Lower(s)) == Lower(s)
  {
  }
}
