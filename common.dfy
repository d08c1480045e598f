/** Shared vocabulary of the track-hub model: failure-carrying results,
    the handful of Python string operations the generators rely on, the
    Python 2 ordering used as a sort key, the stable `list.sort` and
    `itertools.groupby`. */
module Common {

  datatype Option<T> = None | Some(value: T)

  /** A computation that either produces a value or raises (the message
      stands for the Python exception). */
  datatype Result<T> = Ok(value: T) | Err(msg: string)

  // ---------------------------------------------------------------------
  // Strings
  // ---------------------------------------------------------------------

  predicate StartsWith(s: string, p: string) {
    |p| <= |s| && s[..|p|] == p
  }

  /** Python `s.endswith(p)`. */
  predicate EndsWith(s: string, p: string) {
    |p| <= |s| && s[|s| - |p|..] == p
  }

  /** Python `sub in s`. */
  predicate Contains(s: string, sub: string)
    decreases |s|
  {
    StartsWith(s, sub) || (|s| > 0 && Contains(s[1..], sub))
  }

  lemma {:induction false} ContainsAppend(s: string, sub: string, t: string)
    requires Contains(s, sub)
    ensures Contains(s + t, sub)
    decreases |s|
  {
    if StartsWith(s, sub) {
      assert (s + t)[..|sub|] == s[..|sub|];
    } else {
      ContainsAppend(s[1..], sub, t);
      assert (s + t)[1..] == s[1..] + t;
    }
  }

  lemma EndsWithAppend(s: string, p: string)
    ensures EndsWith(s + p, p)
  {
    assert (s + p)[|s + p| - |p|..] == p;
  }

  lemma EndsWithTrans(s: string, t: string, p: string)
    requires EndsWith(s, t) && EndsWith(t, p)
    ensures EndsWith(s, p)
  {
    assert s[|s| - |p|..] == s[|s| - |t|..][|t| - |p|..];
  }

  /** Python `s[:n]` for a non-negative `n`. */
  function Take(s: string, n: nat): (r: string)
    ensures |r| == if n <= |s| then n else |s|
    ensures r <= s
  {
    if n <= |s| then s[..n] else s
  }

  /** Python `sep.join(parts)`. */
  function Join(sep: string, parts: seq<string>): string
  {
    if |parts| == 0 then ""
    else if |parts| == 1 then parts[0]
    else Join(sep, parts[..|parts| - 1]) + sep + parts[|parts| - 1]
  }

  /** A joined string starts with the first part and ends with the last. */
  lemma {:induction false} JoinEnds(sep: string, parts: seq<string>)
    requires parts != []
    ensures StartsWith(Join(sep, parts), parts[0])
    ensures EndsWith(Join(sep, parts), parts[|parts| - 1])
    decreases |parts|
  {
    var j := Join(sep, parts);
    var last := parts[|parts| - 1];
    if |parts| > 1 {
      var init := parts[..|parts| - 1];
      JoinEnds(sep, init);
      var ji := Join(sep, init);
      assert j == ji + sep + last;
      assert j[..|parts[0]|] == ji[..|parts[0]|];
      assert j[|j| - |last|..] == last;
    }
  }

  /** Writing each element in turn, as `f.write` in a loop does. */
  function Concat(parts: seq<string>): string
  {
    if parts == [] then "" else Concat(parts[..|parts| - 1]) + parts[|parts| - 1]
  }

  lemma {:induction false} ConcatAppend(a: seq<string>, b: seq<string>)
    ensures Concat(a + b) == Concat(a) + Concat(b)
    decreases |b|
  {
    if b == [] {
      assert a + b == a;
    } else {
      ConcatAppend(a, b[..|b| - 1]);
      assert (a + b)[..|a + b| - 1] == a + b[..|b| - 1];
    }
  }

  lemma AppendAssoc<T>(a: seq<T>, b: seq<T>, c: seq<T>)
    ensures (a + b) + c == a + (b + c)
  {
  }

  /** The sequences `f` gives for the elements, one after another. */
  function FlatMap<T, U>(f: T -> seq<U>, s: seq<T>): seq<U>
  {
    if s == [] then [] else FlatMap(f, s[..|s| - 1]) + f(s[|s| - 1])
  }

  lemma {:induction false} FlatMapAppend<T, U>(f: T -> seq<U>, a: seq<T>, b: seq<T>)
    ensures FlatMap(f, a + b) == FlatMap(f, a) + FlatMap(f, b)
    decreases |b|
  {
    if b == [] {
      assert a + b == a;
    } else {
      FlatMapAppend(f, a, b[..|b| - 1]);
      assert (a + b)[..|a + b| - 1] == a + b[..|b| - 1];
    }
  }

  lemma FlatMapSingle<T, U>(f: T -> seq<U>, x: T)
    ensures FlatMap(f, [x]) == f(x)
  {
    assert [x][..0] == [];
  }

  lemma FlatMapAround<T, U>(f: T -> seq<U>, a: seq<T>, x: T, b: seq<T>)
    ensures FlatMap(f, a + ([x] + b)) == FlatMap(f, a) + (f(x) + FlatMap(f, b))
  {
    FlatMapAppend(f, a, [x] + b);
    FlatMapAppend(f, [x], b);
    FlatMapSingle(f, x);
  }

  /** `[f(x) for x in s]`. */
  function MapSeq<T, U>(f: T -> U, s: seq<T>): (r: seq<U>)
    ensures |r| == |s| && forall i :: 0 <= i < |s| ==> r[i] == f(s[i])
  {
    seq(|s|, i requires 0 <= i < |s| => f(s[i]))
  }

  lemma MapSeqSnoc<T, U>(f: T -> U, s: seq<T>, x: T)
    ensures MapSeq(f, s + [x]) == MapSeq(f, s) + [f(x)]
  {
    assert forall i :: 0 <= i < |s| ==> (s + [x])[i] == s[i];
  }

  /** One more pass of a loop building `[f(x) for x in s]`. */
  lemma MapSeqStep<T, U>(f: T -> U, s: seq<T>, i: nat)
    requires i < |s|
    ensures MapSeq(f, s[..i + 1]) == MapSeq(f, s[..i]) + [f(s[i])]
  {
    assert s[..i + 1] == s[..i] + [s[i]];
    MapSeqSnoc(f, s[..i], s[i]);
  }

  /** A list comprehension whose element expression may raise: the
      results in order, or the first failure. */
  function MapResult<T, U>(f: T -> Result<U>, s: seq<T>): (r: Result<seq<U>>)
    ensures r.Ok? <==> forall i :: 0 <= i < |s| ==> f(s[i]).Ok?
    ensures r.Ok? ==> |r.value| == |s| && forall i :: 0 <= i < |s| ==> f(s[i]) == Ok(r.value[i])
    decreases |s|
  {
    if s == [] then Ok([])
    else
      var init, last := s[..|s| - 1], s[|s| - 1];
      assert forall i :: 0 <= i < |init| ==> init[i] == s[i];
      var prev := MapResult(f, init);
      var y := f(last);
      if prev.Err? then Err(prev.msg)
      else if y.Err? then Err(y.msg)
      else Ok(prev.value + [y.value])
  }

  /** `zip(a, b)` of two lists of the same length. */
  function Pairs<A, B>(a: seq<A>, b: seq<B>): (r: seq<(A, B)>)
    requires |a| == |b|
    ensures |r| == |a| && forall i :: 0 <= i < |a| ==> r[i] == (a[i], b[i])
  {
    seq(|a|, i requires 0 <= i < |a| => (a[i], b[i]))
  }

  lemma PairsSnoc<A, B>(a: seq<A>, b: seq<B>, x: A, y: B)
    requires |a| == |b|
    ensures Pairs(a + [x], b + [y]) == Pairs(a, b) + [(x, y)]
  {
    assert forall i :: 0 <= i < |a| ==> (a + [x])[i] == a[i] && (b + [y])[i] == b[i];
  }

  /** A literal block of text written line by line. */
  function Unlines(lines: seq<string>): string
  {
    if lines == [] then "" else Unlines(lines[..|lines| - 1]) + lines[|lines| - 1] + "\n"
  }

  /** The characters Python 2's `str.strip()` removes. */
  predicate IsSpace(c: char) {
    c == ' ' || c == '\t' || c == '\n' || c == '\r' || c == 11 as char || c == 12 as char
  }

  /** The position of the first character at or after `i` that is not
      whitespace, or `|s|`. */
  function SkipSpaces(s: string, i: nat): (j: nat)
    requires i <= |s|
    ensures i <= j <= |s| && (j < |s| ==> !IsSpace(s[j]))
    ensures forall k :: i <= k < j ==> IsSpace(s[k])
    decreases |s| - i
  {
    if i < |s| && IsSpace(s[i]) then SkipSpaces(s, i + 1) else i
  }

  /** The position just after the last character before `j` that is not
      whitespace, or 0. */
  function TrimSpaces(s: string, j: nat): (i: nat)
    requires j <= |s|
    ensures i <= j && (0 < i ==> !IsSpace(s[i - 1]))
    ensures forall k :: i <= k < j ==> IsSpace(s[k])
  {
    if 0 < j && IsSpace(s[j - 1]) then TrimSpaces(s, j - 1) else j
  }

  /** Python `s.strip()`: the piece of `s` between its leading and trailing
      whitespace. */
  function Strip(s: string): (r: string)
    ensures r == [] || (!IsSpace(r[0]) && !IsSpace(r[|r| - 1]))
    ensures |r| <= |s|
  {
    var i := SkipSpaces(s, 0);
    var j := TrimSpaces(s, |s|);
    if j <= i then "" else s[i..j]
  }

  lemma StripIdempotent(s: string)
    ensures Strip(Strip(s)) == Strip(s)
  {
    var t := Strip(s);
    if t != [] {
      assert SkipSpaces(t, 0) == 0;
      assert TrimSpaces(t, |t|) == |t|;
      assert t[0..|t|] == t;
    }
  }

  /** Python 2's `str(n)` for a natural number. */
  function NatToString(n: nat): (r: string)
    ensures |r| >= 1
    decreases n
  {
    if n < 10 then [DigitChar(n)] else NatToString(n / 10) + [DigitChar(n % 10)]
  }

  /** `str(n)` is made of decimal digits only. */
  lemma {:induction false} NatToStringDigits(n: nat)
    ensures forall i :: 0 <= i < |NatToString(n)| ==> '0' <= NatToString(n)[i] <= '9'
    decreases n
  {
    if n >= 10 {
      NatToStringDigits(n / 10);
    }
  }

  function DigitChar(d: nat): (c: char)
    requires d < 10
    ensures '0' <= c <= '9'
  {
    (('0' as int) + d) as char
  }

  /** Reads a string of decimal digits back as a number. */
  function ParseNat(s: string): nat
    requires forall i :: 0 <= i < |s| ==> '0' <= s[i] <= '9'
  {
    if s == [] then 0 else ParseNat(s[..|s| - 1]) * 10 + ((s[|s| - 1] as int) - ('0' as int))
  }

  /** `str(n)` loses nothing: reading it back gives `n`. */
  lemma {:induction false} NatToStringRoundTrip(n: nat)
    ensures var s := NatToString(n);
            (forall i :: 0 <= i < |s| ==> '0' <= s[i] <= '9') && ParseNat(s) == n
    decreases n
  {
    NatToStringDigits(n);
    if n >= 10 {
      NatToStringRoundTrip(n / 10);
      var s := NatToString(n);
      assert s[..|s| - 1] == NatToString(n / 10);
    }
  }

  /** Python 2's `str(i)` for any integer. */
  function IntToString(i: int): (r: string)
    ensures |r| >= 1
  {
    if i < 0 then "-" + NatToString(-i) else NatToString(i)
  }

  // ---------------------------------------------------------------------
  // Python 2 ordering of sort keys
  // ---------------------------------------------------------------------

  /** Python 2's `a <= b` on strings: lexicographic on code points. */
  predicate StrLe(a: string, b: string)
    decreases |a|
  {
    if a == [] then true
    else if b == [] then false
    else if a[0] != b[0] then a[0] < b[0]
    else StrLe(a[1..], b[1..])
  }

  lemma {:induction false} StrLeRefl(a: string)
    ensures StrLe(a, a)
    decreases |a|
  {
    if a != [] { StrLeRefl(a[1..]); }
  }

  lemma {:induction false} StrLeTotal(a: string, b: string)
    ensures StrLe(a, b) || StrLe(b, a)
    decreases |a|
  {
    if a != [] && b != [] && a[0] == b[0] { StrLeTotal(a[1..], b[1..]); }
  }

  lemma {:induction false} StrLeAntisym(a: string, b: string)
    requires StrLe(a, b) && StrLe(b, a)
    ensures a == b
    decreases |a|
  {
    if a != [] && b != [] {
      StrLeAntisym(a[1..], b[1..]);
      assert a == [a[0]] + a[1..];
      assert b == [b[0]] + b[1..];
    }
  }

  lemma {:induction false} StrLeTrans(a: string, b: string, c: string)
    requires StrLe(a, b) && StrLe(b, c)
    ensures StrLe(a, c)
    decreases |a|
  {
    if a != [] && b != [] && c != [] && a[0] == b[0] && b[0] == c[0] {
      StrLeTrans(a[1..], b[1..], c[1..]);
    }
  }

  /** One component of a sort key. Python 2 places every number before
      every string. */
  datatype Atom = Num(n: int) | Str(s: string)

  predicate AtomLe(x: Atom, y: Atom) {
    match (x, y)
    case (Num(a), Num(b)) => a <= b
    case (Num(_), Str(_)) => true
    case (Str(_), Num(_)) => false
    case (Str(a), Str(b)) => StrLe(a, b)
  }

  /** A sort key: a scalar is a key of length one, a tuple compares
      element by element and a proper prefix comes first. */
  type Key = seq<Atom>

  predicate KeyLe(a: Key, b: Key)
    decreases |a|
  {
    if a == [] then true
    else if b == [] then false
    else if a[0] != b[0] then AtomLe(a[0], b[0])
    else KeyLe(a[1..], b[1..])
  }

  lemma AtomLeRefl(x: Atom)
    ensures AtomLe(x, x)
  {
    if x.Str? { StrLeRefl(x.s); }
  }

  lemma AtomLeTotal(x: Atom, y: Atom)
    ensures AtomLe(x, y) || AtomLe(y, x)
  {
    if x.Str? && y.Str? { StrLeTotal(x.s, y.s); }
  }

  lemma AtomLeAntisym(x: Atom, y: Atom)
    requires AtomLe(x, y) && AtomLe(y, x)
    ensures x == y
  {
    if x.Str? && y.Str? { StrLeAntisym(x.s, y.s); }
  }

  lemma AtomLeTrans(x: Atom, y: Atom, z: Atom)
    requires AtomLe(x, y) && AtomLe(y, z)
    ensures AtomLe(x, z)
  {
    if x.Str? && y.Str? && z.Str? { StrLeTrans(x.s, y.s, z.s); }
  }

  lemma {:induction false} KeyLeRefl(a: Key)
    ensures KeyLe(a, a)
    decreases |a|
  {
    if a != [] { KeyLeRefl(a[1..]); }
  }

  lemma {:induction false} KeyLeTotal(a: Key, b: Key)
    ensures KeyLe(a, b) || KeyLe(b, a)
    decreases |a|
  {
    if a != [] && b != [] {
      if a[0] == b[0] { KeyLeTotal(a[1..], b[1..]); } else { AtomLeTotal(a[0], b[0]); }
    }
  }

  lemma {:induction false} KeyLeAntisym(a: Key, b: Key)
    requires KeyLe(a, b) && KeyLe(b, a)
    ensures a == b
    decreases |a|
  {
    if a != [] && b != [] {
      if a[0] == b[0] {
        KeyLeAntisym(a[1..], b[1..]);
        assert a == [a[0]] + a[1..];
        assert b == [b[0]] + b[1..];
      } else {
        AtomLeAntisym(a[0], b[0]);
      }
    }
  }

  lemma {:induction false} KeyLeTrans(a: Key, b: Key, c: Key)
    requires KeyLe(a, b) && KeyLe(b, c)
    ensures KeyLe(a, c)
    decreases |a|
  {
    if a != [] && b != [] && c != [] {
      if a[0] == b[0] && b[0] == c[0] {
        KeyLeTrans(a[1..], b[1..], c[1..]);
      } else if a[0] == b[0] {
      } else if b[0] == c[0] {
      } else {
        AtomLeTrans(a[0], b[0], c[0]);
        if a[0] == c[0] { AtomLeAntisym(a[0], b[0]); }
      }
    }
  }

  /** Keys made of one string compare as the strings do. */
  lemma StrKeyLe(a: string, b: string)
    ensures KeyLe([Str(a)], [Str(b)]) <==> StrLe(a, b)
  {
    if a == b { StrLeRefl(a); }
  }

  // ---------------------------------------------------------------------
  // Stable sort (Python's list.sort(key=...))
  // ---------------------------------------------------------------------

  ghost predicate SortedBy<T>(s: seq<T>, key: T -> Key) {
    forall i, j :: 0 <= i < j < |s| ==> KeyLe(key(s[i]), key(s[j]))
  }

  /** The elements of `s` whose key is `k`, in their order in `s`. */
  function WithKey<T>(s: seq<T>, key: T -> Key, k: Key): seq<T>
  {
    if s == [] then []
    else WithKey(s[..|s| - 1], key, k) + (if key(s[|s| - 1]) == k then [s[|s| - 1]] else [])
  }

  lemma {:induction false} WithKeyAppend<T>(a: seq<T>, b: seq<T>, key: T -> Key, k: Key)
    ensures WithKey(a + b, key, k) == WithKey(a, key, k) + WithKey(b, key, k)
    decreases |b|
  {
    if b != [] {
      WithKeyAppend(a, b[..|b| - 1], key, k);
      assert (a + b)[..|a + b| - 1] == a + b[..|b| - 1];
    } else {
      assert a + b == a;
    }
  }

  /** Places `x` after every element whose key is at most `x`'s. */
  function Insert<T>(x: T, s: seq<T>, key: T -> Key): seq<T>
  {
    if s == [] then [x]
    else if KeyLe(key(s[|s| - 1]), key(x)) then s + [x]
    else Insert(x, s[..|s| - 1], key) + [s[|s| - 1]]
  }

  /** Python's `sorted(s, key=key)`: a stable insertion sort. */
  function SortBy<T>(s: seq<T>, key: T -> Key): seq<T>
  {
    if s == [] then [] else Insert(s[|s| - 1], SortBy(s[..|s| - 1], key), key)
  }

  lemma {:induction false} InsertElems<T>(x: T, s: seq<T>, key: T -> Key)
    ensures multiset(Insert(x, s, key)) == multiset(s) + multiset{x}
    ensures |Insert(x, s, key)| == |s| + 1
    decreases |s|
  {
    if s != [] && !KeyLe(key(s[|s| - 1]), key(x)) {
      InsertElems(x, s[..|s| - 1], key);
      assert s == s[..|s| - 1] + [s[|s| - 1]];
    }
  }

  lemma {:induction false} InsertSorted<T>(x: T, s: seq<T>, key: T -> Key)
    requires SortedBy(s, key)
    ensures SortedBy(Insert(x, s, key), key)
    decreases |s|
  {
    var r := Insert(x, s, key);
    if s == [] {
    } else if KeyLe(key(s[|s| - 1]), key(x)) {
      forall i, j | 0 <= i < j < |r| ensures KeyLe(key(r[i]), key(r[j])) {
        if j == |s| && i < |s| - 1 { KeyLeTrans(key(s[i]), key(s[|s| - 1]), key(x)); }
      }
    } else {
      var init, last := s[..|s| - 1], s[|s| - 1];
      InsertSorted(x, init, key);
      InsertElems(x, init, key);
      var q := Insert(x, init, key);
      assert r == q + [last];
      KeyLeTotal(key(last), key(x));
      forall i, j | 0 <= i < j < |r| ensures KeyLe(key(r[i]), key(r[j])) {
        if j == |r| - 1 {
          assert r[i] in multiset(q);
          if r[i] != x {
            assert r[i] in multiset(init);
            var m :| 0 <= m < |init| && init[m] == r[i];
            assert KeyLe(key(s[m]), key(s[|s| - 1]));
          }
        } else {
          assert r[i] == q[i] && r[j] == q[j];
        }
      }
    }
  }

  lemma {:induction false} InsertWithKey<T>(x: T, s: seq<T>, key: T -> Key, k: Key)
    ensures WithKey(Insert(x, s, key), key, k) == WithKey(s, key, k) + (if key(x) == k then [x] else [])
    decreases |s|
  {
    var r := Insert(x, s, key);
    if s == [] {
    } else if KeyLe(key(s[|s| - 1]), key(x)) {
      WithKeyAppend(s, [x], key, k);
      assert WithKey([x], key, k) == WithKey([], key, k) + (if key(x) == k then [x] else []);
    } else {
      var init, last := s[..|s| - 1], s[|s| - 1];
      assert s == init + [last];
      InsertWithKey(x, init, key, k);
      var q := Insert(x, init, key);
      WithKeyAppend(q, [last], key, k);
      WithKeyAppend(init, [last], key, k);
      assert WithKey([last], key, k) == WithKey([], key, k) + (if key(last) == k then [last] else []);
      if key(x) == k && key(last) == k { KeyLeRefl(k); }
    }
  }

  /** Sorting orders the elements by key, keeps exactly the same elements,
      and is stable: the elements sharing a key stay in their input order. */
  lemma {:induction false} SortByProps<T>(s: seq<T>, key: T -> Key)
    ensures SortedBy(SortBy(s, key), key)
    ensures multiset(SortBy(s, key)) == multiset(s)
    ensures |SortBy(s, key)| == |s|
    ensures forall k :: WithKey(SortBy(s, key), key, k) == WithKey(s, key, k)
    decreases |s|
  {
    if s != [] {
      var init, last := s[..|s| - 1], s[|s| - 1];
      assert s == init + [last];
      SortByProps(init, key);
      InsertSorted(last, SortBy(init, key), key);
      InsertElems(last, SortBy(init, key), key);
      forall k ensures WithKey(SortBy(s, key), key, k) == WithKey(s, key, k) {
        InsertWithKey(last, SortBy(init, key), key, k);
        WithKeyAppend(init, [last], key, k);
        assert WithKey([last], key, k) == WithKey([], key, k) + (if key(last) == k then [last] else []);
      }
    }
  }

  // ---------------------------------------------------------------------
  // itertools.groupby
  // ---------------------------------------------------------------------

  /** Python's `groupby(s, g)`: the maximal runs of consecutive elements
      with equal `g`, each with that value; the first run starts with the
      first element. */
  function GroupRuns<T, K(==)>(s: seq<T>, g: T -> K): (r: seq<(K, seq<T>)>)
    ensures s != [] ==> r != [] && r[0].0 == g(s[0])
  {
    if s == [] then []
    else
      var rest := GroupRuns(s[1..], g);
      if rest != [] && rest[0].0 == g(s[0]) then [(g(s[0]), [s[0]] + rest[0].1)] + rest[1..]
      else [(g(s[0]), [s[0]])] + rest
  }

  /** The members of the groups, in group order. */
  function Flatten<K, T>(groups: seq<(K, seq<T>)>): seq<T>
  {
    if groups == [] then [] else groups[0].1 + Flatten(groups[1..])
  }

  ghost predicate WellGrouped<T, K>(groups: seq<(K, seq<T>)>, g: T -> K) {
    && (forall i :: 0 <= i < |groups| ==> groups[i].1 != [])
    && (forall i, x :: 0 <= i < |groups| && x in groups[i].1 ==> g(x) == groups[i].0)
    && (forall i :: 0 <= i < |groups| - 1 ==> groups[i].0 != groups[i + 1].0)
  }

  /** Together the groups are the input, in order. */
  lemma {:induction false} GroupRunsFlatten<T, K>(s: seq<T>, g: T -> K)
    ensures Flatten(GroupRuns(s, g)) == s
    decreases |s|
  {
    if s != [] {
      var rest := GroupRuns(s[1..], g);
      GroupRunsFlatten(s[1..], g);
      var r := GroupRuns(s, g);
      var head := [s[0]];
      if rest != [] && rest[0].0 == g(s[0]) {
        calc {
          Flatten(r);
          (head + rest[0].1) + Flatten(rest[1..]);
          { AppendAssoc(head, rest[0].1, Flatten(rest[1..])); }
          head + (rest[0].1 + Flatten(rest[1..]));
          head + Flatten(rest);
        }
      } else {
        assert Flatten(r) == head + Flatten(rest);
      }
      assert head + s[1..] == s;
    }
  }

  /** Groups are non-empty runs sharing one value, and neighbours differ. */
  lemma {:induction false} GroupRunsWellGrouped<T, K>(s: seq<T>, g: T -> K)
    ensures WellGrouped(GroupRuns(s, g), g)
    decreases |s|
  {
    if s != [] {
      var rest := GroupRuns(s[1..], g);
      GroupRunsWellGrouped(s[1..], g);
      var r := GroupRuns(s, g);
      if rest != [] && rest[0].0 == g(s[0]) {
        forall i | 0 <= i < |r| - 1 ensures r[i].0 != r[i + 1].0 {
          if i > 0 { assert r[i] == rest[i] && r[i + 1] == rest[i + 1]; }
        }
        forall i, x | 0 <= i < |r| && x in r[i].1 ensures g(x) == r[i].0 {
          if i > 0 { assert r[i] == rest[i]; }
        }
      } else {
        forall i, x | 0 <= i < |r| && x in r[i].1 ensures g(x) == r[i].0 {
          if i > 0 { assert r[i] == rest[i - 1]; }
        }
        forall i | 0 <= i < |r| - 1 ensures r[i].0 != r[i + 1].0 {
          if i > 0 { assert r[i] == rest[i - 1] && r[i + 1] == rest[i]; }
        }
      }
    }
  }

  /** Groups are non-empty runs sharing one value, neighbours differ,
      and together they are the input in order. */
  lemma GroupRunsPartition<T, K>(s: seq<T>, g: T -> K)
    ensures Flatten(GroupRuns(s, g)) == s
    ensures WellGrouped(GroupRuns(s, g), g)
  {
    GroupRunsFlatten(s, g);
    GroupRunsWellGrouped(s, g);
  }

  /** Equal values of `g` sit next to each other: what sorting by `g` gives. */
  ghost predicate Clustered<T, K>(s: seq<T>, g: T -> K) {
    forall i, j, l :: 0 <= i < j < l < |s| && g(s[i]) == g(s[l]) ==> g(s[j]) == g(s[i])
  }

  lemma {:induction false} GroupKeysOccur<T, K>(s: seq<T>, g: T -> K, i: nat)
    requires i < |GroupRuns(s, g)|
    ensures exists j :: 0 <= j < |s| && g(s[j]) == GroupRuns(s, g)[i].0
    decreases |s|
  {
    var rest := GroupRuns(s[1..], g);
    if i == 0 {
      assert g(s[0]) == GroupRuns(s, g)[0].0;
    } else if rest != [] && rest[0].0 == g(s[0]) {
      assert GroupRuns(s, g)[i] == rest[i];
      GroupKeysOccur(s[1..], g, i);
      var j :| 0 <= j < |s[1..]| && g(s[1..][j]) == rest[i].0;
      assert s[j + 1] == s[1..][j];
    } else {
      assert GroupRuns(s, g)[i] == rest[i - 1];
      GroupKeysOccur(s[1..], g, i - 1);
      var j :| 0 <= j < |s[1..]| && g(s[1..][j]) == rest[i - 1].0;
      assert s[j + 1] == s[1..][j];
    }
  }

  /** After sorting, each key value forms exactly one group. */
  lemma {:induction false} GroupRunsDistinct<T, K>(s: seq<T>, g: T -> K)
    requires Clustered(s, g)
    ensures forall i, j :: 0 <= i < j < |GroupRuns(s, g)| ==> GroupRuns(s, g)[i].0 != GroupRuns(s, g)[j].0
    decreases |s|
  {
    if s != [] {
      var rest := GroupRuns(s[1..], g);
      var r := GroupRuns(s, g);
      assert Clustered(s[1..], g) by {
        forall i, j, l | 0 <= i < j < l < |s[1..]| && g(s[1..][i]) == g(s[1..][l])
          ensures g(s[1..][j]) == g(s[1..][i])
        {
          assert s[1..][i] == s[i + 1] && s[1..][j] == s[j + 1] && s[1..][l] == s[l + 1];
        }
      }
      GroupRunsDistinct(s[1..], g);
      GroupRunsPartition(s[1..], g);
      if rest != [] && rest[0].0 == g(s[0]) {
        forall i, j | 0 <= i < j < |r| ensures r[i].0 != r[j].0 {
          assert r[j] == rest[j];
          if i > 0 { assert r[i] == rest[i]; } else { assert r[0].0 == rest[0].0; }
        }
      } else {
        forall i, j | 0 <= i < j < |r| ensures r[i].0 != r[j].0 {
          assert r[j] == rest[j - 1];
          if i > 0 {
            assert r[i] == rest[i - 1];
          } else {
            GroupKeysOccur(s[1..], g, j - 1);
            var m :| 0 <= m < |s[1..]| && g(s[1..][m]) == rest[j - 1].0;
            assert s[m + 1] == s[1..][m];
            assert s[1] == s[1..][0];
            assert g(s[1]) == rest[0].0;
          }
        }
      }
    }
  }

  /** The sort key of `sort(key=g)` for a string-valued `g`. */
  function StrKey<T>(g: T -> string): T -> Key {
    x => [Str(g(x))]
  }

  /** A sequence sorted by a string key has that key clustered. */
  lemma SortedIsClustered<T>(s: seq<T>, g: T -> string)
    requires SortedBy(s, StrKey(g))
    ensures Clustered(s, g)
  {
    forall i, j, l | 0 <= i < j < l < |s| && g(s[i]) == g(s[l]) ensures g(s[j]) == g(s[i]) {
      assert KeyLe([Str(g(s[i]))], [Str(g(s[j]))]);
      assert KeyLe([Str(g(s[j]))], [Str(g(s[l]))]);
      StrKeyLe(g(s[i]), g(s[j]));
      StrKeyLe(g(s[j]), g(s[l]));
      StrLeAntisym(g(s[i]), g(s[j]));
    }
  }

  lemma ClusteredTail<T, K>(s: seq<T>, g: T -> K)
    requires s != [] && Clustered(s, g)
    ensures Clustered(s[1..], g)
  {
    forall i, j, l | 0 <= i < j < l < |s[1..]| && g(s[1..][i]) == g(s[1..][l])
      ensures g(s[1..][j]) == g(s[1..][i])
    {
      assert s[1..][i] == s[i + 1] && s[1..][j] == s[j + 1] && s[1..][l] == s[l + 1];
    }
  }

  lemma {:induction false} WithKeyNone<T>(s: seq<T>, key: T -> Key, k: Key)
    requires forall x :: x in s ==> key(x) != k
    ensures WithKey(s, key, k) == []
    decreases |s|
  {
    if s != [] {
      WithKeyNone(s[..|s| - 1], key, k);
    }
  }

  /** In a clustered sequence, the group of each value holds exactly the
      elements with that value, in their order. */
  lemma {:induction false} GroupRunsClasses<T>(s: seq<T>, g: T -> string)
    requires Clustered(s, g)
    ensures var r := GroupRuns(s, g);
      forall i :: 0 <= i < |r| ==> r[i].1 == WithKey(s, StrKey(g), [Str(r[i].0)])
    decreases |s|
  {
    if s != [] {
      var r := GroupRuns(s, g);
      var rest := GroupRuns(s[1..], g);
      ClusteredTail(s, g);
      GroupRunsClasses(s[1..], g);
      assert var rr := GroupRuns(s[1..], g); forall i :: 0 <= i < |rr| ==> rr[i].1 == WithKey(s[1..], StrKey(g), [Str(rr[i].0)]);
      GroupRunsDistinct(s, g);
      var merged := rest != [] && rest[0].0 == g(s[0]);
      forall i | 0 <= i < |r| ensures r[i].1 == WithKey(s, StrKey(g), [Str(r[i].0)]) {
        if i == 0 {
          WithKeyConsSame(s, g);
          if merged {
            assert r[0] == (g(s[0]), [s[0]] + rest[0].1);
          } else {
            assert r[0] == (g(s[0]), [s[0]]);
            if |s| == 1 {
              assert s[1..] == [];
            } else {
              assert rest[0].0 == g(s[1]) by {
                assert s[1..][0] == s[1];
              }
              forall x | x in s[1..] ensures StrKey(g)(x) != [Str(g(s[0]))] {
                var j :| 0 <= j < |s[1..]| && s[1..][j] == x;
                assert s[j + 1] == x;
              }
              WithKeyNone(s[1..], StrKey(g), [Str(g(s[0]))]);
            }
          }
        } else {
          assert r[0].0 == g(s[0]);
          WithKeyConsOther(s, g, r[i].0);
          if merged {
            assert r[i] == rest[i];
          } else {
            assert r[i] == rest[i - 1];
          }
        }
      }
    }
  }

  /** The first element is in the selection of its own value ... */
  lemma WithKeyConsSame<T>(s: seq<T>, g: T -> string)
    requires s != []
    ensures WithKey(s, StrKey(g), [Str(g(s[0]))]) == [s[0]] + WithKey(s[1..], StrKey(g), [Str(g(s[0]))])
  {
    assert s == [s[0]] + s[1..];
    WithKeyAppend([s[0]], s[1..], StrKey(g), [Str(g(s[0]))]);
    assert [s[0]][..0] == [];
  }

  /** ... and not in that of any other value. */
  lemma WithKeyConsOther<T>(s: seq<T>, g: T -> string, v: string)
    requires s != [] && g(s[0]) != v
    ensures WithKey(s, StrKey(g), [Str(v)]) == WithKey(s[1..], StrKey(g), [Str(v)])
  {
    assert s == [s[0]] + s[1..];
    WithKeyAppend([s[0]], s[1..], StrKey(g), [Str(v)]);
    assert [s[0]][..0] == [];
  }

  lemma {:induction false} FlattenMember<K, T>(groups: seq<(K, seq<T>)>, x: T)
    requires x in Flatten(groups)
    ensures exists i :: 0 <= i < |groups| && x in groups[i].1
    decreases |groups|
  {
    if x !in groups[0].1 {
      FlattenMember(groups[1..], x);
      var i :| 0 <= i < |groups[1..]| && x in groups[1..][i].1;
      assert groups[i + 1] == groups[1..][i];
    }
  }

  lemma {:induction false} WithKeyMember<T>(s: seq<T>, key: T -> Key, k: Key, x: T)
    requires x in WithKey(s, key, k)
    ensures x in s && key(x) == k
    decreases |s|
  {
    if x !in WithKey(s[..|s| - 1], key, k) {
      assert x == s[|s| - 1];
    } else {
      WithKeyMember(s[..|s| - 1], key, k, x);
    }
  }

  /** `groupby` after `sort` on the same string key: one group per value,
      every element in the group of its value, and each group the elements
      with that value in their input order (the sort is stable). */
  lemma SortedGroupsAreClasses<T>(s: seq<T>, g: T -> string)
    ensures var r := GroupRuns(SortBy(s, StrKey(g)), g);
      && (forall i, j :: 0 <= i < j < |r| ==> r[i].0 != r[j].0)
      && (forall i :: 0 <= i < |r| ==> r[i].1 == WithKey(s, StrKey(g), [Str(r[i].0)]))
      && (forall x :: x in s ==> exists i :: 0 <= i < |r| && r[i].0 == g(x) && x in r[i].1)
  {
    var sorted := SortBy(s, StrKey(g));
    var r := GroupRuns(sorted, g);
    assert Clustered(sorted, g) && forall k :: WithKey(sorted, StrKey(g), k) == WithKey(s, StrKey(g), k) by {
      SortByProps(s, StrKey(g));
      SortedIsClustered(sorted, g);
    }
    GroupRunsDistinct(sorted, g);
    GroupRunsClasses(sorted, g);
    forall x | x in s ensures exists i :: 0 <= i < |r| && r[i].0 == g(x) && x in r[i].1 {
      assert x in sorted by {
        SortByProps(s, StrKey(g));
        assert x in multiset(sorted);
      }
      GroupRunsPartition(sorted, g);
      FlattenMember(r, x);
    }
  }

  /** ... and every group's value is the value of an element. */
  lemma SortedGroupKeys<T>(s: seq<T>, g: T -> string)
    ensures var r := GroupRuns(SortBy(s, StrKey(g)), g);
      forall i :: 0 <= i < |r| ==> exists x :: x in s && g(x) == r[i].0
  {
    var r := GroupRuns(SortBy(s, StrKey(g)), g);
    forall i | 0 <= i < |r| ensures exists x :: x in s && g(x) == r[i].0 {
      SortedGroupsAreClasses(s, g);
      GroupRunsWellGrouped(SortBy(s, StrKey(g)), g);
      WithKeyMember(s, StrKey(g), [Str(r[i].0)], r[i].1[0]);
    }
  }

  // ---------------------------------------------------------------------
  // Running steps that may raise
  // ---------------------------------------------------------------------

  /** `step` applied to each element in turn from `s`; the first error
      stops the run, as an uncaught exception does. */
  function Fold<S, J>(step: (S, J) -> Result<S>, s: S, js: seq<J>): Result<S>
    decreases |js|
  {
    if js == [] then Ok(s)
    else match Fold(step, s, js[..|js| - 1])
      case Err(m) => Err(m)
      case Ok(t) => step(t, js[|js| - 1])
  }

  /** The run over a prefix one longer. */
  lemma FoldSnoc<S, J>(step: (S, J) -> Result<S>, s: S, js: seq<J>, i: nat)
    requires i < |js|
    ensures Fold(step, s, js[..i + 1]) == match Fold(step, s, js[..i])
      case Err(m) => Err(m)
      case Ok(t) => step(t, js[i])
  {
    assert js[..i + 1][..i] == js[..i];
  }

  /** Once a prefix of the run has raised, the whole run raises the same error. */
  lemma {:induction false} FoldSticky<S, J>(step: (S, J) -> Result<S>, s: S, js: seq<J>, i: nat)
    requires i <= |js| && Fold(step, s, js[..i]).Err?
    ensures Fold(step, s, js) == Fold(step, s, js[..i])
    decreases |js| - i
  {
    if i < |js| {
      FoldSnoc(step, s, js, i);
      FoldSticky(step, s, js, i + 1);
    } else {
      assert js[..i] == js;
    }
  }

  // ---------------------------------------------------------------------
  // Dictionaries and their iteration order
  // ---------------------------------------------------------------------

  /** No element occurs twice. */
  ghost predicate Distinct<T>(s: seq<T>) {
    forall i, j :: 0 <= i < j < |s| ==> s[i] != s[j]
  }

  /** In a list without repeats every element occurs at most once. */
  lemma {:induction false} DistinctCount<T>(s: seq<T>, x: T)
    requires Distinct(s)
    ensures multiset(s)[x] <= 1
    decreases |s|
  {
    if s != [] {
      var init, last := s[..|s| - 1], s[|s| - 1];
      assert s == init + [last];
      DistinctCount(init, x);
      if x == last {
        assert x !in init by {
          forall i | 0 <= i < |init| ensures init[i] != x { assert init[i] == s[i]; }
        }
      }
    }
  }

  /** An element at two places occurs at least twice. */
  lemma RepeatCount<T>(s: seq<T>, i: nat, j: nat)
    requires i < j < |s| && s[i] == s[j]
    ensures multiset(s)[s[i]] >= 2
  {
    assert s == s[..j] + [s[j]] + s[j + 1..];
    assert s[i] == s[..j][i];
  }

  /** Reordering a list without repeats gives a list without repeats. */
  lemma DistinctPermutation<T>(a: seq<T>, b: seq<T>)
    requires Distinct(a) && multiset(a) == multiset(b)
    ensures Distinct(b)
  {
    forall i, j | 0 <= i < j < |b| ensures b[i] != b[j] {
      if b[i] == b[j] {
        RepeatCount(b, i, j);
        DistinctCount(a, b[i]);
      }
    }
  }

  /** `order` lists every key of a dictionary exactly once: the fixed but
      unspecified order in which Python 2 iterates over it. */
  ghost predicate IsOrderOf(order: seq<string>, keys: set<string>) {
    && (forall i, j :: 0 <= i < j < |order| ==> order[i] != order[j])
    && (forall k :: k in order <==> k in keys)
  }

  /** An iteration order has one entry per key. */
  lemma {:induction false} OrderLength(order: seq<string>, keys: set<string>)
    requires IsOrderOf(order, keys)
    ensures |order| == |keys|
    decreases |order|
  {
    if order == [] {
      assert forall k :: k !in keys;
    } else {
      var init, last := order[..|order| - 1], order[|order| - 1];
      assert forall k :: k in init <==> k in order && k != last;
      assert IsOrderOf(init, keys - {last});
      OrderLength(init, keys - {last});
    }
  }

  ghost function EnumerateKeys(keys: set<string>): (order: seq<string>)
    ensures IsOrderOf(order, keys)
    decreases keys
  {
    if keys == {} then []
    else
      var k :| k in keys;
      var rest := EnumerateKeys(keys - {k});
      assert forall i :: 0 <= i < |rest| ==> rest[i] != k;
      [k] + rest
  }

  /** How Python 2 iterates over a dictionary with string keys: every key
      once, in an order the program does not choose. */
  type KeyOrder = f: set<string> -> seq<string> | forall keys :: IsOrderOf(f(keys), keys)
    ghost witness EnumerateKeys
}
