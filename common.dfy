/**
 * Shared vocabulary of the model: optional values, outcomes of operations
 * that throw, the Kotlin string functions the services rely on (trim,
 * isBlank, case mapping, contains, split, toIntOrNull), and ordered scans
 * over tables keyed by identity id.
 */
module Common {

  datatype Option<T> = None | Some(value: T)
  {
    /** Kotlin's elvis operator `?:`. */
    function GetOr(default: T): (v: T)
      ensures Some? ==> v == value
      ensures None? ==> v == default
    {
      if Some? then value else default
    }
  }

  /** The outcome of an operation that either returns a value or throws. */
  datatype Result<T> = Ok(value: T) | Fail(error: string)

  // ---------------------------------------------------------------------
  // Characters
  // ---------------------------------------------------------------------

  /**
   * Kotlin's `Char.isWhitespace()` on the JVM: Java whitespace (tab to
   * carriage return, the four information separators) or a Unicode space,
   * line or paragraph separator.
   */
  predicate IsWhitespace(c: char)
  {
    c == ' ' || ('\t' <= c <= '\r') || ('\U{001C}' <= c <= '\U{001F}')
    || c == '\U{00A0}' || c == '\U{1680}' || ('\U{2000}' <= c <= '\U{200A}')
    || c == '\U{2028}' || c == '\U{2029}' || c == '\U{202F}' || c == '\U{205F}'
    || c == '\U{3000}'
  }

  predicate IsAsciiDigit(c: char) { '0' <= c <= '9' }

  predicate IsAsciiUpper(c: char) { 'A' <= c <= 'Z' }

  /** Upper-case mapping for ASCII and the basic Cyrillic block. */
  function UpperChar(c: char): char
  {
    if 'a' <= c <= 'z' then (c as int - 32) as char
    else if '\U{0430}' <= c <= '\U{044F}' then (c as int - 0x20) as char
    else if '\U{0450}' <= c <= '\U{045F}' then (c as int - 0x50) as char
    else c
  }

  /** Lower-case mapping for ASCII and the basic Cyrillic block. */
  function LowerChar(c: char): char
  {
    if 'A' <= c <= 'Z' then (c as int + 32) as char
    else if '\U{0410}' <= c <= '\U{042F}' then (c as int + 0x20) as char
    else if '\U{0400}' <= c <= '\U{040F}' then (c as int + 0x50) as char
    else c
  }

  function Upper(s: string): (r: string)
    ensures |r| == |s|
    ensures forall i :: 0 <= i < |s| ==> r[i] == UpperChar(s[i])
  {
    if s == [] then [] else [UpperChar(s[0])] + Upper(s[1..])
  }

  function Lower(s: string): (r: string)
    ensures |r| == |s|
    ensures forall i :: 0 <= i < |s| ==> r[i] == LowerChar(s[i])
  {
    if s == [] then [] else [LowerChar(s[0])] + Lower(s[1..])
  }

  /** Kotlin `equals(other, ignoreCase = true)` over the modelled alphabet. */
  predicate EqualsIgnoreCase(a: string, b: string)
  {
    |a| == |b|
    && forall i :: 0 <= i < |a| ==>
         a[i] == b[i] || UpperChar(a[i]) == UpperChar(b[i])
         || LowerChar(UpperChar(a[i])) == LowerChar(UpperChar(b[i]))
  }

  // ---------------------------------------------------------------------
  // Trimming and blankness
  // ---------------------------------------------------------------------

  predicate IsBlank(s: string)
  {
    forall i :: 0 <= i < |s| ==> IsWhitespace(s[i])
  }

  function TrimStart(s: string): (r: string)
    ensures |r| <= |s| && r == s[|s| - |r|..]
    ensures r == [] || !IsWhitespace(r[0])
    ensures forall i :: 0 <= i < |s| - |r| ==> IsWhitespace(s[i])
  {
    if s != [] && IsWhitespace(s[0]) then TrimStart(s[1..]) else s
  }

  function TrimEnd(s: string): (r: string)
    ensures |r| <= |s| && r == s[..|r|]
    ensures r == [] || !IsWhitespace(r[|r| - 1])
    ensures forall i :: |r| <= i < |s| ==> IsWhitespace(s[i])
  {
    if s != [] && IsWhitespace(s[|s| - 1]) then TrimEnd(s[..|s| - 1]) else s
  }

  /** Kotlin `String.trim()`: drops leading and trailing whitespace. */
  function Trim(s: string): (r: string)
    ensures |r| <= |s|
    ensures r == [] || (!IsWhitespace(r[0]) && !IsWhitespace(r[|r| - 1]))
  {
    TrimEnd(TrimStart(s))
  }

  /**
   * Kotlin `String.length`: the number of UTF-16 code units, two for a
   * character beyond the Basic Multilingual Plane.
   */
  function Utf16Length(s: string): (n: nat)
    ensures |s| <= n <= 2 * |s|
  {
    if s == [] then 0
    else Utf16Length(s[..|s| - 1]) + (if s[|s| - 1] as int >= 0x1_0000 then 2 else 1)
  }

  /** Trimming leaves a string without outer whitespace as it is. */
  lemma {:induction false} TrimWithoutOuterSpace(s: string)
    requires s != [] && !IsWhitespace(s[0]) && !IsWhitespace(s[|s| - 1])
    ensures Trim(s) == s
  {
    assert TrimStart(s) == s;
    assert TrimEnd(s) == s;
  }

  /** A string is blank exactly when trimming leaves nothing. */
  lemma {:induction false} BlankIffTrimEmpty(s: string)
    ensures IsBlank(s) <==> Trim(s) == []
  {
    var t := TrimStart(s);
    if !IsBlank(s) {
      var i :| 0 <= i < |s| && !IsWhitespace(s[i]);
      assert t[i - (|s| - |t|)] == s[i];
    }
  }

  // ---------------------------------------------------------------------
  // Substrings
  // ---------------------------------------------------------------------

  predicate StartsWith(s: string, prefix: string)
  {
    |prefix| <= |s| && s[..|prefix|] == prefix
  }

  /** Kotlin `CharSequence.contains(other)`. */
  predicate Contains(s: string, sub: string)
    decreases |s|
  {
    StartsWith(s, sub) || (s != [] && Contains(s[1..], sub))
  }

  lemma {:induction false} ContainsAt(s: string, sub: string, k: nat)
    requires k + |sub| <= |s| && s[k..k + |sub|] == sub
    ensures Contains(s, sub)
    decreases k
  {
    if k == 0 {
      assert s[..|sub|] == sub;
    } else {
      assert s[1..][k - 1..k - 1 + |sub|] == sub;
      ContainsAt(s[1..], sub, k - 1);
    }
  }

  /** Every string contains itself. */
  lemma {:induction false} ContainsSelf(s: string)
    ensures Contains(s, s)
  {
    assert s[..|s|] == s;
  }

  /** Every character of a contained string occurs in the containing one. */
  lemma {:induction false} ContainsChars(s: string, sub: string)
    requires Contains(s, sub)
    ensures forall c :: c in sub ==> c in s
    decreases |s|
  {
    if !StartsWith(s, sub) {
      ContainsChars(s[1..], sub);
    } else {
      assert forall i :: 0 <= i < |sub| ==> sub[i] == s[i];
    }
  }

  // ---------------------------------------------------------------------
  // Splitting on a separator
  // ---------------------------------------------------------------------

  function IndexOf(s: string, c: char): (r: Option<nat>)
    ensures r.Some? ==> r.value < |s| && s[r.value] == c
                        && forall j :: 0 <= j < r.value ==> s[j] != c
    ensures r.None? ==> forall j :: 0 <= j < |s| ==> s[j] != c
  {
    if s == [] then None
    else if s[0] == c then Some(0)
    else match IndexOf(s[1..], c)
      case None => None
      case Some(k) => Some(k + 1)
  }

  /**
   * Kotlin `split(sep)` for a one-character separator: every separator
   * cuts, and empty pieces (leading, trailing, adjacent) are kept.
   */
  function Split(s: string, sep: char): (r: seq<string>)
    ensures |r| >= 1
    ensures forall i :: 0 <= i < |r| ==> sep !in r[i]
    decreases |s|
  {
    match IndexOf(s, sep)
      case None => [s]
      case Some(k) => [s[..k]] + Split(s[k + 1..], sep)
  }

  function Join(parts: seq<string>, sep: char): string
  {
    if |parts| <= 1 then (if parts == [] then [] else parts[0])
    else parts[0] + [sep] + Join(parts[1..], sep)
  }

  /** Splitting loses nothing: re-joining the pieces gives the input back. */
  lemma {:induction false} JoinSplit(s: string, sep: char)
    ensures Join(Split(s, sep), sep) == s
    decreases |s|
  {
    match IndexOf(s, sep)
      case None =>
      case Some(k) =>
        JoinSplit(s[k + 1..], sep);
        assert s == s[..k] + [sep] + s[k + 1..];
  }

  // ---------------------------------------------------------------------
  // Decimal integers (Kotlin toIntOrNull / toLongOrNull, radix 10)
  // ---------------------------------------------------------------------

  const INT_MIN: int := -0x8000_0000
  const INT_MAX: int := 0x7FFF_FFFF
  const LONG_MIN: int := -0x8000_0000_0000_0000
  const LONG_MAX: int := 0x7FFF_FFFF_FFFF_FFFF

  predicate AllDigits(s: string)
  {
    forall i :: 0 <= i < |s| ==> IsAsciiDigit(s[i])
  }

  function DigitsValue(s: string): (n: nat)
    requires AllDigits(s)
  {
    if s == [] then 0 else DigitsValue(s[..|s| - 1]) * 10 + (s[|s| - 1] as int - '0' as int)
  }

  /**
   * Parses an optionally signed decimal number; `None` for an empty
   * string, a lone sign, a non-digit, or a value outside [lo, hi].
   */
  function ParseInteger(s: string, lo: int, hi: int): (r: Option<int>)
    ensures r.Some? ==> lo <= r.value <= hi
    ensures r.Some? ==> s != [] && AllDigits(if s[0] == '-' || s[0] == '+' then s[1..] else s)
  {
    if s == [] then None
    else
      var neg := s[0] == '-';
      var body := if s[0] == '-' || s[0] == '+' then s[1..] else s;
      if body == [] || !AllDigits(body) then None
      else
        var d: int := DigitsValue(body);
        var v := if neg then 0 - d else d;
        if lo <= v <= hi then Some(v) else None
  }

  /** Kotlin `String.toIntOrNull()`. */
  function ToIntOrNull(s: string): Option<int>
  {
    ParseInteger(s, INT_MIN, INT_MAX)
  }

  /** Kotlin `String.toLongOrNull()`. */
  function ToLongOrNull(s: string): Option<int>
  {
    ParseInteger(s, LONG_MIN, LONG_MAX)
  }

  /** Decimal rendering of a natural number, most significant digit first. */
  function ShowNat(n: nat): (r: string)
    ensures r != [] && AllDigits(r)
  {
    if n < 10 then [('0' as int + n) as char]
    else ShowNat(n / 10) + [('0' as int + n % 10) as char]
  }

  lemma {:induction false} DigitsOfShowNat(n: nat)
    ensures DigitsValue(ShowNat(n)) == n
  {
    if n >= 10 {
      DigitsOfShowNat(n / 10);
      var s := ShowNat(n);
      assert s[..|s| - 1] == ShowNat(n / 10);
    }
  }

  /** Rendering then parsing a number in range gives it back. */
  lemma {:induction false} ParseShowNat(n: nat, lo: int, hi: int)
    requires lo <= n <= hi
    ensures ParseInteger(ShowNat(n), lo, hi) == Some(n)
  {
    DigitsOfShowNat(n);
  }

  // ---------------------------------------------------------------------
  // Sequences and tables
  // ---------------------------------------------------------------------

  /** The elements of `s` satisfying `p`, in their original order. */
  function Filter<T(!new)>(s: seq<T>, p: T -> bool): (r: seq<T>)
    ensures |r| <= |s|
    ensures forall x :: x in r <==> x in s && p(x)
  {
    if s == [] then []
    else (if p(s[0]) then [s[0]] else []) + Filter(s[1..], p)
  }

  function Count<T(!new)>(s: seq<T>, p: T -> bool): (n: nat)
    ensures n <= |s|
  {
    |Filter(s, p)|
  }

  /**
   * The rows of a table whose identity ids lie in [1, n), in ascending id
   * order: the order in which an unsorted query returns rows here.
   */
  function Rows<R(!new)>(table: map<int, R>, n: int): (r: seq<R>)
    ensures forall k :: k in table && 1 <= k < n ==> table[k] in r
    ensures forall x :: x in r ==> exists k :: k in table && 1 <= k < n && table[k] == x
    decreases n
  {
    if n <= 1 then []
    else Rows(table, n - 1) + (if n - 1 in table then [table[n - 1]] else [])
  }

  /** Every key of the table lies in [1, n). */
  ghost predicate IdsBelow<R>(table: map<int, R>, n: int)
  {
    forall k :: k in table ==> 1 <= k < n
  }

  /** A second update of the same key replaces the first. */
  lemma {:induction false} Overwrite<K, V>(m: map<K, V>, k: K, first: V, second: V)
    ensures m[k := first][k := second] == m[k := second]
  {
    assert m[k := first][k := second].Keys == m[k := second].Keys;
  }

  lemma {:induction false} RowsAreValues<R(!new)>(table: map<int, R>, n: int)
    requires IdsBelow(table, n)
    ensures forall x :: x in Rows(table, n) <==> x in table.Values
  {
    forall x | x in table.Values
      ensures x in Rows(table, n)
    {
      var k :| k in table && table[k] == x;
    }
  }

  /** No element occurs twice. */
  predicate Distinct<T(==)>(s: seq<T>)
  {
    forall i, j :: 0 <= i < j < |s| ==> s[i] != s[j]
  }

  /** Filtering keeps elements distinct, since it only drops some of them. */
  lemma {:induction false} FilterDistinct<T(!new)>(s: seq<T>, p: T -> bool)
    ensures Distinct(s) ==> Distinct(Filter(s, p))
  {
    if s != [] && Distinct(s) {
      FilterDistinct(s[1..], p);
      var rest := Filter(s[1..], p);
      assert s[0] !in s[1..];
      assert s[0] !in rest;
    }
  }

  /** Filtering a sequence extended at the end extends the filtered sequence the same way. */
  lemma {:induction false} FilterSnoc<T(!new)>(s: seq<T>, x: T, p: T -> bool)
    ensures Filter(s + [x], p) == Filter(s, p) + (if p(x) then [x] else [])
  {
    if s == [] {
      assert [x] + [] == [x];
    } else {
      var head, tail := if p(s[0]) then [s[0]] else [], if p(x) then [x] else [];
      assert (s + [x])[0] == s[0];
      assert (s + [x])[1..] == s[1..] + [x];
      FilterSnoc(s[1..], x, p);
      assert Filter(s + [x], p) == head + (Filter(s[1..], p) + tail);
      assert head + (Filter(s[1..], p) + tail) == (head + Filter(s[1..], p)) + tail;
    }
  }

  /** A table whose rows are all different lists each row once. */
  lemma {:induction false} RowsDistinct<R(!new)>(table: map<int, R>, n: int)
    requires forall a, b :: a in table && b in table && a != b ==> table[a] != table[b]
    ensures Distinct(Rows(table, n))
    decreases n
  {
    if n > 1 {
      RowsDistinct(table, n - 1);
    }
  }

  /** Two tests that never hold together select at most all of the elements between them. */
  lemma {:induction false} CountDisjoint<T(!new)>(s: seq<T>, p: T -> bool, q: T -> bool)
    requires forall x :: !(p(x) && q(x))
    ensures Count(s, p) + Count(s, q) <= |s|
  {
    if s != [] {
      CountDisjoint(s[1..], p, q);
    }
  }

  /** Every element either passes a test or fails it. */
  lemma {:induction false} CountComplement<T(!new)>(s: seq<T>, p: T -> bool, q: T -> bool)
    requires forall x :: q(x) == !p(x)
    ensures Count(s, p) + Count(s, q) == |s|
  {
    if s != [] {
      CountComplement(s[1..], p, q);
    }
  }

  /** The ids in [1, n) of rows satisfying `p`. */
  ghost function IdsWhere<R>(table: map<int, R>, n: int, p: R -> bool): set<int>
  {
    set k | k in table && 1 <= k < n && p(table[k])
  }

  lemma {:induction false} IdsWhereStep<R>(table: map<int, R>, n: int, p: R -> bool)
    requires n > 1
    ensures |IdsWhere(table, n, p)|
            == |IdsWhere(table, n - 1, p)| + (if n - 1 in table && p(table[n - 1]) then 1 else 0)
  {
    if n - 1 in table && p(table[n - 1]) {
      assert IdsWhere(table, n, p) == IdsWhere(table, n - 1, p) + {n - 1};
    } else {
      assert IdsWhere(table, n, p) == IdsWhere(table, n - 1, p);
    }
  }

  lemma {:induction false} FilterRowsStep<R(!new)>(table: map<int, R>, n: int, p: R -> bool)
    requires n > 1
    ensures |Filter(Rows(table, n), p)|
            == |Filter(Rows(table, n - 1), p)| + (if n - 1 in table && p(table[n - 1]) then 1 else 0)
  {
    if n - 1 in table {
      FilterSnoc(Rows(table, n - 1), table[n - 1], p);
    } else {
      assert Rows(table, n) == Rows(table, n - 1) + [];
      assert Rows(table, n - 1) + [] == Rows(table, n - 1);
    }
  }

  /** A filtered scan lists as many rows as there are matching ids. */
  lemma {:induction false} CountRows<R(!new)>(table: map<int, R>, n: int, p: R -> bool)
    ensures |Filter(Rows(table, n), p)| == |IdsWhere(table, n, p)|
    decreases n
  {
    if n <= 1 {
      assert IdsWhere(table, n, p) == {};
    } else {
      CountRows(table, n - 1, p);
      IdsWhereStep(table, n, p);
      FilterRowsStep(table, n, p);
    }
  }

  /** A table whose ids all lie in [1, n) lists each of its rows once. */
  lemma {:induction false} RowsCount<R(!new)>(table: map<int, R>, n: int)
    ensures |Rows(table, n)| == |set k | k in table && 1 <= k < n|
    decreases n
  {
    if n <= 1 {
      assert (set k | k in table && 1 <= k < n) == {};
    } else {
      RowsCount(table, n - 1);
      if n - 1 in table {
        assert (set k | k in table && 1 <= k < n) == (set k | k in table && 1 <= k < n - 1) + {n - 1};
      } else {
        assert (set k | k in table && 1 <= k < n) == (set k | k in table && 1 <= k < n - 1);
      }
    }
  }

  lemma {:induction false} DistinctRowsCount<R(!new)>(table: map<int, R>, n: int)
    requires IdsBelow(table, n)
    ensures |Rows(table, n)| == |table|
  {
    RowsCount(table, n);
    assert (set k | k in table && 1 <= k < n) == table.Keys;
  }

  /**
   * When every row carries its own id (`key`), the rows of a table whose
   * ids lie in [1, n) list each id of the table exactly once.
   */
  lemma {:induction false} RowsCoverKeys<R(!new)>(table: map<int, R>, n: int, key: R -> int)
    requires IdsBelow(table, n)
    requires forall k :: k in table ==> key(table[k]) == k
    ensures |Rows(table, n)| == |table|
    ensures forall i :: 0 <= i < |Rows(table, n)| ==>
              key(Rows(table, n)[i]) in table && table[key(Rows(table, n)[i])] == Rows(table, n)[i]
    ensures forall k :: k in table ==> exists i :: 0 <= i < |Rows(table, n)| && key(Rows(table, n)[i]) == k
  {
    var rows := Rows(table, n);
    DistinctRowsCount(table, n);
    forall i | 0 <= i < |rows|
      ensures key(rows[i]) in table && table[key(rows[i])] == rows[i]
    {
      assert rows[i] in rows;
    }
    forall k | k in table
      ensures exists i :: 0 <= i < |rows| && key(rows[i]) == k
    {
      assert table[k] in rows;
      var i :| 0 <= i < |rows| && rows[i] == table[k];
    }
  }
}
