/**
 * PHP values and the PHP built-ins and Laravel array helpers that the
 * modelled admin classes rely on: truthiness, string conversion,
 * `explode`/`implode`, `str_replace` of one character, `basename`,
 * `Arr::get`, `Arr::has`, `Arr::isAssoc` and `array_column`.
 */
module Php {

  datatype Option<T> = None | Some(value: T)

  /** An array key: PHP arrays are keyed by integers or by strings. */
  datatype Key = IntKey(n: int) | StrKey(s: string)

  /** A PHP value. An array is an ordered list of key/value entries. */
  datatype Value =
    | Null
    | Bool(b: bool)
    | Int(i: int)
    | Str(s: string)
    | Arr(entries: seq<Entry>)

  datatype Entry = Entry(key: Key, val: Value)

  // ---------------------------------------------------------------------
  // Truthiness

  /** PHP's `"" and "0" are false` rule for strings. */
  predicate TruthyString(s: string) {
    s != "" && s != "0"
  }

  /** PHP's conversion to bool; `empty($v)` is its negation and `?:` tests it. */
  predicate Truthy(v: Value) {
    match v
    case Null => false
    case Bool(b) => b
    case Int(i) => i != 0
    case Str(s) => TruthyString(s)
    case Arr(es) => es != []
  }

  /** `isset($m[$k])`: the key is present and its value is not null. */
  predicate Isset(m: map<string, Value>, k: string) {
    k in m && m[k] != Null
  }

  /** `$m[$k] ?? $default` */
  function Coalesce(m: map<string, Value>, k: string, default: Value): (r: Value)
    ensures Isset(m, k) ==> r == m[k]
    ensures !Isset(m, k) ==> r == default
  {
    if Isset(m, k) then m[k] else default
  }

  /** `if (!isset($m[$k])) { $m[$k] = $v; }`: a default that never overwrites a set value. */
  function SetDefault(m: map<string, Value>, k: string, v: Value): (r: map<string, Value>)
    ensures Isset(m, k) ==> r == m
    ensures !Isset(m, k) ==> r == m[k := v]
  {
    if Isset(m, k) then m else m[k := v]
  }

  // ---------------------------------------------------------------------
  // String conversion

  /** The decimal digits of a natural number, most significant first. */
  function Decimal(n: nat): (r: string)
    ensures |r| > 0
    ensures forall i :: 0 <= i < |r| ==> '0' <= r[i] <= '9'
  {
    var last := ('0' as int + n % 10) as char;
    if n < 10 then [last] else Decimal(n / 10) + [last]
  }

  /** `(string) $v` for the values the model uses; an array becomes "Array". */
  function ToString(v: Value): (r: string)
    ensures v.Str? ==> r == v.s
    // a scalar converts to a truthy string exactly when it is truthy itself
    ensures !v.Arr? ==> (TruthyString(r) <==> Truthy(v))
  {
    match v
    case Null => ""
    case Bool(b) => if b then "1" else ""
    case Int(i) => if i < 0 then "-" + Decimal(-i) else Decimal(i)
    case Str(s) => s
    case Arr(_) => "Array"
  }

  /** `(array) $v` for a value that is not an array, as a list. */
  function CastToList(v: Value): (r: seq<Value>)
    requires !v.Arr?
    ensures v == Null <==> r == []
    ensures v != Null ==> r == [v]
  {
    if v == Null then [] else [v]
  }

  // ---------------------------------------------------------------------
  // explode / implode

  /** `explode($d, $s)` for a one-character delimiter. */
  function Split(s: string, d: char): (parts: seq<string>)
    ensures |parts| > 0
    ensures forall i :: 0 <= i < |parts| ==> d !in parts[i]
  {
    if |s| == 0 then [""]
    else
      var rest := Split(s[1..], d);
      if s[0] == d then [""] + rest
      else [[s[0]] + rest[0]] + rest[1..]
  }

  /** `implode($d, $parts)` for a one-character glue. */
  function Join(parts: seq<string>, d: char): (r: string)
    ensures |parts| > 0 ==> parts[0] <= r
    ensures |parts| > 1 ==> parts[0] + [d] <= r
  {
    if |parts| == 0 then ""
    else if |parts| == 1 then parts[0]
    else parts[0] + [d] + Join(parts[1..], d)
  }

  /** Joining the pieces of a split gives back the original string. */
  lemma {:induction false} JoinSplit(s: string, d: char)
    ensures Join(Split(s, d), d) == s
  {
    if |s| > 0 {
      JoinSplit(s[1..], d);
      var rest := Split(s[1..], d);
      if s[0] == d {
        assert ([""] + rest)[1..] == rest;
      } else if |rest| > 1 {
        var parts := [[s[0]] + rest[0]] + rest[1..];
        assert parts[1..] == rest[1..];
        assert Join(rest, d) == rest[0] + [d] + Join(rest[1..], d);
        assert s == [s[0]] + s[1..];
      } else {
        assert s == [s[0]] + s[1..];
      }
    }
  }

  /** A string without the delimiter splits into itself alone. */
  lemma {:induction false} SplitPlain(s: string, d: char)
    requires d !in s
    ensures Split(s, d) == [s]
  {
    if |s| > 0 {
      assert d !in s[1..] by {
        forall i | 0 <= i < |s[1..]| ensures s[1..][i] != d { assert s[1..][i] == s[i + 1]; }
      }
      SplitPlain(s[1..], d);
      assert s == [s[0]] + s[1..];
    }
  }

  /** Splitting at the first delimiter separates the first piece from the rest. */
  lemma {:induction false} SplitAtFirst(a: string, b: string, d: char)
    requires d !in a
    ensures Split(a + [d] + b, d) == [a] + Split(b, d)
  {
    var s := a + [d] + b;
    if |a| == 0 {
      assert s[0] == d && s[1..] == b;
    } else {
      assert d !in a[1..] by {
        forall i | 0 <= i < |a[1..]| ensures a[1..][i] != d { assert a[1..][i] == a[i + 1]; }
      }
      SplitAtFirst(a[1..], b, d);
      assert s[0] == a[0] && s[0] != d;
      assert s[1..] == a[1..] + [d] + b;
      assert [a[0]] + a[1..] == a;
    }
  }

  /** Splitting a join of delimiter-free pieces gives back the pieces. */
  lemma {:induction false} SplitJoin(parts: seq<string>, d: char)
    requires |parts| > 0
    requires forall i :: 0 <= i < |parts| ==> d !in parts[i]
    ensures Split(Join(parts, d), d) == parts
  {
    if |parts| == 1 {
      SplitPlain(parts[0], d);
    } else {
      SplitJoin(parts[1..], d);
      SplitAtFirst(parts[0], Join(parts[1..], d), d);
      assert [parts[0]] + parts[1..] == parts;
    }
  }

  /** `explode($d, $s)[0]`: the part of `s` before its first `d`. */
  function Head(s: string, d: char): (r: string)
    ensures r <= s
    ensures d !in r
    ensures |r| < |s| ==> s[|r|] == d
  {
    HeadIsPrefix(s, d);
    Split(s, d)[0]
  }

  lemma {:induction false} HeadIsPrefix(s: string, d: char)
    ensures Split(s, d)[0] <= s
    ensures |Split(s, d)[0]| < |s| ==> s[|Split(s, d)[0]|] == d
  {
    if |s| > 0 {
      HeadIsPrefix(s[1..], d);
    }
  }

  /** `str_replace($from, $to, $s)` for one-character needle and replacement. */
  function Replace(s: string, from: char, to: char): (r: string)
    ensures |r| == |s|
    ensures forall i :: 0 <= i < |s| ==> r[i] == if s[i] == from then to else s[i]
  {
    if |s| == 0 then ""
    else [if s[0] == from then to else s[0]] + Replace(s[1..], from, to)
  }

  // ---------------------------------------------------------------------
  // basename

  /** `rtrim($s, $c)` for one character. */
  function TrimTrailing(s: string, c: char): (r: string)
    ensures r <= s
    ensures |r| > 0 ==> r[|r| - 1] != c
  {
    if |s| > 0 && s[|s| - 1] == c then TrimTrailing(s[..|s| - 1], c) else s
  }

  /** `rtrim` removes only trailing copies of `c`: everything cut off is `c`. */
  lemma {:induction false} TrimTrailingOnlyC(s: string, c: char)
    ensures forall i :: |TrimTrailing(s, c)| <= i < |s| ==> s[i] == c
  {
    if |s| > 0 && s[|s| - 1] == c {
      var init := s[..|s| - 1];
      TrimTrailingOnlyC(init, c);
      assert forall i :: |TrimTrailing(s, c)| <= i < |init| ==> s[i] == init[i];
    }
  }

  /** The part of `s` after its last `c` (all of `s` when there is none). */
  function AfterLast(s: string, c: char): (r: string)
    ensures c !in r
    ensures |r| <= |s|
  {
    if |s| == 0 then ""
    else if s[|s| - 1] == c then ""
    else AfterLast(s[..|s| - 1], c) + [s[|s| - 1]]
  }

  /** The part after the last `c` is a suffix of `s`, and it is preceded by `c` when shorter. */
  lemma {:induction false} AfterLastIsSuffix(s: string, c: char)
    ensures var r := AfterLast(s, c);
      r == s[|s| - |r|..] && (|r| < |s| ==> s[|s| - |r| - 1] == c)
  {
    if |s| > 0 && s[|s| - 1] != c {
      var init := s[..|s| - 1];
      AfterLastIsSuffix(init, c);
      var r0 := AfterLast(init, c);
      assert init[|init| - |r0|..] + [s[|s| - 1]] == s[|s| - |r0| - 1..];
    }
  }

  /** PHP's `basename($path)` with `/` as the only separator. */
  function Basename(path: string): (r: string)
    ensures '/' !in r
  {
    AfterLast(TrimTrailing(path, '/'), '/')
  }

  /**
   * `basename` is the last segment of the path once trailing `/` are
   * trimmed: a suffix of the trimmed path, preceded there by a `/` when
   * shorter, with only `/` trimmed off the end.
   */
  lemma BasenameIsLastSegment(path: string)
    ensures var t, r := TrimTrailing(path, '/'), Basename(path);
      && t <= path
      && (forall i :: |t| <= i < |path| ==> path[i] == '/')
      && r == t[|t| - |r|..]
      && (|r| < |t| ==> t[|t| - |r| - 1] == '/')
  {
    TrimTrailingOnlyC(path, '/');
    AfterLastIsSuffix(TrimTrailing(path, '/'), '/');
  }

  /** A name without any `/` is its own basename. */
  lemma {:induction false} BasenameOfName(s: string)
    requires '/' !in s
    ensures Basename(s) == s
  {
    assert TrimTrailing(s, '/') == s;
    AfterLastAbsent(s, '/');
  }

  lemma {:induction false} AfterLastAbsent(s: string, c: char)
    requires c !in s
    ensures AfterLast(s, c) == s
  {
    if |s| > 0 {
      var init := s[..|s| - 1];
      assert c !in init by {
        forall i | 0 <= i < |init| ensures init[i] != c { assert init[i] == s[i]; }
      }
      AfterLastAbsent(init, c);
      assert s[..|s| - 1] + [s[|s| - 1]] == s;
    }
  }

  // ---------------------------------------------------------------------
  // Arrays

  /** `$a[$k]` when present: the value of the first entry with key `k`. */
  function Lookup(es: seq<Entry>, k: Key): (r: Option<Value>)
    ensures r.Some? <==> exists i :: 0 <= i < |es| && es[i].key == k
  {
    if es == [] then None
    else if es[0].key == k then Some(es[0].val)
    else
      var r := Lookup(es[1..], k);
      assert forall i :: 1 <= i < |es| ==> es[i] == es[1..][i - 1];
      r
  }

  /** The value a lookup finds is that of the first entry with the key. */
  lemma {:induction false} LookupFirst(es: seq<Entry>, k: Key)
    ensures Lookup(es, k).Some? ==> exists i ::
      && 0 <= i < |es| && es[i].key == k && Lookup(es, k).value == es[i].val
      && forall j :: 0 <= j < i ==> es[j].key != k
  {
    if es != [] && es[0].key != k && Lookup(es, k).Some? {
      LookupFirst(es[1..], k);
      var i0 :| 0 <= i0 < |es| - 1 && es[1..][i0].key == k && Lookup(es, k).value == es[1..][i0].val &&
        forall j :: 0 <= j < i0 ==> es[1..][j].key != k;
      forall j | 0 <= j < i0 + 1 ensures es[j].key != k {
        if j > 0 { assert es[j] == es[1..][j - 1]; }
      }
      assert es[i0 + 1] == es[1..][i0];
    }
  }

  /** `$v[$k]` read through `empty()`/`??`: null when `v` is not an array or lacks the key. */
  function Index(v: Value, k: string): Value {
    if v.Arr? then
      match Lookup(v.entries, StrKey(k))
      case Some(x) => x
      case None => Null
    else Null
  }

  /** The value of field `k` of `v`, when `v` is an array that has it. */
  function Field(v: Value, k: string): Option<Value> {
    if v.Arr? then Lookup(v.entries, StrKey(k)) else None
  }

  /** Follows dotted-key segments through nested arrays. */
  function Walk(v: Value, segments: seq<string>): Option<Value>
    decreases |segments|
  {
    if segments == [] then Some(v)
    else
      match Field(v, segments[0])
      case Some(x) => Walk(x, segments[1..])
      case None => None
  }

  /** Laravel's `Arr::get($v, $key)` with a null default. */
  function DataGet(v: Value, key: string): (r: Value)
    ensures !v.Arr? ==> r == Null
    ensures Field(v, key).Some? ==> r == Field(v, key).value
  {
    if !v.Arr? then Null
    else
      match Field(v, key)
      case Some(x) => x
      case None =>
        if '.' !in key then Null
        else
          match Walk(v, Split(key, '.'))
          case Some(x) => x
          case None => Null
  }

  /** Laravel's `Arr::has($v, $key)` for one key. */
  predicate DataHas(v: Value, key: string)
    ensures DataHas(v, key) ==> v.Arr? && v.entries != []
    ensures v.Arr? && v.entries != [] && Field(v, key).Some? ==> DataHas(v, key)
  {
    Truthy(v) && (Field(v, key).Some? || Walk(v, Split(key, '.')).Some?)
  }

  /** For a key without `.`, `Arr::has` and `Arr::get` look at that key only. */
  lemma {:induction false} PlainKeyAccess(v: Value, key: string)
    requires '.' !in key
    ensures DataHas(v, key) <==> Truthy(v) && Field(v, key).Some?
    ensures DataGet(v, key) == if Field(v, key).Some? then Field(v, key).value else Null
  {
    SplitPlain(key, '.');
    if Field(v, key).Some? {
      assert Walk(Field(v, key).value, []) == Some(Field(v, key).value);
    }
  }

  /** An array whose keys are 0, 1, 2, ... in order; `Arr::isAssoc` is its negation. */
  predicate IsList(es: seq<Entry>)
    ensures IsList(es) ==> forall i, j :: 0 <= i < j < |es| ==> es[i].key != es[j].key
  {
    forall i :: 0 <= i < |es| ==> es[i].key == IntKey(i)
  }

  /** `array_values($a)` */
  function ValuesOf(es: seq<Entry>): (r: seq<Value>)
    ensures |r| == |es|
    ensures forall i :: 0 <= i < |es| ==> r[i] == es[i].val
  {
    seq(|es|, i requires 0 <= i < |es| => es[i].val)
  }

  function KeyValue(k: Key): Value {
    match k
    case IntKey(n) => Int(n)
    case StrKey(s) => Str(s)
  }

  /** `array_keys($a)` */
  function KeysOf(es: seq<Entry>): (r: seq<Value>)
    ensures |r| == |es|
    ensures forall i :: 0 <= i < |es| ==> r[i] == KeyValue(es[i].key)
  {
    seq(|es|, i requires 0 <= i < |es| => KeyValue(es[i].key))
  }

  /** `$a[$k] = $v`: replaces the value of the entry with key `k`, or appends a new entry. */
  function Put(es: seq<Entry>, k: Key, v: Value): (r: seq<Entry>)
    ensures Lookup(r, k) == Some(v)
    ensures forall k' :: k' != k ==> Lookup(r, k') == Lookup(es, k')
    ensures Lookup(es, k).Some? ==> |r| == |es|
    ensures Lookup(es, k).None? ==> r == es + [Entry(k, v)]
  {
    if es == [] then [Entry(k, v)]
    else if es[0].key == k then [Entry(k, v)] + es[1..]
    else
      var r := [es[0]] + Put(es[1..], k, v);
      assert r[1..] == Put(es[1..], k, v);
      r
  }

  /** `array_column($rows, $col)` over rows that are arrays. */
  function Column(rows: seq<Entry>, col: string): (r: seq<Value>)
    ensures |r| <= |rows|
  {
    if rows == [] then []
    else
      (match Field(rows[0].val, col)
       case Some(x) => [x]
       case None => []) + Column(rows[1..], col)
  }

  /** The column holds exactly the field values of the rows that have the field. */
  lemma {:induction false} ColumnMembers(rows: seq<Entry>, col: string, x: Value)
    ensures x in Column(rows, col) <==> exists i :: 0 <= i < |rows| && Field(rows[i].val, col) == Some(x)
  {
    if rows != [] {
      ColumnMembers(rows[1..], col, x);
      if exists i :: 0 <= i < |rows| && Field(rows[i].val, col) == Some(x) {
        var i :| 0 <= i < |rows| && Field(rows[i].val, col) == Some(x);
        if i > 0 {
          assert rows[1..][i - 1] == rows[i];
        }
      }
      if exists i :: 0 <= i < |rows[1..]| && Field(rows[1..][i].val, col) == Some(x) {
        var i :| 0 <= i < |rows[1..]| && Field(rows[1..][i].val, col) == Some(x);
        assert rows[i + 1] == rows[1..][i];
      }
    }
  }

  /** `count(array_filter($vs))`: the number of truthy values. */
  function CountTruthy(vs: seq<Value>): (n: nat)
    ensures n <= |vs|
  {
    if vs == [] then 0 else (if Truthy(vs[0]) then 1 else 0) + CountTruthy(vs[1..])
  }

  /** `count(array_filter($parts))` for strings. */
  function CountTruthyStrings(parts: seq<string>): (n: nat)
    ensures n <= |parts|
  {
    if parts == [] then 0 else (if TruthyString(parts[0]) then 1 else 0) + CountTruthyStrings(parts[1..])
  }

  /** Counting the truthy values of a concatenation counts each part. */
  lemma {:induction false} CountTruthyAppend(a: seq<Value>, b: seq<Value>)
    ensures CountTruthy(a + b) == CountTruthy(a) + CountTruthy(b)
  {
    if a != [] {
      CountTruthyAppend(a[1..], b);
      assert (a + b)[1..] == a[1..] + b;
    } else {
      assert a + b == b;
    }
  }

  /** Counting the truthy strings of a concatenation counts each part. */
  lemma {:induction false} CountTruthyStringsAppend(a: seq<string>, b: seq<string>)
    ensures CountTruthyStrings(a + b) == CountTruthyStrings(a) + CountTruthyStrings(b)
  {
    if a != [] {
      CountTruthyStringsAppend(a[1..], b);
      assert (a + b)[1..] == a[1..] + b;
    } else {
      assert a + b == b;
    }
  }

  /** Appending a falsy value leaves the count alone; a truthy one adds one. */
  lemma CountTruthySnoc(vs: seq<Value>, v: Value)
    ensures CountTruthy(vs + [v]) == CountTruthy(vs) + (if Truthy(v) then 1 else 0)
  {
    CountTruthyAppend(vs, [v]);
  }

  /** Appending an empty or "0" piece leaves the count alone; any other adds one. */
  lemma CountTruthyStringsSnoc(parts: seq<string>, p: string)
    ensures CountTruthyStrings(parts + [p]) == CountTruthyStrings(parts) + (if TruthyString(p) then 1 else 0)
  {
    CountTruthyStringsAppend(parts, [p]);
  }

  lemma {:induction false} CountAllTruthyStrings(parts: seq<string>)
    requires forall i :: 0 <= i < |parts| ==> TruthyString(parts[i])
    ensures CountTruthyStrings(parts) == |parts|
  {
    if parts != [] {
      CountAllTruthyStrings(parts[1..]);
    }
  }
}
