/**
 * The small part of PHP's runtime semantics that the Akamai module relies on:
 * dynamically typed values, truthiness, associative records read with
 * missing-key-is-NULL, ordered arrays with `$a[$k] = $v` assignment,
 * `array_filter` / `key`, and `explode` / `implode` on a one-character
 * separator.
 */
module Php {

  datatype Option<T> = None | Some(value: T)

  /** A PHP value as the module stores it: scalars, NULL, and lists of strings
      (the only nested shape the module keeps inside a status record). */
  datatype Value = Null | Bool(b: bool) | Int(i: int) | Str(s: string) | List(items: seq<string>)

  /** PHP's conversion to boolean: FALSE, 0, "", "0", NULL and [] are falsy.
      A loose comparison `$v == TRUE` is the same test. */
  predicate Truthy(v: Value) {
    match v
    case Null => false
    case Bool(b) => b
    case Int(i) => i != 0
    case Str(s) => s != "" && s != "0"
    case List(xs) => xs != []
  }

  /** An associative PHP array whose order does not matter to the module:
      a decoded JSON status body, a config object, a form state. */
  type Record = map<string, Value>

  /** `$a[$k]`: the stored value, or NULL when the key is absent. */
  function Field(a: Record, k: string): Value {
    if k in a then a[k] else Null
  }

  /** An ordered PHP array with string keys, first-inserted first. */
  type Array<V> = seq<(string, V)>

  /** `$a[$k] ?? NULL`, as an option. */
  function Lookup<V>(a: Array<V>, k: string): Option<V> {
    if a == [] then None
    else if a[0].0 == k then Some(a[0].1)
    else Lookup(a[1..], k)
  }

  /** `$a[$k] = $v`: overwrites the value in place when `k` is a key (its
      position is kept) and appends a new entry at the end otherwise. */
  function Assign<V>(a: Array<V>, k: string, v: V): Array<V> {
    if a == [] then [(k, v)]
    else if a[0].0 == k then [(k, v)] + a[1..]
    else [a[0]] + Assign(a[1..], k, v)
  }

  /** An array literal `array(k1 => v1, k2 => v2, ...)`: entries are assigned
      left to right, so a repeated key keeps its first position and its last value. */
  function Literal<V>(entries: seq<(string, V)>): Array<V> {
    if entries == [] then []
    else
      var last := entries[|entries| - 1];
      Assign(Literal(entries[..|entries| - 1]), last.0, last.1)
  }

  /** `array_filter($a)`: keeps, in order, the entries whose value is truthy. */
  function ArrayFilter(a: Array<Value>): Array<Value> {
    if a == [] then []
    else (if Truthy(a[0].1) then [a[0]] else []) + ArrayFilter(a[1..])
  }

  /** `key($a)` on an array whose internal pointer was never moved: the first
      key, or NULL for an empty array. */
  function KeyOf<V>(a: Array<V>): Option<string> {
    if a == [] then None else Some(a[0].0)
  }

  /** `key(array_filter($a))`: the key of the first truthy entry. */
  function FirstTruthyKey(a: Array<Value>): Option<string> {
    KeyOf(ArrayFilter(a))
  }

  lemma {:induction false} AssignLookup<V>(a: Array<V>, k: string, v: V, k': string)
    ensures Lookup(Assign(a, k, v), k') == if k' == k then Some(v) else Lookup(a, k')
  {
    if a != [] && a[0].0 != k {
      AssignLookup(a[1..], k, v, k');
    }
  }

  lemma {:induction false} AssignLength<V>(a: Array<V>, k: string, v: V)
    ensures |Assign(a, k, v)| == if Lookup(a, k).Some? then |a| else |a| + 1
  {
    if a != [] && a[0].0 != k {
      AssignLength(a[1..], k, v);
    }
  }

  /** Assigning a key the array does not hold appends it at the end. */
  lemma {:induction false} AssignAppends<V>(a: Array<V>, k: string, v: V)
    requires forall i :: 0 <= i < |a| ==> a[i].0 != k
    ensures Assign(a, k, v) == a + [(k, v)]
  {
    if a != [] {
      AssignAppends(a[1..], k, v);
      assert [a[0]] + (a[1..] + [(k, v)]) == a + [(k, v)];
    }
  }

  /** Assigning a key the array holds overwrites it where it first stands. */
  lemma {:induction false} AssignReplaces<V>(a: Array<V>, k: string, v: V, i: nat)
    requires i < |a| && a[i].0 == k
    requires forall j :: 0 <= j < i ==> a[j].0 != k
    ensures Assign(a, k, v) == a[i := (k, v)]
  {
    if i > 0 {
      AssignReplaces(a[1..], k, v, i - 1);
      assert [a[0]] + a[1..][i - 1 := (k, v)] == a[i := (k, v)];
    }
  }

  /** A later entry of an array literal overrides an earlier one with the same key. */
  lemma {:induction false} LiteralLookup<V>(entries: seq<(string, V)>, k: string, i: nat)
    requires i < |entries| && entries[i].0 == k
    requires forall j :: i < j < |entries| ==> entries[j].0 != k
    ensures Lookup(Literal(entries), k) == Some(entries[i].1)
  {
    var n := |entries| - 1;
    var prefix := entries[..n];
    AssignLookup(Literal(prefix), entries[n].0, entries[n].1, k);
    if i < n {
      LiteralLookup(prefix, k, i);
    }
  }

  /** The characterisation of `key(array_filter($a))`: it is NULL exactly when no
      value is truthy, and otherwise the key of the first truthy entry. */
  lemma {:induction false} FirstTruthyKeyIsFirst(a: Array<Value>)
    ensures FirstTruthyKey(a).None? <==> forall i :: 0 <= i < |a| ==> !Truthy(a[i].1)
    ensures FirstTruthyKey(a).Some? ==>
      exists i :: 0 <= i < |a| && a[i].0 == FirstTruthyKey(a).value && Truthy(a[i].1) &&
        forall j :: 0 <= j < i ==> !Truthy(a[j].1)
  {
    if a != [] {
      FirstTruthyKeyIsFirst(a[1..]);
      if !Truthy(a[0].1) {
        assert ArrayFilter(a) == ArrayFilter(a[1..]);
        if FirstTruthyKey(a).Some? {
          var i :| 0 <= i < |a[1..]| && a[1..][i].0 == FirstTruthyKey(a).value && Truthy(a[1..][i].1) &&
            forall j :: 0 <= j < i ==> !Truthy(a[1..][j].1);
          assert a[i + 1].0 == FirstTruthyKey(a).value && Truthy(a[i + 1].1);
          assert forall j :: 0 <= j < i + 1 ==> !Truthy(a[j].1) by {
            forall j | 0 <= j < i + 1 ensures !Truthy(a[j].1) {
              if j > 0 { assert a[j] == a[1..][j - 1]; }
            }
          }
        } else {
          forall i | 0 <= i < |a| ensures !Truthy(a[i].1) {
            if i > 0 { assert a[i] == a[1..][i - 1]; }
          }
        }
      }
    }
  }

  /** Setting one key of an all-falsy array to TRUE leaves exactly that entry
      after `array_filter`. */
  lemma {:induction false} FilterOneHot(a: Array<Value>, k: string)
    requires forall i :: 0 <= i < |a| ==> !Truthy(a[i].1)
    ensures ArrayFilter(Assign(a, k, Bool(true))) == [(k, Bool(true))]
  {
    if a == [] {
    } else if a[0].0 == k {
      AllFalsyFiltersEmpty(a[1..]);
    } else {
      FilterOneHot(a[1..], k);
    }
  }

  lemma {:induction false} AllFalsyFiltersEmpty(a: Array<Value>)
    requires forall i :: 0 <= i < |a| ==> !Truthy(a[i].1)
    ensures ArrayFilter(a) == []
  {
    if a != [] {
      AllFalsyFiltersEmpty(a[1..]);
    }
  }

  // ---------------------------------------------------------------------------
  // explode / implode on a one-character separator

  /** The number of occurrences of `c` in `s`. */
  function Count(c: char, s: string): nat {
    if s == [] then 0 else (if s[0] == c then 1 else 0) + Count(c, s[1..])
  }

  /** `explode($sep, $s)`: the segments of `s` between occurrences of `sep`,
      in order, including empty ones; an empty `s` gives one empty segment. */
  function Explode(sep: char, s: string): (parts: seq<string>)
    ensures |parts| >= 1
  {
    if s == [] then [""]
    else
      var rest := Explode(sep, s[1..]);
      if s[0] == sep then [""] + rest
      else [[s[0]] + rest[0]] + rest[1..]
  }

  /** `implode($sep, $parts)` on a non-empty list. */
  function Implode(sep: char, parts: seq<string>): string
    requires |parts| >= 1
  {
    if |parts| == 1 then parts[0] else parts[0] + [sep] + Implode(sep, parts[1..])
  }

  /** Joining the segments with the separator gives back the exploded text. */
  lemma {:induction false} ImplodeExplode(sep: char, s: string)
    ensures Implode(sep, Explode(sep, s)) == s
  {
    if s != [] {
      ImplodeExplode(sep, s[1..]);
      var rest := Explode(sep, s[1..]);
      if s[0] != sep {
        if |rest| == 1 {
        } else {
          calc {
            Implode(sep, Explode(sep, s));
            ([s[0]] + rest[0]) + [sep] + Implode(sep, rest[1..]);
            [s[0]] + (rest[0] + [sep] + Implode(sep, rest[1..]));
            [s[0]] + Implode(sep, rest);
            s;
          }
        }
      }
    }
  }

  /** One more segment than there are separators, and no segment holds one. */
  lemma {:induction false} ExplodeShape(sep: char, s: string)
    ensures |Explode(sep, s)| == Count(sep, s) + 1
    ensures forall i :: 0 <= i < |Explode(sep, s)| ==> sep !in Explode(sep, s)[i]
  {
    if s != [] {
      ExplodeShape(sep, s[1..]);
      var rest := Explode(sep, s[1..]);
      if s[0] != sep {
        var parts := Explode(sep, s);
        forall i | 0 <= i < |parts| ensures sep !in parts[i] {
          if i == 0 {
            assert parts[0] == [s[0]] + rest[0];
            assert sep !in rest[0];
          } else {
            assert parts[i] == rest[i];
          }
        }
      }
    }
  }

  lemma {:induction false} ExplodeNoSeparator(sep: char, p: string)
    requires sep !in p
    ensures Explode(sep, p) == [p]
  {
    if p != [] {
      assert sep !in p[1..];
      ExplodeNoSeparator(sep, p[1..]);
      assert p[0] != sep;
      assert [p[0]] + p[1..] == p;
    }
  }

  lemma {:induction false} ExplodeSegment(sep: char, p: string, t: string)
    requires sep !in p
    ensures Explode(sep, p + [sep] + t) == [p] + Explode(sep, t)
  {
    var s := p + [sep] + t;
    if p == [] {
      assert s[1..] == t;
    } else {
      assert s[1..] == p[1..] + [sep] + t;
      assert sep !in p[1..];
      ExplodeSegment(sep, p[1..], t);
      assert [p[0]] + p[1..] == p;
    }
  }

  /** Exploding a join of separator-free segments gives back the segments. */
  lemma {:induction false} ExplodeImplode(sep: char, parts: seq<string>)
    requires |parts| >= 1
    requires forall i :: 0 <= i < |parts| ==> sep !in parts[i]
    ensures Explode(sep, Implode(sep, parts)) == parts
  {
    if |parts| == 1 {
      ExplodeNoSeparator(sep, parts[0]);
    } else {
      ExplodeImplode(sep, parts[1..]);
      ExplodeSegment(sep, parts[0], Implode(sep, parts[1..]));
    }
  }
}
