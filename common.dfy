/**
 * Values shared by the REST layer, the schema and the views: optional values and results,
 * the JSON documents that travel in request and response bodies, the Python exceptions that
 * escape to the web framework, and a few small sequence and set helpers.
 */
module Common {

  datatype Option<T> = None | Some(value: T)

  datatype Result<T, E> = Success(value: T) | Failure(error: E)

  /** A JSON document. Objects keep their keys in insertion order, as Python dicts do. */
  datatype Json =
    | JNull
    | JBool(b: bool)
    | JInt(i: int)
    | JStr(s: string)
    | JList(items: seq<Json>)
    | JDict(entries: seq<(string, Json)>)

  /** `d.get(key)` on a JSON object: the value under the first entry with that key. */
  function Lookup(entries: seq<(string, Json)>, key: string): (r: Option<Json>)
    ensures r.Some? <==> exists k :: 0 <= k < |entries| && entries[k].0 == key
    ensures r.Some? ==> exists k :: 0 <= k < |entries| && entries[k] == (key, r.value)
  {
    if entries == [] then None
    else if entries[0].0 == key then Some(entries[0].1)
    else
      var r := Lookup(entries[1..], key);
      assert forall k :: 1 <= k < |entries| ==> entries[k] == entries[1..][k - 1];
      r
  }

  lemma LookupCons(entries: seq<(string, Json)>, key: string)
    requires entries != []
    ensures Lookup(entries, key) == if entries[0].0 == key then Some(entries[0].1) else Lookup(entries[1..], key)
  {
  }

  /**
   * An exception that the view code does not catch and that therefore reaches the web
   * framework, which answers it with a bare 500 page.
   */
  datatype Fault =
    | AssertionFailed(message: string)   // AssertionError
    | AttributeMissing(attribute: string) // AttributeError
    | UnboundLocal(variable: string)      // UnboundLocalError
    | KeyMissing(key: string)             // KeyError
    | NotIterable                         // TypeError: argument of type 'NoneType' is not iterable
    | NotPersisted                        // deleting an instance that was never saved

  function LowerChar(c: char): (r: char)
    ensures 'A' <= c <= 'Z' ==> 'a' <= r <= 'z' && r as int - c as int == 32
    ensures !('A' <= c <= 'Z') ==> r == c
  {
    if 'A' <= c <= 'Z' then (c as int + 32) as char else c
  }

  /** `str.lower()` restricted to ASCII letters. */
  function LowerAscii(s: string): (r: string)
    ensures |r| == |s|
    ensures forall i :: 0 <= i < |s| ==> r[i] == LowerChar(s[i])
  {
    seq(|s|, i requires 0 <= i < |s| => LowerChar(s[i]))
  }

  function Reversed<T>(s: seq<T>): (r: seq<T>)
    ensures |r| == |s|
  {
    if s == [] then [] else Reversed(s[1..]) + [s[0]]
  }

  lemma {:induction false} ReversedSnoc<T>(s: seq<T>, x: T)
    ensures Reversed(s + [x]) == [x] + Reversed(s)
  {
    if s == [] {
      assert s + [x] == [x];
    } else {
      assert (s + [x])[1..] == s[1..] + [x];
      ReversedSnoc(s[1..], x);
    }
  }

  lemma NonEmptyHasElement(s: set<int>)
    requires s != {}
    ensures exists y :: y in s
  {
    if forall y :: y !in s {
      assert false;
    }
  }

  lemma {:induction false} MaxExists(s: set<int>)
    requires s != {}
    ensures exists m :: m in s && forall x :: x in s ==> x <= m
  {
    NonEmptyHasElement(s);
    var y :| y in s;
    if s != {y} {
      MaxExists(s - {y});
      var m :| m in s - {y} && forall x :: x in s - {y} ==> x <= m;
      var top := if y > m then y else m;
      forall x | x in s ensures x <= top {
        if x != y { assert x in s - {y}; }
      }
      assert top in s;
    } else {
      assert forall x :: x in s ==> x <= y;
    }
  }

  lemma {:induction false} MinExists(s: set<int>)
    requires s != {}
    ensures exists m :: m in s && forall x :: x in s ==> m <= x
  {
    NonEmptyHasElement(s);
    var y :| y in s;
    if s != {y} {
      MinExists(s - {y});
      var m :| m in s - {y} && forall x :: x in s - {y} ==> m <= x;
      var bottom := if y < m then y else m;
      forall x | x in s ensures bottom <= x {
        if x != y { assert x in s - {y}; }
      }
      assert bottom in s;
    } else {
      assert forall x :: x in s ==> y <= x;
    }
  }

  function Max(s: set<int>): (m: int)
    requires s != {}
    ensures m in s && forall x :: x in s ==> x <= m
  {
    MaxExists(s);
    var m :| m in s && forall x :: x in s ==> x <= m;
    m
  }

  function Min(s: set<int>): (m: int)
    requires s != {}
    ensures m in s && forall x :: x in s ==> m <= x
  {
    MinExists(s);
    var m :| m in s && forall x :: x in s ==> m <= x;
    m
  }

  predicate StrictlyIncreasing(r: seq<int>) {
    forall i, j :: 0 <= i < j < |r| ==> r[i] < r[j]
  }

  /** The elements of a finite set of integers, least first; AscendingIncreases shows the order. */
  function Ascending(s: set<int>): (r: seq<int>)
    ensures |r| == |s|
    ensures forall x :: x in s <==> x in r
    decreases s
  {
    if s == {} then []
    else
      var m := Min(s);
      var rest := Ascending(s - {m});
      PrependMinimum(s, m, rest);
      [m] + rest
  }

  /** The least element followed by the others lists the whole set. */
  lemma PrependMinimum(s: set<int>, m: int, rest: seq<int>)
    requires m in s
    requires |rest| == |s - {m}| && forall x :: x in s - {m} <==> x in rest
    ensures |[m] + rest| == |s|
    ensures forall x :: x in s <==> x in [m] + rest
  {
    assert |s - {m}| == |s| - 1;
    forall x ensures x in s <==> x in [m] + rest {
      assert x in [m] + rest <==> x == m || x in rest;
      assert x in s <==> x == m || x in s - {m};
    }
  }

  /** Ascending lists the set in strictly increasing order. */
  lemma {:induction false} AscendingIncreases(s: set<int>)
    ensures StrictlyIncreasing(Ascending(s))
    decreases s
  {
    if s != {} {
      var m := Min(s);
      var rest := Ascending(s - {m});
      AscendingIncreases(s - {m});
      var r := [m] + rest;
      assert Ascending(s) == r;
      forall i, j | 0 <= i < j < |r| ensures r[i] < r[j] {
        assert r[j] == rest[j - 1] && rest[j - 1] in s - {m};
        if i > 0 {
          assert r[i] == rest[i - 1];
        }
      }
    }
  }

  /** Decimal rendering of an integer, as Python's `str(i)`. */
  function IntToString(i: int): (r: string)
    ensures |r| > 0
  {
    if i < 0 then "-" + NatToString(-i) else NatToString(i)
  }

  function NatToString(n: nat): (r: string)
    ensures |r| > 0
    ensures forall k :: 0 <= k < |r| ==> '0' <= r[k] <= '9'
  {
    if n < 10 then [(n + '0' as int) as char]
    else NatToString(n / 10) + [(n % 10 + '0' as int) as char]
  }
}
