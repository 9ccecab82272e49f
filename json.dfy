/**
 * Decoded JSON documents, and the Python operators the dispatcher applies to
 * them: `k in v`, `v[k]`, `dict.get`, truthiness, `v == n` and iteration.
 */
module Json {
  import opened Wrappers

  /** A decoded JSON value. An object keeps its members as the (key, value)
      pairs of the document, in document order. Numbers are integers. */
  datatype Json =
    | Null
    | Bool(b: bool)
    | Num(n: int)
    | Str(s: string)
    | Arr(items: seq<Json>)
    | Obj(fields: seq<(string, Json)>)

  type Fields = seq<(string, Json)>

  predicate HasKey(fields: Fields, k: string) {
    exists i :: 0 <= i < |fields| && fields[i].0 == k
  }

  /** The value a Python dict built from `fields` holds for `k`: as with
      `json.loads`, a later pair with the same key overrides an earlier one. */
  function Lookup(fields: Fields, k: string): (r: Option<Json>)
    ensures r.Some? <==> HasKey(fields, k)
    ensures r.Some? ==> exists i :: 0 <= i < |fields| && fields[i] == (k, r.value) &&
                                    forall j :: i < j < |fields| ==> fields[j].0 != k
  {
    if fields == [] then None
    else if fields[|fields| - 1].0 == k then Some(fields[|fields| - 1].1)
    else Lookup(fields[..|fields| - 1], k)
  }

  /** The keys of the dict built from `fields`, in its iteration order: each
      key once, where it first occurs. */
  function Keys(fields: Fields): (r: seq<string>)
    ensures forall i, j :: 0 <= i < j < |r| ==> r[i] != r[j]
    ensures forall k :: k in r <==> HasKey(fields, k)
  {
    if fields == [] then []
    else
      var ks := Keys(fields[..|fields| - 1]);
      var k := fields[|fields| - 1].0;
      assert forall k' :: HasKey(fields, k') <==> HasKey(fields[..|fields| - 1], k') || k' == k by {
        forall k' | HasKey(fields, k') ensures HasKey(fields[..|fields| - 1], k') || k' == k {
          var i :| 0 <= i < |fields| && fields[i].0 == k';
          if i < |fields| - 1 { assert fields[..|fields| - 1][i].0 == k'; }
        }
        forall k' | HasKey(fields[..|fields| - 1], k') ensures HasKey(fields, k') {
          var i :| 0 <= i < |fields| - 1 && fields[..|fields| - 1][i].0 == k';
          assert fields[i].0 == k';
        }
      }
      if k in ks then ks else ks + [k]
  }

  /** `r` lists keys of `fields` in the order of their first occurrence: every
      occurrence of a later key comes after some occurrence of each earlier one. */
  predicate FirstOccurrenceOrder(fields: Fields, r: seq<string>) {
    forall i, j, q :: 0 <= i < j < |r| && 0 <= q < |fields| && fields[q].0 == r[j] ==>
      HasKey(fields[..q], r[i])
  }

  /** Iterating a dict follows the first occurrence of each key. */
  lemma {:induction false} KeysInFirstOccurrenceOrder(fields: Fields)
    ensures FirstOccurrenceOrder(fields, Keys(fields))
  {
    if fields != [] {
      var n := |fields| - 1;
      var pre := fields[..n];
      var ks := Keys(pre);
      var k := fields[n].0;
      var r := Keys(fields);
      KeysInFirstOccurrenceOrder(pre);
      assert FirstOccurrenceOrder(pre, ks);
      assert HasKey(fields, k);
      forall i, j, q | 0 <= i < j < |r| && 0 <= q < |fields| && fields[q].0 == r[j]
        ensures HasKey(fields[..q], r[i])
      {
        assert r[..|ks|] == ks;
        if q < n {
          assert pre[q] == fields[q] && HasKey(pre, r[j]);
          assert j < |ks|;
          assert pre[..q] == fields[..q];
        } else if j < |ks| {
          assert k in ks && HasKey(pre, k);
          var q' :| 0 <= q' < n && pre[q'].0 == k;
          assert ks[j] == k;
          assert HasKey(pre[..q'], ks[i]);
          var p :| 0 <= p < q' && pre[..q'][p].0 == ks[i];
          assert fields[..q][p].0 == r[i];
        } else {
          assert ks[i] in ks && HasKey(pre, ks[i]);
          assert fields[..q] == pre;
        }
      }
    }
  }

  predicate SubstringAt(k: string, s: string, i: int) {
    0 <= i && i + |k| <= |s| && s[i..i + |k|] == k
  }

  /** Python's `k in v` for a string `k`: key membership in a dict, element
      membership in a list, substring in a string; other values are not
      iterable. */
  function Contains(v: Json, k: string): (r: Result<bool>)
    // `in` raises, with TypeError, exactly on the values a `for` loop rejects
    ensures r.Err? <==> Iterate(v).Err?
    ensures r.Err? ==> r.error == TypeError
    // on a dict, the membership test passes exactly when the subscript succeeds
    ensures v.Obj? ==> (r == Ok(true) <==> Index(v, k).Ok?)
    // on a list or a dict, `k in v` agrees with `k in list(v)`
    ensures v.Obj? || v.Arr? ==> (r == Ok(true) <==> Str(k) in Iterate(v).value)
    // on a string, a one-character `k` is found exactly when iteration visits it
    ensures v.Str? && |k| == 1 ==> (r == Ok(true) <==> Str(k) in Iterate(v).value)
    ensures v.Str? && (k == "" || k == v.s) ==> r == Ok(true)
    ensures v.Str? && |k| > |v.s| ==> r == Ok(false)
  {
    match v
    case Obj(fields) => Ok(HasKey(fields, k))
    case Arr(items) => Ok(Str(k) in items)
    case Str(s) =>
      assert SubstringAt(s, s, 0);
      assert SubstringAt("", s, 0);
      assert |k| == 1 ==> ((exists i | 0 <= i <= |s| :: SubstringAt(k, s, i)) <==> Str(k) in Chars(s)) by {
        if |k| == 1 { CharFound(s, k); }
      }
      Ok(exists i | 0 <= i <= |s| :: SubstringAt(k, s, i))
    case _ => Err(TypeError)
  }

  /** Python's `v[k]` for a string `k`: only a dict accepts a string subscript,
      and a missing key raises KeyError. */
  function Index(v: Json, k: string): (r: Result<Json>)
    ensures r == Err(TypeError) <==> !v.Obj?
    ensures r == Err(KeyError(k)) <==> v.Obj? && !HasKey(v.fields, k)
    ensures r.Ok? <==> v.Obj? && HasKey(v.fields, k)
    // the value is the one of the last pair carrying `k` (see Lookup)
    ensures r.Ok? ==> Lookup(v.fields, k) == Some(r.value)
  {
    match v
    case Obj(fields) =>
      (match Lookup(fields, k)
       case Some(x) => Ok(x)
       case None => Err(KeyError(k)))
    case _ => Err(TypeError)
  }

  /** Python's `d.get(k)` on a dict: the value, or None when the key is absent. */
  function Get(fields: Fields, k: string): (r: Json)
    // the `is None` test cannot tell an absent key from a null value
    ensures r == Null <==> !HasKey(fields, k) || Lookup(fields, k) == Some(Null)
    // where the subscript succeeds, `d.get(k)` agrees with `d[k]`
    ensures Index(Obj(fields), k).Ok? ==> r == Index(Obj(fields), k).value
  {
    match Lookup(fields, k)
    case Some(x) => x
    case None => Null
  }

  /** Python truthiness of a decoded value. */
  predicate Truthy(v: Json) {
    match v
    case Null => false
    case Bool(b) => b
    case Num(n) => n != 0
    case Str(s) => s != ""
    case Arr(items) => items != []
    case Obj(fields) => fields != []
  }

  /** Python's `v == n` for an int `n`: a bool compares as 0 or 1. */
  predicate EqualsInt(v: Json, n: int) {
    match v
    case Num(m) => m == n
    case Bool(b) => (if b then 1 else 0) == n
    case _ => false
  }

  /** The text a sequence of strings spells out, as `"".join(xs)`. */
  function Join(xs: seq<Json>): string
    requires forall x :: x in xs ==> x.Str?
  {
    if xs == [] then ""
    else Join(xs[..|xs| - 1]) + xs[|xs| - 1].s
  }

  /** The one-character strings of `s`, in order. */
  function Chars(s: string): (r: seq<Json>)
    ensures |r| == |s|
    ensures forall i :: 0 <= i < |s| ==> r[i] == Str([s[i]])
    // joining the characters back gives the string again
    ensures Join(r) == s
  {
    if s == [] then []
    else
      var r := Chars(s[..|s| - 1]) + [Str([s[|s| - 1]])];
      assert r[..|r| - 1] == Chars(s[..|s| - 1]);
      assert s == s[..|s| - 1] + [s[|s| - 1]];
      r
  }

  /** A one-character string occurs at `i` exactly when it is the character there. */
  lemma CharAt(s: string, k: string, i: int)
    requires |k| == 1 && 0 <= i < |s|
    ensures SubstringAt(k, s, i) <==> Chars(s)[i] == Str(k)
  {
    assert s[i..i + 1] == [s[i]];
  }

  /** A one-character string occurs in `s` exactly when it is one of its characters. */
  lemma CharFound(s: string, k: string)
    requires |k| == 1
    ensures (exists i | 0 <= i <= |s| :: SubstringAt(k, s, i)) <==> Str(k) in Chars(s)
  {
    var cs := Chars(s);
    forall i | 0 <= i < |s| ensures SubstringAt(k, s, i) <==> cs[i] == Str(k) {
      CharAt(s, k, i);
    }
    assert !SubstringAt(k, s, |s|);
  }

  /** The elements a Python `for` loop visits in `v`: a list's items, a
      string's one-character strings, a dict's keys; other values raise. */
  function Iterate(v: Json): (r: Result<seq<Json>>)
    ensures r.Err? <==> v.Null? || v.Bool? || v.Num?
    ensures r.Err? ==> r.error == TypeError
    ensures v.Arr? ==> r == Ok(v.items)
    // a string is visited one character at a time, and nothing is lost
    ensures v.Str? ==> r.Ok? && |r.value| == |v.s| &&
                       (forall x :: x in r.value ==> x.Str? && |x.s| == 1) && Join(r.value) == v.s
    // a dict is visited once per key, and every visited key can be subscripted
    ensures v.Obj? ==> r.Ok? && (forall i, j :: 0 <= i < j < |r.value| ==> r.value[i] != r.value[j]) &&
                       (forall x :: x in r.value <==> x.Str? && HasKey(v.fields, x.s)) &&
                       (forall x :: x in r.value ==> Index(v, x.s).Ok?) &&
                       // in the order of Keys, which is first-occurrence order
                       |r.value| == |Keys(v.fields)| &&
                       (forall i :: 0 <= i < |r.value| ==> r.value[i] == Str(Keys(v.fields)[i]))
  {
    match v
    case Arr(items) => Ok(items)
    case Str(s) => Ok(Chars(s))
    case Obj(fields) =>
      var ks := Keys(fields);
      var r := seq(|ks|, i requires 0 <= i < |ks| => Str(ks[i]));
      assert forall x: Json :: x in r <==> x.Str? && x.s in ks by {
        forall x: Json | x.Str? && x.s in ks ensures x in r {
          var i :| 0 <= i < |ks| && ks[i] == x.s;
          assert r[i] == x;
        }
      }
      Ok(r)
    case _ => Err(TypeError)
  }
}
