/** Values shared by every part of the dashboard model: optional values, parsed
    JSON values, HTTP responses and the `Array.prototype.filter` the handlers use. */
module Common {

  datatype Option<+T> = None | Some(value: T)

  /** The identifier of a signed-in user, as handed out by the session provider. */
  type UserId = string

  /** A JSON value after the platform has parsed it. Numbers are integers here
      (fractions and NaN are not part of the model). */
  datatype Json =
    | JNull
    | JBool(b: bool)
    | JNumber(n: int)
    | JString(s: string)
    | JArray(items: seq<Json>)
    | JObject(fields: map<string, Json>)

  /** JavaScript truthiness of a parsed JSON value: null, false, 0 and "" are falsy. */
  predicate Truthy(j: Json) {
    match j
    case JNull => false
    case JBool(b) => b
    case JNumber(n) => n != 0
    case JString(s) => s != ""
    case JArray(_) => true
    case JObject(_) => true
  }

  /** Truthiness of an optional string field: absent, null and "" are all falsy. */
  predicate Present(s: Option<string>) {
    s.Some? && s.value != ""
  }

  /** `a || b` on optional strings: the first operand when truthy, else the second. */
  function OrElse(a: Option<string>, b: Option<string>): (r: Option<string>)
    ensures Present(r) <==> Present(a) || Present(b)
    ensures Present(a) ==> r == a
    ensures !Present(a) ==> r == b
  {
    if Present(a) then a else b
  }

  /** The field `key` of a JSON object; None when the value is not an object or lacks it. */
  function Field(j: Json, key: string): (r: Option<Json>)
    ensures r.Some? <==> j.JObject? && key in j.fields
    ensures r.Some? ==> r.value == j.fields[key]
  {
    if j.JObject? && key in j.fields then Some(j.fields[key]) else None
  }

  /** An HTTP response: a status code and a route-specific body. */
  datatype Response<+B> = Response(status: nat, body: B)

  /** `s.filter(keep)`: the elements of `s` that satisfy `keep`, in their original order. */
  function Filter<T>(s: seq<T>, keep: T -> bool): (r: seq<T>)
    ensures |r| <= |s|
    ensures forall x :: x in r ==> x in s && keep(x)
    ensures forall i :: 0 <= i < |s| && keep(s[i]) ==> s[i] in r
  {
    if s == [] then []
    else if keep(s[0]) then [s[0]] + Filter(s[1..], keep)
    else Filter(s[1..], keep)
  }

  /** Filtering keeps every qualifying element as many times as it occurs, and
      no other element. */
  lemma {:induction false} FilterMultiset<T(!new)>(s: seq<T>, keep: T -> bool)
    ensures forall x :: multiset(Filter(s, keep))[x] == if keep(x) then multiset(s)[x] else 0
  {
    if s != [] {
      FilterMultiset(s[1..], keep);
      assert s == [s[0]] + s[1..];
    }
  }

  /** Filtering distributes over concatenation. */
  lemma {:induction false} FilterAppend<T(!new)>(a: seq<T>, b: seq<T>, keep: T -> bool)
    ensures Filter(a + b, keep) == Filter(a, keep) + Filter(b, keep)
  {
    if a == [] {
      assert a + b == b;
    } else {
      assert (a + b)[0] == a[0] && (a + b)[1..] == a[1..] + b;
      FilterAppend(a[1..], b, keep);
    }
  }

  /** Filtering keeps nothing exactly when no element qualifies, and everything
      exactly when every element does. */
  lemma {:induction false} FilterKeepsAllOrNone<T(!new)>(s: seq<T>, keep: T -> bool)
    ensures |Filter(s, keep)| == 0 <==> forall i :: 0 <= i < |s| ==> !keep(s[i])
    ensures |Filter(s, keep)| == |s| <==> forall i :: 0 <= i < |s| ==> keep(s[i])
  {
    if s != [] {
      FilterKeepsAllOrNone(s[1..], keep);
      assert forall i :: 1 <= i < |s| ==> s[i] == s[1..][i - 1];
    }
  }

  /** The positions of `s` whose element satisfies `keep`. */
  function Positions<T(!new)>(s: seq<T>, keep: T -> bool): (ps: set<int>)
    ensures forall i :: i in ps <==> 0 <= i < |s| && keep(s[i])
  {
    set i | 0 <= i < |s| && keep(s[i])
  }

  /** The length of a filtered sequence counts the positions whose element qualifies. */
  lemma {:induction false} FilterCount<T(!new)>(s: seq<T>, keep: T -> bool)
    ensures |Filter(s, keep)| == |Positions(s, keep)|
  {
    if s == [] {
      assert Positions(s, keep) == {};
    } else {
      var n := |s| - 1;
      FilterCount(s[..n], keep);
      FilterSnoc(s, keep);
      PositionsSnoc(s, keep);
    }
  }

  /** Filtering a non-empty sequence: the filtered prefix, then the last element
      if it qualifies. */
  lemma FilterSnoc<T(!new)>(s: seq<T>, keep: T -> bool)
    requires s != []
    ensures |Filter(s, keep)| == |Filter(s[..|s| - 1], keep)| + if keep(s[|s| - 1]) then 1 else 0
  {
    var n := |s| - 1;
    assert s == s[..n] + [s[n]];
    FilterAppend(s[..n], [s[n]], keep);
    assert [s[n]][1..] == [];
  }

  /** The qualifying positions of a non-empty sequence: those of its prefix, and
      the last position if its element qualifies. */
  lemma PositionsSnoc<T(!new)>(s: seq<T>, keep: T -> bool)
    requires s != []
    ensures |Positions(s, keep)| == |Positions(s[..|s| - 1], keep)| + if keep(s[|s| - 1]) then 1 else 0
  {
    var n := |s| - 1;
    var before := Positions(s[..n], keep);
    assert forall i :: i in before <==> 0 <= i < n && keep(s[i]);
    if keep(s[n]) {
      assert Positions(s, keep) == before + {n};
    } else {
      assert Positions(s, keep) == before;
    }
  }

  /** `r` can be obtained from `s` by deleting elements, without reordering any:
      the head of `s` is either kept as the head of `r` or dropped. */
  predicate IsSubsequence<T(==)>(r: seq<T>, s: seq<T>)
    decreases |s|
  {
    if s == [] then r == []
    else (r != [] && r[0] == s[0] && IsSubsequence(r[1..], s[1..])) || IsSubsequence(r, s[1..])
  }

  /** Filtering keeps the surviving elements in their original order. */
  lemma {:induction false} FilterIsSubsequence<T(!new)>(s: seq<T>, keep: T -> bool)
    ensures IsSubsequence(Filter(s, keep), s)
  {
    if s != [] {
      FilterIsSubsequence(s[1..], keep);
      if keep(s[0]) {
        var r := Filter(s, keep);
        assert r[0] == s[0] && r[1..] == Filter(s[1..], keep);
      }
    }
  }
}
