/** Small shared vocabulary: optional values, fallible results and row lookup. */
module Prelude {

  /** A primary key. Source identifiers are UUIDs; only their equality matters. */
  type Id = nat

  datatype Option<+T> = None | Some(value: T) {
    function Or(other: Option<T>): Option<T> {
      if Some? then this else other
    }
  }

  datatype Result<+T, +E> = Ok(value: T) | Err(error: E)

  /** Index of the first row satisfying `p`, as `SELECT ... WHERE p` on a table whose
      matching row is unique. */
  function Find<T>(rows: seq<T>, p: T -> bool): (r: Option<nat>)
    ensures r.Some? ==> r.value < |rows| && p(rows[r.value])
    ensures r.Some? ==> forall j | 0 <= j < r.value :: !p(rows[j])
    ensures r.None? ==> forall j | 0 <= j < |rows| :: !p(rows[j])
  {
    if |rows| == 0 then None
    else if p(rows[0]) then Some(0)
    else match Find(rows[1..], p)
         case None => None
         case Some(i) => Some(i + 1)
  }

  function Max(a: int, b: int): int {
    if a < b then b else a
  }

  function Min(a: int, b: int): int {
    if a < b then a else b
  }

  lemma {:induction false} SubsetSize<T>(s: set<T>, t: set<T>)
    requires s <= t
    ensures |s| <= |t|
  {
    if s != {} {
      var x :| x in s;
      SubsetSize(s - {x}, t - {x});
    }
  }

  lemma Scale(k: nat, x: int, y: int)
    requires x <= y
    ensures k * x <= k * y
  {
    assert k * (y - x) >= 0;
    assert k * y == k * x + k * (y - x);
  }

  /** The keys whose value satisfies `p`. */
  function Where<S>(m: map<Id, S>, p: S -> bool): set<Id> {
    set k | k in m && p(m[k])
  }

  function Flag(b: bool): nat {
    if b then 1 else 0
  }

  /** Overwriting one key changes the count by what that key gains or loses. */
  lemma WhereMoves<S>(m: map<Id, S>, p: S -> bool, k: Id, v: S)
    ensures |Where(m[k := v], p)| + Flag(k in m && p(m[k])) == |Where(m, p)| + Flag(p(v))
  {
    assert Where(m[k := v], p) == if p(v) then Where(m, p) + {k} else Where(m, p) - {k};
    assert k in Where(m, p) <==> k in m && p(m[k]);
  }

  /** Some id is not yet in use. */
  lemma {:induction false} FreshId(used: set<Id>) returns (id: Id)
    ensures id !in used && forall k | k in used :: k < id
  {
    if used == {} {
      id := 0;
    } else {
      var k :| k in used;
      var other := FreshId(used - {k});
      id := Max(other, k + 1);
      assert used == (used - {k}) + {k};
    }
  }
}
