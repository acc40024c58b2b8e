/** Vocabulary shared by every module: identifiers, optional values, and a few facts about collections. */
module Core {
  type Jti = string
  type Scope = string
  type Time = int

  datatype Option<+T> = None | Some(value: T)

  ghost predicate NoDups<T>(s: seq<T>) {
    forall i, j :: 0 <= i < j < |s| ==> s[i] != s[j]
  }

  function Elements<T(==)>(s: seq<T>): set<T> {
    set x | x in s
  }

  lemma {:induction false} SubsetSize<T>(a: set<T>, b: set<T>)
    requires a <= b
    ensures |a| <= |b|
  {
    if a != {} {
      var x :| x in a;
      SubsetSize(a - {x}, b - {x});
    }
  }

  function Min(a: int, b: int): (r: int)
    ensures r <= a && r <= b && (r == a || r == b)
  {
    if a < b then a else b
  }

  /** A string longer than all of these, hence none of them. */
  lemma {:induction false} Longer(used: set<string>) returns (x: string)
    ensures x !in used && forall y :: y in used ==> |y| < |x|
    decreases used
  {
    if used == {} {
      return "x";
    }
    var y :| y in used;
    var rest := Longer(used - {y});
    assert forall z :: z in used ==> z == y || z in used - {y};
    x := if |y| < |rest| then rest else y + "x";
  }
}
