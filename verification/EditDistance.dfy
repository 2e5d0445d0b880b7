/** The edit distance behind "did you mean" suggestions. */
module EditDistance {

  function Min(a: nat, b: nat): nat {
    if a < b then a else b
  }

  function Cost(x: char, y: char): nat {
    if x == y then 0 else 1
  }

  /** Of the last characters: insert one, delete one, or turn one into the other. */
  function Dist(a: string, b: string): nat
    decreases |a| + |b|
  {
    if a == "" then |b|
    else if b == "" then |a|
    else
      Min(Dist(a, b[..|b| - 1]) + 1,
          Min(Dist(a[..|a| - 1], b) + 1,
              Dist(a[..|a| - 1], b[..|b| - 1]) + Cost(a[|a| - 1], b[|b| - 1])))
  }

  lemma {:induction false} Symmetric(a: string, b: string)
    ensures Dist(a, b) == Dist(b, a)
    decreases |a| + |b|
  {
    if a != "" && b != "" {
      Symmetric(a, b[..|b| - 1]);
      Symmetric(a[..|a| - 1], b);
      Symmetric(a[..|a| - 1], b[..|b| - 1]);
    }
  }

  // ---- What the number means ----

  datatype Edit = Keep | Substitute | Insert | Delete

  /** The edits, taken from the ends of both strings, turn `a` into `b`. */
  predicate Turns(edits: seq<Edit>, a: string, b: string)
    decreases |edits|
  {
    if edits == [] then a == "" && b == "" else
      var rest := edits[..|edits| - 1];
      match edits[|edits| - 1]
      case Keep => a != "" && b != "" && a[|a| - 1] == b[|b| - 1] && Turns(rest, a[..|a| - 1], b[..|b| - 1])
      case Substitute => a != "" && b != "" && Turns(rest, a[..|a| - 1], b[..|b| - 1])
      case Insert => b != "" && Turns(rest, a, b[..|b| - 1])
      case Delete => a != "" && Turns(rest, a[..|a| - 1], b)
  }

  function Price(edits: seq<Edit>): nat {
    if edits == [] then 0 else
      Price(edits[..|edits| - 1]) + if edits[|edits| - 1] == Keep then 0 else 1
  }

  /** No way of editing `a` into `b` takes fewer insertions, deletions and substitutions. */
  lemma {:induction false} NothingCheaper(edits: seq<Edit>, a: string, b: string)
    requires Turns(edits, a, b)
    ensures Price(edits) >= Dist(a, b)
    decreases |edits|
  {
    if edits != [] {
      var rest := edits[..|edits| - 1];
      match edits[|edits| - 1]
      case Keep => NothingCheaper(rest, a[..|a| - 1], b[..|b| - 1]);
      case Substitute => NothingCheaper(rest, a[..|a| - 1], b[..|b| - 1]);
      case Insert => NothingCheaper(rest, a, b[..|b| - 1]);
      case Delete => NothingCheaper(rest, a[..|a| - 1], b);
    }
  }

  /** And some way takes exactly that many. */
  lemma {:induction false} SomeEditsReachIt(a: string, b: string) returns (edits: seq<Edit>)
    ensures Turns(edits, a, b) && Price(edits) == Dist(a, b)
    decreases |a| + |b|
  {
    if a == "" && b == "" {
      return [];
    }
    var rest, last;
    if a == "" || (b != "" && Dist(a, b) == Dist(a, b[..|b| - 1]) + 1) {
      rest := SomeEditsReachIt(a, b[..|b| - 1]);
      last := Insert;
    } else if b == "" || Dist(a, b) == Dist(a[..|a| - 1], b) + 1 {
      rest := SomeEditsReachIt(a[..|a| - 1], b);
      last := Delete;
    } else {
      rest := SomeEditsReachIt(a[..|a| - 1], b[..|b| - 1]);
      last := if a[|a| - 1] == b[|b| - 1] then Keep else Substitute;
    }
    edits := rest + [last];
    assert edits[..|edits| - 1] == rest;
  }

  // ---- The two-row algorithm ----

  /** `row` holds the distances from `a` to every prefix of `b`. */
  predicate IsRow(row: array<nat>, a: string, b: string)
    reads row
  {
    row.Length == |b| + 1 && forall j :: 0 <= j <= |b| ==> row[j] == Dist(a, b[..j])
  }

  /** One cell from its three neighbours. */
  lemma Cell(a: string, b: string, i: nat, j: nat)
    requires 0 < i <= |a| && 0 < j <= |b|
    ensures Dist(a[..i], b[..j])
         == Min(Dist(a[..i], b[..j - 1]) + 1,
                Min(Dist(a[..i - 1], b[..j]) + 1, Dist(a[..i - 1], b[..j - 1]) + Cost(a[i - 1], b[j - 1])))
  {
    assert a[..i][..i - 1] == a[..i - 1] && b[..j][..j - 1] == b[..j - 1];
  }

  /** The inner loop: fills the row of `a[..i]` from the row above it. */
  method FillRow(a: string, b: string, i: nat, prev: array<nat>, curr: array<nat>)
    requires 0 < i <= |a| && prev != curr && prev.Length == curr.Length == |b| + 1
    requires IsRow(prev, a[..i - 1], b)
    modifies curr
    ensures IsRow(curr, a[..i], b)
  {
    curr[0] := i;
    assert a[..i] != "" && b[..0] == "";
    for j := 1 to |b| + 1
      invariant IsRow(prev, a[..i - 1], b)
      invariant forall k :: 0 <= k < j ==> curr[k] == Dist(a[..i], b[..k])
    {
      Cell(a, b, i, j);
      var cost := if a[i - 1] == b[j - 1] then 0 else 1;
      var ins, del, sub := curr[j - 1] + 1, prev[j] + 1, prev[j - 1] + cost;
      curr[j] := Min(ins, Min(del, sub));
    }
  }

  /** The two-row loop computes the distance, whichever string is the longer. */
  method Levenshtein(x: string, y: string) returns (distance: nat)
    ensures distance == Dist(x, y)
  {
    var a, b := x, y;
    if |a| < |b| {
      a, b := b, a;
    }
    Symmetric(x, y);
    if |b| == 0 {
      return |a|;
    }
    var prev, curr := new nat[|b| + 1], new nat[|b| + 1];
    for j := 0 to |b| + 1
      invariant forall k :: 0 <= k < j ==> prev[k] == k
    {
      prev[j] := j;
    }
    assert forall j :: 0 <= j <= |b| ==> Dist(a[..0], b[..j]) == j;
    for i := 1 to |a| + 1
      invariant prev.Length == curr.Length == |b| + 1 && prev != curr && fresh(prev) && fresh(curr)
      invariant IsRow(prev, a[..i - 1], b)
    {
      FillRow(a, b, i, prev, curr);
      prev, curr := curr, prev;
    }
    assert a[..|a|] == a && b[..|b|] == b;
    distance := prev[|b|];
  }
}
