/** Joining strings with a separator, as JavaScript's `Array.prototype.join` does. */
module Text {

  /** `xs.join(sep)`: the empty list gives the empty string, a single element itself. */
  function Join(xs: seq<string>, sep: string): (r: string)
  {
    if |xs| == 0 then ""
    else if |xs| == 1 then xs[0]
    else xs[0] + sep + Join(xs[1..], sep)
  }

  /** The sum of the lengths of the strings in `xs`. */
  function TotalLength(xs: seq<string>): (n: nat)
  {
    if xs == [] then 0 else |xs[0]| + TotalLength(xs[1..])
  }

  /** A join of n >= 1 strings holds every character of them plus n - 1 separators. */
  lemma {:induction false} JoinLength(xs: seq<string>, sep: string)
    ensures xs == [] ==> Join(xs, sep) == ""
    ensures xs != [] ==> |Join(xs, sep)| == TotalLength(xs) + |sep| * (|xs| - 1)
  {
    if |xs| > 1 {
      JoinLength(xs[1..], sep);
      assert |sep| * (|xs| - 1) == |sep| + |sep| * (|xs[1..]| - 1);
    } else if |xs| == 1 {
      assert xs[1..] == [];
    }
  }

  /** Joining a concatenation puts one separator between the joins of the two parts. */
  lemma {:induction false} JoinAppend(a: seq<string>, b: seq<string>, sep: string)
    requires a != [] && b != []
    ensures Join(a + b, sep) == Join(a, sep) + sep + Join(b, sep)
  {
    if |a| == 1 {
      assert (a + b)[0] == a[0];
      assert (a + b)[1..] == b;
    } else {
      assert (a + b)[0] == a[0];
      assert (a + b)[1..] == a[1..] + b;
      JoinAppend(a[1..], b, sep);
    }
  }
}
