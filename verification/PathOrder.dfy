/** Paths in the order of their characters, as the sort package compares strings. */
module PathOrder {
  import opened Sorting

  predicate PathLe(a: string, b: string) {
    a == "" || (b != "" && (a[0] < b[0] || (a[0] == b[0] && PathLe(a[1..], b[1..]))))
  }

  lemma {:induction false} PathLeTotal(a: string, b: string)
    ensures PathLe(a, b) || PathLe(b, a)
    decreases |a|
  {
    if a != "" && b != "" && a[0] == b[0] { PathLeTotal(a[1..], b[1..]); }
  }

  lemma {:induction false} PathLeTransitive(a: string, b: string, c: string)
    requires PathLe(a, b) && PathLe(b, c)
    ensures PathLe(a, c)
    decreases |a|
  {
    if a != "" && b != "" && c != "" && a[0] == b[0] && b[0] == c[0] { PathLeTransitive(a[1..], b[1..], c[1..]); }
  }

  lemma PathLeIsOrder()
    ensures TotalPreorder(PathLe)
  {
    forall a, b
      ensures PathLe(a, b) || PathLe(b, a)
    {
      PathLeTotal(a, b);
    }
    forall a, b, c | PathLe(a, b) && PathLe(b, c)
      ensures PathLe(a, c)
    {
      PathLeTransitive(a, b, c);
    }
  }
}
