/** The order SQLite gives to TEXT values: character by character, a proper prefix first. */
module TextOrder {

  predicate TextLt(a: string, b: string) {
    if b == "" then false
    else if a == "" then true
    else a[0] < b[0] || (a[0] == b[0] && TextLt(a[1..], b[1..]))
  }

  predicate TextLe(a: string, b: string) {
    !TextLt(b, a)
  }

  lemma {:induction false} TextTotal(a: string, b: string)
    ensures TextLt(a, b) || a == b || TextLt(b, a)
    ensures !(TextLt(a, b) && TextLt(b, a))
    ensures !TextLt(a, a)
  {
    if a != "" && b != "" {
      TextTotal(a[1..], b[1..]);
      assert a == [a[0]] + a[1..] && b == [b[0]] + b[1..];
    }
    if a != "" {
      TextTotal(a[1..], a[1..]);
    }
  }

  lemma {:induction false} TextTransitive(a: string, b: string, c: string)
    requires TextLt(a, b) && TextLt(b, c)
    ensures TextLt(a, c)
  {
    if a != "" && a[0] == b[0] && b[0] == c[0] {
      TextTransitive(a[1..], b[1..], c[1..]);
    }
  }
}
