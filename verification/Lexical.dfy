/** Orders on sequences: how strings and rows compare. */
module Lexical {
  ghost predicate TotalOrder<T(!new)>(less: (T, T) -> bool) {
    && (forall a :: !less(a, a))
    && (forall a, b :: less(a, b) || less(b, a) || a == b)
    && (forall a, b, c :: less(a, b) && less(b, c) ==> less(a, c))
  }

  predicate Lex<T(==)>(a: seq<T>, b: seq<T>, less: (T, T) -> bool) {
    if a == [] || b == [] then a == [] && b != []
    else less(a[0], b[0]) || (a[0] == b[0] && Lex(a[1..], b[1..], less))
  }

  predicate CharLess(a: char, b: char) {
    a < b
  }

  lemma {:induction false} LexIrreflexive<T(!new)>(a: seq<T>, less: (T, T) -> bool)
    requires TotalOrder(less)
    ensures !Lex(a, a, less)
  {
    if a != [] {
      LexIrreflexive(a[1..], less);
    }
  }

  lemma {:induction false} LexTotal<T(!new)>(a: seq<T>, b: seq<T>, less: (T, T) -> bool)
    requires TotalOrder(less)
    ensures Lex(a, b, less) || Lex(b, a, less) || a == b
  {
    if a != [] && b != [] {
      LexTotal(a[1..], b[1..], less);
      assert a == [a[0]] + a[1..] && b == [b[0]] + b[1..];
    }
  }

  lemma {:induction false} LexTransitive<T(!new)>(a: seq<T>, b: seq<T>, c: seq<T>, less: (T, T) -> bool)
    requires TotalOrder(less) && Lex(a, b, less) && Lex(b, c, less)
    ensures Lex(a, c, less)
  {
    if a != [] && b != [] && c != [] && a[0] == b[0] && b[0] == c[0] {
      LexTransitive(a[1..], b[1..], c[1..], less);
    }
  }

  predicate StringLess(a: string, b: string) {
    Lex(a, b, CharLess)
  }

  lemma StringOrder()
    ensures TotalOrder(StringLess)
  {
    assert TotalOrder(CharLess);
    forall a: string ensures !StringLess(a, a) {
      LexIrreflexive(a, CharLess);
    }
    forall a: string, b: string ensures StringLess(a, b) || StringLess(b, a) || a == b {
      LexTotal(a, b, CharLess);
    }
    forall a: string, b: string, c: string | StringLess(a, b) && StringLess(b, c) ensures StringLess(a, c) {
      LexTransitive(a, b, c, CharLess);
    }
  }
}
