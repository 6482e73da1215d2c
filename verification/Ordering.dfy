/** Lexicographic order on sequences, as Rust's derived `Ord` gives it to strings and byte arrays. */
module Ordering {
  ghost predicate StrictTotal<T(!new)>(less: (T, T) -> bool) {
    && (forall x :: !less(x, x))
    && (forall x, y, z :: less(x, y) && less(y, z) ==> less(x, z))
    && (forall x, y :: x != y ==> less(x, y) || less(y, x))
  }

  predicate LexLess<T(==)>(less: (T, T) -> bool, a: seq<T>, b: seq<T>) {
    if b == [] then false
    else if a == [] then true
    else if a[0] == b[0] then LexLess(less, a[1..], b[1..])
    else less(a[0], b[0])
  }

  lemma {:induction false} LexIrreflexive<T(!new)>(less: (T, T) -> bool, a: seq<T>)
    requires StrictTotal(less)
    ensures !LexLess(less, a, a)
  {
    if a != [] {
      LexIrreflexive(less, a[1..]);
    }
  }

  lemma {:induction false} LexTransitive<T(!new)>(less: (T, T) -> bool, a: seq<T>, b: seq<T>, c: seq<T>)
    requires StrictTotal(less) && LexLess(less, a, b) && LexLess(less, b, c)
    ensures LexLess(less, a, c)
  {
    if a != [] && a[0] == b[0] && b[0] == c[0] {
      LexTransitive(less, a[1..], b[1..], c[1..]);
    }
  }

  lemma {:induction false} LexConnected<T(!new)>(less: (T, T) -> bool, a: seq<T>, b: seq<T>)
    requires StrictTotal(less) && a != b
    ensures LexLess(less, a, b) || LexLess(less, b, a)
  {
    if a != [] && b != [] && a[0] == b[0] {
      assert a == [a[0]] + a[1..] && b == [b[0]] + b[1..];
      LexConnected(less, a[1..], b[1..]);
    }
  }

  predicate CharLess(x: char, y: char) { x < y }

  predicate TextLess(a: string, b: string) { LexLess(CharLess, a, b) }

  predicate ByteLess(x: bv8, y: bv8) { x < y }

  predicate BytesLess(a: seq<bv8>, b: seq<bv8>) { LexLess(ByteLess, a, b) }

  lemma CharOrder()
    ensures StrictTotal(CharLess)
  {
  }

  lemma ByteOrder()
    ensures StrictTotal(ByteLess)
  {
  }

  lemma TextOrder(a: string, b: string, c: string)
    ensures !TextLess(a, a)
    ensures a != b ==> TextLess(a, b) || TextLess(b, a)
    ensures TextLess(a, b) && TextLess(b, c) ==> TextLess(a, c)
  {
    CharOrder();
    LexIrreflexive(CharLess, a);
    if a != b {
      LexConnected(CharLess, a, b);
    }
    if TextLess(a, b) && TextLess(b, c) {
      LexTransitive(CharLess, a, b, c);
    }
  }

  lemma BytesOrder(a: seq<bv8>, b: seq<bv8>, c: seq<bv8>)
    ensures !BytesLess(a, a)
    ensures a != b ==> BytesLess(a, b) || BytesLess(b, a)
    ensures BytesLess(a, b) && BytesLess(b, c) ==> BytesLess(a, c)
  {
    ByteOrder();
    LexIrreflexive(ByteLess, a);
    if a != b {
      LexConnected(ByteLess, a, b);
    }
    if BytesLess(a, b) && BytesLess(b, c) {
      LexTransitive(ByteLess, a, b, c);
    }
  }
}
