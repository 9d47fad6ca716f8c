/** Regrouping of concatenations: appending a left-nested chain one piece at a time. */
module Sequences {

  lemma Assoc3<T>(x: seq<T>, a: seq<T>, b: seq<T>)
    ensures x + (a + b) == x + a + b
  {}

  lemma Assoc4<T>(x: seq<T>, a: seq<T>, b: seq<T>, c: seq<T>)
    ensures x + (a + b + c) == x + a + b + c
  {}

  lemma Assoc6<T>(x: seq<T>, a: seq<T>, b: seq<T>, c: seq<T>, d: seq<T>, e: seq<T>)
    ensures x + (a + b + c + d + e) == x + a + b + c + d + e
  {}

  lemma Assoc8<T>(x: seq<T>, a: seq<T>, b: seq<T>, c: seq<T>, d: seq<T>, e: seq<T>, f: seq<T>, g: seq<T>)
    ensures x + (a + b + c + d + e + f + g) == x + a + b + c + d + e + f + g
  {}

  lemma Assoc16<T>(x: seq<T>, a: seq<T>, b: seq<T>, c: seq<T>, d: seq<T>, e: seq<T>, f: seq<T>, g: seq<T>,
                   h: seq<T>, i: seq<T>, j: seq<T>, k: seq<T>, l: seq<T>, m: seq<T>, n: seq<T>, o: seq<T>)
    ensures x + (a + b + c + d + e + f + g + h + i + j + k + l + m + n + o)
         == x + a + b + c + d + e + f + g + h + i + j + k + l + m + n + o
  {}
}
