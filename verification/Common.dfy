/** What every component needs: an optional value, and facts about concatenation and products. */
module Common {

  datatype Option<T> = None | Some(value: T)

  lemma Regroup<T>(a: seq<T>, b: seq<T>, c: seq<T>)
    ensures (a + b) + c == a + (b + c)
  {
  }

  lemma SmallerFactor(m: int, n: int, factor: int)
    requires factor > 0 && m * factor < n * factor
    ensures m < n
  {
  }
}
