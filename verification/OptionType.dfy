/** The optional value, and lookups in string-valued maps as QMap::value makes them. */
module OptionType {
  datatype Option<+T> = None | Some(value: T)

  function Lookup<K, V>(m: map<K, V>, k: K): Option<V> {
    if k in m then Some(m[k]) else None
  }

  /** A text that is there on a condition. */
  function If(b: bool, text: string): Option<string> {
    if b then Some(text) else None
  }

  /** The text under `k`, empty if there is none. */
  function ValueOf<K>(m: map<K, string>, k: K): string {
    match Lookup(m, k)
    case None => ""
    case Some(text) => text
  }

  /** The text that stands for true. */
  predicate IsYes(text: string) {
    text == "yes"
  }

  lemma YesIsYes()
    ensures IsYes("yes") && !IsYes("")
  {
  }

  /** Maps with the same lookups are the same. */
  lemma SameLookups<K(!new), V>(a: map<K, V>, b: map<K, V>)
    requires forall k :: Lookup(a, k) == Lookup(b, k)
    ensures a == b
  {
    forall k ensures k in a <==> k in b {
      assert Lookup(a, k) == Lookup(b, k);
    }
    forall k | k in a ensures a[k] == b[k] {
      assert Lookup(a, k) == Lookup(b, k);
    }
  }
}
