/**
  The value store (src/store.rs): a string-keyed map of estimates and counts in which a
  key that was never written reads as 0.0, and the key-derivation rule that turns a
  (state, action) pair into the text "{state}-{action}".
 */
module Store {

  /** The decimal digit character for d. */
  function DigitChar(d: nat): (c: char)
    requires d < 10
    ensures '0' <= c <= '9'
  {
    (d + '0' as int) as char
  }

  predicate IsDigits(s: string) {
    forall i :: 0 <= i < |s| ==> '0' <= s[i] <= '9'
  }

  /** Decimal text of n, as `format!("{}", n)` prints a usize. */
  function NatToString(n: nat): (s: string)
    ensures |s| >= 1 && IsDigits(s)
    ensures n >= 10 ==> |s| >= 2
  {
    if n < 10 then [DigitChar(n)] else NatToString(n / 10) + [DigitChar(n % 10)]
  }

  /** Value of a string of decimal digits: the reading back of NatToString. */
  function DigitsValue(s: string): nat
    requires IsDigits(s)
  {
    if s == [] then 0 else DigitsValue(s[..|s| - 1]) * 10 + (s[|s| - 1] as int - '0' as int)
  }

  /** Reading the decimal text of n back gives n. */
  lemma {:induction false} DigitsValueOfNatToString(n: nat)
    ensures DigitsValue(NatToString(n)) == n
  {
    if n >= 10 {
      var s := NatToString(n);
      assert s[..|s| - 1] == NatToString(n / 10);
      DigitsValueOfNatToString(n / 10);
    }
  }

  /** Distinct numbers have distinct decimal texts. */
  lemma NatToStringInjective(m: nat, n: nat)
    ensures NatToString(m) == NatToString(n) <==> m == n
  {
    DigitsValueOfNatToString(m);
    DigitsValueOfNatToString(n);
  }

  /** Store::generate_id: the key of a (state, action) pair. */
  function GenerateId(state: nat, action: nat): string {
    NatToString(state) + "-" + NatToString(action)
  }

  /** The key of a state alone: `generate_id(state, None)` in src/agents/mcts.rs and `format!("{}", state)` in src/agents/q.rs. */
  function StateId(state: nat): string {
    NatToString(state)
  }

  /** Two digit strings, each followed by '-' and a tail, agree only when the digit strings and the tails agree. */
  lemma {:induction false} SplitAtDash(x1: string, y1: string, x2: string, y2: string)
    requires IsDigits(x1) && IsDigits(x2)
    requires x1 + "-" + y1 == x2 + "-" + y2
    ensures x1 == x2 && y1 == y2
  {
    var id := x1 + "-" + y1;
    var id2 := x2 + "-" + y2;
    assert id[|x1|] == '-' && id2[|x2|] == '-';
    assert forall i :: 0 <= i < |x1| ==> id[i] == x1[i] && id[i] != '-';
    assert forall i :: 0 <= i < |x2| ==> id2[i] == x2[i] && id2[i] != '-';
    assert |x1| == |x2|;
    assert x1 == id[..|x1|] == x2;
    assert y1 == id[|x1| + 1..] == y2;
  }

  /** Keys identify their (state, action) pair: equal keys iff equal pairs. */
  lemma GenerateIdInjective(s1: nat, a1: nat, s2: nat, a2: nat)
    ensures GenerateId(s1, a1) == GenerateId(s2, a2) <==> s1 == s2 && a1 == a2
  {
    if GenerateId(s1, a1) == GenerateId(s2, a2) {
      SplitAtDash(NatToString(s1), NatToString(a1), NatToString(s2), NatToString(a2));
      NatToStringInjective(s1, s2);
      NatToStringInjective(a1, a2);
    }
  }

  /** A state key never collides with a (state, action) key, and state keys identify their state. */
  lemma StateIdIsSeparate(s: nat, s2: nat, a: nat)
    ensures StateId(s) != GenerateId(s2, a)
    ensures StateId(s) == StateId(s2) <==> s == s2
  {
    var id := GenerateId(s2, a);
    assert id[|NatToString(s2)|] == '-';
    NatToStringInjective(s, s2);
  }

  /** MemoryStore::get_float on the map contents: a missing key reads as 0.0. */
  function Lookup(m: map<string, real>, key: string): real {
    if key in m then m[key] else 0.0
  }

  /** Reading and writing the contents of a store. */
  lemma LookupSemantics(m: map<string, real>, key: string, other: string, v: real, w: real)
    ensures key !in m ==> Lookup(m, key) == 0.0
    ensures Lookup(map[], key) == 0.0
    ensures Lookup(m[key := v], key) == v
    ensures Lookup(m[key := w][key := v], key) == v
    ensures other != key ==> Lookup(m[key := v], other) == Lookup(m, other)
  {
  }

  /** MemoryStore: the in-memory implementation of the Store trait over a HashMap. */
  class MemoryStore {
    var store: map<string, real>

    /** MemoryStore::new: an empty store, in which every key reads as 0.0. */
    constructor ()
      ensures store == map[]
      ensures forall key :: GetFloat(key) == 0.0
    {
      store := map[];
    }

    /** MemoryStore::get_float: the stored value, or 0.0 for a key never stored. */
    function GetFloat(key: string): (r: real)
      reads this
      ensures key in store ==> r == store[key]
      ensures key !in store ==> r == 0.0
    {
      Lookup(store, key)
    }

    /** MemoryStore::store_float: insert or replace the value of one key. */
    method StoreFloat(key: string, value: real)
      modifies this
      ensures store == old(store)[key := value]
      ensures GetFloat(key) == value
      ensures forall other :: other != key ==> GetFloat(other) == old(GetFloat(other))
    {
      store := store[key := value];
    }
  }
}
