/** `UniqueNameGenerator` of cheetah/utils.py: a counter that hands out
    `"<prefix>_<k>"` for k = 0, 1, 2, ... */
module Names {
  import Decimal

  /** The name returned by the `k`-th call (counting from 0) of a generator built with `prefix`. */
  function NameAt(prefix: string, k: nat): string {
    prefix + "_" + Decimal.Digits(k)
  }

  /** Two calls of one generator return the same name only if they are the same call. */
  lemma NamesDistinct(prefix: string, j: nat, k: nat)
    ensures NameAt(prefix, j) == NameAt(prefix, k) <==> j == k
  {
    if NameAt(prefix, j) == NameAt(prefix, k) {
      var n := |prefix| + 1;
      assert NameAt(prefix, j)[n..] == Decimal.Digits(j);
      assert NameAt(prefix, k)[n..] == Decimal.Digits(k);
      Decimal.DigitsInjective(j, k);
    }
  }

  class UniqueNameGenerator {
    const prefix: string
    var counter: nat
    /** Every name handed out so far, in order. */
    ghost var issued: seq<string>

    ghost predicate Valid()
      reads this
    {
      && |issued| == counter
      && forall k :: 0 <= k < counter ==> issued[k] == NameAt(prefix, k)
    }

    constructor (prefix: string)
      ensures Valid()
      ensures this.prefix == prefix && counter == 0 && issued == []
    {
      this.prefix := prefix;
      counter := 0;
      issued := [];
    }

    /** One call of the generator: returns `prefix_counter`, then raises the counter by one. */
    method Generate() returns (name: string)
      requires Valid()
      modifies this
      ensures Valid()
      ensures name == NameAt(prefix, old(counter))
      ensures counter == old(counter) + 1
      ensures issued == old(issued) + [name]
      ensures name !in old(issued)
    {
      name := prefix + "_" + Decimal.Digits(counter);
      forall k | 0 <= k < counter
        ensures issued[k] != name
      {
        NamesDistinct(prefix, k, counter);
      }
      counter := counter + 1;
      issued := issued + [name];
    }
  }

  /** Three calls in a row return three different names and leave the counter at 3. */
  method ThreeNames(prefix: string) returns (a: string, b: string, c: string)
    ensures a == NameAt(prefix, 0) && b == NameAt(prefix, 1) && c == NameAt(prefix, 2)
    ensures a != b && b != c && a != c
  {
    var gen := new UniqueNameGenerator(prefix);
    a := gen.Generate();
    b := gen.Generate();
    c := gen.Generate();
    assert gen.counter == 3;
  }
}
