/** `stationary/utils.py`: `allf`, the conjunction of a list of predicates
    applied to one argument. */
module Utils {

  /** Python's `all(bs)` over an already evaluated list. */
  function All(bs: seq<bool>): bool {
    bs == [] || (bs[0] && All(bs[1..]))
  }

  /** `allf(fns, a)`: evaluate `[fn(a) for fn in fns]`, then `all` of it. */
  function AllF<A>(fns: seq<A -> bool>, a: A): bool {
    All(seq(|fns|, i requires 0 <= i < |fns| => fns[i](a)))
  }

  /** `all` is true exactly when no element is false. */
  lemma {:induction false} AllIff(bs: seq<bool>)
    ensures All(bs) <==> forall i :: 0 <= i < |bs| ==> bs[i]
  {
    if bs != [] {
      AllIff(bs[1..]);
      assert forall i :: 1 <= i < |bs| ==> bs[i] == bs[1..][i - 1];
    }
  }

  /** `allf` is true exactly when every predicate holds of `a`. */
  lemma AllFIff<A>(fns: seq<A -> bool>, a: A)
    ensures AllF(fns, a) <==> forall i :: 0 <= i < |fns| ==> fns[i](a)
  {
    var bs := seq(|fns|, i requires 0 <= i < |fns| => fns[i](a));
    AllIff(bs);
    assert AllF(fns, a) == All(bs);
    assert forall i :: 0 <= i < |fns| ==> bs[i] == fns[i](a);
  }

  /** With no predicates `allf` is true. */
  lemma AllFEmpty<A>(a: A)
    ensures AllF([], a)
  {
  }

  /** One false predicate anywhere makes `allf` false. */
  lemma AllFOneFalse<A>(fns: seq<A -> bool>, a: A, k: nat)
    requires k < |fns| && !fns[k](a)
    ensures !AllF(fns, a)
  {
    AllFIff(fns, a);
  }

  /** `allf` does not depend on the order of the predicates: any list that
      holds the same predicates gives the same answer. */
  lemma AllFOrderIrrelevant<A>(fns: seq<A -> bool>, gns: seq<A -> bool>, a: A)
    requires forall i :: 0 <= i < |fns| ==> exists j :: 0 <= j < |gns| && gns[j] == fns[i]
    requires forall j :: 0 <= j < |gns| ==> exists i :: 0 <= i < |fns| && fns[i] == gns[j]
    ensures AllF(fns, a) == AllF(gns, a)
  {
    AllFIff(fns, a);
    AllFIff(gns, a);
    if AllF(fns, a) {
      forall j | 0 <= j < |gns| ensures gns[j](a) {
        var i :| 0 <= i < |fns| && fns[i] == gns[j];
      }
    }
    if AllF(gns, a) {
      forall i | 0 <= i < |fns| ensures fns[i](a) {
        var j :| 0 <= j < |gns| && gns[j] == fns[i];
      }
    }
  }
}
