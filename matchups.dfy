/** The bucketing shared by the two matchup displays
  * (src/components/effectiveness-display.tsx and
  * src/components/resistance-display.tsx): a pass over the roster that
  * pushes each name into the 2x, the 0.5x or the 0x list by its chart
  * value, and leaves it out otherwise. */
module Matchups {
  import opened SeqUtil

  /** The three lists a display shows, in the order 2x, 0.5x, 0x. */
  datatype Buckets = Buckets(double: seq<string>, half: seq<string>, zero: seq<string>)

  /** The names whose value is `m`. */
  function Valued(value: string -> real, m: real): string -> bool {
    t => value(t) == m
  }

  /** The names of `names` whose value is `m`, in the order of `names`. */
  function Bucket(names: seq<string>, value: string -> real, m: real): seq<string> {
    Filter(names, Valued(value, m))
  }

  /** A name whose value is `m` is in the bucket of `m`. */
  lemma InBucket(names: seq<string>, value: string -> real, m: real, t: string)
    requires t in names && value(t) == m
    ensures t in Bucket(names, value, m)
  {
    assert Valued(value, m)(t);
  }

  /** What a display shows: the 2x, 0.5x and 0x buckets of a list. */
  function Bucketed(names: seq<string>, value: string -> real): Buckets {
    Buckets(Bucket(names, value, 2.0), Bucket(names, value, 0.5), Bucket(names, value, 0.0))
  }

  /** The `forEach` over the roster with its `if`/`else if` chain: push
    * into the 2x list, else the 0.5x list, else the 0x list. */
  method Partition(names: seq<string>, value: string -> real) returns (b: Buckets)
    ensures b == Bucketed(names, value)
  {
    var double, half, zero := [], [], [];
    var i := 0;
    while i < |names|
      invariant 0 <= i <= |names|
      invariant double == Bucket(names[..i], value, 2.0)
      invariant half == Bucket(names[..i], value, 0.5)
      invariant zero == Bucket(names[..i], value, 0.0)
    {
      var t := names[i];
      var m := value(t);
      if m == 2.0 {
        double := double + [t];
      } else if m == 0.5 {
        half := half + [t];
      } else if m == 0.0 {
        zero := zero + [t];
      }
      assert names[..i + 1] == names[..i] + [t];
      FilterSnoc(names[..i], t, Valued(value, 2.0));
      FilterSnoc(names[..i], t, Valued(value, 0.5));
      FilterSnoc(names[..i], t, Valued(value, 0.0));
      i := i + 1;
    }
    assert names[..i] == names;
    b := Buckets(double, half, zero);
  }

  /** Each bucket holds exactly the names with its value, so the buckets are
    * pairwise disjoint and a name of any other value (1 in particular) is
    * in none; each lists its names in the order of `names`, once each when
    * `names` has no repeats. */
  lemma BucketedShape(names: seq<string>, value: string -> real)
    ensures var b := Bucketed(names, value);
      && (forall t :: t in b.double <==> t in names && value(t) == 2.0)
      && (forall t :: t in b.half <==> t in names && value(t) == 0.5)
      && (forall t :: t in b.zero <==> t in names && value(t) == 0.0)
      && IsSubsequence(b.double, names) && IsSubsequence(b.half, names) && IsSubsequence(b.zero, names)
      && (Distinct(names) ==> Distinct(b.double) && Distinct(b.half) && Distinct(b.zero))
  {
    FilterInOrder(names, Valued(value, 2.0));
    FilterInOrder(names, Valued(value, 0.5));
    FilterInOrder(names, Valued(value, 0.0));
  }
}
