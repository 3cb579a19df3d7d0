/** `CondDB::IOV`: a half-open interval of validity `[since, until)` on the
    unsigned 64-bit time axis (`std::uint_fast64_t`, taken as 64 bits wide). */
module Iov {

  /** `IOV::min()` and `IOV::max()`: the limits of `uint_fast64_t`. */
  const MinTime: int := 0
  const MaxTime: int := 0xFFFF_FFFF_FFFF_FFFF

  type TimePoint = t: int | MinTime <= t <= MaxTime

  function Larger(a: TimePoint, b: TimePoint): TimePoint { if a < b then b else a }
  function Smaller(a: TimePoint, b: TimePoint): TimePoint { if a < b then a else b }

  datatype IOV = IOV(since: TimePoint, until: TimePoint)
  {
    /** The default-constructed IOV, `[min, max)`. */
    static function Full(): (r: IOV)
      ensures r.since == 0 && r.until == MaxTime
    {
      IOV(MinTime, MaxTime)
    }

    /** `[max(since), min(until))`: exactly the points in both intervals. */
    function Intersect(boundary: IOV): (r: IOV)
      ensures forall p: TimePoint :: r.ContainsPoint(p) <==> ContainsPoint(p) && boundary.ContainsPoint(p)
      ensures since <= r.since && r.until <= until
      ensures boundary.since <= r.since && r.until <= boundary.until
    {
      IOV(Larger(since, boundary.since), Smaller(until, boundary.until))
    }

    /** `cut` assigns `boundary.intersect(*this)` to the IOV; here it yields
        the new value. It never widens the interval. */
    function Cut(boundary: IOV): (r: IOV)
      ensures r == Intersect(boundary)
      ensures since <= r.since && r.until <= until
    {
      boundary.Intersect(this)
    }

    /** `valid()`: the interval holds its own start. */
    predicate Valid()
      ensures Valid() <==> ContainsPoint(since)
    {
      since < until
    }

    /** `contains(point)`: only a valid interval contains a point, and
        never the largest time point, which can only be an `until`. */
    predicate ContainsPoint(point: TimePoint)
      ensures ContainsPoint(point) ==> since < until && point < MaxTime
    {
      point >= since && point < until
    }

    predicate ContainsIov(other: IOV)
    {
      other.Valid() && ContainsPoint(other.since) && other.until > since && other.until <= until
    }

    /** `overlaps(other)`: only two valid intervals overlap. */
    predicate Overlaps(other: IOV)
      ensures Overlaps(other) ==> Valid() && other.Valid()
    {
      other.Intersect(this).Valid()
    }
  }

  /** `a` lies inside `b`: no point of `a` is outside `b`, and `a`'s ends are
      within `b`'s. */
  predicate Within(a: IOV, b: IOV)
  {
    b.since <= a.since && a.until <= b.until
  }

  lemma IntersectCommutes(a: IOV, b: IOV)
    ensures a.Intersect(b) == b.Intersect(a)
  {
  }

  lemma IntersectIdempotent(a: IOV, b: IOV)
    ensures a.Intersect(b).Intersect(b) == a.Intersect(b)
  {
  }

  /** An IOV is valid exactly when it contains some point; an empty IOV
      contains none. */
  lemma ValidIffInhabited(a: IOV)
    ensures a.Valid() <==> exists p: TimePoint :: a.ContainsPoint(p)
    ensures !a.Valid() ==> forall p: TimePoint :: !a.ContainsPoint(p)
  {
    if a.Valid() {
      assert a.ContainsPoint(a.since);
    }
  }

  /** `contains(other)` holds exactly when `other` is non-empty and each of
      its points is a point of this IOV. */
  lemma ContainsIovIffSubset(a: IOV, other: IOV)
    ensures a.ContainsIov(other) <==>
            other.Valid() && forall p: TimePoint :: other.ContainsPoint(p) ==> a.ContainsPoint(p)
  {
    if other.Valid() && forall p: TimePoint :: other.ContainsPoint(p) ==> a.ContainsPoint(p) {
      assert other.ContainsPoint(other.since);
      var last: TimePoint := other.until - 1;
      assert other.ContainsPoint(last);
    }
  }

  /** An invalid IOV is never contained, and contains nothing. */
  lemma InvalidContainment(a: IOV, bad: IOV)
    requires !bad.Valid()
    ensures !a.ContainsIov(bad)
    ensures !bad.ContainsIov(a)
  {
  }

  /** Two IOVs overlap exactly when some point lies in both; so overlapping
      is symmetric. */
  lemma OverlapsIffCommonPoint(a: IOV, b: IOV)
    ensures a.Overlaps(b) <==> exists p: TimePoint :: a.ContainsPoint(p) && b.ContainsPoint(p)
    ensures a.Overlaps(b) <==> b.Overlaps(a)
  {
    var i := b.Intersect(a);
    if i.Valid() {
      assert i.ContainsPoint(i.since);
    }
    IntersectCommutes(a, b);
  }

  /** Successive cuts never widen an IOV: after cutting by `b1` then `b2` it
      lies within the original and within both boundaries. */
  lemma CutsNarrow(a: IOV, b1: IOV, b2: IOV)
    ensures Within(a.Cut(b1).Cut(b2), a)
    ensures Within(a.Cut(b1).Cut(b2), b1) && Within(a.Cut(b1).Cut(b2), b2)
  {
  }

  /** The cases of the unit test on `cut`, in order. */
  lemma CutSequenceExample()
    ensures IOV(100, 200).Cut(IOV(100, 190)) == IOV(100, 190)
    ensures IOV(100, 190).Cut(IOV(110, 190)) == IOV(110, 190)
    ensures IOV(110, 190).Cut(IOV(100, 180)) == IOV(110, 180)
    ensures IOV(110, 180).Cut(IOV(120, 200)) == IOV(120, 180)
    ensures IOV(120, 180).Cut(IOV(130, 170)) == IOV(130, 170)
    ensures !IOV(130, 170).Cut(IOV(0, 10)).Valid()
  {
  }
}
