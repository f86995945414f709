/** class KMeans of pypalette/kmeans.py: the constructor seeds the
    centroids k-means++ style and then runs ten rounds of reassignment and
    centroid update. Each step is proved to compute the function of
    KMeansSpec that describes it. */
module KMeans {
  import opened Colors
  import opened KMeansSpec

  /** Python's message when random.choice is given an empty list. */
  const EmptyChoice: string := "Cannot choose from an empty sequence"

  /** The messages of the ValueErrors the corrected constructor raises. */
  const EmptyImage: string := "image is empty"
  const TooFewClusters: string := "k must be at least 2"

  /** The number of Lloyd rounds the constructor runs. */
  const Rounds: nat := 10

  /** The nearest centroid to p and its distance, by the scan both loops of
      the source use: the running minimum starts at infinity (None here) and
      is replaced only by a strictly smaller distance. */
  method Closest(cs: seq<Rgb>, p: Rgb, root: nat -> real) returns (index: nat, dist: real)
    requires |cs| > 0 && IsRoot(root)
    ensures index == Nearest(cs, p)
    ensures dist == EuclidDist(root, cs[index], p)
  {
    var minDist: Option<real> := None;
    index := 0;
    for i := 0 to |cs|
      invariant i == 0 ==> minDist.None? && index == 0
      invariant i > 0 ==> index == Nearest(cs[..i], p) && minDist == Some(EuclidDist(root, cs[index], p))
    {
      var dist := EuclidDist(root, cs[i], p);
      if i > 0 {
        assert cs[..i + 1][..i] == cs[..i];
        EuclidDistOrder(root, cs[i], p, cs[index], p);
      }
      if minDist.None? || dist < minDist.value {
        minDist := Some(dist);
        index := i;
      }
    }
    assert cs[..|cs|] == cs;
    dist := minDist.value;
  }

  /** The scan over the seeding weights: the first index at which the
      running sum `upto + c` exceeds r, or None when none does. */
  method Select(w: seq<real>, r: real) returns (picked: Option<nat>)
    ensures picked == Pick(w, r)
  {
    var upto := 0.0;
    for i := 0 to |w|
      invariant upto == Prefix(w, i)
      invariant Pick(w, r) == PickFrom(w, r, i)
    {
      if upto + w[i] > r {
        return Some(i);
      }
      upto := upto + w[i];
    }
    return None;
  }

  class KMeans {
    /** The pixels; never changed. */
    const im: seq<Rgb>
    /** The number of seeding rounds still to run, plus one. */
    var k: int
    /** The seeding weights of the current round. */
    var d: seq<real>
    var clusters: seq<Cluster>
    /** math.sqrt. */
    const root: nat -> real

    /** There is always at least one cluster, and `root` behaves as a square
        root must for distances to compare correctly. */
    ghost predicate Valid()
      reads this
    {
      |clusters| > 0 && IsRoot(root)
    }

    /** The seeding part of the constructor: one centroid drawn with
        `first`, then one round per draw while k - 1 > 0, each round drawing
        with its own `draws` entry; the weights are cleared after each
        round. */
    constructor (im: seq<Rgb>, k: int, first: nat, draws: seq<real -> real>, root: nat -> real)
      requires first < |im| && IsRoot(root)
      requires |draws| == if k > 1 then k - 1 else 0
      ensures Valid()
      ensures this.im == im && this.root == root && d == []
      ensures this.k == if k > 1 then 1 else k
      ensures clusters == Unpopulated(Seeded(im, [im[first]], draws, root))
      ensures 1 <= |clusters| <= if k > 1 then k else 1
    {
      this.im := im;
      this.k := k;
      this.d := [];
      this.clusters := [Cluster(im[first], [])];
      this.root := root;
      new;
      var round := 0;
      assert draws[..0] == [];
      while this.k - 1 > 0
        invariant Valid() && this.im == im && this.root == root && d == []
        invariant 0 <= round <= |draws| && (this.k - 1 > 0 ==> round < |draws|)
        invariant this.k == (if k > 1 then k - round else k)
        invariant clusters == Unpopulated(Seeded(im, [im[first]], draws[..round], root))
        decreases this.k
      {
        SeedingRound(first, draws, round);
        round := round + 1;
        this.k := this.k - 1;
      }
      assert draws[..round] == draws;
    }

    /** One pass of the seeding loop body: fill the weights, draw, append the
        selected pixel as a new centroid, clear the weights. */
    method SeedingRound(ghost first: nat, draws: seq<real -> real>, round: nat)
      requires Valid() && d == [] && first < |im| && round < |draws|
      requires clusters == Unpopulated(Seeded(im, [im[first]], draws[..round], root))
      modifies this`clusters, this`d
      ensures Valid() && d == []
      ensures clusters == Unpopulated(Seeded(im, [im[first]], draws[..round + 1], root))
    {
      ghost var cs := Seeded(im, [im[first]], draws[..round], root);
      SeededStep(im, [im[first]], draws, root, round);
      CentroidsOfUnpopulated(cs);
      FillDistances();
      assert d == Weights(im, cs, root);
      var total := Total(d);
      var r := draws[round](total);
      var picked := Select(d, r);
      var next := clusters;
      if picked.Some? {
        var i := picked.value;
        SeedRoundTakes(im, cs, draws[round], root, i);
        UnpopulatedAppend(cs, im[i]);
        next := clusters + [Cluster(im[i], [])];
      } else {
        SeedRoundSkips(im, cs, draws[round], root);
      }
      assert next == Unpopulated(SeedRound(im, cs, draws[round], root));
      clusters := next;
      d := [];
    }

    /** The weight loops: with one centroid, each pixel's distance to it;
        with several, each pixel's least distance to any of them. Either way
        the new weights are Weights of the current centroids. */
    method FillDistances()
      requires Valid()
      modifies this`d
      ensures d == old(d) + Weights(im, Centroids(clusters), root)
    {
      var cs := Centroids(clusters);
      ghost var w := Weights(im, cs, root);
      ghost var d0 := d;
      for i := 0 to |im|
        invariant d == d0 + w[..i]
      {
        var dist: real;
        if |clusters| == 1 {
          dist := EuclidDist(root, clusters[0].cc, im[i]);
        } else {
          var _, minDist := Closest(cs, im[i], root);
          dist := minDist;
        }
        d := d + [dist];
        assert w[..i + 1] == w[..i] + [w[i]];
      }
      assert w[..|im|] == w;
    }

    /** reassign_points: every member list is emptied, then each pixel is
        appended to the list of its nearest centroid. */
    method ReassignPoints()
      requires Valid()
      modifies this`clusters
      ensures Valid()
      ensures clusters == Reassign(im, old(clusters))
    {
      for j := 0 to |clusters|
        invariant Valid()
        invariant |clusters| == |old(clusters)|
        invariant forall i :: 0 <= i < |clusters| ==>
                    clusters[i] == if i < j then Cluster(old(clusters)[i].cc, []) else old(clusters)[i]
      {
        clusters := clusters[j := Cluster(clusters[j].cc, [])];
      }
      var cs := Centroids(clusters);
      assert cs == Centroids(old(clusters));
      ghost var owner := NearestLabel(cs);
      for i := 0 to |im|
        invariant Valid()
        invariant |clusters| == |cs|
        invariant forall j :: 0 <= j < |clusters| ==> clusters[j] == Cluster(cs[j], Members(im[..i], owner, j))
      {
        var minIndex, _ := Closest(cs, im[i], root);
        clusters := clusters[minIndex := Cluster(clusters[minIndex].cc, clusters[minIndex].pts + [im[i]])];
        assert im[..i + 1][..i] == im[..i];
      }
      assert im[..|im|] == im;
    }

    /** update_centroids: each centroid in turn becomes the rounded mean of
        its members. An empty cluster divides by zero, leaving the clusters
        before it already updated and the rest untouched; `ok` is false
        then. */
    method UpdateCentroids() returns (ok: bool)
      requires Valid()
      modifies this`clusters
      ensures Valid()
      ensures ok <==> NoneEmpty(old(clusters))
      ensures clusters == UpdatedUpTo(old(clusters), FirstEmpty(old(clusters)))
    {
      ghost var cls := clusters;
      FirstEmptyMeaning(cls);
      for j := 0 to |clusters|
        invariant Valid()
        invariant j <= FirstEmpty(cls)
        invariant clusters == UpdatedUpTo(cls, j)
      {
        if clusters[j].pts == [] {
          FirstEmptyIff(cls);
          return false;
        }
        clusters := clusters[j := Cluster(Mean(clusters[j].pts), clusters[j].pts)];
      }
      FirstEmptyIff(cls);
      return true;
    }

    /** The refinement loop at the end of the constructor, run for `rounds`
        rounds (ten there). `ok` is false when a round divides by zero,
        which ends the refinement. */
    method Refine(rounds: nat) returns (ok: bool)
      requires Valid()
      modifies this`clusters
      ensures Valid()
      ensures ok <==> Lloyd(im, old(clusters), rounds).Some?
      ensures ok ==> clusters == Lloyd(im, old(clusters), rounds).value
    {
      ghost var cls := clusters;
      for x := 0 to rounds
        invariant Valid()
        invariant Lloyd(im, cls, x) == Some(clusters)
      {
        LloydStep(im, cls, x, clusters);
        LloydRoundSteps(im, clusters);
        ReassignPoints();
        ok := UpdateCentroids();
        if !ok {
          LloydFailureIsFinal(im, cls, x + 1, rounds);
          return;
        }
      }
      return true;
    }
  }

  /** `KMeans(im, k)` as a whole: random.choice fails on an empty image,
      the seeding rounds run, then the ten rounds, which fail with
      ZeroDivisionError on the first empty cluster. */
  method Create(im: seq<Rgb>, k: int, first: nat, draws: seq<real -> real>, root: nat -> real)
    returns (res: Result<KMeans>)
    requires im != [] ==> first < |im|
    requires IsRoot(root)
    requires |draws| == if k > 1 then k - 1 else 0
    ensures im == [] ==> res == Err(IndexError(EmptyChoice))
    ensures im != [] ==>
              var seeded := Unpopulated(Seeded(im, [im[first]], draws, root));
              && (res.Ok? <==> Lloyd(im, seeded, Rounds).Some?)
              && (res.Ok? ==> fresh(res.value) && res.value.clusters == Lloyd(im, seeded, Rounds).value)
              && (res.Ok? ==> res.value.im == im && res.value.d == [] && res.value.k == (if k > 1 then 1 else k))
              && (res.Err? ==> res.error == ZeroDivisionError(DivisionByZero))
  {
    if im == [] {
      return Err(IndexError(EmptyChoice));
    }
    var km := new KMeans(im, k, first, draws, root);
    var ok := km.Refine(Rounds);
    if !ok {
      return Err(ZeroDivisionError(DivisionByZero));
    }
    return Ok(km);
  }

  /** The constructor as the tests expect it: an empty image or fewer than
      two clusters raises ValueError before any seeding; every other input
      behaves as `Create`. */
  method CreateChecked(im: seq<Rgb>, k: int, first: nat, draws: seq<real -> real>, root: nat -> real)
    returns (res: Result<KMeans>)
    requires im != [] ==> first < |im|
    requires IsRoot(root)
    requires |draws| == if k > 1 then k - 1 else 0
    ensures im == [] ==> res == Err(ValueError(EmptyImage))
    ensures im != [] && k < 2 ==> res == Err(ValueError(TooFewClusters))
    ensures res.Err? && res.error.ValueError? <==> im == [] || k < 2
    ensures im != [] && k >= 2 ==>
              var seeded := Unpopulated(Seeded(im, [im[first]], draws, root));
              && (res.Ok? <==> Lloyd(im, seeded, Rounds).Some?)
              && (res.Ok? ==> fresh(res.value) && res.value.clusters == Lloyd(im, seeded, Rounds).value)
              && (res.Err? ==> res.error == ZeroDivisionError(DivisionByZero))
  {
    if im == [] {
      return Err(ValueError(EmptyImage));
    }
    if k < 2 {
      return Err(ValueError(TooFewClusters));
    }
    res := Create(im, k, first, draws, root);
  }
}
