/**
 * The matching cost of an astrometric solution over a set of exposures: every exposure's image
 * stars are matched to the projected in-field catalog stars, exposures with too few matches are
 * dropped, and the pooled distances give the cost (or the sentinel 9999.0 when nothing matched).
 */
module Residuals {
  import opened Wrappers
  import opened StarMatcher
  import OrderedDict

  /** A catalog star: right ascension, declination and magnitude. */
  datatype CatalogStar = CatalogStar(ra: real, dec: real, mag: real)

  /** The plate parameters the matching reads: pointing, scale, distortion and image size. */
  datatype PlateparState = PlateparState(
    raD: real, decD: real, posAngleRef: real, fScale: real,
    xPoly: seq<real>, yPoly: seq<real>,
    xRes: int, yRes: int)

  /**
   * The astrometry the model is given rather than computes:
   * `fieldStars(catalog, pp, jd, magLimit)` is the catalog cut around the field centre that `pp`
   * gives at `jd` (the centre estimate, the field radius and the catalog subset together),
   * `project(star, jd, pp)` the star's image position, and `sqrt` the square root.
   */
  datatype Astrometry = Astrometry(
    fieldStars: (seq<CatalogStar>, PlateparState, real, real) -> seq<CatalogStar>,
    project: (CatalogStar, real, PlateparState) -> (real, real),
    sqrt: Sqrt)

  /** Exposures keyed by Julian date, each with its detected stars. */
  type StarDict = OrderedDict.Dict<real, seq<DetectedStar>>

  /** What `matchStarsResiduals` returns: the cost alone, or with the match count and mean distance. */
  datatype Residual = Cost(value: real) | Stats(nMatched: nat, avgDist: real, cost: real)

  /** Returned when no star matched at all. */
  const Sentinel: real := 9999.0

  /** The image column of every field star. */
  function ProjectX(field: seq<CatalogStar>, jd: real, pp: PlateparState, astro: Astrometry): (xs: seq<real>)
    ensures |xs| == |field|
  {
    seq(|field|, i requires 0 <= i < |field| => astro.project(field[i], jd, pp).0)
  }

  /** The image row of every field star. */
  function ProjectY(field: seq<CatalogStar>, jd: real, pp: PlateparState, astro: Astrometry): (ys: seq<real>)
    ensures |ys| == |field|
  {
    seq(|field|, i requires 0 <= i < |field| => astro.project(field[i], jd, pp).1)
  }

  /** The projected star at `k` lies inside the image. */
  predicate InImage(catX: seq<real>, catY: seq<real>, xRes: int, yRes: int, k: nat)
    requires k < |catX| == |catY|
  {
    0.0 <= catX[k] < xRes as real && 0.0 <= catY[k] < yRes as real
  }

  /** The indices below `n` of the projected stars inside the image, in increasing order. */
  function InImageIndices(catX: seq<real>, catY: seq<real>, xRes: int, yRes: int, n: nat): (good: seq<nat>)
    requires n <= |catX| == |catY|
    ensures ValidCandidates(catX, catY, good)
    ensures forall i :: 0 <= i < |good| ==> good[i] < n && InImage(catX, catY, xRes, yRes, good[i])
    ensures forall k :: 0 <= k < n && InImage(catX, catY, xRes, yRes, k) ==> k in good
    ensures forall i, j :: 0 <= i < j < |good| ==> good[i] < good[j]
  {
    if n == 0 then []
    else
      var prev := InImageIndices(catX, catY, xRes, yRes, n - 1);
      if InImage(catX, catY, xRes, yRes, n - 1) then prev + [n - 1] else prev
  }

  /** The matches of one exposure's stars against the catalog as `pp` projects it at `jd`. */
  function ExposureMatches(pp: PlateparState, catalog: seq<CatalogStar>, jd: real, stars: seq<DetectedStar>,
                           maxRadius: real, magLimit: real, astro: Astrometry): seq<Match>
  {
    var field := astro.fieldStars(catalog, pp, jd, magLimit);
    var catX := ProjectX(field, jd, pp, astro);
    var catY := ProjectY(field, jd, pp, astro);
    MatchSpec(stars, catX, catY, InImageIndices(catX, catY, pp.xRes, pp.yRes, |catX|), maxRadius, astro.sqrt)
  }

  /** An exposure kept for the cost: its date, its matched image stars and their match distances. */
  datatype MatchedExposure = MatchedExposure(jd: real, imgStars: seq<DetectedStar>, dists: seq<real>)

  function MatchedImageStars(stars: seq<DetectedStar>, ms: seq<Match>): (r: seq<DetectedStar>)
    requires forall j :: 0 <= j < |ms| ==> ms[j].imgIndex < |stars|
    ensures |r| == |ms|
  {
    seq(|ms|, j requires 0 <= j < |ms| => stars[ms[j].imgIndex])
  }

  function Distances(ms: seq<Match>): (r: seq<real>)
    ensures |r| == |ms|
    ensures forall j :: 0 <= j < |ms| ==> r[j] == ms[j].dist
  {
    seq(|ms|, j requires 0 <= j < |ms| => ms[j].dist)
  }

  /** An exposure takes part in the cost when it has at least `minMatched` matches. */
  predicate Qualifies(pp: PlateparState, catalog: seq<CatalogStar>, entry: (real, seq<DetectedStar>), maxRadius: real,
                      minMatched: int, magLimit: real, astro: Astrometry)
  {
    minMatched <= |ExposureMatches(pp, catalog, entry.0, entry.1, maxRadius, magLimit, astro)|
  }

  /** What is kept of an exposure: its date, its matched image stars and their distances. */
  function KeptExposure(pp: PlateparState, catalog: seq<CatalogStar>, entry: (real, seq<DetectedStar>), maxRadius: real,
                        magLimit: real, astro: Astrometry): MatchedExposure
  {
    var ms := ExposureMatches(pp, catalog, entry.0, entry.1, maxRadius, magLimit, astro);
    MatchedExposure(entry.0, MatchedImageStars(entry.1, ms), Distances(ms))
  }

  /** The exposures, in dictionary order, that have at least `minMatched` matches. */
  function MatchedStars(pp: PlateparState, catalog: seq<CatalogStar>, entries: StarDict, maxRadius: real,
                        minMatched: int, magLimit: real, astro: Astrometry): (r: seq<MatchedExposure>)
    ensures |r| <= |entries|
    ensures forall e :: 0 <= e < |r| ==> |r[e].dists| == |r[e].imgStars| && minMatched <= |r[e].dists|
    decreases |entries|
  {
    if |entries| == 0 then []
    else
      var n := |entries| - 1;
      var prev := MatchedStars(pp, catalog, entries[..n], maxRadius, minMatched, magLimit, astro);
      if Qualifies(pp, catalog, entries[n], maxRadius, minMatched, magLimit, astro)
      then prev + [KeptExposure(pp, catalog, entries[n], maxRadius, magLimit, astro)]
      else prev
  }

  /** Every kept exposure is the kept form of a qualifying entry of the dictionary. */
  lemma {:induction false} MatchedStarsFromEntries(pp: PlateparState, catalog: seq<CatalogStar>, entries: StarDict,
                                                   maxRadius: real, minMatched: int, magLimit: real, astro: Astrometry,
                                                   e: nat)
    requires e < |MatchedStars(pp, catalog, entries, maxRadius, minMatched, magLimit, astro)|
    ensures exists i :: 0 <= i < |entries| && Qualifies(pp, catalog, entries[i], maxRadius, minMatched, magLimit, astro)
              && MatchedStars(pp, catalog, entries, maxRadius, minMatched, magLimit, astro)[e]
                 == KeptExposure(pp, catalog, entries[i], maxRadius, magLimit, astro)
  {
    var n := |entries| - 1;
    var prev := MatchedStars(pp, catalog, entries[..n], maxRadius, minMatched, magLimit, astro);
    if e < |prev| {
      MatchedStarsFromEntries(pp, catalog, entries[..n], maxRadius, minMatched, magLimit, astro, e);
      var i :| 0 <= i < n && Qualifies(pp, catalog, entries[..n][i], maxRadius, minMatched, magLimit, astro)
               && prev[e] == KeptExposure(pp, catalog, entries[..n][i], maxRadius, magLimit, astro);
      assert entries[..n][i] == entries[i];
    } else {
      assert Qualifies(pp, catalog, entries[n], maxRadius, minMatched, magLimit, astro);
    }
  }

  /** Every qualifying entry of the dictionary is kept, in its kept form. */
  lemma MatchedStarsKeepsQualifying(pp: PlateparState, catalog: seq<CatalogStar>, entries: StarDict,
                                    maxRadius: real, minMatched: int, magLimit: real, astro: Astrometry, i: nat)
    requires i < |entries| && Qualifies(pp, catalog, entries[i], maxRadius, minMatched, magLimit, astro)
    ensures KeptExposure(pp, catalog, entries[i], maxRadius, magLimit, astro)
            in MatchedStars(pp, catalog, entries, maxRadius, minMatched, magLimit, astro)
  {
    var front, back := entries[..i], entries[i + 1..];
    assert entries == front + ([entries[i]] + back);
    MatchedStarsAppend(pp, catalog, front, [entries[i]] + back, maxRadius, minMatched, magLimit, astro);
    MatchedStarsAppend(pp, catalog, [entries[i]], back, maxRadius, minMatched, magLimit, astro);
    assert [entries[i]][..0] == [];
  }

  /** The selection works exposure by exposure: the kept exposures of two runs of the dictionary follow one another. */
  lemma {:induction false} MatchedStarsAppend(pp: PlateparState, catalog: seq<CatalogStar>, a: StarDict, b: StarDict,
                                              maxRadius: real, minMatched: int, magLimit: real, astro: Astrometry)
    ensures MatchedStars(pp, catalog, a + b, maxRadius, minMatched, magLimit, astro)
         == MatchedStars(pp, catalog, a, maxRadius, minMatched, magLimit, astro)
          + MatchedStars(pp, catalog, b, maxRadius, minMatched, magLimit, astro)
    decreases |b|
  {
    if |b| == 0 {
      assert a + b == a;
    } else {
      var m := |b| - 1;
      MatchedStarsAppend(pp, catalog, a, b[..m], maxRadius, minMatched, magLimit, astro);
      assert (a + b)[..|a + b| - 1] == a + b[..m];
      assert (a + b)[|a + b| - 1] == b[m];
    }
  }

  /** All match distances of the kept exposures, one after the other. */
  function Pooled(matched: seq<MatchedExposure>): (r: seq<real>)
  {
    if |matched| == 0 then [] else Pooled(matched[..|matched| - 1]) + matched[|matched| - 1].dists
  }

  function Sum(s: seq<real>): real {
    if |s| == 0 then 0.0 else Sum(s[..|s| - 1]) + s[|s| - 1]
  }

  /** The cost of `n` matches at mean distance `avg`: the squared mean, divided by the root of `n + 1`. */
  function MatchCost(avg: real, n: nat, sqrt: Sqrt): (c: real)
    requires SqrtSign(sqrt)
    ensures 0.0 <= c
  {
    var s := sqrt(n as real + 1.0);
    assert 0.0 < s;
    NonNegativeProduct(avg * avg, 1.0 / s);
    (avg * avg) * (1.0 / s)
  }

  /** The outcome for the pooled distances `d`. */
  function Summary(d: seq<real>, retNmatch: bool, sqrt: Sqrt): (r: Residual)
    requires SqrtSign(sqrt)
    ensures |d| == 0 ==> r == Cost(Sentinel)
    ensures !retNmatch ==> r.Cost?
    ensures retNmatch ==> (r.Stats? <==> |d| > 0)
    ensures r.Stats? ==> r.nMatched == |d| && r.avgDist * |d| as real == Sum(d) && r.cost == MatchCost(r.avgDist, r.nMatched, sqrt)
    ensures r.Cost? ==> 0.0 <= r.value
  {
    if |d| == 0 then Cost(Sentinel)
    else
      var avg := Sum(d) / |d| as real;
      var cost := MatchCost(avg, |d|, sqrt);
      if retNmatch then Stats(|d|, avg, cost) else Cost(cost)
  }

  /** What `matchStarsResiduals` computes for plate parameters `pp`. */
  function Residuals(pp: PlateparState, catalog: seq<CatalogStar>, starDict: StarDict, maxRadius: real,
                     minMatched: int, retNmatch: bool, magLimit: real, astro: Astrometry): Residual
    requires SqrtSign(astro.sqrt)
  {
    Summary(Pooled(MatchedStars(pp, catalog, starDict, maxRadius, minMatched, magLimit, astro)), retNmatch, astro.sqrt)
  }

  /**
   * `matchStarsResiduals`: match every exposure, keep those with at least `minMatched` matches,
   * pool their distances and summarise them. `minMatched` is at least one: with none required, an
   * exposure without matches makes the source fail while unpacking an empty array.
   */
  method MatchStarsResiduals(pp: PlateparState, catalog: seq<CatalogStar>, starDict: StarDict, maxRadius: real,
                             minMatched: int, retNmatch: bool, magLimit: real, astro: Astrometry)
    returns (r: Residual)
    requires SqrtSign(astro.sqrt) && OrderedDict.DistinctKeys(starDict) && 1 <= minMatched
    ensures r == Residuals(pp, catalog, starDict, maxRadius, minMatched, retNmatch, magLimit, astro)
  {
    // The keys of `starDict` are distinct, so storing each kept exposure under its date appends it.
    var matched: seq<MatchedExposure> := [];
    for e := 0 to |starDict|
      invariant matched == MatchedStars(pp, catalog, starDict[..e], maxRadius, minMatched, magLimit, astro)
    {
      var (jd, stars) := starDict[e];
      var field := astro.fieldStars(catalog, pp, jd, magLimit);
      var catX := ProjectX(field, jd, pp, astro);
      var catY := ProjectY(field, jd, pp, astro);
      var good := InImageIndices(catX, catY, pp.xRes, pp.yRes, |catX|);
      var ms := MatchStars(stars, catX, catY, good, maxRadius, astro.sqrt);
      assert starDict[..e + 1][..e] == starDict[..e];
      if |ms| >= minMatched {
        matched := matched + [MatchedExposure(jd, MatchedImageStars(stars, ms), Distances(ms))];
      }
    }
    assert starDict[..|starDict|] == starDict;

    var globalDists: seq<real> := [];
    for e := 0 to |matched|
      invariant globalDists == Pooled(matched[..e])
    {
      globalDists := globalDists + matched[e].dists;
      assert matched[..e + 1][..e] == matched[..e];
    }
    assert matched[..|matched|] == matched;

    var n := |globalDists|;
    if n == 0 {
      return Cost(Sentinel);
    }
    var avg := Sum(globalDists) / n as real;
    var cost := MatchCost(avg, n, astro.sqrt);
    if retNmatch {
      r := Stats(n, avg, cost);
    } else {
      r := Cost(cost);
    }
  }

  /** Pooling one more exposure appends its distances. */
  lemma PooledAppend(matched: seq<MatchedExposure>, x: MatchedExposure)
    ensures Pooled(matched + [x]) == Pooled(matched) + x.dists
  {
    assert (matched + [x])[..|matched|] == matched;
  }

  /** The mean of values in `[0, m)` is in `[0, m)`. */
  lemma {:induction false} SumBounds(s: seq<real>, m: real)
    requires forall i :: 0 <= i < |s| ==> 0.0 <= s[i] < m
    ensures 0.0 <= Sum(s)
    ensures |s| > 0 ==> Sum(s) < m * |s| as real
    decreases |s|
  {
    if |s| > 0 {
      var n := |s| - 1;
      assert forall i :: 0 <= i < n ==> s[..n][i] == s[i];
      SumBounds(s[..n], m);
    }
  }

  /** The match distances of one exposure all lie in `[0, maxRadius)`. */
  lemma ExposureDistancesBounded(pp: PlateparState, catalog: seq<CatalogStar>, jd: real, stars: seq<DetectedStar>,
                                 maxRadius: real, magLimit: real, astro: Astrometry)
    requires SqrtSign(astro.sqrt)
    ensures var ms := ExposureMatches(pp, catalog, jd, stars, maxRadius, magLimit, astro);
      forall j :: 0 <= j < |ms| ==> 0.0 <= ms[j].dist < maxRadius
  {
    var field := astro.fieldStars(catalog, pp, jd, magLimit);
    var catX := ProjectX(field, jd, pp, astro);
    var catY := ProjectY(field, jd, pp, astro);
    var good := InImageIndices(catX, catY, pp.xRes, pp.yRes, |catX|);
    forall j | 0 <= j < |MatchSpec(stars, catX, catY, good, maxRadius, astro.sqrt)|
      ensures 0.0 <= MatchSpec(stars, catX, catY, good, maxRadius, astro.sqrt)[j].dist < maxRadius
    {
      MatchDistanceBounds(stars, catX, catY, good, maxRadius, astro.sqrt, j);
    }
  }

  /** Every pooled distance lies in `[0, maxRadius)`. */
  lemma {:induction false} PooledDistanceBounded(pp: PlateparState, catalog: seq<CatalogStar>, entries: StarDict, maxRadius: real,
                                                 minMatched: int, magLimit: real, astro: Astrometry, i: nat)
    requires SqrtSign(astro.sqrt)
    requires i < |Pooled(MatchedStars(pp, catalog, entries, maxRadius, minMatched, magLimit, astro))|
    ensures 0.0 <= Pooled(MatchedStars(pp, catalog, entries, maxRadius, minMatched, magLimit, astro))[i] < maxRadius
    decreases |entries|
  {
    var n := |entries| - 1;
    var prev := MatchedStars(pp, catalog, entries[..n], maxRadius, minMatched, magLimit, astro);
    var ms := ExposureMatches(pp, catalog, entries[n].0, entries[n].1, maxRadius, magLimit, astro);
    if |ms| >= minMatched {
      PooledAppend(prev, MatchedExposure(entries[n].0, MatchedImageStars(entries[n].1, ms), Distances(ms)));
      if i >= |Pooled(prev)| {
        ExposureDistancesBounded(pp, catalog, entries[n].0, entries[n].1, maxRadius, magLimit, astro);
        assert Distances(ms)[i - |Pooled(prev)|] == ms[i - |Pooled(prev)|].dist;
        return;
      }
    }
    PooledDistanceBounded(pp, catalog, entries[..n], maxRadius, minMatched, magLimit, astro, i);
  }

  /** The mean and cost the summary reports for distances in `[0, m)` lie in `[0, m)` and are not negative. */
  lemma SummaryBounds(d: seq<real>, m: real, sqrt: Sqrt)
    requires SqrtSign(sqrt)
    requires forall i :: 0 <= i < |d| ==> 0.0 <= d[i] < m
    ensures var r := Summary(d, true, sqrt);
      r.Stats? ==> 1 <= r.nMatched && 0.0 <= r.avgDist < m && 0.0 <= r.cost
  {
    SumBounds(d, m);
    if |d| > 0 {
      var n := |d| as real;
      var avg := Sum(d) / n;
      MeanBound(Sum(d), n, m);
      var s := sqrt(|d| as real + 1.0);
      assert 0.0 < s;
      assert 0.0 <= avg * avg;
      assert 0.0 < 1.0 / s;
      NonNegativeProduct(avg * avg, 1.0 / s);
    }
  }

  lemma MeanBound(total: real, n: real, m: real)
    requires 0.0 < n && 0.0 <= total < m * n
    ensures 0.0 <= total / n < m
  {
    assert (total / n) * n == total;
  }

  lemma NonNegativeProduct(a: real, b: real)
    requires 0.0 <= a && 0.0 <= b
    ensures 0.0 <= a * b
  {
  }

  /**
   * A reported match count is positive, and the mean distance lies in `[0, maxRadius)`; the cost is
   * not negative. With the count asked for, the count is reported exactly when something matched,
   * and the sentinel otherwise.
   */
  lemma ResidualStatsBounds(pp: PlateparState, catalog: seq<CatalogStar>, starDict: StarDict, maxRadius: real,
                            minMatched: int, magLimit: real, astro: Astrometry)
    requires SqrtSign(astro.sqrt)
    ensures var d := Pooled(MatchedStars(pp, catalog, starDict, maxRadius, minMatched, magLimit, astro));
      var r := Residuals(pp, catalog, starDict, maxRadius, minMatched, true, magLimit, astro);
      && (r.Stats? <==> |d| > 0)
      && (r.Cost? ==> r.value == Sentinel)
      && (r.Stats? ==> 1 <= r.nMatched && 0.0 <= r.avgDist < maxRadius && 0.0 <= r.cost)
  {
    var d := Pooled(MatchedStars(pp, catalog, starDict, maxRadius, minMatched, magLimit, astro));
    forall i | 0 <= i < |d| ensures 0.0 <= d[i] < maxRadius {
      PooledDistanceBounded(pp, catalog, starDict, maxRadius, minMatched, magLimit, astro, i);
    }
    SummaryBounds(d, maxRadius, astro.sqrt);
  }

  /** Asking for the count changes only the shape of the answer: the cost is the same. */
  lemma CostModesAgree(pp: PlateparState, catalog: seq<CatalogStar>, starDict: StarDict, maxRadius: real,
                       minMatched: int, magLimit: real, astro: Astrometry)
    requires SqrtSign(astro.sqrt)
    ensures var full := Residuals(pp, catalog, starDict, maxRadius, minMatched, true, magLimit, astro);
      Residuals(pp, catalog, starDict, maxRadius, minMatched, false, magLimit, astro) ==
        if full.Stats? then Cost(full.cost) else full
  {
  }

  /** Total number of detected stars over all exposures. */
  function TotalStars(entries: StarDict): nat {
    if |entries| == 0 then 0 else TotalStars(entries[..|entries| - 1]) + |entries[|entries| - 1].1|
  }

  /** No more distances are pooled than there are detected stars. */
  lemma {:induction false} PooledCountBound(pp: PlateparState, catalog: seq<CatalogStar>, entries: StarDict, maxRadius: real,
                                            minMatched: int, magLimit: real, astro: Astrometry)
    ensures |Pooled(MatchedStars(pp, catalog, entries, maxRadius, minMatched, magLimit, astro))| <= TotalStars(entries)
    decreases |entries|
  {
    if |entries| > 0 {
      var n := |entries| - 1;
      PooledCountBound(pp, catalog, entries[..n], maxRadius, minMatched, magLimit, astro);
      var prev := MatchedStars(pp, catalog, entries[..n], maxRadius, minMatched, magLimit, astro);
      var ms := ExposureMatches(pp, catalog, entries[n].0, entries[n].1, maxRadius, magLimit, astro);
      if |ms| >= minMatched {
        PooledAppend(prev, MatchedExposure(entries[n].0, MatchedImageStars(entries[n].1, ms), Distances(ms)));
      }
    }
  }

  /** A larger matching radius never pools fewer distances, the per-exposure threshold included. */
  lemma {:induction false} PooledCountMonotone(pp: PlateparState, catalog: seq<CatalogStar>, entries: StarDict, r1: real, r2: real,
                                               minMatched: int, magLimit: real, astro: Astrometry)
    requires r1 <= r2
    ensures |Pooled(MatchedStars(pp, catalog, entries, r1, minMatched, magLimit, astro))|
         <= |Pooled(MatchedStars(pp, catalog, entries, r2, minMatched, magLimit, astro))|
    decreases |entries|
  {
    if |entries| > 0 {
      var n := |entries| - 1;
      var (jd, stars) := entries[n];
      PooledCountMonotone(pp, catalog, entries[..n], r1, r2, minMatched, magLimit, astro);
      var field := astro.fieldStars(catalog, pp, jd, magLimit);
      var catX := ProjectX(field, jd, pp, astro);
      var catY := ProjectY(field, jd, pp, astro);
      var good := InImageIndices(catX, catY, pp.xRes, pp.yRes, |catX|);
      MatchRadiusMonotone(stars, catX, catY, good, r1, r2, astro.sqrt);
      var prev1 := MatchedStars(pp, catalog, entries[..n], r1, minMatched, magLimit, astro);
      var prev2 := MatchedStars(pp, catalog, entries[..n], r2, minMatched, magLimit, astro);
      var ms1 := ExposureMatches(pp, catalog, jd, stars, r1, magLimit, astro);
      var ms2 := ExposureMatches(pp, catalog, jd, stars, r2, magLimit, astro);
      if |ms1| >= minMatched {
        PooledAppend(prev1, MatchedExposure(jd, MatchedImageStars(stars, ms1), Distances(ms1)));
      }
      if |ms2| >= minMatched {
        PooledAppend(prev2, MatchedExposure(jd, MatchedImageStars(stars, ms2), Distances(ms2)));
      }
    }
  }

  /** A deep copy of `pp` with pointing and scale set from `params` = [RA, Dec, position angle, scale]. */
  function WithPointing(pp: PlateparState, params: seq<real>): PlateparState
    requires |params| == 4
  {
    pp.(raD := params[0], decD := params[1], posAngleRef := params[2], fScale := params[3])
  }

  /** A deep copy of `pp` whose X distortion (for dimension "x") or else Y distortion is `params`. */
  function WithDistortion(pp: PlateparState, params: seq<real>, dimension: string): PlateparState {
    if dimension == "x" then pp.(xPoly := params) else pp.(yPoly := params)
  }

  /**
   * `_calcImageResidualsAstro`: the cost of the platepar with its pointing replaced by `params`.
   * Unpacking `params` into four names fails for any other length.
   */
  function CalcImageResidualsAstro(params: seq<real>, pp: PlateparState, catalog: seq<CatalogStar>, starDict: StarDict,
                                   maxRadius: real, minMatched: int, magLimit: real, astro: Astrometry): (c: real)
    requires |params| == 4 && SqrtSign(astro.sqrt)
    ensures 0.0 <= c
    ensures Pooled(MatchedStars(WithPointing(pp, params), catalog, starDict, maxRadius, minMatched, magLimit, astro)) == [] ==> c == Sentinel
  {
    Residuals(WithPointing(pp, params), catalog, starDict, maxRadius, minMatched, false, magLimit, astro).value
  }

  /** `_calcImageResidualsDistorsion`: the cost of the platepar with one distortion polynomial replaced by `params`. */
  function CalcImageResidualsDistorsion(params: seq<real>, pp: PlateparState, catalog: seq<CatalogStar>, starDict: StarDict,
                                        maxRadius: real, minMatched: int, magLimit: real, astro: Astrometry,
                                        dimension: string): (c: real)
    requires SqrtSign(astro.sqrt)
    ensures 0.0 <= c
    ensures Pooled(MatchedStars(WithDistortion(pp, params, dimension), catalog, starDict, maxRadius, minMatched, magLimit, astro)) == [] ==> c == Sentinel
  {
    Residuals(WithDistortion(pp, params, dimension), catalog, starDict, maxRadius, minMatched, false, magLimit, astro).value
  }

  /**
   * The pointing cost does not depend on the pointing the platepar held before: two platepars that
   * agree on distortion and image size give the same cost for every `params`. Evaluated at the
   * platepar's own pointing, it is the platepar's cost.
   */
  lemma AstroCostOverwritesPointing(params: seq<real>, pp1: PlateparState, pp2: PlateparState, catalog: seq<CatalogStar>,
                                    starDict: StarDict, maxRadius: real, minMatched: int, magLimit: real, astro: Astrometry)
    requires |params| == 4 && SqrtSign(astro.sqrt)
    requires pp1.xPoly == pp2.xPoly && pp1.yPoly == pp2.yPoly && pp1.xRes == pp2.xRes && pp1.yRes == pp2.yRes
    ensures CalcImageResidualsAstro(params, pp1, catalog, starDict, maxRadius, minMatched, magLimit, astro)
         == CalcImageResidualsAstro(params, pp2, catalog, starDict, maxRadius, minMatched, magLimit, astro)
    ensures CalcImageResidualsAstro([pp1.raD, pp1.decD, pp1.posAngleRef, pp1.fScale], pp1, catalog, starDict, maxRadius, minMatched, magLimit, astro)
         == Residuals(pp1, catalog, starDict, maxRadius, minMatched, false, magLimit, astro).value
  {
    assert WithPointing(pp1, params) == WithPointing(pp2, params);
  }

  /**
   * The distortion cost does not depend on the polynomial being fitted as it was before, and at the
   * platepar's own polynomial it is the platepar's cost.
   */
  lemma DistortionCostOverwritesPolynomial(params: seq<real>, pp1: PlateparState, pp2: PlateparState, catalog: seq<CatalogStar>,
                                           starDict: StarDict, maxRadius: real, minMatched: int, magLimit: real, astro: Astrometry,
                                           dimension: string)
    requires SqrtSign(astro.sqrt)
    requires pp1.raD == pp2.raD && pp1.decD == pp2.decD && pp1.posAngleRef == pp2.posAngleRef && pp1.fScale == pp2.fScale
    requires pp1.xRes == pp2.xRes && pp1.yRes == pp2.yRes
    requires if dimension == "x" then pp1.yPoly == pp2.yPoly else pp1.xPoly == pp2.xPoly
    ensures CalcImageResidualsDistorsion(params, pp1, catalog, starDict, maxRadius, minMatched, magLimit, astro, dimension)
         == CalcImageResidualsDistorsion(params, pp2, catalog, starDict, maxRadius, minMatched, magLimit, astro, dimension)
    ensures CalcImageResidualsDistorsion(if dimension == "x" then pp1.xPoly else pp1.yPoly, pp1, catalog, starDict,
                                         maxRadius, minMatched, magLimit, astro, dimension)
         == Residuals(pp1, catalog, starDict, maxRadius, minMatched, false, magLimit, astro).value
  {
    assert WithDistortion(pp1, params, dimension) == WithDistortion(pp2, params, dimension);
  }
}
