/**
 * The automatic refinement of an astrometric calibration (`autoCheckFit`): exposures with enough
 * stars are collected, a sample of a configured size is drawn, and for each matching radius of a
 * coarse-to-fine schedule the pointing, then the X distortion, then the Y distortion are fitted by
 * a minimiser. The first failure stops the refinement and keeps whatever was fitted before it.
 */
module AutoFit {
  import opened Wrappers
  import opened StarMatcher
  import opened Residuals
  import OrderedDict
  import ConfigReader

  /** The parameter groups fitted at every radius, in this order. */
  datatype FitGroup = Pointing | DistortionX | DistortionY

  /**
   * What the minimiser is handed: the cost function of `group` (`_calcImageResidualsAstro` for the
   * pointing, `_calcImageResidualsDistorsion` for a distortion axis) with its fixed arguments,
   * which hold a snapshot of the platepar taken when the minimisation starts.
   */
  datatype Objective = Objective(
    group: FitGroup, pp: PlateparState, catalog: seq<CatalogStar>, starDict: StarDict,
    maxRadius: real, minMatched: int, magLimit: real)

  /**
   * The collaborators the refinement is given: the astrometry of the cost function, the Julian
   * date of the middle of an FF file (`getMiddleTimeFF` followed by `date2JD`, given the frame
   * rate), and the Nelder-Mead minimiser, which answers the final parameters and its success flag.
   */
  datatype FitEnv = FitEnv(
    astro: Astrometry,
    middleJD: (string, real) -> real,
    minimize: (Objective, seq<real>) -> (seq<real>, bool))

  /** The configuration values the refinement reads. */
  datatype FitSettings = FitSettings(
    ffMinStars: int, fps: real, calstarsFilesN: int, calstarsMinStars: int,
    minMatchedStars: int, catalogMagLimit: real)

  function SettingsOf(config: ConfigReader.Config): (s: FitSettings)
    reads config
    ensures s.ffMinStars == config.ffMinStars && s.calstarsFilesN == config.calstarsFilesN
    ensures s.calstarsMinStars == config.calstarsMinStars && s.minMatchedStars == config.minMatchedStars
  {
    FitSettings(config.ffMinStars, config.fps, config.calstarsFilesN, config.calstarsMinStars,
                config.minMatchedStars, config.catalogMagLimit)
  }

  /** A freshly made configuration gives the refinement its built-in settings. */
  lemma DefaultFitSettings(config: ConfigReader.Config, host: ConfigReader.Host)
    requires config.IsDefault(host)
    ensures SettingsOf(config) == FitSettings(5, 25.0, 400, 500, 7, 4.5)
  {
  }

  /**
   * The exceptions the refinement raises: unpacking a result of the wrong shape into names (the
   * bare sentinel cost where three statistics are expected, or fitted pointing parameters that are
   * not four), and drawing a sample of negative size.
   */
  datatype FitError = UnpackError | SampleSizeError

  /** The end of a refinement: the success flag returned beside the platepar, or an exception. */
  datatype Outcome = Finished(success: bool) | Raised(error: FitError)

  /** Whether the refinement goes on after a step. */
  datatype Step = Next | Stop(outcome: Outcome)

  /** The matching radii, coarse to fine, in pixels. */
  const Radii: seq<real> := [3.0, 1.5, 0.75]

  /** The fixed data of one refinement: the catalog, the sampled exposures and the thresholds. */
  datatype FitContext = FitContext(
    catalog: seq<CatalogStar>, sample: StarDict, filesN: int, minMatched: int, magLimit: real)

  // ---------------------------------------------------------------------------------------------
  // Exposure selection

  /**
   * `star_dict`: the Julian date of every CALSTARS entry with at least `ffMinStars` stars, mapped
   * to its stars, in CALSTARS order. Two files with the same date share one entry, the later one's
   * stars.
   */
  function QualifyingExposures(calstars: OrderedDict.Dict<string, seq<DetectedStar>>, ffMinStars: int, fps: real,
                               middleJD: (string, real) -> real): (r: StarDict)
    ensures OrderedDict.DistinctKeys(r)
    ensures |r| <= |calstars|
    decreases |calstars|
  {
    if |calstars| == 0 then []
    else
      var n := |calstars| - 1;
      QualifyingStep(QualifyingExposures(calstars[..n], ffMinStars, fps, middleJD), middleJD(calstars[n].0, fps), calstars[n].1, ffMinStars)
  }

  /** A CALSTARS entry that has enough stars, and the date it is kept under. */
  predicate QualifiesAt(calstars: OrderedDict.Dict<string, seq<DetectedStar>>, ffMinStars: int, fps: real,
                        middleJD: (string, real) -> real, i: int, jd: real)
  {
    0 <= i < |calstars| && |calstars[i].1| >= ffMinStars && middleJD(calstars[i].0, fps) == jd
  }

  /** What one CALSTARS entry does to `star_dict`: kept under its date when it has enough stars. */
  function QualifyingStep(prev: StarDict, jd: real, stars: seq<DetectedStar>, ffMinStars: int): StarDict
    requires OrderedDict.DistinctKeys(prev)
  {
    if |stars| >= ffMinStars then OrderedDict.Insert(prev, jd, stars) else prev
  }

  lemma QualifyingExposuresUnfold(calstars: OrderedDict.Dict<string, seq<DetectedStar>>, ffMinStars: int, fps: real,
                                  middleJD: (string, real) -> real)
    requires |calstars| > 0
    ensures var n := |calstars| - 1;
      QualifyingExposures(calstars, ffMinStars, fps, middleJD)
        == QualifyingStep(QualifyingExposures(calstars[..n], ffMinStars, fps, middleJD), middleJD(calstars[n].0, fps), calstars[n].1, ffMinStars)
  {
  }

  lemma QualifyingStepEnoughStars(prev: StarDict, jd: real, stars: seq<DetectedStar>, ffMinStars: int)
    requires OrderedDict.DistinctKeys(prev)
    requires forall k, v :: OrderedDict.Get(prev, k) == Some(v) ==> |v| >= ffMinStars
    ensures forall k, v :: OrderedDict.Get(QualifyingStep(prev, jd, stars, ffMinStars), k) == Some(v) ==> |v| >= ffMinStars
  {
  }

  lemma QualifyingStepKeys(prev: StarDict, jd: real, stars: seq<DetectedStar>, ffMinStars: int)
    requires OrderedDict.DistinctKeys(prev)
    ensures forall k :: k in OrderedDict.Keys(QualifyingStep(prev, jd, stars, ffMinStars)) <==>
      k in OrderedDict.Keys(prev) || (|stars| >= ffMinStars && k == jd)
  {
  }

  /** Every kept exposure has at least `ffMinStars` stars. */
  lemma {:induction false} QualifyingExposuresEnoughStars(calstars: OrderedDict.Dict<string, seq<DetectedStar>>, ffMinStars: int,
                                                          fps: real, middleJD: (string, real) -> real)
    ensures var r := QualifyingExposures(calstars, ffMinStars, fps, middleJD);
      forall k, v :: OrderedDict.Get(r, k) == Some(v) ==> |v| >= ffMinStars
    decreases |calstars|
  {
    if |calstars| > 0 {
      var n := |calstars| - 1;
      QualifyingExposuresEnoughStars(calstars[..n], ffMinStars, fps, middleJD);
      QualifyingExposuresUnfold(calstars, ffMinStars, fps, middleJD);
      QualifyingStepEnoughStars(QualifyingExposures(calstars[..n], ffMinStars, fps, middleJD), middleJD(calstars[n].0, fps),
                                calstars[n].1, ffMinStars);
    }
  }

  /** A date is kept exactly when some file with enough stars has that date. */
  lemma {:induction false} QualifyingExposuresDates(calstars: OrderedDict.Dict<string, seq<DetectedStar>>, ffMinStars: int,
                                                    fps: real, middleJD: (string, real) -> real)
    ensures var r := QualifyingExposures(calstars, ffMinStars, fps, middleJD);
      forall k :: k in OrderedDict.Keys(r) <==> exists i :: QualifiesAt(calstars, ffMinStars, fps, middleJD, i, k)
    decreases |calstars|
  {
    if |calstars| > 0 {
      var n := |calstars| - 1;
      QualifyingExposuresDates(calstars[..n], ffMinStars, fps, middleJD);
      var r := QualifyingExposures(calstars, ffMinStars, fps, middleJD);
      var prev := QualifyingExposures(calstars[..n], ffMinStars, fps, middleJD);
      var jd := middleJD(calstars[n].0, fps);
      QualifyingExposuresUnfold(calstars, ffMinStars, fps, middleJD);
      QualifyingStepKeys(prev, jd, calstars[n].1, ffMinStars);
      forall k ensures k in OrderedDict.Keys(r) <==> exists i :: QualifiesAt(calstars, ffMinStars, fps, middleJD, i, k) {
        QualifiesAtLast(calstars, ffMinStars, fps, middleJD, k);
      }
    }
  }

  /** A file qualifies with date `jd` exactly when one before the last does, or the last does. */
  lemma QualifiesAtLast(calstars: OrderedDict.Dict<string, seq<DetectedStar>>, ffMinStars: int, fps: real,
                        middleJD: (string, real) -> real, jd: real)
    requires |calstars| > 0
    ensures var n := |calstars| - 1;
      (exists i :: QualifiesAt(calstars, ffMinStars, fps, middleJD, i, jd)) <==>
        (exists i :: QualifiesAt(calstars[..n], ffMinStars, fps, middleJD, i, jd)) || QualifiesAt(calstars, ffMinStars, fps, middleJD, n, jd)
  {
    var n := |calstars| - 1;
    if exists i :: QualifiesAt(calstars, ffMinStars, fps, middleJD, i, jd) {
      var i :| QualifiesAt(calstars, ffMinStars, fps, middleJD, i, jd);
      if i < n {
        assert QualifiesAt(calstars[..n], ffMinStars, fps, middleJD, i, jd);
      }
    }
    if exists i :: QualifiesAt(calstars[..n], ffMinStars, fps, middleJD, i, jd) {
      var i :| QualifiesAt(calstars[..n], ffMinStars, fps, middleJD, i, jd);
      assert QualifiesAt(calstars, ffMinStars, fps, middleJD, i, jd);
    }
  }

  /** The loop that fills `star_dict`. */
  method SelectExposures(calstars: OrderedDict.Dict<string, seq<DetectedStar>>, ffMinStars: int, fps: real,
                         middleJD: (string, real) -> real) returns (starDict: StarDict)
    ensures starDict == QualifyingExposures(calstars, ffMinStars, fps, middleJD)
  {
    starDict := [];
    for i := 0 to |calstars|
      invariant starDict == QualifyingExposures(calstars[..i], ffMinStars, fps, middleJD)
    {
      assert calstars[..i + 1][..i] == calstars[..i];
      var (ffName, starsList) := calstars[i];
      if |starsList| >= ffMinStars {
        starDict := OrderedDict.Insert(starDict, middleJD(ffName, fps), starsList);
      }
    }
    assert calstars[..|calstars|] == calstars;
  }

  /** `sample` holds `n` distinct dates of `pool`, each with its stars from `pool`. */
  predicate IsSampleOf(sample: StarDict, pool: StarDict, n: int) {
    && |sample| == n
    && OrderedDict.DistinctKeys(sample)
    && forall i :: 0 <= i < |sample| ==> OrderedDict.Get(pool, sample[i].0) == Some(sample[i].1)
  }

  predicate DistinctDates(keys: seq<real>) {
    forall i, j :: 0 <= i < j < |keys| ==> keys[i] != keys[j]
  }

  /** `random.sample` of the dates followed by the dictionary of the sampled dates: any `n` distinct dates may be drawn. */
  method SampleExposures(pool: StarDict, n: nat) returns (sample: StarDict)
    requires OrderedDict.DistinctKeys(pool) && n <= |pool|
    ensures IsSampleOf(sample, pool, n)
  {
    var poolKeys := OrderedDict.Keys(pool);
    assert DistinctDates(poolKeys[..n]) && forall i :: 0 <= i < n ==> poolKeys[..n][i] in poolKeys;
    var keys: seq<real> :| |keys| == n && DistinctDates(keys) && forall i :: 0 <= i < n ==> keys[i] in poolKeys;
    assert DistinctDates(keys);
    sample := [];
    for i := 0 to n
      invariant |sample| == i
      invariant forall j :: 0 <= j < i ==> sample[j].0 == keys[j] && OrderedDict.Get(pool, keys[j]) == Some(sample[j].1)
    {
      var stars := OrderedDict.Get(pool, keys[i]);
      sample := sample + [(keys[i], stars.value)];
    }
    forall i, j | 0 <= i < j < |sample| ensures sample[i].0 != sample[j].0 {
      assert DistinctDates(keys);
      assert sample[i].0 == keys[i] && sample[j].0 == keys[j];
      assert keys[i] != keys[j];
    }
  }

  /** A sample as large as the pool holds every date of the pool: drawing it only reorders the pool. */
  lemma SampleOfWholePool(sample: StarDict, pool: StarDict)
    requires OrderedDict.DistinctKeys(pool) && IsSampleOf(sample, pool, |pool|)
    ensures forall k :: k in OrderedDict.Keys(pool) ==> k in OrderedDict.Keys(sample)
  {
    var s := set i | 0 <= i < |sample| :: sample[i].0;
    var p := set i | 0 <= i < |pool| :: pool[i].0;
    forall k | k in s ensures k in p {
      var i :| 0 <= i < |sample| && sample[i].0 == k;
      assert k in OrderedDict.Keys(pool);
      var j :| 0 <= j < |pool| && OrderedDict.Keys(pool)[j] == k;
    }
    DistinctCard(sample);
    DistinctCard(pool);
    assert |p - s| == 0 by {
      assert |p| == |s| + |p - s|;
    }
    assert p - s == {};
    forall k | k in OrderedDict.Keys(pool) ensures k in OrderedDict.Keys(sample) {
      var j :| 0 <= j < |pool| && OrderedDict.Keys(pool)[j] == k;
      assert k in p;
      var i :| 0 <= i < |sample| && sample[i].0 == k;
      assert OrderedDict.Keys(sample)[i] == k;
    }
  }

  /** The dates of a dictionary with distinct keys are as many as its entries. */
  lemma {:induction false} DistinctCard(d: StarDict)
    requires OrderedDict.DistinctKeys(d)
    ensures |set i | 0 <= i < |d| :: d[i].0| == |d|
    decreases |d|
  {
    if |d| > 0 {
      var n := |d| - 1;
      var prefix := d[..n];
      assert OrderedDict.DistinctKeys(prefix) by {
        forall i, j | 0 <= i < j < n ensures prefix[i].0 != prefix[j].0 {
          assert prefix[i] == d[i] && prefix[j] == d[j];
        }
      }
      DistinctCard(prefix);
      var before := set i | 0 <= i < n :: prefix[i].0;
      var all := set i | 0 <= i < |d| :: d[i].0;
      assert d[n].0 !in before by {
        forall i | 0 <= i < n ensures prefix[i].0 != d[n].0 {
          assert prefix[i] == d[i];
        }
      }
      assert all == before + {d[n].0} by {
        forall k | k in all ensures k in before + {d[n].0} {
          var i :| 0 <= i < |d| && d[i].0 == k;
          if i < n {
            assert prefix[i].0 == k;
          }
        }
        forall k | k in before ensures k in all {
          var i :| 0 <= i < n && prefix[i].0 == k;
          assert d[i].0 == k;
        }
      }
    }
  }

  /** `sum([len(star_dict[key]) for key in star_dict])`. */
  method CountStars(starDict: StarDict) returns (total: nat)
    ensures total == TotalStars(starDict)
  {
    total := 0;
    for e := 0 to |starDict|
      invariant total == TotalStars(starDict[..e])
    {
      assert starDict[..e + 1][..e] == starDict[..e];
      total := total + |starDict[e].1|;
    }
    assert starDict[..|starDict|] == starDict;
  }

  // ---------------------------------------------------------------------------------------------
  // The staged fit, as functions of the platepar's value

  /** The minimiser's starting point for `group`: the platepar's current values of those parameters. */
  function StartParams(pp: PlateparState, group: FitGroup): (x0: seq<real>)
    ensures group.Pointing? ==> x0 == [pp.raD, pp.decD, pp.posAngleRef, pp.fScale]
    ensures group.DistortionX? ==> x0 == pp.xPoly
    ensures group.DistortionY? ==> x0 == pp.yPoly
  {
    match group
    case Pointing => [pp.raD, pp.decD, pp.posAngleRef, pp.fScale]
    case DistortionX => pp.xPoly
    case DistortionY => pp.yPoly
  }

  /** The platepar with the fitted values of `group` written back. */
  function ApplyGroup(pp: PlateparState, group: FitGroup, x: seq<real>): PlateparState
    requires group.Pointing? ==> |x| == 4
  {
    match group
    case Pointing => WithPointing(pp, x)
    case DistortionX => WithDistortion(pp, x, "x")
    case DistortionY => WithDistortion(pp, x, "y")
  }

  /**
   * One minimisation: the minimiser starts from the current values of `group`; a failure stops the
   * refinement unsuccessfully and changes nothing, a success writes the fitted values back.
   */
  function FitGroupStage(pp: PlateparState, group: FitGroup, ctx: FitContext, radius: real, env: FitEnv): (PlateparState, Step)
  {
    var objective := Objective(group, pp, ctx.catalog, ctx.sample, radius, ctx.minMatched, ctx.magLimit);
    var res := env.minimize(objective, StartParams(pp, group));
    if !res.1 then (pp, Stop(Finished(false)))
    else if group.Pointing? && |res.0| != 4 then (pp, Stop(Raised(UnpackError)))
    else (ApplyGroup(pp, group, res.0), Next)
  }

  /**
   * The cost the minimiser evaluates at `x`: `_calcImageResidualsAstro` for the pointing and
   * `_calcImageResidualsDistorsion` for an axis of the distortion, with the objective's fixed
   * arguments. Unpacking pointing parameters that are not four raises.
   */
  function ObjectiveCost(o: Objective, x: seq<real>, astro: Astrometry): (r: Result<real, FitError>)
    requires SqrtSign(astro.sqrt)
    ensures r.Failure? <==> o.group.Pointing? && |x| != 4
    ensures r.Failure? ==> r.error == UnpackError
    ensures r.Success? ==> 0.0 <= r.value
  {
    match o.group
    case Pointing =>
      if |x| != 4 then Failure(UnpackError)
      else Success(CalcImageResidualsAstro(x, o.pp, o.catalog, o.starDict, o.maxRadius, o.minMatched, o.magLimit, astro))
    case DistortionX =>
      Success(CalcImageResidualsDistorsion(x, o.pp, o.catalog, o.starDict, o.maxRadius, o.minMatched, o.magLimit, astro, "x"))
    case DistortionY =>
      Success(CalcImageResidualsDistorsion(x, o.pp, o.catalog, o.starDict, o.maxRadius, o.minMatched, o.magLimit, astro, "y"))
  }

  /**
   * The cost the minimiser sees at `x` is the cost, at the stage's radius, of the platepar the
   * stage writes back when the minimiser answers `x`.
   */
  lemma ObjectiveIsCostOfWriteBack(pp: PlateparState, group: FitGroup, ctx: FitContext, radius: real, env: FitEnv, x: seq<real>)
    requires SqrtSign(env.astro.sqrt) && (group.Pointing? ==> |x| == 4)
    ensures ObjectiveCost(Objective(group, pp, ctx.catalog, ctx.sample, radius, ctx.minMatched, ctx.magLimit), x, env.astro)
         == Success(Residuals.Residuals(ApplyGroup(pp, group, x), ctx.catalog, ctx.sample, radius, ctx.minMatched, false, ctx.magLimit, env.astro).value)
  {
  }

  /** At the minimiser's starting point the cost is that of the platepar as it stands. */
  lemma ObjectiveAtStart(pp: PlateparState, group: FitGroup, ctx: FitContext, radius: real, env: FitEnv)
    requires SqrtSign(env.astro.sqrt)
    ensures ObjectiveCost(Objective(group, pp, ctx.catalog, ctx.sample, radius, ctx.minMatched, ctx.magLimit), StartParams(pp, group), env.astro)
         == Success(Residuals.Residuals(pp, ctx.catalog, ctx.sample, radius, ctx.minMatched, false, ctx.magLimit, env.astro).value)
  {
    ObjectiveIsCostOfWriteBack(pp, group, ctx, radius, env, StartParams(pp, group));
    assert ApplyGroup(pp, group, StartParams(pp, group)) == pp;
  }

  /** The statistics of `pp` at `radius` over the sample, as `matchStarsResiduals` reports them with the count. */
  function Stats(pp: PlateparState, ctx: FitContext, radius: real, env: FitEnv): Residual
    requires SqrtSign(env.astro.sqrt)
  {
    Residuals.Residuals(pp, ctx.catalog, ctx.sample, radius, ctx.minMatched, true, ctx.magLimit, env.astro)
  }

  /**
   * One radius: the platepar must match at least as many stars as there are sampled exposures;
   * then the pointing, the X distortion and the Y distortion are fitted in turn, each from the
   * platepar as the previous fit left it. With nothing matched at all, the sentinel cost comes back
   * where three statistics are unpacked, which raises.
   */
  function RadiusPass(pp: PlateparState, ctx: FitContext, radius: real, env: FitEnv): (PlateparState, Step)
    requires SqrtSign(env.astro.sqrt)
  {
    var stats := Stats(pp, ctx, radius, env);
    if stats.Cost? then (pp, Stop(Raised(UnpackError)))
    else if stats.nMatched < ctx.filesN then (pp, Stop(Finished(false)))
    else
      var (pp1, s1) := FitGroupStage(pp, Pointing, ctx, radius, env);
      if s1.Stop? then (pp1, s1)
      else
        var (pp2, s2) := FitGroupStage(pp1, DistortionX, ctx, radius, env);
        if s2.Stop? then (pp2, s2)
        else FitGroupStage(pp2, DistortionY, ctx, radius, env)
  }

  /** The closing statistics at the last radius; only their unpacking can fail. */
  function FinalCheck(pp: PlateparState, ctx: FitContext, radius: real, env: FitEnv): Outcome
    requires SqrtSign(env.astro.sqrt)
  {
    if Stats(pp, ctx, radius, env).Cost? then Raised(UnpackError) else Finished(true)
  }

  /**
   * The radius loop over `radii`, starting from `pp`; `last` is the radius of the pass before, at
   * which the closing statistics are taken once `radii` is exhausted.
   */
  function FitRadii(pp: PlateparState, ctx: FitContext, radii: seq<real>, last: real, env: FitEnv): (PlateparState, Outcome)
    requires SqrtSign(env.astro.sqrt)
    decreases |radii|
  {
    if |radii| == 0 then (pp, FinalCheck(pp, ctx, last, env))
    else
      var (pp1, step) := RadiusPass(pp, ctx, radii[0], env);
      if step.Stop? then (pp1, step.outcome) else FitRadii(pp1, ctx, radii[1..], radii[0], env)
  }

  // ---------------------------------------------------------------------------------------------
  // What the staged fit guarantees

  /** The platepar before every pass, as the passes leave it one after the other. */
  function Trace(pp: PlateparState, ctx: FitContext, radii: seq<real>, env: FitEnv): (t: seq<PlateparState>)
    requires SqrtSign(env.astro.sqrt)
    ensures |t| == |radii| + 1 && t[0] == pp
    ensures forall k :: 0 <= k < |radii| ==> t[k + 1] == RadiusPass(t[k], ctx, radii[k], env).0
    decreases |radii|
  {
    if |radii| == 0 then [pp] else [pp] + Trace(RadiusPass(pp, ctx, radii[0], env).0, ctx, radii[1..], env)
  }

  /** Every pass of `radii`, from the platepar the passes before it left, went through all three fits. */
  ghost predicate EveryPassFits(pp: PlateparState, ctx: FitContext, radii: seq<real>, env: FitEnv)
    requires SqrtSign(env.astro.sqrt)
  {
    var t := Trace(pp, ctx, radii, env);
    forall k :: 0 <= k < |radii| ==> RadiusPass(t[k], ctx, radii[k], env).1 == Next
  }

  /** The passes all fit exactly when the first one does and the remaining ones, from where it left the platepar, do. */
  lemma EveryPassFitsStep(pp: PlateparState, ctx: FitContext, radii: seq<real>, env: FitEnv)
    requires SqrtSign(env.astro.sqrt) && |radii| > 0
    ensures var r := RadiusPass(pp, ctx, radii[0], env);
      EveryPassFits(pp, ctx, radii, env) <==> r.1 == Next && EveryPassFits(r.0, ctx, radii[1..], env)
  {
    var t := Trace(pp, ctx, radii, env);
    var pp1 := RadiusPass(pp, ctx, radii[0], env).0;
    var t1 := Trace(pp1, ctx, radii[1..], env);
    assert t == [pp] + t1;
    forall k | 1 <= k < |radii| ensures t[k] == t1[k - 1] && radii[k] == radii[1..][k - 1] { }
    if EveryPassFits(pp, ctx, radii, env) {
      assert RadiusPass(t[0], ctx, radii[0], env).1 == Next;
      forall k | 0 <= k < |radii| - 1 ensures RadiusPass(t1[k], ctx, radii[1..][k], env).1 == Next {
        assert RadiusPass(t[k + 1], ctx, radii[k + 1], env).1 == Next;
      }
    }
    if RadiusPass(pp, ctx, radii[0], env).1 == Next && EveryPassFits(pp1, ctx, radii[1..], env) {
      forall k | 0 <= k < |radii| ensures RadiusPass(t[k], ctx, radii[k], env).1 == Next {
        if k > 0 {
          assert RadiusPass(t1[k - 1], ctx, radii[1..][k - 1], env).1 == Next;
        }
      }
    }
  }

  /** The platepar after all passes is the one after the first pass, followed by the rest. */
  lemma TraceLast(pp: PlateparState, ctx: FitContext, radii: seq<real>, env: FitEnv)
    requires SqrtSign(env.astro.sqrt) && |radii| > 1
    ensures var pp1 := RadiusPass(pp, ctx, radii[0], env).0;
      Trace(pp, ctx, radii, env)[|radii|] == Trace(pp1, ctx, radii[1..], env)[|radii| - 1]
  {
  }

  /** The refinement succeeds exactly when every pass went through all three fits and the closing statistics found matches. */
  lemma {:induction false} FitSucceedsIffEveryPass(pp: PlateparState, ctx: FitContext, radii: seq<real>, last: real, env: FitEnv)
    requires SqrtSign(env.astro.sqrt) && |radii| > 0
    ensures FitRadii(pp, ctx, radii, last, env).1 == Finished(true) <==>
      EveryPassFits(pp, ctx, radii, env) && Stats(Trace(pp, ctx, radii, env)[|radii|], ctx, radii[|radii| - 1], env).Stats?
    decreases |radii|
  {
    var r := RadiusPass(pp, ctx, radii[0], env);
    EveryPassFitsStep(pp, ctx, radii, env);
    if r.1.Next? {
      if |radii| == 1 {
        assert EveryPassFits(r.0, ctx, radii[1..], env);
        assert Trace(pp, ctx, radii, env)[1] == r.0;
      } else {
        FitSucceedsIffEveryPass(r.0, ctx, radii[1..], radii[0], env);
        TraceLast(pp, ctx, radii, env);
        assert radii[|radii| - 1] == radii[1..][|radii| - 2];
      }
    }
  }

  /** A pass goes through its fits only after the platepar matched at least as many stars as there are sampled exposures. */
  lemma FittedPassMatchedEnough(pp: PlateparState, ctx: FitContext, radius: real, env: FitEnv)
    requires SqrtSign(env.astro.sqrt) && RadiusPass(pp, ctx, radius, env).1 == Next
    ensures Stats(pp, ctx, radius, env).Stats? && Stats(pp, ctx, radius, env).nMatched >= ctx.filesN
  {
  }

  /** Started with fewer matches than sampled exposures, the refinement fails at once and leaves the platepar as it was. */
  lemma PoorInitialFitChangesNothing(pp: PlateparState, ctx: FitContext, radii: seq<real>, last: real, env: FitEnv)
    requires SqrtSign(env.astro.sqrt) && |radii| > 0
    requires Stats(pp, ctx, radii[0], env).Stats? && Stats(pp, ctx, radii[0], env).nMatched < ctx.filesN
    ensures FitRadii(pp, ctx, radii, last, env) == (pp, Finished(false))
  {
  }

  /** Started with no match at all, the refinement raises before anything is fitted. */
  lemma NoMatchRaises(pp: PlateparState, ctx: FitContext, radii: seq<real>, last: real, env: FitEnv)
    requires SqrtSign(env.astro.sqrt) && |radii| > 0
    requires |Pooled(MatchedStars(pp, ctx.catalog, ctx.sample, radii[0], ctx.minMatched, ctx.magLimit, env.astro))| == 0
    ensures FitRadii(pp, ctx, radii, last, env) == (pp, Raised(UnpackError))
  {
  }

  /**
   * A pass that stops keeps the fits made before the failing one: the platepar it leaves is the one
   * it started from, or that one with the fitted pointing, or that one with the fitted pointing and
   * X distortion. It never changes the Y distortion.
   */
  lemma StoppedPassKeepsEarlierFits(pp: PlateparState, ctx: FitContext, radius: real, env: FitEnv)
    requires SqrtSign(env.astro.sqrt)
    requires RadiusPass(pp, ctx, radius, env).1.Stop?
    ensures var after := RadiusPass(pp, ctx, radius, env).0;
      var x1 := env.minimize(Objective(Pointing, pp, ctx.catalog, ctx.sample, radius, ctx.minMatched, ctx.magLimit), StartParams(pp, Pointing)).0;
      || after == pp
      || (|x1| == 4 && after == WithPointing(pp, x1))
      || (|x1| == 4 && exists x2 :: after == WithPointing(pp, x1).(xPoly := x2))
    ensures RadiusPass(pp, ctx, radius, env).0.yPoly == pp.yPoly
  {
    var after := RadiusPass(pp, ctx, radius, env).0;
    var x1 := env.minimize(Objective(Pointing, pp, ctx.catalog, ctx.sample, radius, ctx.minMatched, ctx.magLimit), StartParams(pp, Pointing)).0;
    var (pp1, s1) := FitGroupStage(pp, Pointing, ctx, radius, env);
    if Stats(pp, ctx, radius, env).Stats? && Stats(pp, ctx, radius, env).nMatched >= ctx.filesN && s1.Next? {
      var (pp2, s2) := FitGroupStage(pp1, DistortionX, ctx, radius, env);
      if s2.Next? {
        assert after == pp2;
        assert after == WithPointing(pp, x1).(xPoly := pp2.xPoly);
      }
    }
  }

  /** A whole refinement never changes the image size of the platepar, whatever its outcome. */
  lemma {:induction false} FitKeepsResolution(pp: PlateparState, ctx: FitContext, radii: seq<real>, last: real, env: FitEnv)
    requires SqrtSign(env.astro.sqrt)
    ensures FitRadii(pp, ctx, radii, last, env).0.xRes == pp.xRes
    ensures FitRadii(pp, ctx, radii, last, env).0.yRes == pp.yRes
    decreases |radii|
  {
    if |radii| > 0 {
      var r := RadiusPass(pp, ctx, radii[0], env);
      RadiusPassKeepsShape(pp, ctx, radii[0], env);
      if r.1.Next? {
        assert FitRadii(pp, ctx, radii, last, env) == FitRadii(r.0, ctx, radii[1..], radii[0], env);
        FitKeepsResolution(r.0, ctx, radii[1..], radii[0], env);
      }
    }
  }

  /** One pass keeps the image size, and with a length-keeping minimiser the polynomial lengths. */
  lemma RadiusPassKeepsShape(pp: PlateparState, ctx: FitContext, radius: real, env: FitEnv)
    requires SqrtSign(env.astro.sqrt)
    ensures var after := RadiusPass(pp, ctx, radius, env).0;
      && after.xRes == pp.xRes && after.yRes == pp.yRes
      && (KeepsLength(env.minimize) ==> |after.xPoly| == |pp.xPoly| && |after.yPoly| == |pp.yPoly|)
  {
    var o1 := Objective(Pointing, pp, ctx.catalog, ctx.sample, radius, ctx.minMatched, ctx.magLimit);
    var (q1, s1) := FitGroupStage(pp, Pointing, ctx, radius, env);
    var o2 := Objective(DistortionX, q1, ctx.catalog, ctx.sample, radius, ctx.minMatched, ctx.magLimit);
    var (q2, s2) := FitGroupStage(q1, DistortionX, ctx, radius, env);
    var o3 := Objective(DistortionY, q2, ctx.catalog, ctx.sample, radius, ctx.minMatched, ctx.magLimit);
    if KeepsLength(env.minimize) {
      assert |env.minimize(o2, StartParams(q1, DistortionX)).0| == |q1.xPoly|;
      assert |env.minimize(o3, StartParams(q2, DistortionY)).0| == |q2.yPoly|;
    }
  }

  /** The minimiser answers as many parameters as it was started with (Nelder-Mead does). */
  ghost predicate KeepsLength(minimize: (Objective, seq<real>) -> (seq<real>, bool)) {
    forall o, x0 :: |minimize(o, x0).0| == |x0|
  }

  /** With such a minimiser the refinement never truncates or extends a distortion polynomial. */
  lemma {:induction false} FitKeepsPolynomialLengths(pp: PlateparState, ctx: FitContext, radii: seq<real>, last: real, env: FitEnv)
    requires SqrtSign(env.astro.sqrt) && KeepsLength(env.minimize)
    ensures |FitRadii(pp, ctx, radii, last, env).0.xPoly| == |pp.xPoly|
    ensures |FitRadii(pp, ctx, radii, last, env).0.yPoly| == |pp.yPoly|
    decreases |radii|
  {
    if |radii| > 0 {
      var r := RadiusPass(pp, ctx, radii[0], env);
      RadiusPassKeepsShape(pp, ctx, radii[0], env);
      if r.1.Next? {
        assert FitRadii(pp, ctx, radii, last, env) == FitRadii(r.0, ctx, radii[1..], radii[0], env);
        FitKeepsPolynomialLengths(r.0, ctx, radii[1..], radii[0], env);
      }
    }
  }

  // ---------------------------------------------------------------------------------------------
  // The platepar object and the refinement that updates it in place

  /** The astrometric calibration the refinement updates in place. */
  class Platepar {
    var raD: real
    var decD: real
    var posAngleRef: real
    var fScale: real
    var xPoly: seq<real>
    var yPoly: seq<real>
    var xRes: int
    var yRes: int

    /** The platepar's current values; a deep copy of the object is this value. */
    function State(): PlateparState
      reads this
    {
      PlateparState(raD, decD, posAngleRef, fScale, xPoly, yPoly, xRes, yRes)
    }

    constructor (pp: PlateparState)
      ensures State() == pp
    {
      raD, decD, posAngleRef, fScale := pp.raD, pp.decD, pp.posAngleRef, pp.fScale;
      xPoly, yPoly, xRes, yRes := pp.xPoly, pp.yPoly, pp.xRes, pp.yRes;
    }
  }

  /** One minimisation on the platepar object: on success the fitted values overwrite the group's fields. */
  method FitGroupInPlace(platepar: Platepar, group: FitGroup, ctx: FitContext, radius: real, env: FitEnv) returns (step: Step)
    modifies platepar
    ensures (platepar.State(), step) == FitGroupStage(old(platepar.State()), group, ctx, radius, env)
  {
    var snapshot := platepar.State();
    var x0 := StartParams(snapshot, group);
    var res := env.minimize(Objective(group, snapshot, ctx.catalog, ctx.sample, radius, ctx.minMatched, ctx.magLimit), x0);
    if !res.1 {
      return Stop(Finished(false));
    }
    var x := res.0;
    match group {
      case Pointing =>
        if |x| != 4 {
          return Stop(Raised(UnpackError));
        }
        platepar.raD := x[0];
        platepar.decD := x[1];
        platepar.posAngleRef := x[2];
        platepar.fScale := x[3];
      case DistortionX =>
        platepar.xPoly := x;
      case DistortionY =>
        platepar.yPoly := x;
    }
    step := Next;
  }

  /** One pass of the radius loop on the platepar object. */
  method FitAtRadius(platepar: Platepar, ctx: FitContext, radius: real, env: FitEnv) returns (step: Step)
    requires SqrtSign(env.astro.sqrt) && OrderedDict.DistinctKeys(ctx.sample) && 1 <= ctx.minMatched
    modifies platepar
    ensures (platepar.State(), step) == RadiusPass(old(platepar.State()), ctx, radius, env)
  {
    var stats := MatchStarsResiduals(platepar.State(), ctx.catalog, ctx.sample, radius, ctx.minMatched, true, ctx.magLimit, env.astro);
    if stats.Cost? {
      return Stop(Raised(UnpackError));
    }
    if stats.nMatched < ctx.filesN {
      return Stop(Finished(false));
    }
    step := FitGroupInPlace(platepar, Pointing, ctx, radius, env);
    if step.Stop? {
      return;
    }
    step := FitGroupInPlace(platepar, DistortionX, ctx, radius, env);
    if step.Stop? {
      return;
    }
    step := FitGroupInPlace(platepar, DistortionY, ctx, radius, env);
  }

  /**
   * `autoCheckFit`: the CALSTARS list becomes a dictionary by file name, the exposures with enough
   * stars are kept, and with fewer of them than `calstarsFilesN`, or with fewer stars in the drawn
   * sample than `calstarsMinStars`, the platepar is returned untouched and unsuccessful. Otherwise
   * the radius loop runs on the sample. `sample` is the exposure sample that was drawn.
   */
  method AutoCheckFit(settings: FitSettings, platepar: Platepar, calstarsList: seq<(string, seq<DetectedStar>)>,
                      catalog: seq<CatalogStar>, env: FitEnv)
    returns (outcome: Outcome, ghost sample: StarDict)
    requires SqrtSign(env.astro.sqrt) && 1 <= settings.minMatchedStars
    modifies platepar
    ensures var pool := QualifyingExposures(OrderedDict.FromList(calstarsList), settings.ffMinStars, settings.fps, env.middleJD);
      var n := settings.calstarsFilesN;
      && (|pool| < n ==> outcome == Finished(false) && platepar.State() == old(platepar.State()))
      && (n < 0 ==> outcome == Raised(SampleSizeError) && platepar.State() == old(platepar.State()))
      && (0 <= n <= |pool| ==> IsSampleOf(sample, pool, n))
      && (0 <= n <= |pool| && TotalStars(sample) < settings.calstarsMinStars ==>
            outcome == Finished(false) && platepar.State() == old(platepar.State()))
      && (0 <= n <= |pool| && TotalStars(sample) >= settings.calstarsMinStars ==>
            var ctx := FitContext(catalog, sample, n, settings.minMatchedStars, settings.catalogMagLimit);
            (platepar.State(), outcome) == FitRadii(old(platepar.State()), ctx, Radii, Radii[0], env))
  {
    sample := [];
    var calstars := OrderedDict.FromList(calstarsList);
    var starDict := SelectExposures(calstars, settings.ffMinStars, settings.fps, env.middleJD);
    var n := settings.calstarsFilesN;
    if |starDict| < n {
      return Finished(false), sample;
    }
    if n < 0 {
      return Raised(SampleSizeError), sample;
    }
    starDict := SampleExposures(starDict, n);
    sample := starDict;
    var totalCalstars := CountStars(starDict);
    if totalCalstars < settings.calstarsMinStars {
      return Finished(false), sample;
    }

    var ctx := FitContext(catalog, starDict, n, settings.minMatchedStars, settings.catalogMagLimit);
    ghost var start := platepar.State();
    var maxRadius := Radii[0];
    var i := 0;
    while i < |Radii|
      invariant 0 <= i <= |Radii|
      invariant i > 0 ==> maxRadius == Radii[i - 1]
      invariant FitRadii(start, ctx, Radii, Radii[0], env) == FitRadii(platepar.State(), ctx, Radii[i..], maxRadius, env)
    {
      maxRadius := Radii[i];
      var step := FitAtRadius(platepar, ctx, maxRadius, env);
      if step.Stop? {
        return step.outcome, sample;
      }
      i := i + 1;
    }
    var stats := MatchStarsResiduals(platepar.State(), catalog, starDict, maxRadius, settings.minMatchedStars, true,
                                     settings.catalogMagLimit, env.astro);
    outcome := if stats.Cost? then Raised(UnpackError) else Finished(true);
  }
}
