/**
 * Flat-field generation (`makeFlat`): the FF files of a night folder that are listed in its
 * CALSTARS file with enough stars are selected, at most 200 of them are kept, and their average
 * images are median-combined ten at a time before the medians are combined once more. The pixel
 * arithmetic (medians, the 0-255 stretch) and the file reading are given as functions; the file
 * selection and the batching schedule are modelled as the source writes them.
 */
module MakeFlat {
  import opened Wrappers
  import opened Strings
  import OrderedDict
  import StarMatcher
  import ConfigReader

  /** An image as rows of pixel values. */
  type Image = seq<seq<real>>

  /** The part of a loaded FF file the flat uses. */
  datatype FFFile = FFFile(avepixel: Image)

  /** The CALSTARS contents: every FF file name with its detected stars, in file order. */
  type CalstarsList = seq<(string, seq<StarMatcher.DetectedStar>)>

  /**
   * The collaborators: `validFFName`, `readCALSTARS` on the chosen file, the Julian date of the
   * middle of an FF file given the frame rate, `readFF` (no value for a corrupted file), the
   * pixel-wise median of a list of images and the stretch to 0-255 in 8 bits.
   */
  datatype FlatEnv = FlatEnv(
    validFFName: string -> bool,
    readCalstars: string -> CalstarsList,
    middleJD: (string, real) -> real,
    readFF: string -> Option<FFFile>,
    median: seq<Image> -> Image,
    stretch: Image -> Image)

  /** The configuration values the flat reads. */
  datatype FlatSettings = FlatSettings(ffMinStars: int, fps: real, flatMinImgs: int)

  function SettingsOf(config: ConfigReader.Config): (s: FlatSettings)
    reads config
    ensures s.ffMinStars == config.ffMinStars && s.flatMinImgs == config.flatMinImgs && s.fps == config.fps
  {
    FlatSettings(config.ffMinStars, config.fps, config.flatMinImgs)
  }

  /** A freshly made configuration gives the flat its built-in settings. */
  lemma DefaultFlatSettings(config: ConfigReader.Config, host: ConfigReader.Host)
    requires config.IsDefault(host)
    ensures SettingsOf(config) == FlatSettings(5, 25.0, 20)
  {
  }

  /** The exceptions: `max()` of no times, and the first median of an empty median list. */
  datatype FlatError = EmptyTimesError | IndexError

  /** No flat (the function returns None), a flat, or an exception. */
  datatype FlatOutcome = NoFlat | Flat(image: Image) | Raised(error: FlatError)

  const MaxFlatFiles: nat := 200
  const BatchSize: nat := 10

  // ---------------------------------------------------------------------------------------------
  // The CALSTARS file

  predicate IsCalstarsName(name: string) {
    Contains(name, "CALSTARS") && Contains(name, ".txt")
  }

  /**
   * The file the search loop leaves in `calstars_file`: the first listed name that looks like a
   * CALSTARS file; when none does, the last listed name, whatever it is; nothing in an empty folder.
   */
  function CalstarsFile(listing: seq<string>): Option<string>
    decreases |listing|
  {
    if |listing| == 0 then None
    else if IsCalstarsName(listing[0]) || |listing| == 1 then Some(listing[0])
    else CalstarsFile(listing[1..])
  }

  /** What the search finds: nothing exactly in an empty folder, else the first match or the last name. */
  lemma {:induction false} CalstarsFileChosen(listing: seq<string>)
    ensures CalstarsFile(listing).None? <==> |listing| == 0
    ensures CalstarsFile(listing).Some? ==>
      exists i :: && 0 <= i < |listing| && listing[i] == CalstarsFile(listing).value
                  && (IsCalstarsName(listing[i]) || i == |listing| - 1)
                  && forall j :: 0 <= j < i ==> !IsCalstarsName(listing[j])
    decreases |listing|
  {
    if |listing| > 1 && !IsCalstarsName(listing[0]) {
      var rest := listing[1..];
      CalstarsFileChosen(rest);
      var i :| && 0 <= i < |rest| && rest[i] == CalstarsFile(rest).value
               && (IsCalstarsName(rest[i]) || i == |rest| - 1)
               && forall j :: 0 <= j < i ==> !IsCalstarsName(rest[j]);
      assert listing[i + 1] == rest[i];
      forall j | 0 <= j < i + 1 ensures !IsCalstarsName(listing[j]) {
        if j > 0 {
          assert listing[j] == rest[j - 1];
        }
      }
    } else if |listing| > 0 {
      assert listing[0] == CalstarsFile(listing).value;
    }
  }

  /** The search loop over the folder listing, stopping at the first CALSTARS file. */
  method FindCalstarsFile(listing: seq<string>) returns (r: Option<string>)
    ensures r == CalstarsFile(listing)
  {
    r := None;
    var i := 0;
    while i < |listing|
      invariant 0 <= i <= |listing|
      invariant i < |listing| ==> CalstarsFile(listing) == CalstarsFile(listing[i..])
      invariant i == |listing| ==> r == CalstarsFile(listing)
    {
      r := Some(listing[i]);
      if IsCalstarsName(listing[i]) {
        return;
      }
      if i + 1 < |listing| {
        assert listing[i..][1..] == listing[i + 1..];
      }
      i := i + 1;
    }
  }

  // ---------------------------------------------------------------------------------------------
  // File selection

  /** The elements of `s` that `keep` accepts, in order. */
  function Filter<T(!new)>(s: seq<T>, keep: T -> bool): (r: seq<T>)
    ensures |r| <= |s|
    ensures forall x :: x in r <==> x in s && keep(x)
    decreases |s|
  {
    if |s| == 0 then []
    else
      var n := |s| - 1;
      var prev := Filter(s[..n], keep);
      assert forall x :: x in s <==> x in s[..n] || x == s[n] by {
        assert s == s[..n] + [s[n]];
      }
      if keep(s[n]) then prev + [s[n]] else prev
  }

  /** Filtering keeps as many copies of each element as `s` has, or none. */
  lemma {:induction false} FilterMultiset<T(!new)>(s: seq<T>, keep: T -> bool)
    ensures multiset(Filter(s, keep)) <= multiset(s)
    decreases |s|
  {
    if |s| > 0 {
      var n := |s| - 1;
      FilterMultiset(s[..n], keep);
      assert s == s[..n] + [s[n]];
    }
  }

  function CalstarsNames(list: CalstarsList): (names: seq<string>)
    ensures |names| == |list| && forall i :: 0 <= i < |list| ==> names[i] == list[i].0
  {
    seq(|list|, i requires 0 <= i < |list| => list[i].0)
  }

  /** The first filter: a valid FF name that is listed in CALSTARS, or any valid FF name with `nostars`. */
  function CandidateKeep(names: seq<string>, nostars: bool, env: FlatEnv): string -> bool {
    name => env.validFFName(name) && (name in names || nostars)
  }

  /**
   * The second filter: with `nostars` every valid FF name; otherwise a valid FF name with a CALSTARS
   * entry of strictly more than `ffMinStars` stars.
   */
  function GoodKeep(calstars: OrderedDict.Dict<string, seq<StarMatcher.DetectedStar>>, nostars: bool, ffMinStars: int,
                    env: FlatEnv): string -> bool
  {
    name =>
      && env.validFFName(name)
      && (nostars || (name in OrderedDict.Keys(calstars) && |OrderedDict.Get(calstars, name).value| > ffMinStars))
  }

  /** The loop that fills `ff_list`. */
  method SelectCandidates(listing: seq<string>, names: seq<string>, nostars: bool, env: FlatEnv) returns (ffList: seq<string>)
    ensures ffList == Filter(listing, CandidateKeep(names, nostars, env))
  {
    var keep := CandidateKeep(names, nostars, env);
    ffList := [];
    for i := 0 to |listing|
      invariant ffList == Filter(listing[..i], keep)
    {
      assert listing[..i + 1][..i] == listing[..i];
      if env.validFFName(listing[i]) && (listing[i] in names || nostars) {
        ffList := ffList + [listing[i]];
      }
    }
    assert listing[..|listing|] == listing;
  }

  /** The middle times of `files`, as Julian dates. */
  function Times(files: seq<string>, fps: real, env: FlatEnv): (t: seq<real>)
    ensures |t| == |files| && forall i :: 0 <= i < |files| ==> t[i] == env.middleJD(files[i], fps)
  {
    seq(|files|, i requires 0 <= i < |files| => env.middleJD(files[i], fps))
  }

  /** The loop that fills `ff_list_good` and `ff_times`. */
  method SelectGoodFiles(ffList: seq<string>, calstars: OrderedDict.Dict<string, seq<StarMatcher.DetectedStar>>,
                         nostars: bool, settings: FlatSettings, env: FlatEnv)
    returns (good: seq<string>, times: seq<real>)
    ensures good == Filter(ffList, GoodKeep(calstars, nostars, settings.ffMinStars, env))
    ensures times == Times(good, settings.fps, env)
  {
    var keep := GoodKeep(calstars, nostars, settings.ffMinStars, env);
    good, times := [], [];
    for i := 0 to |ffList|
      invariant good == Filter(ffList[..i], keep)
      invariant times == Times(good, settings.fps, env)
    {
      assert ffList[..i + 1][..i] == ffList[..i];
      var ffName := ffList[i];
      if !env.validFFName(ffName) {
        continue;
      }
      if ffName in OrderedDict.Keys(calstars) || nostars {
        var ffNstars := if !nostars then |OrderedDict.Get(calstars, ffName).value| else 0;
        if ffNstars > settings.ffMinStars || nostars {
          good := good + [ffName];
          times := times + [env.middleJD(ffName, settings.fps)];
        }
      }
    }
    assert ffList[..|ffList|] == ffList;
  }

  /**
   * Without `nostars`, a file is selected exactly when it is in the folder, has a valid FF name and
   * has strictly more than `ffMinStars` stars in CALSTARS (the last entry of a name repeated there
   * counting); with `nostars`, exactly when it is in the folder with a valid FF name.
   */
  lemma SelectedIff(listing: seq<string>, list: CalstarsList, nostars: bool, ffMinStars: int, env: FlatEnv, name: string)
    ensures var calstars := OrderedDict.FromList(list);
      var good := Filter(Filter(listing, CandidateKeep(CalstarsNames(list), nostars, env)), GoodKeep(calstars, nostars, ffMinStars, env));
      name in good <==>
        && name in listing && env.validFFName(name)
        && (nostars || exists stars :: OrderedDict.LastValueAt(list, name, stars) && |stars| > ffMinStars)
  {
    var calstars := OrderedDict.FromList(list);
    if name in OrderedDict.Keys(calstars) {
      var stars := OrderedDict.Get(calstars, name).value;
      assert OrderedDict.LastValueAt(list, name, stars);
      var i :| 0 <= i < |list| && list[i].0 == name;
      assert CalstarsNames(list)[i] == name;
    }
    if exists stars :: OrderedDict.LastValueAt(list, name, stars) && |stars| > ffMinStars {
      var stars :| OrderedDict.LastValueAt(list, name, stars) && |stars| > ffMinStars;
      assert OrderedDict.Get(calstars, name) == Some(stars);
      var i :| 0 <= i < |list| && list[i].0 == name;
      assert CalstarsNames(list)[i] == name;
    }
  }

  /** Python's `max` on a non-empty list. */
  function MaxOf(s: seq<real>): (m: real)
    requires |s| > 0
    ensures m in s && forall x :: x in s ==> x <= m
    decreases |s|
  {
    if |s| == 1 then s[0]
    else
      var rest := MaxOf(s[1..]);
      assert forall x :: x in s ==> x == s[0] || x in s[1..] by {
        assert s == [s[0]] + s[1..];
      }
      if s[0] >= rest then s[0] else rest
  }

  /** Python's `min` on a non-empty list. */
  function MinOf(s: seq<real>): (m: real)
    requires |s| > 0
    ensures m in s && forall x :: x in s ==> m <= x
    decreases |s|
  {
    if |s| == 1 then s[0]
    else
      var rest := MinOf(s[1..]);
      assert forall x :: x in s ==> x == s[0] || x in s[1..] by {
        assert s == [s[0]] + s[1..];
      }
      if s[0] <= rest then s[0] else rest
  }

  /** The 2-hour test passes exactly when some two selected files lie more than two hours apart. */
  lemma SpanCheck(times: seq<real>)
    requires |times| > 0
    ensures (MaxOf(times) - MinOf(times)) * 24.0 > 2.0 <==>
      exists i, j :: 0 <= i < |times| && 0 <= j < |times| && (times[i] - times[j]) * 24.0 > 2.0
  {
    var hi := MaxOf(times);
    var lo := MinOf(times);
    var i :| 0 <= i < |times| && times[i] == hi;
    var j :| 0 <= j < |times| && times[j] == lo;
    assert (times[i] - times[j]) * 24.0 == (hi - lo) * 24.0;
    forall i', j' | 0 <= i' < |times| && 0 <= j' < |times|
      ensures (times[i'] - times[j']) * 24.0 <= (hi - lo) * 24.0
    {
      assert times[i'] in times && times[j'] in times;
    }
  }

  // ---------------------------------------------------------------------------------------------
  // Sampling

  /**
   * The files the flat is made of: the selection itself when it has at most 200 files; otherwise
   * 200 of them, drawn without replacement and sorted.
   */
  predicate IsFlatSample(files: seq<string>, good: seq<string>) {
    if |good| <= MaxFlatFiles then files == good
    else |files| == MaxFlatFiles && SortedStrings(files) && multiset(files) <= multiset(good)
  }

  /** `sorted(random.sample(ff_list_good, 200))` when there are more than 200 files. */
  method SampleFlatFiles(good: seq<string>) returns (files: seq<string>)
    ensures IsFlatSample(files, good)
  {
    files := good;
    if |good| > MaxFlatFiles {
      assert good == good[..MaxFlatFiles] + good[MaxFlatFiles..];
      assert multiset(good[..MaxFlatFiles]) <= multiset(good);
      var picked: seq<string> :| |picked| == MaxFlatFiles && multiset(picked) <= multiset(good);
      files := SortStrings(picked);
    }
  }

  /** The sample of a selection without repeated names has no repeated names. */
  lemma SampleDistinct(files: seq<string>, good: seq<string>)
    requires IsFlatSample(files, good)
    requires forall i, j :: 0 <= i < j < |good| ==> good[i] != good[j]
    ensures forall i, j :: 0 <= i < j < |files| ==> files[i] != files[j]
  {
    if |good| > MaxFlatFiles {
      forall i, j | 0 <= i < j < |files| ensures files[i] != files[j] {
        if files[i] == files[j] {
          var x := files[i];
          assert files == files[..j] + files[j..];
          assert files[..j] == files[..i] + files[i..j];
          assert multiset(files)[x] >= 2 by {
            assert x in multiset(files[i..j]) by { assert files[i..j][0] == x; }
            assert x in multiset(files[j..]) by { assert files[j..][0] == x; }
          }
          MultisetAtMostOnce(good, x);
          assert false;
        }
      }
    }
  }

  /** In a list without repeats every element occurs at most once. */
  lemma {:induction false} MultisetAtMostOnce(s: seq<string>, x: string)
    requires forall i, j :: 0 <= i < j < |s| ==> s[i] != s[j]
    ensures multiset(s)[x] <= 1
    decreases |s|
  {
    if |s| > 0 {
      var n := |s| - 1;
      assert s == s[..n] + [s[n]];
      MultisetAtMostOnce(s[..n], x);
      if s[n] == x {
        assert x !in s[..n] by {
          forall i | 0 <= i < n ensures s[..n][i] != x {
            assert s[..n][i] == s[i];
          }
        }
      }
    }
  }

  // ---------------------------------------------------------------------------------------------
  // Batching

  /** The loop variables: the counter `c`, the batch `ff_avg_list` and `median_list`. */
  datatype BatchState = BatchState(c: nat, avg: seq<Image>, medians: seq<Image>)

  /**
   * One iteration: below ten loaded images the file is read and, unless it is corrupted, its
   * average image joins the batch; at ten the batch is median-combined and reset, and that
   * iteration's file is not read.
   */
  function BatchStep(st: BatchState, name: string, env: FlatEnv): BatchState {
    if st.c < BatchSize then
      match env.readFF(name)
      case None => st
      case Some(ff) => BatchState(st.c + 1, st.avg + [ff.avepixel], st.medians)
    else BatchState(0, [], st.medians + [env.median(st.avg)])
  }

  /** The loop variables after the loop has gone over `files`. */
  function Batches(files: seq<string>, env: FlatEnv): BatchState
    decreases |files|
  {
    if |files| == 0 then BatchState(0, [], [])
    else BatchStep(Batches(files[..|files| - 1], env), files[|files| - 1], env)
  }

  /** The average images actually loaded, in order: those of the readable files read below ten. */
  function Loaded(files: seq<string>, env: FlatEnv): seq<Image>
    decreases |files|
  {
    if |files| == 0 then []
    else
      var n := |files| - 1;
      var st := Batches(files[..n], env);
      var ff := env.readFF(files[n]);
      if st.c < BatchSize && ff.Some? then Loaded(files[..n], env) + [ff.value.avepixel] else Loaded(files[..n], env)
  }

  lemma BatchesUnfold(files: seq<string>, env: FlatEnv)
    requires |files| > 0
    ensures Batches(files, env) == BatchStep(Batches(files[..|files| - 1], env), files[|files| - 1], env)
  {
  }

  /**
   * The batching invariant: the loaded images fall into consecutive batches of exactly ten, each
   * median-combined into one entry of `median_list` in order, and the images of the unfinished
   * last batch (fewer than ten, or ten not yet combined) are in no median.
   */
  lemma {:induction false} BatchesOfTen(files: seq<string>, env: FlatEnv)
    ensures var st := Batches(files, env);
      var loaded := Loaded(files, env);
      && st.c == |st.avg| <= BatchSize
      && |loaded| == BatchSize * |st.medians| + st.c
      && st.avg == loaded[BatchSize * |st.medians|..]
      && forall j :: 0 <= j < |st.medians| ==> st.medians[j] == env.median(loaded[BatchSize * j..BatchSize * j + BatchSize])
    decreases |files|
  {
    if |files| > 0 {
      var n := |files| - 1;
      BatchesOfTen(files[..n], env);
      BatchesUnfold(files, env);
      var prev := Batches(files[..n], env);
      var prevLoaded := Loaded(files[..n], env);
      var st := Batches(files, env);
      var loaded := Loaded(files, env);
      var m := |prev.medians|;
      if prev.c < BatchSize {
        forall j | 0 <= j < m
          ensures loaded[BatchSize * j..BatchSize * j + BatchSize] == prevLoaded[BatchSize * j..BatchSize * j + BatchSize]
        {
          assert BatchSize * j + BatchSize <= BatchSize * m;
        }
        if env.readFF(files[n]).Some? {
          assert loaded == prevLoaded + [env.readFF(files[n]).value.avepixel];
          assert loaded[BatchSize * m..] == prevLoaded[BatchSize * m..] + [env.readFF(files[n]).value.avepixel];
        }
      } else {
        assert loaded == prevLoaded;
        assert prev.avg == loaded[BatchSize * m..BatchSize * m + BatchSize];
      }
    }
  }

  /** Every median uses ten loaded files and the file after them: the counter and the medians are bounded by the files. */
  lemma {:induction false} BatchCountBound(files: seq<string>, env: FlatEnv)
    ensures (BatchSize + 1) * |Batches(files, env).medians| + Batches(files, env).c <= |files|
    decreases |files|
  {
    if |files| > 0 {
      BatchCountBound(files[..|files| - 1], env);
      BatchesUnfold(files, env);
    }
  }

  /** The batching loop. */
  method CombineInBatches(files: seq<string>, env: FlatEnv) returns (medianList: seq<Image>)
    ensures medianList == Batches(files, env).medians
  {
    var c: nat := 0;
    var ffAvgList: seq<Image> := [];
    medianList := [];
    for i := 0 to |files|
      invariant BatchState(c, ffAvgList, medianList) == Batches(files[..i], env)
    {
      assert files[..i + 1][..i] == files[..i];
      if c < BatchSize {
        var ff := env.readFF(files[i]);
        if ff.None? {
          continue;
        }
        ffAvgList := ffAvgList + [ff.value.avepixel];
        c := c + 1;
      } else {
        var ffMedian := env.median(ffAvgList);
        medianList := medianList + [ffMedian];
        ffAvgList := [];
        c := 0;
      }
    }
    assert files[..|files|] == files;
  }

  /**
   * The flat from the medians: the median of them when there are several, the only one when there
   * is one, stretched to 0-255; with none, taking the first raises.
   */
  function FinalFlat(medians: seq<Image>, env: FlatEnv): FlatOutcome {
    if |medians| > 1 then Flat(env.stretch(env.median(medians)))
    else if |medians| == 1 then Flat(env.stretch(medians[0]))
    else Raised(IndexError)
  }

  /** With ten files or fewer to combine no batch is ever completed, and making the flat raises. */
  lemma FewFilesRaise(files: seq<string>, env: FlatEnv)
    requires |files| <= BatchSize
    ensures FinalFlat(Batches(files, env).medians, env) == Raised(IndexError)
  {
    BatchCountBound(files, env);
  }

  /** A flat is made exactly when at least one batch of ten was completed and combined. */
  lemma FlatIffBatchCompleted(files: seq<string>, env: FlatEnv)
    ensures FinalFlat(Batches(files, env).medians, env).Flat? <==>
      |Loaded(files, env)| >= BatchSize && |Batches(files, env).medians| >= 1
    ensures FinalFlat(Batches(files, env).medians, env).Flat? ==> |files| > BatchSize
  {
    BatchesOfTen(files, env);
    BatchCountBound(files, env);
  }

  // ---------------------------------------------------------------------------------------------
  // The whole function

  /**
   * Everything before the batching: the early `None` returns and the `max()` of no times, or the
   * selected files.
   */
  function Prepare(listing: seq<string>, settings: FlatSettings, nostars: bool, env: FlatEnv): Result<seq<string>, FlatOutcome>
  {
    match CalstarsFile(listing)
    case None => Failure(NoFlat)
    case Some(file) =>
      var list := env.readCalstars(file);
      var ffList := Filter(listing, CandidateKeep(CalstarsNames(list), nostars, env));
      if |ffList| == 0 then Failure(NoFlat)
      else
        var good := Filter(ffList, GoodKeep(OrderedDict.FromList(list), nostars, settings.ffMinStars, env));
        var times := Times(good, settings.fps, env);
        if |times| < settings.flatMinImgs && !nostars then Failure(NoFlat)
        else if |times| == 0 then Failure(Raised(EmptyTimesError))
        else if !((MaxOf(times) - MinOf(times)) * 24.0 > 2.0) && !nostars then Failure(NoFlat)
        else Success(good)
  }

  /** Without `nostars` a prepared selection has at least `flatMinImgs` files spanning more than two hours. */
  lemma PreparedSelection(listing: seq<string>, settings: FlatSettings, nostars: bool, env: FlatEnv)
    requires !nostars && Prepare(listing, settings, nostars, env).Success?
    ensures var good := Prepare(listing, settings, nostars, env).value;
      var t := Times(good, settings.fps, env);
      && |good| >= settings.flatMinImgs && |good| > 0
      && exists i, j :: 0 <= i < |t| && 0 <= j < |t| && (t[i] - t[j]) * 24.0 > 2.0
  {
    var good := Prepare(listing, settings, nostars, env).value;
    SpanCheck(Times(good, settings.fps, env));
  }

  /** With `nostars` nothing is checked after the first filter: every valid FF name of the folder is used. */
  lemma NostarsTakesEveryValidFile(listing: seq<string>, settings: FlatSettings, env: FlatEnv)
    requires CalstarsFile(listing).Some?
    ensures var ffList := Filter(listing, CandidateKeep(CalstarsNames(env.readCalstars(CalstarsFile(listing).value)), true, env));
      |ffList| > 0 ==> Prepare(listing, settings, true, env) == Success(ffList)
  {
    var list := env.readCalstars(CalstarsFile(listing).value);
    var ffList := Filter(listing, CandidateKeep(CalstarsNames(list), true, env));
    var good := Filter(ffList, GoodKeep(OrderedDict.FromList(list), true, settings.ffMinStars, env));
    FilterAll(ffList, GoodKeep(OrderedDict.FromList(list), true, settings.ffMinStars, env));
  }

  /** Filtering with a test every element passes changes nothing. */
  lemma {:induction false} FilterAll<T(!new)>(s: seq<T>, keep: T -> bool)
    requires forall x :: x in s ==> keep(x)
    ensures Filter(s, keep) == s
    decreases |s|
  {
    if |s| > 0 {
      var n := |s| - 1;
      assert forall x :: x in s[..n] ==> x in s;
      FilterAll(s[..n], keep);
      assert s == s[..n] + [s[n]];
    }
  }

  /**
   * `makeFlat` on a folder whose listing is `listing`: the early returns, or the flat from the
   * batches of the files used. `used` holds the files the flat was made of.
   */
  method MakeFlat(listing: seq<string>, settings: FlatSettings, nostars: bool, env: FlatEnv)
    returns (outcome: FlatOutcome, used: seq<string>)
    ensures var p := Prepare(listing, settings, nostars, env);
      && (p.Failure? ==> outcome == p.error)
      && (p.Success? ==> IsFlatSample(used, p.value) && outcome == FinalFlat(Batches(used, env).medians, env))
  {
    used := [];
    var calstarsFile := FindCalstarsFile(listing);
    if calstarsFile.None? {
      return NoFlat, used;
    }
    var calstarsList := env.readCalstars(calstarsFile.value);
    var calstars := OrderedDict.FromList(calstarsList);
    var calstarsFFFiles := CalstarsNames(calstarsList);
    var ffList := SelectCandidates(listing, calstarsFFFiles, nostars, env);
    if |ffList| == 0 {
      return NoFlat, used;
    }
    var ffListGood, ffTimes := SelectGoodFiles(ffList, calstars, nostars, settings, env);
    if |ffTimes| < settings.flatMinImgs && !nostars {
      return NoFlat, used;
    }
    if |ffTimes| == 0 {
      return Raised(EmptyTimesError), used;
    }
    if !((MaxOf(ffTimes) - MinOf(ffTimes)) * 24.0 > 2.0) && !nostars {
      return NoFlat, used;
    }
    ffListGood := SampleFlatFiles(ffListGood);
    used := ffListGood;
    var medianList := CombineInBatches(ffListGood, env);
    if |medianList| > 1 {
      outcome := Flat(env.stretch(env.median(medianList)));
    } else if |medianList| == 1 {
      outcome := Flat(env.stretch(medianList[0]));
    } else {
      outcome := Raised(IndexError);
    }
  }
}
