/**
 * The CAMS CALSTARS writer (`makeCALSTARS`): a fixed ten-line header, then for every image a
 * separator, its FF file name, two fixed lines and one line per star, then a closing line of `#`.
 * The `{:7.2f}` rendering of a coordinate rounded to two decimals is given as a function; the
 * integer columns are written out.
 */
module Calstars {
  import opened Strings

  /** One extracted star as the writer receives it: column, row, background level and intensity. */
  datatype ExtractedStar = ExtractedStar(x: real, y: real, bgLevel: real, level: real)

  /** One image: its FF file name and its stars. */
  type ImageStars = (string, seq<ExtractedStar>)

  /** The line of 74 `=` between blocks, and the line of 74 `#` that closes the file. */
  const Separator: string := "=========================================================================="
  const EndSeparator: string := "##########################################################################"

  /** Python's `int()` on a float: the integer part, truncated toward zero. */
  function Trunc(r: real): (n: int)
    ensures r >= 0.0 ==> 0 <= n && n as real <= r < n as real + 1.0
    ensures r < 0.0 ==> n <= 0 && n as real - 1.0 < r <= n as real
  {
    if r >= 0.0 then r.Floor else -((-r).Floor)
  }

  /** `"{:6d}".format(n)`: the decimal digits of `n`, right-aligned in six columns. */
  function Int6(n: int): string {
    PadLeft(IntToString(n), 6)
  }

  /** One star line: row, then column, each through `fixed`, then the integer background and intensity. */
  function StarLine(star: ExtractedStar, fixed: real -> string): string {
    fixed(star.y) + " " + fixed(star.x) + " " + Int6(Trunc(star.bgLevel)) + " " + Int6(Trunc(star.level))
  }

  function StarLines(stars: seq<ExtractedStar>, fixed: real -> string): (lines: seq<string>)
    ensures |lines| == |stars|
    decreases |stars|
  {
    if |stars| == 0 then [] else StarLines(stars[..|stars| - 1], fixed) + [StarLine(stars[|stars| - 1], fixed)]
  }

  /** The header: banner, directory, camera code, rows, columns and the unknown star count. */
  function Header(ffDirectory: string, camCode: int, nrows: int, ncols: int): (lines: seq<string>)
    ensures |lines| == 10
  {
    [ Separator,
      "Asteria star extractor",
      "Cal time = FF header time plus 255/(2*framerate_Hz) seconds",
      "Row  Column  Intensity-Backgnd  Intensity  (integrated values)",
      Separator,
      "FF folder = " + ffDirectory,
      "Cam #  = " + IntToString(camCode),
      "Nrows  = " + IntToString(nrows),
      "Ncols  = " + IntToString(ncols),
      "Nstars = -1" ]
  }

  /** The block of one image. */
  function Block(image: ImageStars, fixed: real -> string): (lines: seq<string>)
    ensures |lines| == 4 + |image.1|
  {
    BlockHead(image.0) + StarLines(image.1, fixed)
  }

  /** The four lines that open the block of an image: separator, FF file name, and two unused counts. */
  function BlockHead(ffName: string): (lines: seq<string>)
    ensures |lines| == 4 && lines[1] == ffName
  {
    [Separator, ffName, "Star area dim = -1", "Integ pixels  = -1"]
  }

  /** The blocks of all images, in order. */
  function Blocks(starList: seq<ImageStars>, fixed: real -> string): seq<string>
    decreases |starList|
  {
    if |starList| == 0 then []
    else Blocks(starList[..|starList| - 1], fixed) + Block(starList[|starList| - 1], fixed)
  }

  /** The number of block lines: four per image and one per star. */
  function BlockLineCount(starList: seq<ImageStars>): nat
    decreases |starList|
  {
    if |starList| == 0 then 0
    else BlockLineCount(starList[..|starList| - 1]) + 4 + |starList[|starList| - 1].1|
  }

  /** The lines of the file, without their line ends. */
  function CalstarsLines(starList: seq<ImageStars>, ffDirectory: string, camCode: int, nrows: int, ncols: int,
                         fixed: real -> string): seq<string>
  {
    Header(ffDirectory, camCode, nrows, ncols) + Blocks(starList, fixed) + [EndSeparator]
  }

  /** The file has 10 header lines, four lines per image and one per star, and the closing line. */
  lemma CalstarsLineCount(starList: seq<ImageStars>, ffDirectory: string, camCode: int, nrows: int, ncols: int,
                          fixed: real -> string)
    ensures |CalstarsLines(starList, ffDirectory, camCode, nrows, ncols, fixed)| == 10 + BlockLineCount(starList) + 1
  {
    BlocksLength(starList, fixed);
  }

  lemma {:induction false} BlocksLength(starList: seq<ImageStars>, fixed: real -> string)
    ensures |Blocks(starList, fixed)| == BlockLineCount(starList)
    decreases |starList|
  {
    if |starList| > 0 {
      BlocksLength(starList[..|starList| - 1], fixed);
    }
  }

  /**
   * Images appear in input order: the block of image `k` starts after the header and the blocks of
   * the images before it.
   */
  lemma {:induction false} BlockPlacement(starList: seq<ImageStars>, fixed: real -> string, k: int)
    requires 0 <= k < |starList|
    ensures IsPlacedAt(starList, fixed, k)
    decreases |starList|
  {
    var n := |starList| - 1;
    if k == n {
      LastBlockPlacement(starList, fixed);
    } else {
      BlockPlacement(starList[..n], fixed, k);
      EarlierBlockPlacement(starList, fixed, k);
    }
  }

  /** The block of image `k` sits right after the header-less blocks of the images before it. */
  predicate IsPlacedAt(starList: seq<ImageStars>, fixed: real -> string, k: int)
    requires 0 <= k < |starList|
  {
    var start := BlockLineCount(starList[..k]);
    var blocks := Blocks(starList, fixed);
    && start + 4 + |starList[k].1| <= |blocks|
    && blocks[start..start + 4 + |starList[k].1|] == Block(starList[k], fixed)
  }

  lemma LastBlockPlacement(starList: seq<ImageStars>, fixed: real -> string)
    requires |starList| > 0
    ensures IsPlacedAt(starList, fixed, |starList| - 1)
  {
    var n := |starList| - 1;
    var prefix := starList[..n];
    BlocksUnfold(starList, fixed);
    BlocksLength(prefix, fixed);
    SliceOfSecond(Blocks(prefix, fixed), Block(starList[n], fixed));
  }

  lemma EarlierBlockPlacement(starList: seq<ImageStars>, fixed: real -> string, k: int)
    requires 0 <= k < |starList| - 1
    requires IsPlacedAt(starList[..|starList| - 1], fixed, k)
    ensures IsPlacedAt(starList, fixed, k)
  {
    var n := |starList| - 1;
    var prefix := starList[..n];
    TakeOfTake(starList, n, k);
    var start := BlockLineCount(starList[..k]);
    var end := start + 4 + |starList[k].1|;
    BlocksUnfold(starList, fixed);
    SliceOfFirst(Blocks(prefix, fixed), Block(starList[n], fixed), start, end);
  }

  lemma TakeOfTake<T>(s: seq<T>, n: nat, k: nat)
    requires k <= n <= |s|
    ensures s[..n][..k] == s[..k]
  {
  }

  lemma SliceOfSecond(a: seq<string>, b: seq<string>)
    ensures (a + b)[|a|..|a| + |b|] == b
  {
  }

  lemma SliceOfFirst(a: seq<string>, b: seq<string>, i: nat, j: nat)
    requires i <= j <= |a|
    ensures (a + b)[i..j] == a[i..j]
  {
  }

  lemma BlocksUnfold(starList: seq<ImageStars>, fixed: real -> string)
    requires |starList| > 0
    ensures Blocks(starList, fixed) == Blocks(starList[..|starList| - 1], fixed) + Block(starList[|starList| - 1], fixed)
  {
  }

  /** The text written by `write(line + "\n")` for every line in turn. */
  function Text(lines: seq<string>): string
    decreases |lines|
  {
    if |lines| == 0 then "" else lines[0] + "\n" + Text(lines[1..])
  }

  /** Writing one more line appends it and its line end to the text. */
  lemma {:induction false} TextAppend(lines: seq<string>, line: string)
    ensures Text(lines + [line]) == Text(lines) + line + "\n"
    decreases |lines|
  {
    if |lines| > 0 {
      assert (lines + [line])[1..] == lines[1..] + [line];
      TextAppend(lines[1..], line);
    }
  }

  /** Reading the text back split on line ends gives the lines, and an empty piece after the last line end. */
  lemma {:induction false} TextReadsBack(lines: seq<string>)
    requires forall k :: 0 <= k < |lines| ==> '\n' !in lines[k]
    ensures SplitOn(Text(lines), '\n') == lines + [""]
    decreases |lines|
  {
    if |lines| > 0 {
      TextReadsBack(lines[1..]);
      SplitOnLeadingLine(lines[0], Text(lines[1..]));
      assert lines == [lines[0]] + lines[1..];
    }
  }

  /** A line without line end, its line end, then a rest: the line is the first piece. */
  lemma {:induction false} SplitOnLeadingLine(line: string, rest: string)
    requires '\n' !in line
    ensures SplitOn(line + "\n" + rest, '\n') == [line] + SplitOn(rest, '\n')
    decreases |line|
  {
    var s := line + "\n" + rest;
    if |line| == 0 {
      assert s[1..] == rest;
    } else {
      assert s[1..] == line[1..] + "\n" + rest;
      SplitOnLeadingLine(line[1..], rest);
      assert [line[0]] + line[1..] == line;
    }
  }

  /** The open file `star_file`: what has been written so far. */
  class StarFile {
    var text: string

    constructor ()
      ensures text == ""
    {
      text := "";
    }

    method Write(s: string)
      modifies this
      ensures text == old(text) + s
    {
      text := text + s;
    }
  }

  /** The files of the station's disk, by path. */
  class Disk {
    var files: map<string, string>

    constructor (files: map<string, string>)
      ensures this.files == files
    {
      this.files := files;
    }

    /** Closing `star_file` opened for writing at `path` leaves its text as the file's contents. */
    method Close(path: string, file: StarFile)
      modifies this
      ensures files == old(files)[path := file.text]
    {
      files := files[path := file.text];
    }
  }

  /** `star_file.write(line + "\n")`: the text grows by one line. */
  method WriteLine(file: StarFile, ghost lines: seq<string>, line: string)
    requires file.text == Text(lines)
    modifies file
    ensures file.text == Text(lines + [line])
  {
    TextAppend(lines, line);
    file.Write(line + "\n");
  }

  /** Writes `lines` in order after what is already written. */
  method WriteLines(file: StarFile, ghost before: seq<string>, lines: seq<string>)
    requires file.text == Text(before)
    modifies file
    ensures file.text == Text(before + lines)
  {
    assert before + lines[..0] == before;
    for h := 0 to |lines|
      invariant file.text == Text(before + lines[..h])
    {
      WriteLine(file, before + lines[..h], lines[h]);
      assert before + lines[..h] + [lines[h]] == before + lines[..h + 1];
    }
    assert lines[..|lines|] == lines;
  }

  /** Writes a line per star after what is already written. */
  method WriteStars(file: StarFile, ghost before: seq<string>, starData: seq<ExtractedStar>, fixed: real -> string)
    requires file.text == Text(before)
    modifies file
    ensures file.text == Text(before + StarLines(starData, fixed))
  {
    assert before + StarLines(starData[..0], fixed) == before;
    for s := 0 to |starData|
      invariant file.text == Text(before + StarLines(starData[..s], fixed))
    {
      var star := starData[s];
      var line := fixed(star.y) + " " + fixed(star.x) + " " + Int6(Trunc(star.bgLevel)) + " " + Int6(Trunc(star.level));
      WriteLine(file, before + StarLines(starData[..s], fixed), line);
      StarLinesStep(starData, s, fixed);
      assert before + StarLines(starData[..s], fixed) + [line] == before + StarLines(starData[..s + 1], fixed);
    }
    assert starData[..|starData|] == starData;
  }

  lemma StarLinesStep(starData: seq<ExtractedStar>, s: nat, fixed: real -> string)
    requires s < |starData|
    ensures StarLines(starData[..s + 1], fixed) == StarLines(starData[..s], fixed) + [StarLine(starData[s], fixed)]
  {
    assert starData[..s + 1][..s] == starData[..s];
  }

  /** Writes the block of one image after what is already written: its four opening lines, then a line per star. */
  method WriteBlock(file: StarFile, ghost before: seq<string>, image: ImageStars, fixed: real -> string)
    requires file.text == Text(before)
    modifies file
    ensures file.text == Text(before + Block(image, fixed))
  {
    var (ffName, starData) := image;
    WriteLines(file, before, BlockHead(ffName));
    WriteStars(file, before + BlockHead(ffName), starData, fixed);
    BlockAfter(before, image, fixed);
  }

  lemma BlockAfter(before: seq<string>, image: ImageStars, fixed: real -> string)
    ensures before + BlockHead(image.0) + StarLines(image.1, fixed) == before + Block(image, fixed)
  {
  }

  /**
   * `makeCALSTARS`: writes the star list in the CALSTARS layout to `file_name` in `ff_directory`;
   * `join` is the host's `os.path.join`.
   */
  method MakeCalstars(starList: seq<ImageStars>, fileName: string, ffDirectory: string, camCode: int, nrows: int,
                      ncols: int, fixed: real -> string, join: (string, string) -> string, disk: Disk)
    modifies disk
    ensures disk.files ==
      old(disk.files)[join(ffDirectory, fileName) := Text(CalstarsLines(starList, ffDirectory, camCode, nrows, ncols, fixed))]
  {
    var starFile := new StarFile();
    var header := Header(ffDirectory, camCode, nrows, ncols);
    WriteLines(starFile, [], header);
    BlocksNone(header, starList, fixed);
    for k := 0 to |starList|
      invariant starFile.text == Text(header + Blocks(starList[..k], fixed))
      invariant disk.files == old(disk.files)
    {
      WriteBlock(starFile, header + Blocks(starList[..k], fixed), starList[k], fixed);
      BlocksStep(header, starList, k, fixed);
    }
    WriteLine(starFile, header + Blocks(starList[..|starList|], fixed), EndSeparator);
    BlocksAll(starList, ffDirectory, camCode, nrows, ncols, fixed);
    disk.Close(join(ffDirectory, fileName), starFile);
  }

  lemma BlocksNone(header: seq<string>, starList: seq<ImageStars>, fixed: real -> string)
    ensures [] + header == header + Blocks(starList[..0], fixed)
  {
  }

  lemma BlocksStep(header: seq<string>, starList: seq<ImageStars>, k: nat, fixed: real -> string)
    requires k < |starList|
    ensures header + Blocks(starList[..k], fixed) + Block(starList[k], fixed) == header + Blocks(starList[..k + 1], fixed)
  {
    BlocksExtend(starList, k, fixed);
  }

  lemma BlocksExtend(starList: seq<ImageStars>, k: nat, fixed: real -> string)
    requires k < |starList|
    ensures Blocks(starList[..k + 1], fixed) == Blocks(starList[..k], fixed) + Block(starList[k], fixed)
  {
    assert starList[..k + 1][..k] == starList[..k];
    BlocksUnfold(starList[..k + 1], fixed);
  }

  lemma BlocksAll(starList: seq<ImageStars>, ffDirectory: string, camCode: int, nrows: int, ncols: int,
                  fixed: real -> string)
    ensures Header(ffDirectory, camCode, nrows, ncols) + Blocks(starList[..|starList|], fixed) + [EndSeparator]
         == CalstarsLines(starList, ffDirectory, camCode, nrows, ncols, fixed)
  {
    assert starList[..|starList|] == starList;
  }

  // ---------------------------------------------------------------------------------------------
  // Reading a star line back

  /** Spaces, then a non-empty run of non-space characters: what `{:7.2f}` and `{:6d}` write. */
  predicate IsPaddedWord(s: string, word: string) {
    |word| > 0 && |s| >= |word| && s[|s| - |word|..] == word
    && (forall i :: 0 <= i < |word| ==> !IsSpace(word[i]))
    && forall i :: 0 <= i < |s| - |word| ==> s[i] == ' '
  }

  /** A field separated by one space from what follows splits into its own words, then the rest's. */
  lemma WordsAcrossSpace(a: string, b: string)
    ensures Words(a + " " + b) == Words(a) + Words(b)
  {
    assert a + " " + b == a + (" " + b);
    WordsBeforeSpace(a, " " + b);
    assert (" " + b)[1..] == b;
  }

  lemma {:induction false} WordsBeforeSpace(a: string, c: string)
    requires |c| > 0 && IsSpace(c[0])
    ensures Words(a + c) == Words(a) + Words(c)
    decreases |a|
  {
    var s := a + c;
    if |a| == 0 {
      assert s == c;
    } else if IsSpace(a[0]) {
      assert s[0] == a[0];
      assert s[1..] == a[1..] + c;
      WordsBeforeSpace(a[1..], c);
    } else {
      var n := WordLength(a);
      WordLengthBeforeSpace(a, c);
      assert s[0] == a[0];
      assert s[..n] == a[..n];
      assert s[n..] == a[n..] + c;
      WordsBeforeSpace(a[n..], c);
      assert Words(s) == [a[..n]] + (Words(a[n..]) + Words(c));
    }
  }

  lemma {:induction false} WordLengthBeforeSpace(a: string, c: string)
    requires |c| > 0 && IsSpace(c[0])
    ensures WordLength(a + c) == WordLength(a)
    decreases |a|
  {
    if |a| > 0 && !IsSpace(a[0]) {
      assert (a + c)[1..] == a[1..] + c;
      WordLengthBeforeSpace(a[1..], c);
    } else if |a| == 0 {
      assert (a + c)[0] == c[0];
    }
  }

  /** A padded word splits into that word. */
  lemma {:induction false} WordsOfPadded(s: string, word: string)
    requires IsPaddedWord(s, word)
    ensures Words(s) == [word]
    decreases |s|
  {
    if |s| > |word| {
      assert s[1..][|s| - 1 - |word|..] == word;
      WordsOfPadded(s[1..], word);
    } else {
      assert s == word;
      WordLengthAllWord(word);
      assert !IsSpace(word[0]);
      assert word[..|word|] == word && word[|word|..] == "";
      assert Words(word) == [word[..|word|]] + Words(word[|word|..]);
    }
  }

  lemma {:induction false} WordLengthAllWord(word: string)
    requires forall i :: 0 <= i < |word| ==> !IsSpace(word[i])
    ensures WordLength(word) == |word|
    decreases |word|
  {
    if |word| > 0 {
      WordLengthAllWord(word[1..]);
    }
  }

  /** `str.split()` of a decimal number written in six columns gives the number's digits. */
  lemma Int6Word(n: int)
    ensures Words(Int6(n)) == [IntToString(n)]
  {
    var w := IntToString(n);
    forall i | 0 <= i < |w| ensures !IsSpace(w[i]) {
      if n < 0 && i == 0 {
        assert w[0] == '-';
      } else if n < 0 {
        assert w[i] == w[1..][i - 1];
        assert '0' <= w[1..][i - 1] <= '9';
      }
    }
    PadLeftLayout(w, 6);
    WordsOfPadded(Int6(n), w);
  }

  /**
   * Splitting a star line on white space gives back the row, the column, the background and the
   * intensity, in that order, when the coordinate rendering writes a padded number.
   */
  lemma StarLineFields(star: ExtractedStar, fixed: real -> string, yWord: string, xWord: string)
    requires IsPaddedWord(fixed(star.y), yWord) && IsPaddedWord(fixed(star.x), xWord)
    ensures Words(StarLine(star, fixed)) == [yWord, xWord, IntToString(Trunc(star.bgLevel)), IntToString(Trunc(star.level))]
  {
    WordsOfFour(fixed(star.y), fixed(star.x), Int6(Trunc(star.bgLevel)), Int6(Trunc(star.level)));
    WordsOfPadded(fixed(star.y), yWord);
    WordsOfPadded(fixed(star.x), xWord);
    Int6Word(Trunc(star.bgLevel));
    Int6Word(Trunc(star.level));
  }

  /** Four fields joined by single spaces split into the words of each field in turn. */
  lemma WordsOfFour(a: string, b: string, c: string, d: string)
    ensures Words(a + " " + b + " " + c + " " + d) == Words(a) + Words(b) + Words(c) + Words(d)
  {
    assert a + " " + b + " " + c + " " + d == a + " " + (b + " " + (c + " " + d));
    WordsAcrossSpace(a, b + " " + (c + " " + d));
    WordsAcrossSpace(b, c + " " + d);
    WordsAcrossSpace(c, d);
  }
}
