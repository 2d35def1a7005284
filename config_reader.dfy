/**
 * The station configuration reader: built-in defaults, overwritten section by section from an
 * INI file. The INI parser itself is abstracted to the sections it produces.
 */
module ConfigReader {
  import opened Wrappers
  import opened Strings

  /**
   * A parsed INI file: section name to (option name to raw text). The parser lower-cases option
   * names both when it reads the file and when it looks an option up, so the lookups below use
   * the lower-cased names (`stationid` for `stationID`, `calstars_files_n` for `calstars_files_N`).
   */
  datatype Ini = Ini(sections: map<string, map<string, string>>)

  /** Python's `int(text)` and `float(text)` on an option's text; `None` where they raise `ValueError`. */
  datatype Conversions = Conversions(toInt: string -> Option<int>, toFloat: string -> Option<real>)

  /**
   * The machine the reader runs on: `sys.platform`, `os.uname()[4]`, `os.path.expanduser`,
   * `os.sep` and `os.path.join` (`posixpath.join` with `/` on POSIX hosts, `ntpath.join` with `\\`
   * on Windows).
   */
  datatype Host = Host(platform: string, machine: string, expandUser: string -> string,
                       sep: char, join: (string, string) -> string)

  /** The exceptions the reader raises. `NotConfigured` is the `RuntimeError("Not configured!")`. */
  datatype ConfigError =
    | NotConfigured
    | NoOptionError(option: string)
    | ValueError(option: string)
    | IndexError
    | ZeroDivisionError

  /** A capture device: an integer index, or a stream address that does not read as an integer. */
  datatype DeviceId = Index(index: int) | Name(name: string)

  predicate HasSection(ini: Ini, section: string) {
    section in ini.sections
  }

  /** `parser.has_option` for a lower-cased option name: false for a missing section. */
  predicate HasOption(ini: Ini, section: string, option: string) {
    section in ini.sections && option in ini.sections[section]
  }

  /** `parser.get` of an option that is present. */
  function Value(ini: Ini, section: string, option: string): string
    requires HasOption(ini, section, option)
  {
    ini.sections[section][option]
  }

  /** The option's text when present, `None` otherwise. */
  function OptionalValue(ini: Ini, section: string, option: string): (r: Option<string>)
    ensures r.Some? <==> HasOption(ini, section, option)
  {
    if HasOption(ini, section, option) then Some(Value(ini, section, option)) else None
  }

  /** `parser.getint`: `NoOptionError` when absent, `ValueError` when the text is not an integer. */
  function GetInt(ini: Ini, conv: Conversions, section: string, option: string): (r: Result<int, ConfigError>)
    ensures !HasOption(ini, section, option) ==> r == Failure(NoOptionError(option))
    ensures HasOption(ini, section, option) ==>
      match conv.toInt(Value(ini, section, option))
      case Some(n) => r == Success(n)
      case None => r == Failure(ValueError(option))
  {
    if !HasOption(ini, section, option) then Failure(NoOptionError(option))
    else match conv.toInt(Value(ini, section, option))
      case Some(n) => Success(n)
      case None => Failure(ValueError(option))
  }

  /** `parser.getfloat`. */
  function GetFloat(ini: Ini, conv: Conversions, section: string, option: string): (r: Result<real, ConfigError>)
    ensures !HasOption(ini, section, option) ==> r == Failure(NoOptionError(option))
    ensures HasOption(ini, section, option) ==>
      match conv.toFloat(Value(ini, section, option))
      case Some(x) => r == Success(x)
      case None => r == Failure(ValueError(option))
  {
    if !HasOption(ini, section, option) then Failure(NoOptionError(option))
    else match conv.toFloat(Value(ini, section, option))
      case Some(x) => Success(x)
      case None => Failure(ValueError(option))
  }

  /** The words `getboolean` accepts, case-insensitively. */
  function BooleanState(text: string): Option<bool> {
    var w := AsciiLower(text);
    if w == "1" || w == "yes" || w == "true" || w == "on" then Some(true)
    else if w == "0" || w == "no" || w == "false" || w == "off" then Some(false)
    else None
  }

  /** `parser.getboolean`: `ValueError` for any text outside the accepted words. */
  function GetBoolean(ini: Ini, section: string, option: string): (r: Result<bool, ConfigError>)
    ensures !HasOption(ini, section, option) ==> r == Failure(NoOptionError(option))
    ensures HasOption(ini, section, option) ==>
      match BooleanState(Value(ini, section, option))
      case Some(b) => r == Success(b)
      case None => r == Failure(ValueError(option))
  {
    if !HasOption(ini, section, option) then Failure(NoOptionError(option))
    else match BooleanState(Value(ini, section, option))
      case Some(b) => Success(b)
      case None => Failure(ValueError(option))
  }

  /** `getboolean` ignores case: any text reads as its lower-case spelling does. */
  lemma BooleanCaseInsensitive(text: string)
    ensures BooleanState(text) == BooleanState(AsciiLower(text))
  {
    AsciiLowerIdempotent(text);
  }

  /** The new value of a text field: the option's text when present, the current value otherwise. */
  function StringOption(ini: Ini, section: string, option: string, current: string): (r: string)
    ensures !HasOption(ini, section, option) ==> r == current
  {
    if HasOption(ini, section, option) then Value(ini, section, option) else current
  }

  /** The new value of an integer field; only a present option is read, and only it can fail. */
  function IntOption(ini: Ini, conv: Conversions, section: string, option: string, current: int): (r: Result<int, ConfigError>)
    ensures !HasOption(ini, section, option) ==> r == Success(current)
    ensures HasOption(ini, section, option) ==> r == GetInt(ini, conv, section, option)
  {
    if HasOption(ini, section, option) then GetInt(ini, conv, section, option) else Success(current)
  }

  function FloatOption(ini: Ini, conv: Conversions, section: string, option: string, current: real): (r: Result<real, ConfigError>)
    ensures !HasOption(ini, section, option) ==> r == Success(current)
    ensures HasOption(ini, section, option) ==> r == GetFloat(ini, conv, section, option)
  {
    if HasOption(ini, section, option) then GetFloat(ini, conv, section, option) else Success(current)
  }

  function BoolOption(ini: Ini, conv: Conversions, section: string, option: string, current: bool): (r: Result<bool, ConfigError>)
    ensures !HasOption(ini, section, option) ==> r == Success(current)
    ensures HasOption(ini, section, option) ==> r == GetBoolean(ini, section, option)
  {
    if HasOption(ini, section, option) then GetBoolean(ini, section, option) else Success(current)
  }

  /**
   * Python 2's `a / b` on integers, which is `a // b`: the quotient rounded toward minus infinity,
   * for a divisor of either sign.
   */
  function FloorDiv(a: int, b: int): (q: int)
    requires b != 0
    ensures b > 0 ==> q * b <= a < q * b + b
    ensures b < 0 ==> q * b + b < a <= q * b
  {
    if b > 0 then a / b else (-a) / (-b)
  }

  /** A multiple of the divisor divides exactly. */
  lemma FloorDivExact(k: int, b: int)
    requires b != 0
    ensures FloorDiv(k * b, b) == k
  {
    var q := FloorDiv(k * b, b);
    if b > 0 {
      if q < k {
        MulMono(q + 1, k, b);
      } else if q > k {
        MulMono(k + 1, q, b);
      }
    } else {
      if q < k {
        MulMono(q + 1, k, -b);
      } else if q > k {
        MulMono(k + 1, q, -b);
      }
    }
  }

  /** Floor division by a positive divisor keeps the order of numerators, and by a negative one reverses it. */
  lemma FloorDivMono(a: int, a': int, b: int)
    requires b != 0 && a <= a'
    ensures b > 0 ==> FloorDiv(a, b) <= FloorDiv(a', b)
    ensures b < 0 ==> FloorDiv(a', b) <= FloorDiv(a, b)
  {
    var q, q' := FloorDiv(a, b), FloorDiv(a', b);
    if b > 0 && q > q' {
      MulMono(q' + 1, q, b);
    } else if b < 0 && q' > q {
      MulMono(q + 1, q', -b);
    }
  }

  lemma MulMono(x: int, y: int, c: int)
    requires x <= y && 0 <= c
    ensures x * c <= y * c
  {
  }

  /**
   * `normalizeParameter`: scales a detection parameter by the frame area in units of the
   * subsampling size, relative to a 720x576 frame. Every operand is an integer, so each of the
   * three divisions, taken left to right, floors. A zero subsampling size raises `ZeroDivisionError`.
   */
  function NormalizeParameter(param: int, width: int, height: int, f: int): (r: Result<int, ConfigError>)
    ensures r.Failure? <==> f == 0
    ensures r.Failure? ==> r.error == ZeroDivisionError
  {
    if f == 0 then Failure(ZeroDivisionError)
    else Success(FloorDiv(FloorDiv(FloorDiv(param * width, f) * height, f), 720 * 576))
  }

  /** With the thresholds' defaults (4900 at 1280x720, subsampled by 16) the exact ratio 42.53 floors to 42. */
  lemma NormalizeDefaultDistance()
    ensures NormalizeParameter(4900, 1280, 720, 16) == Success(42)
  {
  }

  /**
   * Multiplied back by the reference area and the squared subsampling size, the normalised value
   * is at most the parameter times the frame area, and falls short of it by less than what the
   * three roundings can lose: `f * (414720 f + f + height)`.
   */
  lemma NormalizeScalesByArea(param: int, width: int, height: int, f: int)
    requires f > 0 && height >= 0
    ensures var r := NormalizeParameter(param, width, height, f).value;
      && r * (f * f * 414720) <= param * width * height
      && param * width * height < r * (f * f * 414720) + f * (414720 * f + f + height)
  {
    var a := param * width;
    var a1 := FloorDiv(a, f);
    var a2 := FloorDiv(a1 * height, f);
    RoundingsBound(a, a1, a2, FloorDiv(a2, 414720), height, f, 414720);
    assert param * width * height == a * height;
  }

  /**
   * Three successive floor divisions `a1 = a // f`, `a2 = (a1 h) // f`, `r = a2 // k`, with the
   * roundings they allow, scaled back up to the area.
   */
  lemma RoundingsBound(a: int, a1: int, a2: int, r: int, h: int, f: int, k: int)
    requires f > 0 && h >= 0 && k > 0
    requires a1 * f <= a < a1 * f + f
    requires a2 * f <= a1 * h < a2 * f + f
    requires r * k <= a2 < r * k + k
    ensures r * (f * f * k) <= a * h
    ensures a * h < r * (f * f * k) + f * (k * f + f + h)
  {
    var ff := f * f;
    // The first rounding, times h: a1 f h <= a h <= a1 f h + f h.
    ScaleRounding(a1 * f, a, f, h);
    // The second, times f: a2 ff <= a1 h f < a2 ff + ff.
    ScaleRounding(a2 * f, a1 * h, f, f);
    // The third, times ff: r k ff <= a2 ff < r k ff + k ff.
    ScaleRounding(r * k, a2, k, ff);
    assert a1 * f * h == (a1 * h) * f;
    assert (a2 * f) * f == a2 * ff;
    assert (r * k) * ff == r * (f * f * k);
    assert k * ff + ff + f * h == f * (k * f + f + h);
  }

  /** A rounding `lo <= x < lo + d` scaled by `c >= 0`: `lo c <= x c <= lo c + d c`, strictly below when `c > 0`. */
  lemma ScaleRounding(lo: int, x: int, d: int, c: int)
    requires lo <= x < lo + d && 0 <= c
    ensures lo * c <= x * c <= lo * c + d * c
    ensures c > 0 ==> x * c < lo * c + d * c
  {
    MulMono(lo, x, c);
    MulMono(1, lo + d - x, c);
    assert (lo + d - x) * c == lo * c + d * c - x * c;
  }

  /** On the reference frame of 720 by 576 pixels per subsampling unit, normalising changes nothing. */
  lemma NormalizeAtReferenceSize(param: int, f: int)
    requires f != 0
    ensures NormalizeParameter(param, 720 * f, 576 * f, f) == Success(param)
  {
    assert param * (720 * f) == (param * 720) * f;
    FloorDivExact(param * 720, f);
    assert (param * 720) * (576 * f) == (param * 720 * 576) * f;
    FloorDivExact(param * 720 * 576, f);
    assert param * 720 * 576 == param * (720 * 576);
    FloorDivExact(param, 720 * 576);
  }

  /** A non-negative parameter stays non-negative on a frame of non-negative size, whatever the sign of the subsampling. */
  lemma NormalizeNonNegative(param: int, width: int, height: int, f: int)
    requires f != 0 && 0 <= param && 0 <= width && 0 <= height
    ensures NormalizeParameter(param, width, height, f).value >= 0
  {
    var a1 := FloorDiv(param * width, f);
    var a2 := FloorDiv(a1 * height, f);
    FloorDivMono(0, param * width, f);
    FloorDivExact(0, f);
    if f > 0 {
      MulMono(0, a1, height);
      FloorDivMono(0, a1 * height, f);
    } else {
      MulMono(a1, 0, height);
      FloorDivMono(a1 * height, 0, f);
    }
    FloorDivExact(0, 720 * 576);
    FloorDivMono(0, a2, 720 * 576);
  }

  /** A larger parameter never normalises to a smaller value on a frame of non-negative size. */
  lemma NormalizeMonotone(p: int, p': int, width: int, height: int, f: int)
    requires f != 0 && p <= p' && 0 <= width && 0 <= height
    ensures NormalizeParameter(p, width, height, f).value <= NormalizeParameter(p', width, height, f).value
  {
    MulMono(p, p', width);
    var a1, a1' := FloorDiv(p * width, f), FloorDiv(p' * width, f);
    FloorDivMono(p * width, p' * width, f);
    if f > 0 {
      MulMono(a1, a1', height);
      FloorDivMono(a1 * height, a1' * height, f);
    } else {
      MulMono(a1', a1, height);
      FloorDivMono(a1' * height, a1 * height, f);
    }
    FloorDivMono(FloorDiv(a1 * height, f), FloorDiv(a1' * height, f), 720 * 576);
  }

  /**
   * A detection threshold after its section is read: the option squared when present and the
   * current value otherwise, then normalised either way.
   */
  function Threshold(ini: Ini, conv: Conversions, section: string, option: string, current: int, width: int, height: int, f: int): (r: Result<int, ConfigError>)
    ensures !HasOption(ini, section, option) ==> r == NormalizeParameter(current, width, height, f)
    ensures HasOption(ini, section, option) && GetInt(ini, conv, section, option).Success? ==>
      var v := GetInt(ini, conv, section, option).value;
      r == NormalizeParameter(v * v, width, height, f)
    ensures r.Failure? ==> r.error == ZeroDivisionError || r == Failure(ValueError(option))
  {
    var base :- if HasOption(ini, section, option)
      then (var v :- GetInt(ini, conv, section, option); Success(v * v))
      else Success(current);
    NormalizeParameter(base, width, height, f)
  }

  /** A threshold given in the file ends up as its square exactly when the frame has the reference size. */
  lemma ThresholdAtReferenceSize(ini: Ini, conv: Conversions, section: string, option: string, current: int, f: int, v: int)
    requires f != 0
    requires HasOption(ini, section, option) && GetInt(ini, conv, section, option) == Success(v)
    ensures Threshold(ini, conv, section, option, current, 720 * f, 576 * f, f) == Success(v * v)
  {
    NormalizeAtReferenceSize(v * v, f);
  }

  /** `list(map(float, pieces))`: every piece must convert, or the whole conversion raises. */
  function ParseFloats(pieces: seq<string>, conv: Conversions, option: string): (r: Result<seq<real>, ConfigError>)
    ensures r.Failure? ==> r.error == ValueError(option)
  {
    if |pieces| == 0 then Success([])
    else match conv.toFloat(pieces[0])
      case None => Failure(ValueError(option))
      case Some(x) =>
        var rest := ParseFloats(pieces[1..], conv, option);
        if rest.Failure? then Failure(ValueError(option)) else Success([x] + rest.value)
  }

  /** The conversion succeeds exactly when every piece converts, and then holds each piece's value in order. */
  lemma {:induction false} ParseFloatsConvertsEach(pieces: seq<string>, conv: Conversions, option: string)
    ensures var r := ParseFloats(pieces, conv, option);
      && (r.Success? <==> forall i :: 0 <= i < |pieces| ==> conv.toFloat(pieces[i]).Some?)
      && (r.Success? ==> |r.value| == |pieces| && forall i :: 0 <= i < |pieces| ==> conv.toFloat(pieces[i]) == Some(r.value[i]))
  {
    if |pieces| > 0 {
      ParseFloatsConvertsEach(pieces[1..], conv, option);
      assert forall i :: 1 <= i < |pieces| ==> pieces[i] == pieces[1..][i - 1];
    }
  }

  /** The band ratios after their option is read: the comma-separated numbers when present, `current` otherwise. */
  function RatiosOption(ini: Ini, conv: Conversions, section: string, option: string, current: seq<real>): (r: Result<seq<real>, ConfigError>)
    ensures !HasOption(ini, section, option) ==> r == Success(current)
    ensures HasOption(ini, section, option) ==> r == ParseFloats(SplitOn(Value(ini, section, option), ','), conv, option)
  {
    if HasOption(ini, section, option) then ParseFloats(SplitOn(Value(ini, section, option), ','), conv, option)
    else Success(current)
  }

  /**
   * `choosePlatform`: the Windows setting when the platform name contains "win", otherwise the
   * Raspberry Pi setting on an ARM machine and the Linux PC setting elsewhere.
   */
  function ChoosePlatform<T>(winConf: T, rpiConf: T, linuxPcConf: T, host: Host): (r: T)
    ensures Contains(host.platform, "win") ==> r == winConf
    ensures !Contains(host.platform, "win") && Contains(host.machine, "arm") ==> r == rpiConf
    ensures !Contains(host.platform, "win") && !Contains(host.machine, "arm") ==> r == linuxPcConf
  {
    if Contains(host.platform, "win") then winConf
    else if Contains(host.machine, "arm") then rpiConf
    else linuxPcConf
  }

  /** The substring test also matches "darwin", so a macOS host takes the Windows setting. */
  lemma DarwinTakesWindowsSetting<T>(winConf: T, rpiConf: T, linuxPcConf: T, host: Host)
    requires host.platform == "darwin"
    ensures ChoosePlatform(winConf, rpiConf, linuxPcConf, host) == winConf
  {
    ContainsIffOccurs(host.platform, "win");
    assert OccursAt(host.platform, "win", 3);
  }

  /**
   * A host whose platform name has no `w` (such as `linux` or `linux2`) and whose machine name has
   * `arm` somewhere (such as `armv7l`) takes the Raspberry Pi setting.
   */
  lemma LinuxArmTakesRpiSetting<T>(winConf: T, rpiConf: T, linuxPcConf: T, host: Host, i: int)
    requires 'w' !in host.platform && OccursAt(host.machine, "arm", i)
    ensures ChoosePlatform(winConf, rpiConf, linuxPcConf, host) == rpiConf
  {
    NotContainsFirstChar(host.platform, "win");
    ContainsIffOccurs(host.machine, "arm");
  }

  /** A string without the first character of `sub` does not contain `sub`. */
  lemma {:induction false} NotContainsFirstChar(s: string, sub: string)
    requires |sub| > 0 && sub[0] !in s
    ensures !Contains(s, sub)
    decreases |s|
  {
    if |s| > 0 {
      NotContainsFirstChar(s[1..], sub);
    }
  }

  /**
   * The region-of-interest bounds along one axis of `size` pixels: out-of-order bounds are
   * swapped, then a low bound outside `[0, size]` becomes 0 and a high bound outside it becomes
   * `size`.
   */
  function RoiBounds(lo: int, hi: int, size: int): (r: (int, int))
    ensures size >= 0 ==> 0 <= r.0 <= r.1 <= size
    ensures 0 <= lo <= hi <= size ==> r == (lo, hi)
    ensures 0 <= hi <= lo <= size ==> r == (hi, lo)
    ensures (lo < 0 || lo > size) && (hi < 0 || hi > size) ==> r == (0, size)
    ensures 0 <= lo <= size && (hi < 0 || hi > size) && hi >= lo ==> r == (lo, size)
  {
    var (a, b) := if lo > hi then (hi, lo) else (lo, hi);
    var a' := if a < 0 || a > size then 0 else a;
    var b' := if b < 0 || b > size then size else b;
    (a', b')
  }

  /** The bounds may be given in either order. */
  lemma RoiBoundsSymmetric(lo: int, hi: int, size: int)
    ensures RoiBounds(lo, hi, size) == RoiBounds(hi, lo, size)
  {
  }

  /**
   * `data_dir` after home expansion on a host with separator `sep` and path join `join`. A path
   * starting with `~` loses every `~` and then one leading separator, and is joined to the home
   * directory; other paths are kept. Indexing the first character of an empty path raises
   * `IndexError`.
   */
  function ExpandDataDir(dir: string, home: string, sep: char, join: (string, string) -> string): (r: Result<string, ConfigError>)
    ensures |dir| == 0 ==> r == Failure(IndexError)
    ensures |dir| > 0 && dir[0] != '~' ==> r == Success(dir)
    ensures |dir| > 0 && dir[0] == '~' ==> (r.Success? <==> RemoveAll(dir, '~') != "")
    ensures r.Failure? ==> r.error == IndexError
  {
    if |dir| == 0 then Failure(IndexError)
    else if dir[0] != '~' then Success(dir)
    else
      var t := RemoveAll(dir, '~');
      if |t| == 0 then Failure(IndexError)
      else Success(join(home, if t[0] == sep then t[1..] else t))
  }

  /** An expanded `~` path is the home directory joined to the path's text without `~` and without a leading separator. */
  lemma ExpandedDataDirTail(dir: string, home: string, sep: char, join: (string, string) -> string)
    requires |dir| > 0 && dir[0] == '~' && ExpandDataDir(dir, home, sep, join).Success?
    ensures exists rest :: DataDirTail(dir, sep, rest) && ExpandDataDir(dir, home, sep, join).value == join(home, rest)
  {
    var t := RemoveAll(dir, '~');
    var rest := if |t| > 0 && t[0] == sep then t[1..] else t;
    DataDirTailOf(dir, home, sep, join, rest);
  }

  lemma DataDirTailOf(dir: string, home: string, sep: char, join: (string, string) -> string, rest: string)
    requires |dir| > 0 && dir[0] == '~' && ExpandDataDir(dir, home, sep, join).Success?
    requires var t := RemoveAll(dir, '~'); rest == if |t| > 0 && t[0] == sep then t[1..] else t
    ensures DataDirTail(dir, sep, rest) && ExpandDataDir(dir, home, sep, join).value == join(home, rest)
  {
    DropLeadingSeparator(RemoveAll(dir, '~'), sep, rest);
  }

  lemma DropLeadingSeparator(t: string, sep: char, rest: string)
    requires '~' !in t && rest == if |t| > 0 && t[0] == sep then t[1..] else t
    ensures '~' !in rest && (t == rest || t == [sep] + rest)
  {
    if |t| > 0 && t[0] == sep {
      assert t == [sep] + rest;
    }
  }

  /** `rest` is `dir` without any `~`, and without the one separator `sep` that then led it, if any. */
  predicate DataDirTail(dir: string, sep: char, rest: string) {
    '~' !in rest && (RemoveAll(dir, '~') == rest || RemoveAll(dir, '~') == [sep] + rest)
  }

  /** On a POSIX host a home-relative path ends up under the home directory, with one separator between. */
  lemma HomeRelativeDataDir(home: string, path: string)
    requires '~' !in path && |path| > 0 && path[0] != '/'
    requires |home| > 0 && home[|home| - 1] != '/'
    ensures ExpandDataDir("~/" + path, home, '/', PosixJoin) == Success(home + "/" + path)
  {
    TildeSlashRemoved(path);
  }

  /**
   * On a Windows host the separator is a backslash, so the `/` after `~` is kept and handed to the
   * join: `~/path` is joined as `/path`.
   */
  lemma WindowsKeepsSlash(home: string, path: string, join: (string, string) -> string)
    requires '~' !in path
    ensures ExpandDataDir("~/" + path, home, '\\', join) == Success(join(home, "/" + path))
  {
    TildeSlashRemoved(path);
  }

  lemma TildeSlashRemoved(path: string)
    requires '~' !in path
    ensures RemoveAll("~/" + path, '~') == "/" + path
  {
    var dir := "~/" + path;
    RemoveAllNoOccurrence(path, '~');
    assert dir == ['~'] + ("/" + path);
    assert RemoveAll(dir, '~') == RemoveAll(dir[1..], '~');
    assert dir[1..] == ['/'] + path;
    assert RemoveAll(dir[1..], '~') == ['/'] + RemoveAll(dir[2..], '~');
    assert dir[2..] == path;
  }

  lemma {:induction false} RemoveAllNoOccurrence(s: string, c: char)
    requires c !in s
    ensures RemoveAll(s, c) == s
  {
    if |s| > 0 {
      RemoveAllNoOccurrence(s[1..], c);
      assert s == [s[0]] + s[1..];
    }
  }

  /** `int(deviceID)`: a device name that reads as an integer becomes an index; anything else stays. */
  function DeviceIndex(id: DeviceId, conv: Conversions): (r: DeviceId)
    ensures id.Index? ==> r == id
    ensures id.Name? && conv.toInt(id.name).Some? ==> r == Index(conv.toInt(id.name).value)
    ensures id.Name? && conv.toInt(id.name).None? ==> r == id
  {
    match id
    case Index(_) => id
    case Name(s) => match conv.toInt(s) case Some(n) => Index(n) case None => id
  }

  /** The station configuration: one field per setting, initialised to the built-in defaults. */
  class Config {
    var stationID: string
    var latitude: real
    var longitude: real
    var elevation: real
    var camsCode: int
    var deviceID: DeviceId
    var width: int
    var height: int
    var widthDevice: int
    var heightDevice: int
    var fps: real
    var reportDroppedFrames: bool
    var roiLeft: int
    var roiRight: int
    var roiUp: int
    var roiDown: int
    var brightness: int
    var contrast: int
    var bitDepth: int
    var gamma: real
    var ffFormat: string
    var fovW: real
    var fovH: real
    var deinterlaceOrder: int
    var maskFile: string
    var dataDir: string
    var capturedDir: string
    var archivedDir: string
    var videoRecorder: Option<string>
    var uploadEnabled: bool
    var hostname: string
    var hostPort: int
    var rsaPrivateKey: string
    var uploadQueueFile: string
    var remoteDir: string
    var extraCompileArgs: Option<seq<string>>
    var f: int
    var maxTime: int
    var whiteAvgLevel: int
    var minLevel: int
    var minPixels: int
    var k1: real
    var j1: int
    var maxPointsPerFrame: int
    var maxPerFrameFactor: int
    var maxPoints: int
    var minFrames: int
    var minPoints: int
    var before: real
    var after: real
    var limitForSize: real
    var minSize: int
    var maxSize: int
    var distanceThreshold: int
    var gapThreshold: int
    var lineMinimumFrameRange: int
    var lineDistanceConst: int
    var pointRatioThreshold: real
    var maxLines: int
    var ffMinStars: int
    var k1Det: real
    var j1Det: int
    var maxWhiteRatio: real
    var timeWindowSize: int
    var timeSlide: int
    var maxLinesDet: int
    var lineMinDist: int
    var stripeWidth: int
    var khtLibPath: Option<string>
    var maxPointsDet: int
    var distanceThresholdDet: int
    var gapThresholdDet: int
    var minPixelsDet: int
    var lineMinimumFrameRangeDet: int
    var lineDistanceConstDet: int
    var maxTimeDet: int
    var vectAngleThresh: int
    var frameExtension: int
    var centroidsMaxDeviation: real
    var centroidsMaxDistance: int
    var angVelMin: real
    var angVelMax: real
    var maxGlobalIntensity: int
    var border: int
    var neighborhoodSize: int
    var intensityThreshold: int
    var maxStars: int
    var segmentRadius: int
    var roundnessThreshold: real
    var maxFeatureRatio: real
    var useFlat: bool
    var flatFile: string
    var flatMinImgs: int
    var starCatalogPath: string
    var starCatalogFile: string
    var starCatalogBandRatios: seq<real>
    var plateparName: string
    var plateparRemoteName: string
    var remotePlateparDir: string
    var catalogExtractionRadius: real
    var catalogMagLimit: real
    var calstarsFilesN: int
    var calstarsMinStars: int
    var distCheckThreshold: real
    var distCheckQuickThreshold: real
    var starsNNRadius: real
    var refinementStarNNRadius: real
    var rotationParamRange: real
    var minMatchedStars: int
    var maxInitialIterations: int
    var minEstimationValue: real
    var thumbBin: int
    var thumbStack: int
    var thumbNWidth: int

    /** The built-in defaults; the SSH key path is under the home directory of `host`. */
    ghost predicate IsDefault(host: Host)
      reads this
    {
      stationID == "XX0001"
      && latitude == 0.0
      && longitude == 0.0
      && elevation == 0.0
      && camsCode == 0
      && deviceID == Index(0)
      && width == 1280
      && height == 720
      && widthDevice == 1280
      && heightDevice == 720
      && fps == 25.0
      && reportDroppedFrames == false
      && roiLeft == -1
      && roiRight == -1
      && roiUp == -1
      && roiDown == -1
      && brightness == 0
      && contrast == 0
      && bitDepth == 8
      && gamma == 1.0
      && ffFormat == "fits"
      && fovW == 64.0
      && fovH == 35.0
      && deinterlaceOrder == -2
      && maskFile == "mask.bmp"
      && dataDir == "~/RMS_data"
      && capturedDir == "CapturedFiles"
      && archivedDir == "ArchivedFiles"
      && videoRecorder == None
      && uploadEnabled == true
      && hostname == ""
      && hostPort == 22
      && rsaPrivateKey == host.expandUser("~/.ssh/id_rsa")
      && uploadQueueFile == "FILES_TO_UPLOAD.inf"
      && remoteDir == "files"
      && extraCompileArgs == Some(["-O3"])
      && f == 16
      && maxTime == 25
      && whiteAvgLevel == 220
      && minLevel == 40
      && minPixels == 8
      && k1 == 4.0
      && j1 == 5
      && maxPointsPerFrame == 30
      && maxPerFrameFactor == 10
      && maxPoints == 190
      && minFrames == 4
      && minPoints == 4
      && before == 0.15
      && after == 0.3
      && limitForSize == 0.90
      && minSize == 40
      && maxSize == 192
      && distanceThreshold == 4900
      && gapThreshold == 16900
      && lineMinimumFrameRange == 3
      && lineDistanceConst == 4
      && pointRatioThreshold == 0.7
      && maxLines == 5
      && ffMinStars == 5
      && k1Det == 1.5
      && j1Det == 9
      && maxWhiteRatio == 0.07
      && timeWindowSize == 64
      && timeSlide == 32
      && maxLinesDet == 30
      && lineMinDist == 40
      && stripeWidth == 20
      && khtLibPath == Some("build/lib.linux-x86_64-2.7/kht_module.so")
      && maxPointsDet == 600
      && distanceThresholdDet == 2500
      && gapThresholdDet == 250000
      && minPixelsDet == 10
      && lineMinimumFrameRangeDet == 4
      && lineDistanceConstDet == 4
      && maxTimeDet == 10
      && vectAngleThresh == 20
      && frameExtension == 3
      && centroidsMaxDeviation == 2.0
      && centroidsMaxDistance == 30
      && angVelMin == 0.5
      && angVelMax == 35.0
      && maxGlobalIntensity == 150
      && border == 10
      && neighborhoodSize == 10
      && intensityThreshold == 5
      && maxStars == 200
      && segmentRadius == 4
      && roundnessThreshold == 0.5
      && maxFeatureRatio == 0.8
      && useFlat == true
      && flatFile == "flat.bmp"
      && flatMinImgs == 20
      && starCatalogPath == "Catalogs"
      && starCatalogFile == "gaia_dr2_mag_11.5.npy"
      && starCatalogBandRatios == [0.0, 1.0, 0.0, 0.0]
      && plateparName == "platepar_cmn2010.cal"
      && plateparRemoteName == "platepar_latest.cal"
      && remotePlateparDir == "platepars"
      && catalogExtractionRadius == 40.0
      && catalogMagLimit == 4.5
      && calstarsFilesN == 400
      && calstarsMinStars == 500
      && distCheckThreshold == 0.33
      && distCheckQuickThreshold == 0.4
      && starsNNRadius == 10.0
      && refinementStarNNRadius == 0.125
      && rotationParamRange == 5.0
      && minMatchedStars == 7
      && maxInitialIterations == 20
      && minEstimationValue == 0.4
      && thumbBin == 4
      && thumbStack == 5
      && thumbNWidth == 10
    }

    constructor (host: Host)
      ensures IsDefault(host)
    {
      stationID := "XX0001";
      latitude := 0.0;
      longitude := 0.0;
      elevation := 0.0;
      camsCode := 0;
      deviceID := Index(0);
      width := 1280;
      height := 720;
      widthDevice := 1280;
      heightDevice := 720;
      fps := 25.0;
      reportDroppedFrames := false;
      roiLeft := -1;
      roiRight := -1;
      roiUp := -1;
      roiDown := -1;
      brightness := 0;
      contrast := 0;
      bitDepth := 8;
      gamma := 1.0;
      ffFormat := "fits";
      fovW := 64.0;
      fovH := 35.0;
      deinterlaceOrder := -2;
      maskFile := "mask.bmp";
      dataDir := "~/RMS_data";
      capturedDir := "CapturedFiles";
      archivedDir := "ArchivedFiles";
      videoRecorder := None;
      uploadEnabled := true;
      hostname := "";
      hostPort := 22;
      rsaPrivateKey := host.expandUser("~/.ssh/id_rsa");
      uploadQueueFile := "FILES_TO_UPLOAD.inf";
      remoteDir := "files";
      extraCompileArgs := Some(["-O3"]);
      f := 16;
      maxTime := 25;
      whiteAvgLevel := 220;
      minLevel := 40;
      minPixels := 8;
      k1 := 4.0;
      j1 := 5;
      maxPointsPerFrame := 30;
      maxPerFrameFactor := 10;
      maxPoints := 190;
      minFrames := 4;
      minPoints := 4;
      before := 0.15;
      after := 0.3;
      limitForSize := 0.90;
      minSize := 40;
      maxSize := 192;
      distanceThreshold := 4900;
      gapThreshold := 16900;
      lineMinimumFrameRange := 3;
      lineDistanceConst := 4;
      pointRatioThreshold := 0.7;
      maxLines := 5;
      ffMinStars := 5;
      k1Det := 1.5;
      j1Det := 9;
      maxWhiteRatio := 0.07;
      timeWindowSize := 64;
      timeSlide := 32;
      maxLinesDet := 30;
      lineMinDist := 40;
      stripeWidth := 20;
      khtLibPath := Some("build/lib.linux-x86_64-2.7/kht_module.so");
      maxPointsDet := 600;
      distanceThresholdDet := 2500;
      gapThresholdDet := 250000;
      minPixelsDet := 10;
      lineMinimumFrameRangeDet := 4;
      lineDistanceConstDet := 4;
      maxTimeDet := 10;
      vectAngleThresh := 20;
      frameExtension := 3;
      centroidsMaxDeviation := 2.0;
      centroidsMaxDistance := 30;
      angVelMin := 0.5;
      angVelMax := 35.0;
      maxGlobalIntensity := 150;
      border := 10;
      neighborhoodSize := 10;
      intensityThreshold := 5;
      maxStars := 200;
      segmentRadius := 4;
      roundnessThreshold := 0.5;
      maxFeatureRatio := 0.8;
      useFlat := true;
      flatFile := "flat.bmp";
      flatMinImgs := 20;
      starCatalogPath := "Catalogs";
      starCatalogFile := "gaia_dr2_mag_11.5.npy";
      starCatalogBandRatios := [0.0, 1.0, 0.0, 0.0];
      plateparName := "platepar_cmn2010.cal";
      plateparRemoteName := "platepar_latest.cal";
      remotePlateparDir := "platepars";
      catalogExtractionRadius := 40.0;
      catalogMagLimit := 4.5;
      calstarsFilesN := 400;
      calstarsMinStars := 500;
      distCheckThreshold := 0.33;
      distCheckQuickThreshold := 0.4;
      starsNNRadius := 10.0;
      refinementStarNNRadius := 0.125;
      rotationParamRange := 5.0;
      minMatchedStars := 7;
      maxInitialIterations := 20;
      minEstimationValue := 0.4;
      thumbBin := 4;
      thumbStack := 5;
      thumbNWidth := 10;
    }

    /** The `System` section is required and must name the station; a missing one raises `RuntimeError`. */
    method ParseSystem(ini: Ini, conv: Conversions) returns (r: Result<(), ConfigError>)
      modifies this`stationID, this`latitude, this`longitude, this`elevation, this`camsCode
      ensures !HasOption(ini, "System", "stationid") ==> r == Failure(NotConfigured) && unchanged(this)
      ensures r.Success? ==> HasOption(ini, "System", "stationid") && stationID == Value(ini, "System", "stationid")
      ensures r.Success? ==> FloatOption(ini, conv, "System", "latitude", old(latitude)) == Success(latitude)
      ensures r.Success? ==> FloatOption(ini, conv, "System", "longitude", old(longitude)) == Success(longitude)
      ensures r.Success? ==> FloatOption(ini, conv, "System", "elevation", old(elevation)) == Success(elevation)
      ensures r.Success? ==> IntOption(ini, conv, "System", "cams_code", old(camsCode)) == Success(camsCode)
      ensures r.Failure? ==> r.error == NotConfigured || (r.error.ValueError? && HasOption(ini, "System", r.error.option))
    {
      if !HasSection(ini, "System") {
        return Failure(NotConfigured);
      }
      if !HasOption(ini, "System", "stationid") {
        return Failure(NotConfigured);
      }
      stationID := Value(ini, "System", "stationid");
      latitude :- FloatOption(ini, conv, "System", "latitude", latitude);
      longitude :- FloatOption(ini, conv, "System", "longitude", longitude);
      elevation :- FloatOption(ini, conv, "System", "elevation", elevation);
      camsCode :- IntOption(ini, conv, "System", "cams_code", camsCode);
      return Success(());
    }

    /**
     * The `Capture` section. The frame size read here is kept as the device size; the region of
     * interest is then swapped and clamped into that frame and the frame size becomes the size of
     * the region. A device name that reads as an integer becomes a device index.
     */
    method ParseCapture(ini: Ini, conv: Conversions, host: Host) returns (r: Result<(), ConfigError>)
      modifies this`dataDir, this`capturedDir, this`archivedDir, this`width, this`height
      modifies this`widthDevice, this`heightDevice, this`reportDroppedFrames
      modifies this`roiLeft, this`roiRight, this`roiUp, this`roiDown
      modifies this`brightness, this`contrast, this`bitDepth, this`gamma, this`deviceID, this`fps
      modifies this`ffFormat, this`fovW, this`fovH, this`deinterlaceOrder, this`maskFile, this`videoRecorder
      ensures !HasSection(ini, "Capture") ==> r.Success? && unchanged(this)
      ensures r.Success? && HasSection(ini, "Capture") && old(width) == old(widthDevice) && old(height) == old(heightDevice) ==>
        RoiWithinDevice()
      ensures r.Failure? ==>
        || (r.error == IndexError && HasOption(ini, "Capture", "data_dir"))
        || (r.error.ValueError? && HasOption(ini, "Capture", r.error.option))
    {
      if !HasSection(ini, "Capture") {
        return Success(());
      }
      r := ParseCaptureGeometry(ini, conv, host);
      if r.Failure? {
        return;
      }
      r := ParseCaptureSettings(ini, conv);
    }

    /** The directories, the frame size and the region of interest of `Capture`, in the order the source reads them. */
    method ParseCaptureGeometry(ini: Ini, conv: Conversions, host: Host) returns (r: Result<(), ConfigError>)
      modifies this`dataDir, this`capturedDir, this`archivedDir, this`width, this`height
      modifies this`widthDevice, this`heightDevice, this`reportDroppedFrames
      modifies this`roiLeft, this`roiRight, this`roiUp, this`roiDown
      ensures r.Success? ==>
        var w0 := IntOption(ini, conv, "Capture", "width", old(width));
        var h0 := IntOption(ini, conv, "Capture", "height", old(height));
        && w0.Success? && h0.Success?
        && (old(width) == old(widthDevice) ==> widthDevice == w0.value)
        && (old(height) == old(heightDevice) ==> heightDevice == h0.value)
        && (w0.value >= 0 ==> 0 <= roiLeft <= roiRight <= w0.value)
        && (h0.value >= 0 ==> 0 <= roiUp <= roiDown <= h0.value)
        && width == roiRight - roiLeft
        && height == roiDown - roiUp
      ensures r.Failure? ==>
        || (r.error == IndexError && HasOption(ini, "Capture", "data_dir"))
        || (r.error.ValueError? && HasOption(ini, "Capture", r.error.option))
    {
      r := ParseCaptureFrame(ini, conv, host);
      if r.Failure? {
        return;
      }
      r := ParseRegionOfInterest(ini, conv);
    }

    /** The sensor, device and format settings of `Capture`, read after the region of interest. */
    method ParseCaptureSettings(ini: Ini, conv: Conversions) returns (r: Result<(), ConfigError>)
      modifies this`brightness, this`contrast, this`bitDepth, this`gamma, this`deviceID, this`fps
      modifies this`ffFormat, this`fovW, this`fovH, this`deinterlaceOrder, this`maskFile, this`videoRecorder
      ensures r.Success? ==> IntOption(ini, conv, "Capture", "brightness", old(brightness)) == Success(brightness)
      ensures r.Success? ==> IntOption(ini, conv, "Capture", "contrast", old(contrast)) == Success(contrast)
      ensures r.Success? ==> IntOption(ini, conv, "Capture", "bit_depth", old(bitDepth)) == Success(bitDepth)
      ensures r.Success? ==> FloatOption(ini, conv, "Capture", "gamma", old(gamma)) == Success(gamma)
      ensures r.Success? ==> deviceID == DeviceIndex(
        if HasOption(ini, "Capture", "device") then Name(Value(ini, "Capture", "device")) else old(deviceID), conv)
      ensures r.Success? ==> FloatOption(ini, conv, "Capture", "fps", old(fps)) == Success(fps)
      ensures r.Success? ==> ffFormat == StringOption(ini, "Capture", "ff_format", old(ffFormat))
      ensures r.Success? ==> FloatOption(ini, conv, "Capture", "fov_w", old(fovW)) == Success(fovW)
      ensures r.Success? ==> FloatOption(ini, conv, "Capture", "fov_h", old(fovH)) == Success(fovH)
      ensures r.Success? ==> IntOption(ini, conv, "Capture", "deinterlace_order", old(deinterlaceOrder)) == Success(deinterlaceOrder)
      ensures r.Success? ==> maskFile == StringOption(ini, "Capture", "mask", old(maskFile))
      ensures r.Success? ==> videoRecorder == (if HasOption(ini, "Capture", "video_recorder") then Some(Value(ini, "Capture", "video_recorder")) else old(videoRecorder))
      ensures r.Failure? ==> r.error.ValueError? && HasOption(ini, "Capture", r.error.option)
    {
      r := ParseCaptureDevice(ini, conv);
      if r.Failure? {
        return;
      }
      r := ParseCaptureFormat(ini, conv);
    }

    /** The data directories and the device frame size of `Capture`. */
    method ParseCaptureFrame(ini: Ini, conv: Conversions, host: Host) returns (r: Result<(), ConfigError>)
      modifies this`dataDir, this`capturedDir, this`archivedDir, this`width, this`height
      modifies this`widthDevice, this`heightDevice, this`reportDroppedFrames
      ensures r.Success? && HasOption(ini, "Capture", "data_dir") ==>
        ExpandDataDir(Value(ini, "Capture", "data_dir"), host.expandUser("~"), host.sep, host.join) == Success(dataDir)
      ensures r.Success? && !HasOption(ini, "Capture", "data_dir") ==> dataDir == old(dataDir)
      ensures r.Success? ==> capturedDir == StringOption(ini, "Capture", "captured_dir", old(capturedDir))
      ensures r.Success? ==> archivedDir == StringOption(ini, "Capture", "archived_dir", old(archivedDir))
      ensures r.Success? ==> IntOption(ini, conv, "Capture", "width", old(width)) == Success(width)
      ensures r.Success? ==> IntOption(ini, conv, "Capture", "height", old(height)) == Success(height)
      ensures r.Success? ==> widthDevice == (if HasOption(ini, "Capture", "width") then width else old(widthDevice))
      ensures r.Success? ==> heightDevice == (if HasOption(ini, "Capture", "height") then height else old(heightDevice))
      ensures r.Success? ==> BoolOption(ini, conv, "Capture", "report_dropped_frames", old(reportDroppedFrames)) == Success(reportDroppedFrames)
      ensures r.Failure? ==>
        || (r.error == IndexError && HasOption(ini, "Capture", "data_dir"))
        || (r.error.ValueError? && HasOption(ini, "Capture", r.error.option))
    {
      if HasOption(ini, "Capture", "data_dir") {
        dataDir :- ExpandDataDir(Value(ini, "Capture", "data_dir"), host.expandUser("~"), host.sep, host.join);
      }
      capturedDir := StringOption(ini, "Capture", "captured_dir", capturedDir);
      archivedDir := StringOption(ini, "Capture", "archived_dir", archivedDir);
      if HasOption(ini, "Capture", "width") {
        width :- GetInt(ini, conv, "Capture", "width");
        widthDevice := width;
      }
      if HasOption(ini, "Capture", "height") {
        height :- GetInt(ini, conv, "Capture", "height");
        heightDevice := height;
      }
      reportDroppedFrames :- BoolOption(ini, conv, "Capture", "report_dropped_frames", reportDroppedFrames);
      return Success(());
    }

    /**
     * The region of interest of `Capture`: the bounds given are swapped when out of order and
     * clamped into the current frame, and the frame size becomes the size of the region.
     */
    method ParseRegionOfInterest(ini: Ini, conv: Conversions) returns (r: Result<(), ConfigError>)
      modifies this`roiLeft, this`roiRight, this`roiUp, this`roiDown, this`width, this`height
      ensures r.Success? ==>
        var left := IntOption(ini, conv, "Capture", "roi_left", old(roiLeft));
        var right := IntOption(ini, conv, "Capture", "roi_right", old(roiRight));
        && left.Success? && right.Success?
        && (roiLeft, roiRight) == RoiBounds(left.value, right.value, old(width))
      ensures r.Success? ==>
        var up := IntOption(ini, conv, "Capture", "roi_up", old(roiUp));
        var down := IntOption(ini, conv, "Capture", "roi_down", old(roiDown));
        && up.Success? && down.Success?
        && (roiUp, roiDown) == RoiBounds(up.value, down.value, old(height))
      ensures r.Success? && old(width) >= 0 ==> 0 <= roiLeft <= roiRight <= old(width)
      ensures r.Success? && old(height) >= 0 ==> 0 <= roiUp <= roiDown <= old(height)
      ensures r.Success? ==> width == roiRight - roiLeft && height == roiDown - roiUp
      ensures r.Failure? ==> r.error.ValueError? && HasOption(ini, "Capture", r.error.option)
    {
      roiLeft :- IntOption(ini, conv, "Capture", "roi_left", roiLeft);
      roiRight :- IntOption(ini, conv, "Capture", "roi_right", roiRight);
      roiUp :- IntOption(ini, conv, "Capture", "roi_up", roiUp);
      roiDown :- IntOption(ini, conv, "Capture", "roi_down", roiDown);

      roiLeft, roiRight := ClampRange(roiLeft, roiRight, width);
      roiUp, roiDown := ClampRange(roiUp, roiDown, height);
      width := roiRight - roiLeft;
      height := roiDown - roiUp;
      return Success(());
    }

    /** The sensor settings and the device of `Capture`; a device name that reads as an integer becomes an index. */
    method ParseCaptureDevice(ini: Ini, conv: Conversions) returns (r: Result<(), ConfigError>)
      modifies this`brightness, this`contrast, this`bitDepth, this`gamma, this`deviceID
      ensures r.Success? ==> IntOption(ini, conv, "Capture", "brightness", old(brightness)) == Success(brightness)
      ensures r.Success? ==> IntOption(ini, conv, "Capture", "contrast", old(contrast)) == Success(contrast)
      ensures r.Success? ==> IntOption(ini, conv, "Capture", "bit_depth", old(bitDepth)) == Success(bitDepth)
      ensures r.Success? ==> FloatOption(ini, conv, "Capture", "gamma", old(gamma)) == Success(gamma)
      ensures r.Success? ==> deviceID == DeviceIndex(
        if HasOption(ini, "Capture", "device") then Name(Value(ini, "Capture", "device")) else old(deviceID), conv)
      ensures r.Failure? ==> r.error.ValueError? && HasOption(ini, "Capture", r.error.option)
    {
      brightness :- IntOption(ini, conv, "Capture", "brightness", brightness);
      contrast :- IntOption(ini, conv, "Capture", "contrast", contrast);
      bitDepth :- IntOption(ini, conv, "Capture", "bit_depth", bitDepth);
      gamma :- FloatOption(ini, conv, "Capture", "gamma", gamma);
      if HasOption(ini, "Capture", "device") {
        deviceID := Name(Value(ini, "Capture", "device"));
      }
      deviceID := DeviceIndex(deviceID, conv);
      return Success(());
    }

    /** The frame rate, file format, field of view, deinterlacing, mask and recorder settings of `Capture`. */
    method ParseCaptureFormat(ini: Ini, conv: Conversions) returns (r: Result<(), ConfigError>)
      modifies this`fps, this`ffFormat, this`fovW, this`fovH, this`deinterlaceOrder, this`maskFile, this`videoRecorder
      ensures r.Success? ==> FloatOption(ini, conv, "Capture", "fps", old(fps)) == Success(fps)
      ensures r.Success? ==> ffFormat == StringOption(ini, "Capture", "ff_format", old(ffFormat))
      ensures r.Success? ==> FloatOption(ini, conv, "Capture", "fov_w", old(fovW)) == Success(fovW)
      ensures r.Success? ==> FloatOption(ini, conv, "Capture", "fov_h", old(fovH)) == Success(fovH)
      ensures r.Success? ==> IntOption(ini, conv, "Capture", "deinterlace_order", old(deinterlaceOrder)) == Success(deinterlaceOrder)
      ensures r.Success? ==> maskFile == StringOption(ini, "Capture", "mask", old(maskFile))
      ensures r.Success? ==> videoRecorder == (if HasOption(ini, "Capture", "video_recorder") then Some(Value(ini, "Capture", "video_recorder")) else old(videoRecorder))
      ensures r.Failure? ==> r.error.ValueError? && HasOption(ini, "Capture", r.error.option)
    {
      fps :- FloatOption(ini, conv, "Capture", "fps", fps);
      ffFormat := StringOption(ini, "Capture", "ff_format", ffFormat);
      fovW :- FloatOption(ini, conv, "Capture", "fov_w", fovW);
      fovH :- FloatOption(ini, conv, "Capture", "fov_h", fovH);
      deinterlaceOrder :- IntOption(ini, conv, "Capture", "deinterlace_order", deinterlaceOrder);
      maskFile := StringOption(ini, "Capture", "mask", maskFile);
      if HasOption(ini, "Capture", "video_recorder") {
        videoRecorder := Some(Value(ini, "Capture", "video_recorder"));
      }
      return Success(());
    }

    /** The `Upload` section; the key path is expanded against the home directory. */
    method ParseUpload(ini: Ini, conv: Conversions, host: Host) returns (r: Result<(), ConfigError>)
      modifies this`uploadEnabled, this`hostname, this`hostPort, this`rsaPrivateKey, this`uploadQueueFile, this`remoteDir
      ensures !HasSection(ini, "Upload") ==> r.Success? && unchanged(this)
      ensures r.Success? ==> BoolOption(ini, conv, "Upload", "upload_enabled", old(uploadEnabled)) == Success(uploadEnabled)
      ensures r.Success? ==> hostname == StringOption(ini, "Upload", "hostname", old(hostname))
      ensures r.Success? ==> IntOption(ini, conv, "Upload", "host_port", old(hostPort)) == Success(hostPort)
      ensures r.Success? ==> rsaPrivateKey == (if HasOption(ini, "Upload", "rsa_private_key") then host.expandUser(Value(ini, "Upload", "rsa_private_key")) else old(rsaPrivateKey))
      ensures r.Success? ==> uploadQueueFile == StringOption(ini, "Upload", "upload_queue_file", old(uploadQueueFile))
      ensures r.Success? ==> remoteDir == StringOption(ini, "Upload", "remote_dir", old(remoteDir))
      ensures r.Failure? ==> r.error.ValueError? && HasOption(ini, "Upload", r.error.option)
    {
      if !HasSection(ini, "Upload") {
        return Success(());
      }
      uploadEnabled :- BoolOption(ini, conv, "Upload", "upload_enabled", uploadEnabled);
      hostname := StringOption(ini, "Upload", "hostname", hostname);
      hostPort :- IntOption(ini, conv, "Upload", "host_port", hostPort);
      if HasOption(ini, "Upload", "rsa_private_key") {
        rsaPrivateKey := host.expandUser(Value(ini, "Upload", "rsa_private_key"));
      }
      uploadQueueFile := StringOption(ini, "Upload", "upload_queue_file", uploadQueueFile);
      remoteDir := StringOption(ini, "Upload", "remote_dir", remoteDir);
      return Success(());
    }

    /** The compiler arguments of the `Build` section: each platform's option split into words, one chosen by platform. */
    method ParseBuildArgs(ini: Ini, host: Host)
      modifies this`extraCompileArgs
      ensures !HasSection(ini, "Build") ==> extraCompileArgs == old(extraCompileArgs)
      ensures HasSection(ini, "Build") ==> extraCompileArgs == ChoosePlatform(
        WordsOption(ini, "Build", "win_pc_weave"), WordsOption(ini, "Build", "rpi_weave"),
        WordsOption(ini, "Build", "linux_pc_weave"), host)
    {
      if !HasSection(ini, "Build") {
        return;
      }
      var linuxPcWeave: Option<seq<string>> := None;
      var winPcWeave: Option<seq<string>> := None;
      var rpiWeave: Option<seq<string>> := None;
      if HasOption(ini, "Build", "rpi_weave") {
        rpiWeave := Some(Words(Value(ini, "Build", "rpi_weave")));
      }
      if HasOption(ini, "Build", "linux_pc_weave") {
        linuxPcWeave := Some(Words(Value(ini, "Build", "linux_pc_weave")));
      }
      if HasOption(ini, "Build", "win_pc_weave") {
        winPcWeave := Some(Words(Value(ini, "Build", "win_pc_weave")));
      }
      extraCompileArgs := ChoosePlatform(winPcWeave, rpiWeave, linuxPcWeave, host);
    }

    /** The `FireballDetection` section, in three groups of settings read in order. */
    method ParseFireballDetection(ini: Ini, conv: Conversions) returns (r: Result<(), ConfigError>)
      modifies this`f, this`maxTime, this`whiteAvgLevel, this`minLevel, this`minPixels, this`k1, this`j1, this`maxPointsPerFrame, this`maxPerFrameFactor, this`maxPoints, this`minFrames, this`minPoints, this`before, this`after, this`minSize, this`maxSize, this`limitForSize, this`distanceThreshold, this`gapThreshold, this`lineMinimumFrameRange, this`lineDistanceConst, this`pointRatioThreshold, this`maxLines
      ensures !HasSection(ini, "FireballDetection") ==> r.Success? && unchanged(this)
      ensures r.Success? && HasSection(ini, "FireballDetection") ==>
        && Threshold(ini, conv, "FireballDetection", "distance_threshold", old(distanceThreshold), width, height, f) == Success(distanceThreshold)
        && Threshold(ini, conv, "FireballDetection", "gap_threshold", old(gapThreshold), width, height, f) == Success(gapThreshold)
      ensures r.Failure? ==>
        || (r.error.ValueError? && HasOption(ini, "FireballDetection", r.error.option))
        || (r.error == ZeroDivisionError && f == 0)
        || (r.error == NoOptionError("max_lines") && HasOption(ini, "FireballDetection", "min_lines") && !HasOption(ini, "FireballDetection", "max_lines"))
    {
      if !HasSection(ini, "FireballDetection") {
        return Success(());
      }
      r := ParseFireballPoints(ini, conv);
      if r.Failure? {
        return;
      }
      r := ParseFireballExtent(ini, conv);
      if r.Failure? {
        return;
      }
      r := ParseFireballLines(ini, conv);
    }

    /** The subsampling size and the point-finding settings of `FireballDetection`. */
    method ParseFireballPoints(ini: Ini, conv: Conversions) returns (r: Result<(), ConfigError>)
      modifies this`f, this`maxTime, this`whiteAvgLevel, this`minLevel, this`minPixels, this`k1, this`j1, this`maxPointsPerFrame, this`maxPerFrameFactor
      ensures r.Success? ==> IntOption(ini, conv, "FireballDetection", "subsampling_size", old(f)) == Success(f)
      ensures r.Success? ==> IntOption(ini, conv, "FireballDetection", "max_time", old(maxTime)) == Success(maxTime)
      ensures r.Success? ==> IntOption(ini, conv, "FireballDetection", "white_avg_level", old(whiteAvgLevel)) == Success(whiteAvgLevel)
      ensures r.Success? ==> IntOption(ini, conv, "FireballDetection", "minimal_level", old(minLevel)) == Success(minLevel)
      ensures r.Success? ==> IntOption(ini, conv, "FireballDetection", "minimum_pixels", old(minPixels)) == Success(minPixels)
      ensures r.Success? ==> FloatOption(ini, conv, "FireballDetection", "k1", old(k1)) == Success(k1)
      ensures r.Success? ==> IntOption(ini, conv, "FireballDetection", "j1", old(j1)) == Success(j1)
      ensures r.Success? ==> IntOption(ini, conv, "FireballDetection", "max_points_per_frame", old(maxPointsPerFrame)) == Success(maxPointsPerFrame)
      ensures r.Success? ==> IntOption(ini, conv, "FireballDetection", "max_per_frame_factor", old(maxPerFrameFactor)) == Success(maxPerFrameFactor)
      ensures r.Failure? ==> r.error.ValueError? && HasOption(ini, "FireballDetection", r.error.option)
    {
      f :- IntOption(ini, conv, "FireballDetection", "subsampling_size", f);
      maxTime :- IntOption(ini, conv, "FireballDetection", "max_time", maxTime);
      whiteAvgLevel :- IntOption(ini, conv, "FireballDetection", "white_avg_level", whiteAvgLevel);
      minLevel :- IntOption(ini, conv, "FireballDetection", "minimal_level", minLevel);
      minPixels :- IntOption(ini, conv, "FireballDetection", "minimum_pixels", minPixels);
      k1 :- FloatOption(ini, conv, "FireballDetection", "k1", k1);
      j1 :- IntOption(ini, conv, "FireballDetection", "j1", j1);
      maxPointsPerFrame :- IntOption(ini, conv, "FireballDetection", "max_points_per_frame", maxPointsPerFrame);
      maxPerFrameFactor :- IntOption(ini, conv, "FireballDetection", "max_per_frame_factor", maxPerFrameFactor);
      return Success(());
    }

    /** The point-testing and extraction-window settings of `FireballDetection`. */
    method ParseFireballExtent(ini: Ini, conv: Conversions) returns (r: Result<(), ConfigError>)
      modifies this`maxPoints, this`minFrames, this`minPoints, this`before, this`after, this`minSize, this`maxSize, this`limitForSize
      ensures r.Success? ==> IntOption(ini, conv, "FireballDetection", "max_points", old(maxPoints)) == Success(maxPoints)
      ensures r.Success? ==> IntOption(ini, conv, "FireballDetection", "min_frames", old(minFrames)) == Success(minFrames)
      ensures r.Success? ==> IntOption(ini, conv, "FireballDetection", "min_points", old(minPoints)) == Success(minPoints)
      ensures r.Success? ==> FloatOption(ini, conv, "FireballDetection", "extend_before", old(before)) == Success(before)
      ensures r.Success? ==> FloatOption(ini, conv, "FireballDetection", "extend_after", old(after)) == Success(after)
      ensures r.Success? ==> IntOption(ini, conv, "FireballDetection", "min_window_size", old(minSize)) == Success(minSize)
      ensures r.Success? ==> IntOption(ini, conv, "FireballDetection", "max_window_size", old(maxSize)) == Success(maxSize)
      ensures r.Success? ==> FloatOption(ini, conv, "FireballDetection", "threshold_for_size", old(limitForSize)) == Success(limitForSize)
      ensures r.Failure? ==> r.error.ValueError? && HasOption(ini, "FireballDetection", r.error.option)
    {
      maxPoints :- IntOption(ini, conv, "FireballDetection", "max_points", maxPoints);
      minFrames :- IntOption(ini, conv, "FireballDetection", "min_frames", minFrames);
      minPoints :- IntOption(ini, conv, "FireballDetection", "min_points", minPoints);
      before :- FloatOption(ini, conv, "FireballDetection", "extend_before", before);
      after :- FloatOption(ini, conv, "FireballDetection", "extend_after", after);
      minSize :- IntOption(ini, conv, "FireballDetection", "min_window_size", minSize);
      maxSize :- IntOption(ini, conv, "FireballDetection", "max_window_size", maxSize);
      limitForSize :- FloatOption(ini, conv, "FireballDetection", "threshold_for_size", limitForSize);
      return Success(());
    }

    /** The line-grouping settings of `FireballDetection`: both thresholds are squared when given and normalised in every case; a `min_lines` option re-reads `max_lines`. */
    method ParseFireballLines(ini: Ini, conv: Conversions) returns (r: Result<(), ConfigError>)
      modifies this`distanceThreshold, this`gapThreshold, this`lineMinimumFrameRange, this`lineDistanceConst, this`pointRatioThreshold, this`maxLines
      ensures r.Success? ==> Threshold(ini, conv, "FireballDetection", "distance_threshold", old(distanceThreshold), width, height, f) == Success(distanceThreshold)
      ensures r.Success? ==> Threshold(ini, conv, "FireballDetection", "gap_threshold", old(gapThreshold), width, height, f) == Success(gapThreshold)
      ensures r.Success? ==> IntOption(ini, conv, "FireballDetection", "line_minimum_frame_range", old(lineMinimumFrameRange)) == Success(lineMinimumFrameRange)
      ensures r.Success? ==> IntOption(ini, conv, "FireballDetection", "line_distance_const", old(lineDistanceConst)) == Success(lineDistanceConst)
      ensures r.Success? ==> FloatOption(ini, conv, "FireballDetection", "point_ratio_threshold", old(pointRatioThreshold)) == Success(pointRatioThreshold)
      ensures r.Success? ==> IntOption(ini, conv, "FireballDetection", "max_lines", old(maxLines)) == Success(maxLines)
      ensures r.Success? ==> !HasOption(ini, "FireballDetection", "min_lines") || HasOption(ini, "FireballDetection", "max_lines")
      ensures r.Failure? ==>
        || (r.error.ValueError? && HasOption(ini, "FireballDetection", r.error.option))
        || (r.error == ZeroDivisionError && f == 0)
        || (r.error == NoOptionError("max_lines") && HasOption(ini, "FireballDetection", "min_lines") && !HasOption(ini, "FireballDetection", "max_lines"))
    {
      distanceThreshold :- Threshold(ini, conv, "FireballDetection", "distance_threshold", distanceThreshold, width, height, f);
      gapThreshold :- Threshold(ini, conv, "FireballDetection", "gap_threshold", gapThreshold, width, height, f);
      lineMinimumFrameRange :- IntOption(ini, conv, "FireballDetection", "line_minimum_frame_range", lineMinimumFrameRange);
      lineDistanceConst :- IntOption(ini, conv, "FireballDetection", "line_distance_const", lineDistanceConst);
      pointRatioThreshold :- FloatOption(ini, conv, "FireballDetection", "point_ratio_threshold", pointRatioThreshold);
      maxLines :- IntOption(ini, conv, "FireballDetection", "max_lines", maxLines);
      if HasOption(ini, "FireballDetection", "min_lines") {
        maxLines :- GetInt(ini, conv, "FireballDetection", "max_lines");
      }
      return Success(());
    }

    /** The `MeteorDetection` section, in three groups of settings read in order. */
    method ParseMeteorDetection(ini: Ini, conv: Conversions, host: Host) returns (r: Result<(), ConfigError>)
      modifies this`ffMinStars, this`k1Det, this`j1Det, this`maxWhiteRatio, this`timeWindowSize, this`timeSlide, this`maxLinesDet, this`lineMinDist, this`distanceThresholdDet, this`gapThresholdDet, this`minPixelsDet, this`lineMinimumFrameRangeDet, this`lineDistanceConstDet, this`maxTimeDet, this`stripeWidth, this`maxPointsDet, this`khtLibPath, this`vectAngleThresh, this`frameExtension, this`centroidsMaxDeviation, this`centroidsMaxDistance, this`angVelMin, this`angVelMax
      ensures !HasSection(ini, "MeteorDetection") ==> r.Success? && unchanged(this)
      ensures r.Failure? ==>
        || (r.error.ValueError? && HasOption(ini, "MeteorDetection", r.error.option))
        || (r.error == ZeroDivisionError && f == 0)
    {
      if !HasSection(ini, "MeteorDetection") {
        return Success(());
      }
      r := ParseMeteorSegments(ini, conv);
      if r.Failure? {
        return;
      }
      r := ParseMeteorThresholds(ini, conv);
      if r.Failure? {
        return;
      }
      r := ParseMeteorLines(ini, conv);
      if r.Failure? {
        return;
      }
      r := ParseMeteorMerging(ini, conv, host);
    }

    /** The thresholding and time-segment settings of `MeteorDetection`. */
    method ParseMeteorSegments(ini: Ini, conv: Conversions) returns (r: Result<(), ConfigError>)
      modifies this`ffMinStars, this`k1Det, this`j1Det, this`maxWhiteRatio, this`timeWindowSize, this`timeSlide, this`maxLinesDet, this`lineMinDist
      ensures r.Success? ==> IntOption(ini, conv, "MeteorDetection", "ff_min_stars", old(ffMinStars)) == Success(ffMinStars)
      ensures r.Success? ==> FloatOption(ini, conv, "MeteorDetection", "k1", old(k1Det)) == Success(k1Det)
      ensures r.Success? ==> IntOption(ini, conv, "MeteorDetection", "j1", old(j1Det)) == Success(j1Det)
      ensures r.Success? ==> FloatOption(ini, conv, "MeteorDetection", "max_white_ratio", old(maxWhiteRatio)) == Success(maxWhiteRatio)
      ensures r.Success? ==> IntOption(ini, conv, "MeteorDetection", "time_window_size", old(timeWindowSize)) == Success(timeWindowSize)
      ensures r.Success? ==> IntOption(ini, conv, "MeteorDetection", "time_slide", old(timeSlide)) == Success(timeSlide)
      ensures r.Success? ==> IntOption(ini, conv, "MeteorDetection", "max_lines_det", old(maxLinesDet)) == Success(maxLinesDet)
      ensures r.Success? ==> IntOption(ini, conv, "MeteorDetection", "line_min_dist", old(lineMinDist)) == Success(lineMinDist)
      ensures r.Failure? ==> r.error.ValueError? && HasOption(ini, "MeteorDetection", r.error.option)
    {
      ffMinStars :- IntOption(ini, conv, "MeteorDetection", "ff_min_stars", ffMinStars);
      k1Det :- FloatOption(ini, conv, "MeteorDetection", "k1", k1Det);
      j1Det :- IntOption(ini, conv, "MeteorDetection", "j1", j1Det);
      maxWhiteRatio :- FloatOption(ini, conv, "MeteorDetection", "max_white_ratio", maxWhiteRatio);
      timeWindowSize :- IntOption(ini, conv, "MeteorDetection", "time_window_size", timeWindowSize);
      timeSlide :- IntOption(ini, conv, "MeteorDetection", "time_slide", timeSlide);
      maxLinesDet :- IntOption(ini, conv, "MeteorDetection", "max_lines_det", maxLinesDet);
      lineMinDist :- IntOption(ini, conv, "MeteorDetection", "line_min_dist", lineMinDist);
      return Success(());
    }

    /** The two line-detection thresholds of `MeteorDetection`, each scaled to the frame size. */
    method ParseMeteorThresholds(ini: Ini, conv: Conversions) returns (r: Result<(), ConfigError>)
      modifies this`distanceThresholdDet, this`gapThresholdDet
      ensures r.Success? ==> Threshold(ini, conv, "MeteorDetection", "distance_threshold_det", old(distanceThresholdDet), width, height, f) == Success(distanceThresholdDet)
      ensures r.Success? ==> Threshold(ini, conv, "MeteorDetection", "gap_threshold_det", old(gapThresholdDet), width, height, f) == Success(gapThresholdDet)
      ensures r.Failure? ==>
        || (r.error.ValueError? && HasOption(ini, "MeteorDetection", r.error.option))
        || (r.error == ZeroDivisionError && f == 0)
    {
      distanceThresholdDet :- Threshold(ini, conv, "MeteorDetection", "distance_threshold_det", distanceThresholdDet, width, height, f);
      gapThresholdDet :- Threshold(ini, conv, "MeteorDetection", "gap_threshold_det", gapThresholdDet, width, height, f);
      return Success(());
    }

    /** The line-detection counts and limits of `MeteorDetection`. */
    method ParseMeteorLines(ini: Ini, conv: Conversions) returns (r: Result<(), ConfigError>)
      modifies this`minPixelsDet, this`lineMinimumFrameRangeDet, this`lineDistanceConstDet, this`maxTimeDet, this`stripeWidth, this`maxPointsDet
      ensures r.Success? ==> IntOption(ini, conv, "MeteorDetection", "min_pixels_det", old(minPixelsDet)) == Success(minPixelsDet)
      ensures r.Success? ==> IntOption(ini, conv, "MeteorDetection", "line_minimum_frame_range_det", old(lineMinimumFrameRangeDet)) == Success(lineMinimumFrameRangeDet)
      ensures r.Success? ==> IntOption(ini, conv, "MeteorDetection", "line_distance_const_det", old(lineDistanceConstDet)) == Success(lineDistanceConstDet)
      ensures r.Success? ==> IntOption(ini, conv, "MeteorDetection", "max_time_det", old(maxTimeDet)) == Success(maxTimeDet)
      ensures r.Success? ==> IntOption(ini, conv, "MeteorDetection", "stripe_width", old(stripeWidth)) == Success(stripeWidth)
      ensures r.Success? ==> IntOption(ini, conv, "MeteorDetection", "max_points_det", old(maxPointsDet)) == Success(maxPointsDet)
      ensures r.Failure? ==> r.error.ValueError? && HasOption(ini, "MeteorDetection", r.error.option)
    {
      minPixelsDet :- IntOption(ini, conv, "MeteorDetection", "min_pixels_det", minPixelsDet);
      lineMinimumFrameRangeDet :- IntOption(ini, conv, "MeteorDetection", "line_minimum_frame_range_det", lineMinimumFrameRangeDet);
      lineDistanceConstDet :- IntOption(ini, conv, "MeteorDetection", "line_distance_const_det", lineDistanceConstDet);
      maxTimeDet :- IntOption(ini, conv, "MeteorDetection", "max_time_det", maxTimeDet);
      stripeWidth :- IntOption(ini, conv, "MeteorDetection", "stripe_width", stripeWidth);
      maxPointsDet :- IntOption(ini, conv, "MeteorDetection", "max_points_det", maxPointsDet);
      return Success(());
    }

    /** The KHT library path, chosen by platform, and the merging and filtering settings of `MeteorDetection`. */
    method ParseMeteorMerging(ini: Ini, conv: Conversions, host: Host) returns (r: Result<(), ConfigError>)
      modifies this`khtLibPath, this`vectAngleThresh, this`frameExtension, this`centroidsMaxDeviation, this`centroidsMaxDistance, this`angVelMin, this`angVelMax
      ensures r.Success? ==> khtLibPath == ChoosePlatform(OptionalValue(ini, "MeteorDetection", "win_pc_kht_lib_path"),
        OptionalValue(ini, "MeteorDetection", "rpi_kht_lib_path"), OptionalValue(ini, "MeteorDetection", "linux_pc_kht_lib_path"), host)
      ensures r.Success? ==> IntOption(ini, conv, "MeteorDetection", "vect_angle_thresh", old(vectAngleThresh)) == Success(vectAngleThresh)
      ensures r.Success? ==> IntOption(ini, conv, "MeteorDetection", "frame_extension", old(frameExtension)) == Success(frameExtension)
      ensures r.Success? ==> FloatOption(ini, conv, "MeteorDetection", "centroids_max_deviation", old(centroidsMaxDeviation)) == Success(centroidsMaxDeviation)
      ensures r.Success? ==> IntOption(ini, conv, "MeteorDetection", "centroids_max_distance", old(centroidsMaxDistance)) == Success(centroidsMaxDistance)
      ensures r.Success? ==> FloatOption(ini, conv, "MeteorDetection", "ang_vel_min", old(angVelMin)) == Success(angVelMin)
      ensures r.Success? ==> FloatOption(ini, conv, "MeteorDetection", "ang_vel_max", old(angVelMax)) == Success(angVelMax)
      ensures r.Failure? ==> r.error.ValueError? && HasOption(ini, "MeteorDetection", r.error.option)
    {
      var rpiKhtLibPath := OptionalValue(ini, "MeteorDetection", "rpi_kht_lib_path");
      var linuxPcKhtLibPath := OptionalValue(ini, "MeteorDetection", "linux_pc_kht_lib_path");
      var winPcKhtLibPath := OptionalValue(ini, "MeteorDetection", "win_pc_kht_lib_path");
      khtLibPath := ChoosePlatform(winPcKhtLibPath, rpiKhtLibPath, linuxPcKhtLibPath, host);
      vectAngleThresh :- IntOption(ini, conv, "MeteorDetection", "vect_angle_thresh", vectAngleThresh);
      frameExtension :- IntOption(ini, conv, "MeteorDetection", "frame_extension", frameExtension);
      centroidsMaxDeviation :- FloatOption(ini, conv, "MeteorDetection", "centroids_max_deviation", centroidsMaxDeviation);
      centroidsMaxDistance :- IntOption(ini, conv, "MeteorDetection", "centroids_max_distance", centroidsMaxDistance);
      angVelMin :- FloatOption(ini, conv, "MeteorDetection", "ang_vel_min", angVelMin);
      angVelMax :- FloatOption(ini, conv, "MeteorDetection", "ang_vel_max", angVelMax);
      return Success(());
    }

    /** The `StarExtraction` section. */
    method ParseStarExtraction(ini: Ini, conv: Conversions) returns (r: Result<(), ConfigError>)
      modifies this`maxGlobalIntensity, this`border, this`neighborhoodSize, this`intensityThreshold, this`maxStars, this`segmentRadius, this`roundnessThreshold, this`maxFeatureRatio
      ensures !HasSection(ini, "StarExtraction") ==> r.Success? && unchanged(this)
      ensures r.Success? ==> IntOption(ini, conv, "StarExtraction", "max_global_intensity", old(maxGlobalIntensity)) == Success(maxGlobalIntensity)
      ensures r.Success? ==> IntOption(ini, conv, "StarExtraction", "border", old(border)) == Success(border)
      ensures r.Success? ==> IntOption(ini, conv, "StarExtraction", "neighborhood_size", old(neighborhoodSize)) == Success(neighborhoodSize)
      ensures r.Success? ==> IntOption(ini, conv, "StarExtraction", "intensity_threshold", old(intensityThreshold)) == Success(intensityThreshold)
      ensures r.Success? ==> IntOption(ini, conv, "StarExtraction", "max_stars", old(maxStars)) == Success(maxStars)
      ensures r.Success? ==> IntOption(ini, conv, "StarExtraction", "segment_radius", old(segmentRadius)) == Success(segmentRadius)
      ensures r.Success? ==> FloatOption(ini, conv, "StarExtraction", "roundness_threshold", old(roundnessThreshold)) == Success(roundnessThreshold)
      ensures r.Success? ==> FloatOption(ini, conv, "StarExtraction", "max_feature_ratio", old(maxFeatureRatio)) == Success(maxFeatureRatio)
      ensures r.Failure? ==> r.error.ValueError? && HasOption(ini, "StarExtraction", r.error.option)
    {
      if !HasSection(ini, "StarExtraction") {
        return Success(());
      }
      maxGlobalIntensity :- IntOption(ini, conv, "StarExtraction", "max_global_intensity", maxGlobalIntensity);
      border :- IntOption(ini, conv, "StarExtraction", "border", border);
      neighborhoodSize :- IntOption(ini, conv, "StarExtraction", "neighborhood_size", neighborhoodSize);
      intensityThreshold :- IntOption(ini, conv, "StarExtraction", "intensity_threshold", intensityThreshold);
      maxStars :- IntOption(ini, conv, "StarExtraction", "max_stars", maxStars);
      segmentRadius :- IntOption(ini, conv, "StarExtraction", "segment_radius", segmentRadius);
      roundnessThreshold :- FloatOption(ini, conv, "StarExtraction", "roundness_threshold", roundnessThreshold);
      maxFeatureRatio :- FloatOption(ini, conv, "StarExtraction", "max_feature_ratio", maxFeatureRatio);
      return Success(());
    }

    /** The `Calibration` section, in three groups of settings read in order. */
    method ParseCalibration(ini: Ini, conv: Conversions) returns (r: Result<(), ConfigError>)
      modifies this`useFlat, this`flatFile, this`flatMinImgs, this`starCatalogPath, this`starCatalogFile, this`starCatalogBandRatios, this`plateparName, this`plateparRemoteName, this`remotePlateparDir, this`catalogExtractionRadius, this`catalogMagLimit, this`calstarsFilesN, this`distCheckThreshold, this`distCheckQuickThreshold, this`calstarsMinStars, this`starsNNRadius, this`refinementStarNNRadius, this`rotationParamRange, this`minMatchedStars, this`maxInitialIterations, this`minEstimationValue
      ensures !HasSection(ini, "Calibration") ==> r.Success? && unchanged(this)
      ensures r.Failure? ==> r.error.ValueError? && HasOption(ini, "Calibration", r.error.option)
    {
      if !HasSection(ini, "Calibration") {
        return Success(());
      }
      r := ParseCalibrationFiles(ini, conv);
      if r.Failure? {
        return;
      }
      r := ParseCalibrationChecks(ini, conv);
      if r.Failure? {
        return;
      }
      r := ParseCalibrationFit(ini, conv);
    }

    /** The flat, catalog and platepar file settings of `Calibration`; the band ratios are a comma-separated list of numbers. */
    method ParseCalibrationFiles(ini: Ini, conv: Conversions) returns (r: Result<(), ConfigError>)
      modifies this`useFlat, this`flatFile, this`flatMinImgs, this`starCatalogPath, this`starCatalogFile, this`starCatalogBandRatios, this`plateparName, this`plateparRemoteName, this`remotePlateparDir
      ensures r.Success? ==> BoolOption(ini, conv, "Calibration", "use_flat", old(useFlat)) == Success(useFlat)
      ensures r.Success? ==> flatFile == StringOption(ini, "Calibration", "flat_file", old(flatFile))
      ensures r.Success? ==> IntOption(ini, conv, "Calibration", "flat_min_imgs", old(flatMinImgs)) == Success(flatMinImgs)
      ensures r.Success? ==> starCatalogPath == StringOption(ini, "Calibration", "star_catalog_path", old(starCatalogPath))
      ensures r.Success? ==> starCatalogFile == StringOption(ini, "Calibration", "star_catalog_file", old(starCatalogFile))
      ensures r.Success? ==> RatiosOption(ini, conv, "Calibration", "star_catalog_band_ratios", old(starCatalogBandRatios)) == Success(starCatalogBandRatios)
      ensures r.Success? ==> plateparName == StringOption(ini, "Calibration", "platepar_name", old(plateparName))
      ensures r.Success? ==> plateparRemoteName == StringOption(ini, "Calibration", "platepar_remote_name", old(plateparRemoteName))
      ensures r.Success? ==> remotePlateparDir == StringOption(ini, "Calibration", "remote_platepar_dir", old(remotePlateparDir))
      ensures r.Failure? ==> r.error.ValueError? && HasOption(ini, "Calibration", r.error.option)
    {
      useFlat :- BoolOption(ini, conv, "Calibration", "use_flat", useFlat);
      flatFile := StringOption(ini, "Calibration", "flat_file", flatFile);
      flatMinImgs :- IntOption(ini, conv, "Calibration", "flat_min_imgs", flatMinImgs);
      starCatalogPath := StringOption(ini, "Calibration", "star_catalog_path", starCatalogPath);
      starCatalogFile := StringOption(ini, "Calibration", "star_catalog_file", starCatalogFile);
      starCatalogBandRatios :- RatiosOption(ini, conv, "Calibration", "star_catalog_band_ratios", starCatalogBandRatios);
      plateparName := StringOption(ini, "Calibration", "platepar_name", plateparName);
      plateparRemoteName := StringOption(ini, "Calibration", "platepar_remote_name", plateparRemoteName);
      remotePlateparDir := StringOption(ini, "Calibration", "remote_platepar_dir", remotePlateparDir);
      return Success(());
    }

    /** The catalog limits and calibration-check settings of `Calibration`. */
    method ParseCalibrationChecks(ini: Ini, conv: Conversions) returns (r: Result<(), ConfigError>)
      modifies this`catalogExtractionRadius, this`catalogMagLimit, this`calstarsFilesN, this`distCheckThreshold, this`distCheckQuickThreshold, this`calstarsMinStars
      ensures r.Success? ==> FloatOption(ini, conv, "Calibration", "catalog_extraction_radius", old(catalogExtractionRadius)) == Success(catalogExtractionRadius)
      ensures r.Success? ==> FloatOption(ini, conv, "Calibration", "catalog_mag_limit", old(catalogMagLimit)) == Success(catalogMagLimit)
      ensures r.Success? ==> IntOption(ini, conv, "Calibration", "calstars_files_n", old(calstarsFilesN)) == Success(calstarsFilesN)
      ensures r.Success? ==> FloatOption(ini, conv, "Calibration", "dist_check_threshold", old(distCheckThreshold)) == Success(distCheckThreshold)
      ensures r.Success? ==> FloatOption(ini, conv, "Calibration", "dist_check_quick_threshold", old(distCheckQuickThreshold)) == Success(distCheckQuickThreshold)
      ensures r.Success? ==> IntOption(ini, conv, "Calibration", "calstars_min_stars", old(calstarsMinStars)) == Success(calstarsMinStars)
      ensures r.Failure? ==> r.error.ValueError? && HasOption(ini, "Calibration", r.error.option)
    {
      catalogExtractionRadius :- FloatOption(ini, conv, "Calibration", "catalog_extraction_radius", catalogExtractionRadius);
      catalogMagLimit :- FloatOption(ini, conv, "Calibration", "catalog_mag_limit", catalogMagLimit);
      calstarsFilesN :- IntOption(ini, conv, "Calibration", "calstars_files_n", calstarsFilesN);
      distCheckThreshold :- FloatOption(ini, conv, "Calibration", "dist_check_threshold", distCheckThreshold);
      distCheckQuickThreshold :- FloatOption(ini, conv, "Calibration", "dist_check_quick_threshold", distCheckQuickThreshold);
      calstarsMinStars :- IntOption(ini, conv, "Calibration", "calstars_min_stars", calstarsMinStars);
      return Success(());
    }

    /** The fitting settings of `Calibration`. */
    method ParseCalibrationFit(ini: Ini, conv: Conversions) returns (r: Result<(), ConfigError>)
      modifies this`starsNNRadius, this`refinementStarNNRadius, this`rotationParamRange, this`minMatchedStars, this`maxInitialIterations, this`minEstimationValue
      ensures r.Success? ==> FloatOption(ini, conv, "Calibration", "stars_nn_radius", old(starsNNRadius)) == Success(starsNNRadius)
      ensures r.Success? ==> FloatOption(ini, conv, "Calibration", "refinement_star_nn_radius", old(refinementStarNNRadius)) == Success(refinementStarNNRadius)
      ensures r.Success? ==> FloatOption(ini, conv, "Calibration", "rotation_param_range", old(rotationParamRange)) == Success(rotationParamRange)
      ensures r.Success? ==> IntOption(ini, conv, "Calibration", "min_matched_stars", old(minMatchedStars)) == Success(minMatchedStars)
      ensures r.Success? ==> IntOption(ini, conv, "Calibration", "max_initial_iterations", old(maxInitialIterations)) == Success(maxInitialIterations)
      ensures r.Success? ==> FloatOption(ini, conv, "Calibration", "min_estimation_value", old(minEstimationValue)) == Success(minEstimationValue)
      ensures r.Failure? ==> r.error.ValueError? && HasOption(ini, "Calibration", r.error.option)
    {
      starsNNRadius :- FloatOption(ini, conv, "Calibration", "stars_nn_radius", starsNNRadius);
      refinementStarNNRadius :- FloatOption(ini, conv, "Calibration", "refinement_star_nn_radius", refinementStarNNRadius);
      rotationParamRange :- FloatOption(ini, conv, "Calibration", "rotation_param_range", rotationParamRange);
      minMatchedStars :- IntOption(ini, conv, "Calibration", "min_matched_stars", minMatchedStars);
      maxInitialIterations :- IntOption(ini, conv, "Calibration", "max_initial_iterations", maxInitialIterations);
      minEstimationValue :- FloatOption(ini, conv, "Calibration", "min_estimation_value", minEstimationValue);
      return Success(());
    }

    /** The `Thumbnails` section. */
    method ParseThumbnails(ini: Ini, conv: Conversions) returns (r: Result<(), ConfigError>)
      modifies this`thumbBin, this`thumbStack, this`thumbNWidth
      ensures !HasSection(ini, "Thumbnails") ==> r.Success? && unchanged(this)
      ensures r.Success? ==> IntOption(ini, conv, "Thumbnails", "thumb_bin", old(thumbBin)) == Success(thumbBin)
      ensures r.Success? ==> IntOption(ini, conv, "Thumbnails", "thumb_stack", old(thumbStack)) == Success(thumbStack)
      ensures r.Success? ==> IntOption(ini, conv, "Thumbnails", "thumb_n_width", old(thumbNWidth)) == Success(thumbNWidth)
      ensures r.Failure? ==> r.error.ValueError? && HasOption(ini, "Thumbnails", r.error.option)
    {
      if !HasSection(ini, "Thumbnails") {
        return Success(());
      }
      thumbBin :- IntOption(ini, conv, "Thumbnails", "thumb_bin", thumbBin);
      thumbStack :- IntOption(ini, conv, "Thumbnails", "thumb_stack", thumbStack);
      thumbNWidth :- IntOption(ini, conv, "Thumbnails", "thumb_n_width", thumbNWidth);
      return Success(());
    }

    /** The `Compression` section sets nothing. */
    method ParseCompression(ini: Ini)
      ensures unchanged(this)
    {
    }

    /** The region of interest lies in the device frame and the frame size is the region's size. */
    ghost predicate RoiWithinDevice()
      reads this`widthDevice, this`heightDevice, this`roiLeft, this`roiRight, this`roiUp, this`roiDown
      reads this`width, this`height
    {
      && (widthDevice >= 0 ==> 0 <= roiLeft <= roiRight <= widthDevice)
      && (heightDevice >= 0 ==> 0 <= roiUp <= roiDown <= heightDevice)
      && width == roiRight - roiLeft
      && height == roiDown - roiUp
    }

    /** Every section in order; the first exception stops the reading. */
    method ParseAllSections(ini: Ini, conv: Conversions, host: Host) returns (r: Result<(), ConfigError>)
      modifies this
      ensures !HasOption(ini, "System", "stationid") ==> r == Failure(NotConfigured)
      ensures r.Success? ==> stationID == Value(ini, "System", "stationid")
    {
      r := ParseSystem(ini, conv);
      if r.Failure? {
        return;
      }
      r := ParseSectionsAfterSystem(ini, conv, host);
    }

    /** Every section after `System`, in order; the station name is left as it is. */
    method ParseSectionsAfterSystem(ini: Ini, conv: Conversions, host: Host) returns (r: Result<(), ConfigError>)
      modifies this`dataDir, this`capturedDir, this`archivedDir, this`width, this`height
      modifies this`widthDevice, this`heightDevice, this`reportDroppedFrames
      modifies this`roiLeft, this`roiRight, this`roiUp, this`roiDown
      modifies this`brightness, this`contrast, this`bitDepth, this`gamma, this`deviceID, this`fps
      modifies this`ffFormat, this`fovW, this`fovH, this`deinterlaceOrder, this`maskFile, this`videoRecorder
      modifies this`extraCompileArgs, this`uploadEnabled, this`hostname, this`hostPort, this`rsaPrivateKey, this`uploadQueueFile
      modifies this`remoteDir, this`f, this`maxTime, this`whiteAvgLevel, this`minLevel, this`minPixels
      modifies this`k1, this`j1, this`maxPointsPerFrame, this`maxPerFrameFactor, this`maxPoints, this`minFrames
      modifies this`minPoints, this`before, this`after, this`minSize, this`maxSize, this`limitForSize
      modifies this`distanceThreshold, this`gapThreshold, this`lineMinimumFrameRange, this`lineDistanceConst, this`pointRatioThreshold, this`maxLines
      modifies this`ffMinStars, this`k1Det, this`j1Det, this`maxWhiteRatio, this`timeWindowSize, this`timeSlide
      modifies this`maxLinesDet, this`lineMinDist, this`distanceThresholdDet, this`gapThresholdDet, this`minPixelsDet, this`lineMinimumFrameRangeDet
      modifies this`lineDistanceConstDet, this`maxTimeDet, this`stripeWidth, this`maxPointsDet, this`khtLibPath, this`vectAngleThresh
      modifies this`frameExtension, this`centroidsMaxDeviation, this`centroidsMaxDistance, this`angVelMin, this`angVelMax, this`maxGlobalIntensity
      modifies this`border, this`neighborhoodSize, this`intensityThreshold, this`maxStars, this`segmentRadius, this`roundnessThreshold
      modifies this`maxFeatureRatio, this`useFlat, this`flatFile, this`flatMinImgs, this`starCatalogPath, this`starCatalogFile
      modifies this`starCatalogBandRatios, this`plateparName, this`plateparRemoteName, this`remotePlateparDir, this`catalogExtractionRadius, this`catalogMagLimit
      modifies this`calstarsFilesN, this`distCheckThreshold, this`distCheckQuickThreshold, this`calstarsMinStars, this`starsNNRadius, this`refinementStarNNRadius
      modifies this`rotationParamRange, this`minMatchedStars, this`maxInitialIterations, this`minEstimationValue, this`thumbBin, this`thumbStack
      modifies this`thumbNWidth
    {
      r := ParseCapture(ini, conv, host);
      if r.Success? {
        r := ParseOtherSections(ini, conv, host);
      }
    }

    /** The sections after `Capture`, in order; none of them touches the station or the frame geometry. */
    method ParseOtherSections(ini: Ini, conv: Conversions, host: Host) returns (r: Result<(), ConfigError>)
      modifies this`extraCompileArgs, this`uploadEnabled, this`hostname, this`hostPort, this`rsaPrivateKey, this`uploadQueueFile
      modifies this`remoteDir, this`f, this`maxTime, this`whiteAvgLevel, this`minLevel, this`minPixels
      modifies this`k1, this`j1, this`maxPointsPerFrame, this`maxPerFrameFactor, this`maxPoints, this`minFrames
      modifies this`minPoints, this`before, this`after, this`minSize, this`maxSize, this`limitForSize
      modifies this`distanceThreshold, this`gapThreshold, this`lineMinimumFrameRange, this`lineDistanceConst, this`pointRatioThreshold, this`maxLines
      modifies this`ffMinStars, this`k1Det, this`j1Det, this`maxWhiteRatio, this`timeWindowSize, this`timeSlide
      modifies this`maxLinesDet, this`lineMinDist, this`distanceThresholdDet, this`gapThresholdDet, this`minPixelsDet, this`lineMinimumFrameRangeDet
      modifies this`lineDistanceConstDet, this`maxTimeDet, this`stripeWidth, this`maxPointsDet, this`khtLibPath, this`vectAngleThresh
      modifies this`frameExtension, this`centroidsMaxDeviation, this`centroidsMaxDistance, this`angVelMin, this`angVelMax, this`maxGlobalIntensity
      modifies this`border, this`neighborhoodSize, this`intensityThreshold, this`maxStars, this`segmentRadius, this`roundnessThreshold
      modifies this`maxFeatureRatio, this`useFlat, this`flatFile, this`flatMinImgs, this`starCatalogPath, this`starCatalogFile
      modifies this`starCatalogBandRatios, this`plateparName, this`plateparRemoteName, this`remotePlateparDir, this`catalogExtractionRadius, this`catalogMagLimit
      modifies this`calstarsFilesN, this`distCheckThreshold, this`distCheckQuickThreshold, this`calstarsMinStars, this`starsNNRadius, this`refinementStarNNRadius
      modifies this`rotationParamRange, this`minMatchedStars, this`maxInitialIterations, this`minEstimationValue, this`thumbBin, this`thumbStack
      modifies this`thumbNWidth
      ensures r.Failure? ==> r.error != NotConfigured && r.error != IndexError
    {
      ParseBuildArgs(ini, host);
      r := ParseUpload(ini, conv, host);
      if r.Failure? {
        return;
      }
      ParseCompression(ini);
      r := ParseFireballDetection(ini, conv);
      if r.Failure? {
        return;
      }
      r := ParseMeteorDetection(ini, conv, host);
      if r.Failure? {
        return;
      }
      r := ParseStarExtraction(ini, conv);
      if r.Failure? {
        return;
      }
      r := ParseCalibration(ini, conv);
      if r.Failure? {
        return;
      }
      r := ParseThumbnails(ini, conv);
    }
  }

  /** The region-of-interest statements for one axis: swap out-of-order bounds, then clamp each into the frame. */
  method ClampRange(lo: int, hi: int, size: int) returns (lo': int, hi': int)
    ensures (lo', hi') == RoiBounds(lo, hi, size)
  {
    lo', hi' := lo, hi;
    if lo' > hi' {
      lo', hi' := hi', lo';
    }
    if lo' < 0 || lo' > size {
      lo' := 0;
    }
    if hi' < 0 || hi' > size {
      hi' := size;
    }
  }

  /** A split option's words, or `None` when the option is absent. */
  function WordsOption(ini: Ini, section: string, option: string): (r: Option<seq<string>>)
    ensures r.Some? <==> HasOption(ini, section, option)
  {
    if HasOption(ini, section, option) then Some(Words(Value(ini, section, option))) else None
  }

  /** `parse`: a fresh configuration with its defaults, overwritten by every section of the file. */
  method Parse(ini: Ini, conv: Conversions, host: Host) returns (r: Result<Config, ConfigError>)
    ensures !HasOption(ini, "System", "stationid") ==> r == Failure(NotConfigured)
    ensures r.Success? ==> fresh(r.value) && r.value.stationID == Value(ini, "System", "stationid")
  {
    var config := new Config(host);
    var parsed := config.ParseAllSections(ini, conv, host);
    if parsed.Failure? {
      return Failure(parsed.error);
    }
    return Success(config);
  }
}
