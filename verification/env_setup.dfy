/**
 * `set_env_variables`: the per-worker environment defaults (device selection,
 * TensorFlow log level, TensorFlow Hub cache directory), each applied only
 * when the surrounding environment does not already supply it.
 */
module EnvSetup {
  import opened Types

  const CudaVisibleDevices: string := "CUDA_VISIBLE_DEVICES"
  const TfCppMinLogLevel: string := "TF_CPP_MIN_LOG_LEVEL"
  const TfHubCacheDir: string := "TFHUB_CACHE_DIR"
  /** TensorFlow's C++ log level that keeps only errors. */
  const ErrorsOnlyLogLevel: string := "3"
  /** What follows `~` in the cache path. */
  const CacheSuffix: string := "/.cache/tensorflow-hub"
  /** The cache path before `~` is expanded: `~/.cache/tensorflow-hub`. */
  const TfHubCachePath: string := ['~'] + CacheSuffix
  const Home: string := "HOME"

  /** The four variable names involved are pairwise distinct. */
  lemma NamesDistinct()
    ensures CudaVisibleDevices != TfCppMinLogLevel && CudaVisibleDevices != TfHubCacheDir
    ensures TfCppMinLogLevel != TfHubCacheDir
    ensures Home != CudaVisibleDevices && Home != TfCppMinLogLevel && Home != TfHubCacheDir
  {
    assert CudaVisibleDevices[0] == 'C' && TfCppMinLogLevel[0] == 'T';
    assert |TfHubCacheDir| == 15 && |CudaVisibleDevices| == 20 && |TfCppMinLogLevel| == 20;
    assert |Home| == 4;
  }

  predicate EndsWith(s: string, suffix: string)
  {
    |suffix| <= |s| && s[|s| - |suffix|..] == suffix
  }

  // ---------------------------------------------------------------------
  // str(n) for Python integers, and its inverse on digit strings

  predicate IsDigit(c: char)
  {
    '0' <= c <= '9'
  }

  predicate AllDigits(s: string)
  {
    forall i :: 0 <= i < |s| ==> IsDigit(s[i])
  }

  function DigitChar(d: nat): (c: char)
    requires d < 10
    ensures IsDigit(c) && c as int - '0' as int == d
  {
    "0123456789"[d]
  }

  /** Decimal digits of `n`, most significant first, with no leading zero. */
  function NatToString(n: nat): (s: string)
    ensures |s| > 0 && AllDigits(s)
    ensures s[0] == '0' ==> n == 0 && s == "0"
    decreases n
  {
    if n < 10 then [DigitChar(n)] else NatToString(n / 10) + [DigitChar(n % 10)]
  }

  /** `str(i)`: a minus sign for negative numbers, then the digits of `|i|`. */
  function IntToString(i: int): (s: string)
    ensures |s| > 0
    ensures s[0] == '-' <==> i < 0
  {
    if i < 0 then "-" + NatToString(-i) else NatToString(i)
  }

  /** The number a string of decimal digits denotes. */
  function DecimalValue(s: string): nat
    requires AllDigits(s)
    decreases |s|
  {
    if s == [] then 0
    else DecimalValue(s[..|s| - 1]) * 10 + (s[|s| - 1] as int - '0' as int)
  }

  lemma {:induction false} DecimalValueOfNatToString(n: nat)
    ensures DecimalValue(NatToString(n)) == n
    decreases n
  {
    if n >= 10 {
      var s := NatToString(n);
      assert s[..|s| - 1] == NatToString(n / 10);
      DecimalValueOfNatToString(n / 10);
    }
  }

  /** The integer a string printed by `str` denotes: an optional minus sign, then digits. */
  function IntValue(s: string): int
    requires |s| > 0
    requires if s[0] == '-' then AllDigits(s[1..]) else AllDigits(s)
  {
    if s[0] == '-' then -(DecimalValue(s[1..]) as int) else DecimalValue(s)
  }

  /** Reading back what `str` printed gives the number again. */
  lemma IntValueOfIntToString(i: int)
    ensures var s := IntToString(i);
            (if s[0] == '-' then AllDigits(s[1..]) else AllDigits(s)) && IntValue(s) == i
  {
    var s := IntToString(i);
    if i < 0 {
      var digits := NatToString(-i);
      assert s == ['-'] + digits;
      assert s[1..] == digits;
      DecimalValueOfNatToString(-i);
    } else {
      assert s == NatToString(i);
      DecimalValueOfNatToString(i);
    }
  }

  /** Distinct integers print differently. */
  lemma IntToStringInjective(a: int, b: int)
    requires IntToString(a) == IntToString(b)
    ensures a == b
  {
    IntValueOfIntToString(a);
    IntValueOfIntToString(b);
  }

  // ---------------------------------------------------------------------
  // os.path.expanduser('~/.cache/tensorflow-hub') on POSIX

  /** `s.rstrip('/')`. */
  function RStripSlashes(s: string): (r: string)
    ensures r <= s
    ensures r == [] || r[|r| - 1] != '/'
    ensures forall i :: |r| <= i < |s| ==> s[i] == '/'
    decreases |s|
  {
    if s != [] && s[|s| - 1] == '/' then RStripSlashes(s[..|s| - 1]) else s
  }

  /**
   * The expanded cache path: the home directory is `HOME` when the environment
   * has it and otherwise the password database's entry for the current user
   * (`passwdHome`, None when there is no entry, in which case the path is
   * returned unexpanded); trailing slashes of the home directory are dropped.
   */
  function DefaultCacheDir(env: map<string, string>, passwdHome: Option<string>): (r: string)
    ensures EndsWith(r, CacheSuffix)
    ensures Home !in env && passwdHome.None? ==> r == TfHubCachePath
  {
    var home := if Home in env then Some(env[Home]) else passwdHome;
    match home
    case None =>
      assert TfHubCachePath[1..] == CacheSuffix;
      TfHubCachePath
    case Some(h) =>
      var r := RStripSlashes(h) + CacheSuffix;
      assert r[|r| - |CacheSuffix|..] == CacheSuffix;
      r
  }

  // ---------------------------------------------------------------------
  // set_env_variables

  /** One guarded assignment of `set_env_variables`: set `key` only when it is absent. */
  function SetIfAbsent(env: map<string, string>, key: string, value: string)
    : (r: map<string, string>)
    ensures r.Keys == env.Keys + {key}
    ensures forall k :: k in env ==> r[k] == env[k]
    ensures key !in env ==> r[key] == value
  {
    if key in env then env else env[key := value]
  }

  /**
   * The environment after `set_env_variables(gpuId)`: the three keys are
   * present, a key already present keeps its value, every other key is
   * untouched, and absent keys get the device index, the errors-only log
   * level and the expanded cache path.
   */
  function WithDefaults(env: map<string, string>, gpuId: int, passwdHome: Option<string>)
    : (r: map<string, string>)
    ensures r.Keys == env.Keys + {CudaVisibleDevices, TfCppMinLogLevel, TfHubCacheDir}
    ensures forall k :: k in env ==> k in r && r[k] == env[k]
    ensures CudaVisibleDevices !in env ==> r[CudaVisibleDevices] == IntToString(gpuId)
    ensures TfCppMinLogLevel !in env ==> r[TfCppMinLogLevel] == ErrorsOnlyLogLevel
    ensures TfHubCacheDir !in env ==> r[TfHubCacheDir] == DefaultCacheDir(env, passwdHome)
  {
    var e1 := SetIfAbsent(env, CudaVisibleDevices, IntToString(gpuId));
    var e2 := SetIfAbsent(e1, TfCppMinLogLevel, ErrorsOnlyLogLevel);
    NamesDistinct();
    assert DefaultCacheDir(e2, passwdHome) == DefaultCacheDir(env, passwdHome);
    SetIfAbsent(e2, TfHubCacheDir, DefaultCacheDir(e2, passwdHome))
  }

  lemma WithDefaultsUnfold(env: map<string, string>, gpuId: int, passwdHome: Option<string>)
    ensures var e1 := SetIfAbsent(env, CudaVisibleDevices, IntToString(gpuId));
            var e2 := SetIfAbsent(e1, TfCppMinLogLevel, ErrorsOnlyLogLevel);
            WithDefaults(env, gpuId, passwdHome)
            == SetIfAbsent(e2, TfHubCacheDir, DefaultCacheDir(e2, passwdHome))
  {
  }

  /** A second call, with any arguments, changes nothing. */
  lemma WithDefaultsIdempotent(env: map<string, string>, gpuId: int, passwdHome: Option<string>,
                               gpuId': int, passwdHome': Option<string>)
    ensures var once := WithDefaults(env, gpuId, passwdHome);
            WithDefaults(once, gpuId', passwdHome') == once
  {
  }

  /** The process environment, `os.environ`. */
  class ProcessEnvironment {
    var vars: map<string, string>

    constructor (initial: map<string, string>)
      ensures vars == initial
    {
      vars := initial;
    }

    method SetEnvVariables(gpuId: int, passwdHome: Option<string>)
      modifies this
      ensures vars == WithDefaults(old(vars), gpuId, passwdHome)
    {
      ghost var e0 := vars;
      if CudaVisibleDevices !in vars {
        vars := vars[CudaVisibleDevices := IntToString(gpuId)];
      }
      ghost var e1 := vars;
      assert e1 == SetIfAbsent(e0, CudaVisibleDevices, IntToString(gpuId));
      if TfCppMinLogLevel !in vars {
        vars := vars[TfCppMinLogLevel := ErrorsOnlyLogLevel];
      }
      ghost var e2 := vars;
      assert e2 == SetIfAbsent(e1, TfCppMinLogLevel, ErrorsOnlyLogLevel);
      if TfHubCacheDir !in vars {
        vars := vars[TfHubCacheDir := DefaultCacheDir(vars, passwdHome)];
      }
      assert vars == SetIfAbsent(e2, TfHubCacheDir, DefaultCacheDir(e2, passwdHome));
      WithDefaultsUnfold(e0, gpuId, passwdHome);
    }
  }
}
