/**
  The host side of the software vertex cache used by the soft-cache OBJ
  puller: the configuration record, the buffer sizes derived from it, and
  the `#define` preamble it injects into the puller's vertex shader.

  C++ `int` arithmetic is modelled on unbounded integers with the 32-bit
  wrap-around of the casts written out; a signed overflow in an `int`
  multiplication is undefined behaviour in C++, so the operations that
  multiply require that their products fit.
*/
module SoftCache {
  import opened Wrappers
  import Layout

  /** `SoftVertexCacheConfig`: five `int` settings and one flag. */
  datatype SoftVertexCacheConfig = SoftVertexCacheConfig(
    numCacheBucketBits: int,
    numReadCacheLockAttempts: int,
    numWriteCacheLockAttempts: int,
    numCacheEntriesPerBucket: int,
    maxSimultaneousReaders: int,
    enableCacheMissCounter: bool)

  /** The configuration `BuddhaDemo` installs when it is constructed. */
  predicate IsDefaultConfig(c: SoftVertexCacheConfig) {
    && c.numCacheBucketBits == 20
    && c.numReadCacheLockAttempts == 1024
    && c.numWriteCacheLockAttempts == 1024
    && c.numCacheEntriesPerBucket == 2
    && c.maxSimultaneousReaders == 1000000
    && !c.enableCacheMissCounter
  }

  /** `VERTEX_CACHE_ENTRY_SIZE_IN_DWORDS`, the size of one bucket entry. */
  const VertexCacheEntrySizeInDwords: nat := 4

  /** `sizeof(GLuint)`. */
  const GLuintBytes: nat := 4

  const Int32Min: int := -0x8000_0000
  const Int32Max: int := 0x7FFF_FFFF

  predicate IsInt32(n: int) {
    Int32Min <= n <= Int32Max
  }

  // ---------------------------------------------------------------------
  // Bucket count
  // ---------------------------------------------------------------------

  function Pow2(k: nat): (r: nat)
    ensures r >= 1
  {
    if k == 0 then 1 else 2 * Pow2(k - 1)
  }

  /** The base-2 logarithm, rounded down. */
  function Log2(n: nat): (k: nat)
    requires n >= 1
    ensures Pow2(k) <= n < 2 * Pow2(k)
  {
    if n == 1 then 0 else 1 + Log2(n / 2)
  }

  /** The exponent is recovered from the power. */
  lemma {:induction false} Log2Pow2(k: nat)
    ensures Log2(Pow2(k)) == k
  {
    if k > 0 {
      assert Pow2(k) / 2 == Pow2(k - 1);
      Log2Pow2(k - 1);
    }
  }

  /** `1 << (NumCacheBucketBits - 1)` is defined for shift counts 0..31. */
  predicate ShiftDefined(c: SoftVertexCacheConfig) {
    1 <= c.numCacheBucketBits <= 32
  }

  /** `1 << (NumCacheBucketBits - 1)` on a 32-bit `int`; a shift into the
      sign bit gives the most negative value. */
  function NumBuckets(c: SoftVertexCacheConfig): (r: int)
    requires ShiftDefined(c)
    ensures IsInt32(r)
    ensures c.numCacheBucketBits <= 31 ==> r == Pow2(c.numCacheBucketBits - 1)
    ensures c.numCacheBucketBits <= 31 ==> r >= 1 && Log2(r) == c.numCacheBucketBits - 1
    ensures c.numCacheBucketBits == 32 ==> r == Int32Min
  {
    Pow2Bound(c.numCacheBucketBits - 1);
    Log2Pow2(c.numCacheBucketBits - 1);
    var p := Pow2(c.numCacheBucketBits - 1);
    // the 32-bit signed value of p, which is at most 2^31
    if p < 0x8000_0000 then p else p - 0x1_0000_0000
  }

  /** 2^31, the weight of the sign bit of an `int`. */
  lemma Pow2Of31()
    ensures Pow2(31) == 0x8000_0000
  {
    assert Pow2(3) == 8;
    Pow2Add(3, 3);
    Pow2Add(6, 6);
    Pow2Add(12, 12);
    Pow2Add(24, 6);
    Pow2Add(30, 1);
  }

  lemma Pow2Bound(k: nat)
    requires k <= 31
    ensures Pow2(k) <= 0x8000_0000
    ensures k < 31 ==> Pow2(k) < 0x8000_0000
    ensures k == 31 ==> Pow2(k) == 0x8000_0000
  {
    Pow2Of31();
    Pow2Increases(k, 31);
  }

  /** Powers of two grow strictly with the exponent. */
  lemma {:induction false} Pow2Increases(a: nat, b: nat)
    requires a <= b
    ensures Pow2(a) <= Pow2(b)
    ensures a < b ==> Pow2(a) < Pow2(b)
  {
    if a < b {
      Pow2Increases(a, b - 1);
    }
  }

  lemma {:induction false} Pow2Add(a: nat, b: nat)
    ensures Pow2(a + b) == Pow2(a) * Pow2(b)
  {
    if b > 0 {
      Pow2Add(a, b - 1);
    }
  }

  /** The default configuration has 2^19 buckets. */
  lemma DefaultBuckets(c: SoftVertexCacheConfig)
    requires IsDefaultConfig(c)
    ensures ShiftDefined(c) && NumBuckets(c) == 524288
  {
    assert Pow2(3) == 8;
    Pow2Add(3, 3);
    Pow2Add(6, 3);
    Pow2Add(9, 9);
    Pow2Add(18, 1);
  }

  // ---------------------------------------------------------------------
  // Buffer sizes
  // ---------------------------------------------------------------------

  /** The products `SetSoftVertexCacheConfig` computes in `int` do not
      overflow. */
  predicate SizesDefined(c: SoftVertexCacheConfig) {
    && ShiftDefined(c)
    && IsInt32(VertexCacheEntrySizeInDwords * c.numCacheEntriesPerBucket)
    && IsInt32(BucketSizeInBytes(c) * NumBuckets(c))
  }

  /** `bucketSizeInBytes`: the `size_t` product `4 * entries * sizeof(GLuint)`
      cast to `GLsizei`. */
  function BucketSizeInBytes(c: SoftVertexCacheConfig): (r: int)
    ensures IsInt32(r)
    ensures 0 <= c.numCacheEntriesPerBucket < 0x0800_0000 ==>
      r == VertexCacheEntrySizeInDwords * GLuintBytes * c.numCacheEntriesPerBucket
  {
    Layout.ToInt32((VertexCacheEntrySizeInDwords * c.numCacheEntriesPerBucket * GLuintBytes)
      % 0x1_0000_0000_0000_0000)
  }

  /** The size of the buckets buffer: `bucketSizeInBytes * numBuckets`. */
  function BucketsBufferBytes(c: SoftVertexCacheConfig): (r: int)
    requires SizesDefined(c)
    ensures IsInt32(r)
  {
    BucketSizeInBytes(c) * NumBuckets(c)
  }

  /** The size of the bucket locks buffer: `sizeof(GLuint) * numBuckets` in
      `size_t`. */
  function BucketLocksBufferBytes(c: SoftVertexCacheConfig): (r: nat)
    requires ShiftDefined(c)
    ensures c.numCacheBucketBits <= 31 ==> r == GLuintBytes * NumBuckets(c)
  {
    var n := NumBuckets(c);
    // numBuckets converted to size_t, then multiplied in size_t; a
    // non-negative int times four stays below 2^64
    if n >= 0 then GLuintBytes * n
    else (GLuintBytes * (n + 0x1_0000_0000_0000_0000)) % 0x1_0000_0000_0000_0000
  }

  /** For a configuration of at most 31 bucket bits and a non-negative entry
      count, the buckets buffer holds `NumCacheEntriesPerBucket` entries of
      four dwords for each of the 2^(bits-1) buckets, and there is one
      32-bit lock per bucket. */
  lemma BufferSizes(c: SoftVertexCacheConfig)
    requires SizesDefined(c) && c.numCacheBucketBits <= 31
    requires 0 <= c.numCacheEntriesPerBucket < 0x0800_0000
    ensures BucketsBufferBytes(c)
      == VertexCacheEntrySizeInDwords * c.numCacheEntriesPerBucket * GLuintBytes * Pow2(c.numCacheBucketBits - 1)
    ensures BucketLocksBufferBytes(c) == GLuintBytes * Pow2(c.numCacheBucketBits - 1)
    ensures BucketsBufferBytes(c) == BucketSizeInBytes(c) * (BucketLocksBufferBytes(c) / GLuintBytes)
  {
    Pow2Bound(c.numCacheBucketBits - 1);
    var n := Pow2(c.numCacheBucketBits - 1);
    assert NumBuckets(c) == n;
    assert BucketSizeInBytes(c) == 16 * c.numCacheEntriesPerBucket;
    assert BucketLocksBufferBytes(c) == 4 * n;
    assert (4 * n) / 4 == n;
  }

  /** The default configuration: 32-byte buckets, 16 MiB of buckets and
      2 MiB of locks. */
  lemma DefaultSizes(c: SoftVertexCacheConfig)
    requires IsDefaultConfig(c)
    ensures SizesDefined(c)
    ensures BucketSizeInBytes(c) == 32
    ensures BucketsBufferBytes(c) == 16777216
    ensures BucketLocksBufferBytes(c) == 2097152
  {
    DefaultBuckets(c);
    assert BucketSizeInBytes(c) == 32;
    assert BucketLocksBufferBytes(c) == 4 * 524288;
  }

  // ---------------------------------------------------------------------
  // Decimal text, as `std::to_string` writes an `int`
  // ---------------------------------------------------------------------

  predicate IsDigit(ch: char) {
    '0' <= ch <= '9'
  }

  predicate AllDigits(s: string) {
    forall i | 0 <= i < |s| :: IsDigit(s[i])
  }

  function DigitChar(d: nat): (ch: char)
    requires d < 10
    ensures IsDigit(ch)
  {
    "0123456789"[d]
  }

  function DigitValue(ch: char): (d: nat)
    requires IsDigit(ch)
    ensures d < 10
  {
    (ch as int - '0' as int) as nat
  }

  /** The decimal digits of `n`, with no leading zero. */
  function NatToString(n: nat): (s: string)
    ensures |s| >= 1 && AllDigits(s)
  {
    if n < 10 then [DigitChar(n)] else NatToString(n / 10) + [DigitChar(n % 10)]
  }

  /** `std::to_string(int)`: a minus sign before the digits of a negative value. */
  function IntToString(n: int): (s: string)
    ensures IsIntString(s)
  {
    if n < 0 then "-" + NatToString(-n) else NatToString(n)
  }

  /** Digits, optionally after one minus sign. */
  predicate IsIntString(s: string) {
    if |s| >= 1 && s[0] == '-' then |s| >= 2 && AllDigits(s[1..])
    else |s| >= 1 && AllDigits(s)
  }

  function ParseNat(s: string): nat
    requires |s| >= 1 && AllDigits(s)
  {
    if |s| == 1 then DigitValue(s[0])
    else 10 * ParseNat(s[..|s| - 1]) + DigitValue(s[|s| - 1])
  }

  /** The value a decimal `int` literal denotes. */
  function ParseInt(s: string): int
    requires IsIntString(s)
  {
    if s[0] == '-' then 0 - ParseNat(s[1..]) else ParseNat(s)
  }

  lemma {:induction false} ParseNatToString(n: nat)
    ensures ParseNat(NatToString(n)) == n
  {
    if n >= 10 {
      var s := NatToString(n);
      assert s[..|s| - 1] == NatToString(n / 10);
      ParseNatToString(n / 10);
      assert DigitValue(DigitChar(n % 10)) == n % 10;
    } else {
      assert DigitValue(DigitChar(n)) == n;
    }
  }

  /** Every `int` is written so that it reads back as itself. */
  lemma ParseIntToString(n: int)
    ensures ParseInt(IntToString(n)) == n
  {
    if n < 0 {
      var digits := NatToString(-n);
      var s := "-" + digits;
      assert s[1..] == digits;
      ParseNatToString(-n);
      assert ParseInt(s) == 0 - ParseNat(digits);
    } else {
      var s := NatToString(n);
      assert IsDigit(s[0]);
      ParseNatToString(n);
    }
  }

  // ---------------------------------------------------------------------
  // The shader preamble
  // ---------------------------------------------------------------------

  const DefinePrefix: string := "#define "
  const CacheMissCounterSwitch: string := "#define ENABLE_CACHE_MISS_COUNTER"
  const CacheMissCounterLine: string := CacheMissCounterSwitch + "\n"

  /** The macros the preamble sizes the cache with. */
  datatype SizingMacro =
    | NumCacheBuckets
    | NumReadCacheLockAttempts
    | NumWriteCacheLockAttempts
    | NumCacheEntriesPerBucket
    | MaxSimultaneousReaders

  function MacroName(m: SizingMacro): string {
    match m
    case NumCacheBuckets => "NUM_CACHE_BUCKETS"
    case NumReadCacheLockAttempts => "NUM_READ_CACHE_LOCK_ATTEMPTS"
    case NumWriteCacheLockAttempts => "NUM_WRITE_CACHE_LOCK_ATTEMPTS"
    case NumCacheEntriesPerBucket => "NUM_CACHE_ENTRIES_PER_BUCKET"
    case MaxSimultaneousReaders => "MAX_SIMULTANEOUS_READERS"
  }

  /** The value the preamble gives macro `m`. */
  function MacroValue(c: SoftVertexCacheConfig, m: SizingMacro): int
    requires ShiftDefined(c)
  {
    match m
    case NumCacheBuckets => NumBuckets(c)
    case NumReadCacheLockAttempts => c.numReadCacheLockAttempts
    case NumWriteCacheLockAttempts => c.numWriteCacheLockAttempts
    case NumCacheEntriesPerBucket => c.numCacheEntriesPerBucket
    case MaxSimultaneousReaders => c.maxSimultaneousReaders
  }

  /** The order in which the preamble defines the sizing macros. */
  const SizingOrder: seq<SizingMacro> := [
    NumCacheBuckets, NumReadCacheLockAttempts, NumWriteCacheLockAttempts,
    NumCacheEntriesPerBucket, MaxSimultaneousReaders]

  /** The line of `SizingOrder` that defines `m`. */
  function SizingLine(m: SizingMacro): (k: nat)
    ensures k < |SizingOrder| && SizingOrder[k] == m
  {
    match m
    case NumCacheBuckets => 0
    case NumReadCacheLockAttempts => 1
    case NumWriteCacheLockAttempts => 2
    case NumCacheEntriesPerBucket => 3
    case MaxSimultaneousReaders => 4
  }

  /** A `#define NAME VALUE` line. */
  function DefineLine(name: string, value: int): string {
    DefinePrefix + name + " " + IntToString(value) + "\n"
  }

  /** One `#define` line for each macro of `ms`, in order, followed by
      `rest`. */
  function DefineText(c: SoftVertexCacheConfig, ms: seq<SizingMacro>, rest: string): string
    requires ShiftDefined(c)
  {
    if ms == [] then rest else DefineLine(MacroName(ms[0]), MacroValue(c, ms[0])) + DefineText(c, ms[1..], rest)
  }

  /** `softcache_preamble`: the five sizing macros, and the miss counter
      switch when it is enabled. */
  function Preamble(c: SoftVertexCacheConfig): string
    requires ShiftDefined(c)
  {
    DefineText(c, SizingOrder, if c.enableCacheMissCounter then CacheMissCounterLine else "")
  }

  /** Appending to the text after the defines. */
  lemma {:induction false} DefineTextAppend(c: SoftVertexCacheConfig, ms: seq<SizingMacro>, rest: string)
    requires ShiftDefined(c)
    ensures DefineText(c, ms, "") + rest == DefineText(c, ms, rest)
  {
    if ms == [] {
      assert "" + rest == rest;
    } else {
      var line := DefineLine(MacroName(ms[0]), MacroValue(c, ms[0]));
      DefineTextAppend(c, ms[1..], rest);
      assert line + DefineText(c, ms[1..], "") + rest == line + (DefineText(c, ms[1..], "") + rest);
    }
  }

  /** The length of the first line of `s`, its newline included (all of `s`
      when there is no newline). */
  function LineLength(s: string): (k: nat)
    requires |s| >= 1
    ensures 1 <= k <= |s|
  {
    if s[0] == '\n' || |s| == 1 then 1 else 1 + LineLength(s[1..])
  }

  /** The lines of `s`, each with its newline. */
  function Lines(s: string): seq<string>
    decreases |s|
  {
    if s == [] then [] else
      var k := LineLength(s);
      [s[..k]] + Lines(s[k..])
  }

  /** The first line of `body + "\n" + rest` ends at that newline when
      `body` holds none. */
  lemma {:induction false} FirstLineLength(body: string, rest: string)
    requires '\n' !in body
    ensures LineLength(body + "\n" + rest) == |body| + 1
  {
    var s := body + "\n" + rest;
    if body != [] {
      assert s[0] == body[0];
      assert s[1..] == body[1..] + "\n" + rest;
      FirstLineLength(body[1..], rest);
    }
  }

  /** A line without an inner newline is split off the front. */
  lemma LinesCons(body: string, rest: string)
    requires '\n' !in body
    ensures Lines(body + "\n" + rest) == [body + "\n"] + Lines(rest)
  {
    var s := body + "\n" + rest;
    FirstLineLength(body, rest);
    assert s[..|body| + 1] == body + "\n";
    assert s[|body| + 1..] == rest;
  }

  /** The value of `name` defined by `line`, which reads
      `#define name VALUE` followed by a newline. */
  function DefinedBy(line: string, name: string): Option<int> {
    var p := DefinePrefix + name + " ";
    if |line| >= |p| + 2 && line[..|p|] == p && line[|line| - 1] == '\n' && IsIntString(line[|p|..|line| - 1])
    then Some(ParseInt(line[|p|..|line| - 1]))
    else None
  }

  /** The value the first line that defines `name` gives it, as a
      preprocessor reading `lines` in order would see it. */
  function LookupDefine(lines: seq<string>, name: string): Option<int> {
    if lines == [] then None
    else if DefinedBy(lines[0], name).Some? then DefinedBy(lines[0], name)
    else LookupDefine(lines[1..], name)
  }

  /** A `#define` line reads back as the value it was written with. */
  lemma DefineLineRoundTrip(name: string, value: int)
    ensures DefinedBy(DefineLine(name, value), name) == Some(value)
  {
    var line := DefineLine(name, value);
    var p := DefinePrefix + name + " ";
    assert line[..|p|] == p;
    assert line[|p|..|line| - 1] == IntToString(value);
    ParseIntToString(value);
  }

  /** A line defining a macro whose name differs from `name` at position `i`
      defines nothing under `name`. */
  lemma OtherDefineIgnored(name: string, other: string, value: int, i: nat)
    requires i < |name| && i < |other| && name[i] != other[i]
    ensures DefinedBy(DefineLine(other, value), name) == None
  {
    var line := DefineLine(other, value);
    var p := DefinePrefix + name + " ";
    if |line| >= |p| {
      assert line[|DefinePrefix| + i] == other[i];
      assert p[|DefinePrefix| + i] == name[i];
      assert line[..|p|][|DefinePrefix| + i] != p[|DefinePrefix| + i];
    }
  }

  /** Decimal text holds no newline. */
  lemma DigitsHaveNoNewline(s: string)
    requires AllDigits(s)
    ensures '\n' !in s
  {
  }

  /** A `#define` line of a one-word name has no newline before its last
      character. */
  lemma DefineLineIsOneLine(name: string, value: int)
    requires '\n' !in name
    ensures '\n' !in DefinePrefix + name + " " + IntToString(value)
  {
    var digits := IntToString(value);
    if value < 0 {
      DigitsHaveNoNewline(NatToString(-value));
      assert digits == "-" + NatToString(-value);
    } else {
      DigitsHaveNoNewline(digits);
    }
  }

  /** Each sizing macro name is one word. */
  lemma MacroNameIsWord(m: SizingMacro)
    ensures '\n' !in MacroName(m)
  {
    match m
    case _ =>
  }

  /** No sizing macro name starts like the switch macro. */
  lemma MacroNameIsNotSwitch(m: SizingMacro)
    ensures |MacroName(m)| >= 1 && MacroName(m)[0] != CacheMissCounterSwitch[|DefinePrefix|]
  {
  }

  /** A `#define` of a name that does not start like the switch macro is
      not the switch line. */
  lemma DefineLineIsNotSwitch(name: string, value: int)
    requires |name| >= 1 && name[0] != CacheMissCounterSwitch[|DefinePrefix|]
    ensures DefineLine(name, value) != CacheMissCounterLine
  {
    assert DefineLine(name, value)[|DefinePrefix|] == name[0];
    assert CacheMissCounterLine[|DefinePrefix|] == CacheMissCounterSwitch[|DefinePrefix|];
  }

  /** A position at which the names of two different sizing macros differ. */
  function NameDifference(a: SizingMacro, b: SizingMacro): nat {
    if a == MaxSimultaneousReaders || b == MaxSimultaneousReaders then 0
    else if {a, b} == {NumCacheBuckets, NumCacheEntriesPerBucket} then 10
    else 4
  }

  lemma NamesDiffer(a: SizingMacro, b: SizingMacro)
    requires a != b
    ensures var i := NameDifference(a, b);
      i < |MacroName(a)| && i < |MacroName(b)| && MacroName(a)[i] != MacroName(b)[i]
  {
  }

  /** The `#define` lines of `DefineText`, one per macro, followed by
      `after`. */
  function DefineLineList(c: SoftVertexCacheConfig, ms: seq<SizingMacro>, after: seq<string>): (lines: seq<string>)
    requires ShiftDefined(c)
    ensures |lines| == |ms| + |after|
  {
    if ms == [] then after
    else [DefineLine(MacroName(ms[0]), MacroValue(c, ms[0]))] + DefineLineList(c, ms[1..], after)
  }

  /** Line `k` of the list defines macro `k`, and the lines of `after`
      follow the defines. */
  lemma {:induction false} DefineLineListAt(c: SoftVertexCacheConfig, ms: seq<SizingMacro>, after: seq<string>, k: nat)
    requires ShiftDefined(c) && k < |ms| + |after|
    ensures k < |ms| ==> DefineLineList(c, ms, after)[k] == DefineLine(MacroName(ms[k]), MacroValue(c, ms[k]))
    ensures k >= |ms| ==> DefineLineList(c, ms, after)[k] == after[k - |ms|]
  {
    if ms != [] && k > 0 {
      var line := DefineLine(MacroName(ms[0]), MacroValue(c, ms[0]));
      var tail := DefineLineList(c, ms[1..], after);
      assert DefineLineList(c, ms, after) == [line] + tail;
      assert DefineLineList(c, ms, after)[k] == tail[k - 1];
      DefineLineListAt(c, ms[1..], after, k - 1);
    }
  }

  /** The lines of a run of `#define` lines are those lines. */
  lemma {:induction false} LinesOfDefines(c: SoftVertexCacheConfig, ms: seq<SizingMacro>, rest: string)
    requires ShiftDefined(c)
    ensures Lines(DefineText(c, ms, rest)) == DefineLineList(c, ms, Lines(rest))
  {
    if ms != [] {
      var name, value := MacroName(ms[0]), MacroValue(c, ms[0]);
      MacroNameIsWord(ms[0]);
      DefineLineIsOneLine(name, value);
      LinesCons(DefinePrefix + name + " " + IntToString(value), DefineText(c, ms[1..], rest));
      LinesOfDefines(c, ms[1..], rest);
    }
  }

  /** A lookup passes over lines that do not define the name. */
  lemma {:induction false} LookupSkips(lines: seq<string>, name: string, i: nat)
    requires i < |lines|
    requires forall j | 0 <= j < i :: DefinedBy(lines[j], name).None?
    requires DefinedBy(lines[i], name).Some?
    ensures LookupDefine(lines, name) == DefinedBy(lines[i], name)
  {
    if i > 0 {
      LookupSkips(lines[1..], name, i - 1);
    }
  }

  /** The switch line is a line of its own. */
  lemma SwitchLine()
    ensures Lines(CacheMissCounterLine) == [CacheMissCounterLine]
  {
    assert '\n' !in CacheMissCounterSwitch;
    LinesCons(CacheMissCounterSwitch, "");
    assert CacheMissCounterSwitch + "\n" + "" == CacheMissCounterLine;
  }

  /** The preamble is one `#define` line per sizing macro, then the switch
      line when the miss counter is enabled. */
  lemma PreambleLines(c: SoftVertexCacheConfig)
    requires ShiftDefined(c)
    ensures Lines(Preamble(c))
      == DefineLineList(c, SizingOrder, if c.enableCacheMissCounter then [CacheMissCounterLine] else [])
  {
    var tail := if c.enableCacheMissCounter then CacheMissCounterLine else "";
    LinesOfDefines(c, SizingOrder, tail);
    if c.enableCacheMissCounter {
      SwitchLine();
    }
  }

  /** A shader reading the preamble sees each sizing macro defined as the
      value the configuration gives it; in particular `NUM_CACHE_BUCKETS`
      is the bucket count the buffers are sized for. */
  lemma PreambleDefinesSizes(c: SoftVertexCacheConfig, m: SizingMacro)
    requires ShiftDefined(c)
    ensures LookupDefine(Lines(Preamble(c)), MacroName(m)) == Some(MacroValue(c, m))
  {
    PreambleLines(c);
    var after: seq<string> := if c.enableCacheMissCounter then [CacheMissCounterLine] else [];
    var lines := Lines(Preamble(c));
    var k := SizingLine(m);
    forall j | 0 <= j < k
      ensures DefinedBy(lines[j], MacroName(m)).None?
    {
      DefineLineListAt(c, SizingOrder, after, j);
      NamesDiffer(m, SizingOrder[j]);
      OtherDefineIgnored(MacroName(m), MacroName(SizingOrder[j]), MacroValue(c, SizingOrder[j]),
        NameDifference(m, SizingOrder[j]));
    }
    DefineLineListAt(c, SizingOrder, after, k);
    DefineLineRoundTrip(MacroName(m), MacroValue(c, m));
    LookupSkips(lines, MacroName(m), k);
  }

  /** The miss counter switch is in the preamble exactly when the
      configuration enables it. */
  lemma PreambleCounterSwitch(c: SoftVertexCacheConfig)
    requires ShiftDefined(c)
    ensures CacheMissCounterLine in Lines(Preamble(c)) <==> c.enableCacheMissCounter
  {
    PreambleLines(c);
    var after: seq<string> := if c.enableCacheMissCounter then [CacheMissCounterLine] else [];
    var lines := Lines(Preamble(c));
    forall k | 0 <= k < |SizingOrder|
      ensures lines[k] != CacheMissCounterLine
    {
      DefineLineListAt(c, SizingOrder, after, k);
      MacroNameIsNotSwitch(SizingOrder[k]);
      DefineLineIsNotSwitch(MacroName(SizingOrder[k]), MacroValue(c, SizingOrder[k]));
    }
    if c.enableCacheMissCounter {
      DefineLineListAt(c, SizingOrder, after, |SizingOrder|);
      assert lines[|SizingOrder|] == CacheMissCounterLine;
    }
  }
}
