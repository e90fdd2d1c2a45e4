/**
 * internal/config/config.go: the environment lookups with defaults, the integer, duration and
 * list parsers they feed, and Load's defaults and single required field. The process environment
 * is a map from names to values.
 */
module Config {
  import opened Wrappers
  import opened Strings

  // ---------------------------------------------------------------------------------------
  // strings.Split(s, ",") and its inverse

  predicate CommaFree(s: string) {
    forall i | 0 <= i < |s| :: s[i] != ','
  }

  function CommaCount(s: string): nat {
    if s == [] then 0 else (if s[0] == ',' then 1 else 0) + CommaCount(s[1..])
  }

  /** strings.Split(s, ","): the pieces between commas, one more than there are commas. */
  function Split(s: string): (parts: seq<string>)
    ensures |parts| == CommaCount(s) + 1
    ensures forall i | 0 <= i < |parts| :: CommaFree(parts[i])
  {
    if s == [] then [""]
    else
      var rest := Split(s[1..]);
      if s[0] == ',' then [""] + rest
      else [[s[0]] + rest[0]] + rest[1..]
  }

  /** strings.Join(parts, ","). */
  function Join(parts: seq<string>): string {
    if parts == [] then ""
    else if |parts| == 1 then parts[0]
    else parts[0] + "," + Join(parts[1..])
  }

  lemma {:induction false} SplitCommaFree(s: string)
    requires CommaFree(s)
    ensures Split(s) == [s]
  {
    if s != [] {
      SplitCommaFree(s[1..]);
      assert [s[0]] + s[1..] == s;
    }
  }

  /** A comma splits in two: the pieces of the left part, then those of the right. */
  lemma {:induction false} SplitAtComma(a: string, b: string)
    ensures Split(a + "," + b) == Split(a) + Split(b)
  {
    if a == [] {
      assert a + "," + b == [','] + b;
      assert ([','] + b)[1..] == b;
    } else {
      assert (a + "," + b)[1..] == a[1..] + "," + b;
      SplitAtComma(a[1..], b);
    }
  }

  /** Joining the pieces gives back the string. */
  lemma {:induction false} JoinSplit(s: string)
    ensures Join(Split(s)) == s
  {
    if s != [] {
      JoinSplit(s[1..]);
      var rest := Split(s[1..]);
      if s[0] == ',' {
        assert Split(s)[1..] == rest;
        assert s == [','] + s[1..];
      } else {
        var parts := Split(s);
        if |rest| == 1 {
          assert s == [s[0]] + rest[0];
        } else {
          assert parts[1..] == rest[1..];
          assert Join(rest) == rest[0] + "," + Join(rest[1..]);
          assert s == [s[0]] + s[1..];
        }
      }
    }
  }

  /** Splitting a join of comma-free pieces gives back the pieces. */
  lemma {:induction false} SplitJoin(parts: seq<string>)
    requires parts != [] && forall i | 0 <= i < |parts| :: CommaFree(parts[i])
    ensures Split(Join(parts)) == parts
  {
    SplitCommaFree(parts[0]);
    if |parts| > 1 {
      SplitJoin(parts[1..]);
      SplitAtComma(parts[0], Join(parts[1..]));
    }
  }

  // ---------------------------------------------------------------------------------------
  // strings.TrimSpace (ASCII white space)

  predicate Trimmed(s: string) {
    s == [] || (!IsSpace(s[0]) && !IsSpace(s[|s| - 1]))
  }

  function TrimLeft(s: string): (r: string)
    ensures |r| <= |s| && r == s[|s| - |r|..]
    ensures forall i | 0 <= i < |s| - |r| :: IsSpace(s[i])
    ensures r == [] || !IsSpace(r[0])
  {
    if s != [] && IsSpace(s[0]) then TrimLeft(s[1..]) else s
  }

  function TrimRight(s: string): (r: string)
    ensures |r| <= |s| && r == s[..|r|]
    ensures forall i | |r| <= i < |s| :: IsSpace(s[i])
    ensures r == [] || !IsSpace(r[|r| - 1])
  {
    if s != [] && IsSpace(s[|s| - 1]) then TrimRight(s[..|s| - 1]) else s
  }

  /** `r` sits at index `i` of `s` with only white space before and after it. */
  predicate Padded(r: string, s: string, i: int) {
    && 0 <= i <= |s| - |r| && OccursAt(r, s, i)
    && (forall k | 0 <= k < i :: IsSpace(s[k]))
    && (forall k | i + |r| <= k < |s| :: IsSpace(s[k]))
  }

  /** strings.TrimSpace: the slice left after dropping white space at both ends. */
  function TrimSpace(s: string): (r: string)
    ensures Trimmed(r) && Occurs(r, s)
    ensures Trimmed(s) ==> r == s
  {
    TrimBothPadded(s);
    TrimRight(TrimLeft(s))
  }

  /** TrimSpace drops white space and nothing else: the result sits in `s` between two runs of white space. */
  lemma TrimSpaceDropsOnlySpace(s: string)
    ensures exists i :: Padded(TrimSpace(s), s, i)
  {
    TrimBothPadded(s);
    assert Padded(TrimSpace(s), s, |s| - |TrimLeft(s)|);
  }

  /** Trimming the left and then the right leaves a slice with only white space around it. */
  lemma TrimBothPadded(s: string)
    ensures Padded(TrimRight(TrimLeft(s)), s, |s| - |TrimLeft(s)|)
  {
    var l := TrimLeft(s);
    var r := TrimRight(l);
    var i := |s| - |l|;
    assert OccursAt(r, s, i);
    forall k | i + |r| <= k < |s| ensures IsSpace(s[k]) {
      assert s[k] == l[k - i];
    }
  }

  // ---------------------------------------------------------------------------------------
  // parseStringList

  /** The trimmed, non-empty pieces, in order. */
  function Keep(parts: seq<string>): (kept: seq<string>)
    ensures |kept| <= |parts|
    ensures forall i | 0 <= i < |kept| :: kept[i] != "" && Trimmed(kept[i])
  {
    if parts == [] then []
    else
      var t := TrimSpace(parts[|parts| - 1]);
      Keep(parts[..|parts| - 1]) + (if t != "" then [t] else [])
  }

  lemma {:induction false} KeepConcat(p: seq<string>, q: seq<string>)
    ensures Keep(p + q) == Keep(p) + Keep(q)
  {
    if q == [] {
      assert p + q == p;
    } else {
      assert (p + q)[..|p + q| - 1] == p + q[..|q| - 1];
      KeepConcat(p, q[..|q| - 1]);
    }
  }

  /** parseStringList as a function: "" gives no elements, else the kept pieces of the split. */
  function StringList(value: string): (list: seq<string>)
    ensures value == "" ==> list == []
    ensures forall i | 0 <= i < |list| :: list[i] != "" && Trimmed(list[i])
    ensures |list| <= CommaCount(value) + 1
  {
    if value == "" then [] else Keep(Split(value))
  }

  /** parseStringList: the append loop over the pieces. */
  method ParseStringList(value: string) returns (result: seq<string>)
    ensures result == StringList(value)
  {
    if value == "" {
      return [];
    }
    var parts := Split(value);
    result := [];
    var i := 0;
    while i < |parts|
      invariant 0 <= i <= |parts|
      invariant result == Keep(parts[..i])
    {
      assert parts[..i + 1][..i] == parts[..i];
      var trimmed := TrimSpace(parts[i]);
      if trimmed != "" {
        result := result + [trimmed];
      }
      i := i + 1;
    }
    assert parts[..i] == parts;
  }

  /** Elements keep input order: the list of "a,b" is the list of a followed by the list of b. */
  lemma StringListAtComma(a: string, b: string)
    ensures StringList(a + "," + b) == StringList(a) + StringList(b)
  {
    SplitAtComma(a, b);
    KeepConcat(Split(a), Split(b));
    StringListIsKeep(a);
    StringListIsKeep(b);
    assert a + "," + b != "";
  }

  /** The "" special case agrees with splitting "" into one empty piece and dropping it. */
  lemma StringListIsKeep(value: string)
    ensures StringList(value) == Keep(Split(value))
  {
    if value == "" {
      assert Split(value) == [""];
      assert Keep([""]) == Keep([]) + [];
    }
  }

  /** A list of non-empty, trimmed, comma-free elements survives joining with commas and parsing back. */
  lemma {:induction false} StringListJoin(xs: seq<string>)
    requires forall i | 0 <= i < |xs| :: xs[i] != "" && Trimmed(xs[i]) && CommaFree(xs[i])
    ensures StringList(Join(xs)) == xs
  {
    if xs != [] {
      SplitJoin(xs);
      KeepOfClean(xs);
    }
  }

  lemma {:induction false} KeepOfClean(xs: seq<string>)
    requires forall i | 0 <= i < |xs| :: xs[i] != "" && Trimmed(xs[i])
    ensures Keep(xs) == xs
  {
    if xs != [] {
      var init, last := xs[..|xs| - 1], xs[|xs| - 1];
      KeepOfClean(init);
      assert TrimSpace(last) == last;
      assert init + [last] == xs;
    }
  }

  // ---------------------------------------------------------------------------------------
  // getEnv

  /** os.Getenv: "" for an unset variable. */
  function Getenv(env: map<string, string>, key: string): (value: string)
    ensures value == "" <==> key !in env || env[key] == ""
    ensures key in env ==> value == env[key]
  {
    if key in env then env[key] else ""
  }

  /** getEnv: the default exactly when the variable's value is "". */
  function GetEnv(env: map<string, string>, key: string, defaultValue: string): (r: string)
    ensures Getenv(env, key) == "" ==> r == defaultValue
    ensures Getenv(env, key) != "" ==> r == Getenv(env, key)
  {
    var value := Getenv(env, key);
    if value == "" then defaultValue else value
  }

  /** A variable set to "" reads exactly like an unset one. */
  lemma EmptyIsUnset(env: map<string, string>, key: string, defaultValue: string)
    ensures GetEnv(env[key := ""], key, defaultValue) == GetEnv(env - {key}, key, defaultValue) == defaultValue
  {
  }

  // ---------------------------------------------------------------------------------------
  // strconv.Atoi and parseInt (64-bit int)

  const MaxInt64: int := 0x7FFF_FFFF_FFFF_FFFF
  const MinInt64: int := -0x8000_0000_0000_0000

  function DigitValue(c: char): nat
    requires IsDigit(c)
  {
    c as int - '0' as int
  }

  /** The value of a decimal digit string, read left to right. */
  function DigitsValue(s: string): nat
    requires AllDigits(s)
  {
    if s == [] then 0 else 10 * DigitsValue(s[..|s| - 1]) + DigitValue(s[|s| - 1])
  }

  function DigitChar(d: nat): char
    requires d < 10
  {
    ('0' as int + d) as char
  }

  /** The decimal form of a natural number, without leading zeros. */
  function Decimal(n: nat): (s: string)
    ensures s != [] && AllDigits(s)
  {
    if n < 10 then [DigitChar(n)] else Decimal(n / 10) + [DigitChar(n % 10)]
  }

  lemma {:induction false} DecimalValue(n: nat)
    ensures DigitsValue(Decimal(n)) == n
  {
    if n >= 10 {
      DecimalValue(n / 10);
      var s := Decimal(n);
      assert s[..|s| - 1] == Decimal(n / 10);
    }
  }

  /** strconv.Atoi: an optional sign, at least one ASCII digit and nothing else, within int64. */
  function Atoi(s: string): (r: Option<int>)
    ensures r.Some? ==> MinInt64 <= r.value <= MaxInt64
    ensures s == [] || !IsDigit(s[|s| - 1]) ==> r.None?
  {
    var signed := s != [] && (s[0] == '+' || s[0] == '-');
    var body := if signed then s[1..] else s;
    if body == [] || !AllDigits(body) then None
    else
      var v := DigitsValue(body);
      var x := if signed && s[0] == '-' then -(v as int) else v as int;
      if MinInt64 <= x <= MaxInt64 then Some(x) else None
  }

  /** The decimal form of an integer, with "-" for a negative one. */
  function FormatInt(n: int): string {
    if n < 0 then "-" + Decimal(-n) else Decimal(n)
  }

  /** Atoi reads back every int64 written in decimal. */
  lemma AtoiFormatInt(n: int)
    requires MinInt64 <= n <= MaxInt64
    ensures Atoi(FormatInt(n)) == Some(n)
  {
    var s := FormatInt(n);
    if n < 0 {
      var digits := Decimal(-n);
      DecimalValue(-n);
      assert s[0] == '-' && s[1..] == digits;
      assert DigitsValue(s[1..]) == -n;
    } else {
      DecimalValue(n);
      assert IsDigit(s[0]) && s[0] != '+' && s[0] != '-';
      assert DigitsValue(s) == n;
    }
  }

  /** parseInt: the default for "" or anything Atoi refuses, else the parsed value. */
  function ParseInt(value: string, defaultValue: int): (r: int)
    ensures value == "" || Atoi(value).None? ==> r == defaultValue
    ensures value != "" && Atoi(value).Some? ==> r == Atoi(value).value
  {
    if value == "" then defaultValue
    else match Atoi(value)
      case None => defaultValue
      case Some(v) => v
  }

  // ---------------------------------------------------------------------------------------
  // time.ParseDuration (integer components) and parseDuration

  const Nanosecond: int := 1
  const Microsecond: int := 1000
  const Millisecond: int := 1000_000
  const Second: int := 1000_000_000
  const Minute: int := 60 * Second
  const Hour: int := 60 * Minute

  /** The bound Go's parser checks its unsigned accumulator against. */
  const Limit: int := 0x8000_0000_0000_0000

  /** The accumulator is a uint64: sums wrap modulo 2^64. */
  const Uint64Modulus: int := 0x1_0000_0000_0000_0000

  /** time's unit table; "µs" is written with U+00B5 and "μs" with U+03BC. */
  function UnitValue(u: string): Option<int> {
    if u == "ns" then Some(Nanosecond)
    else if u == "us" || u == "µs" || u == "μs" then Some(Microsecond)
    else if u == "ms" then Some(Millisecond)
    else if u == "s" then Some(Second)
    else if u == "m" then Some(Minute)
    else if u == "h" then Some(Hour)
    else None
  }

  /** The length of the leading run of digits. */
  function DigitRun(s: string): (n: nat)
    ensures n <= |s| && AllDigits(s[..n]) && (n < |s| ==> !IsDigit(s[n]))
  {
    if s == [] || !IsDigit(s[0]) then 0 else 1 + DigitRun(s[1..])
  }

  /** The length of the leading unit: the run up to the next digit or '.'. */
  function UnitRun(s: string): (n: nat)
    ensures n <= |s| && (n < |s| ==> IsDigit(s[n]) || s[n] == '.')
  {
    if s == [] || IsDigit(s[0]) || s[0] == '.' then 0 else 1 + UnitRun(s[1..])
  }

  /**
   * One `digits unit` component at the front of `s`: its value digits * unit and its length.
   * A digit value or a product above 2^63 is Go's overflow error; a '.' (a fraction) is refused.
   */
  function NextComponent(s: string): (c: Option<(nat, nat)>)
    ensures c.Some? ==> 0 < c.value.1 <= |s| && c.value.0 <= Limit
  {
    var n := DigitRun(s);
    if n == 0 then None
    else
      var v := DigitsValue(s[..n]);
      if v > Limit || (n < |s| && s[n] == '.') then None
      else
        var u := UnitRun(s[n..]);
        if u == 0 then None
        else match UnitValue(s[n..n + u])
          case None => None
          case Some(unit) =>
            var product := v * unit;
            if product > Limit then None else Some((product, n + u))
  }

  /**
   * The uint64 accumulator's `d += v`. Both operands are at most 2^63, so the sum wraps only
   * when both are exactly 2^63, and then to 0.
   */
  function Accumulate(d: nat, x: nat): (sum: nat)
    requires d <= Limit && x <= Limit
    ensures sum == if d == Limit && x == Limit then 0 else d + x
  {
    (d + x) % Uint64Modulus
  }

  /**
   * The component loop: each component's value is added to the accumulator `d`, and the parse
   * fails once the accumulator is above 2^63.
   */
  function Components(s: string, d: nat): (r: Option<nat>)
    requires d <= Limit
    ensures r.Some? ==> r.value <= Limit
    decreases |s|
  {
    if s == [] then Some(d)
    else match NextComponent(s)
      case None => None
      case Some((x, len)) =>
        var sum := Accumulate(d, x);
        if sum > Limit then None else Components(s[len..], sum)
  }

  /** One turn of the component loop. */
  lemma ComponentsStep(s: string, d: nat, x: nat, len: nat)
    requires d <= Limit && s != [] && NextComponent(s) == Some((x, len))
    ensures Accumulate(d, x) > Limit ==> Components(s, d).None?
    ensures Accumulate(d, x) <= Limit ==> Components(s, d) == Components(s[len..], Accumulate(d, x))
  {
  }

  /**
   * Two components worth 2^63 each (such as "9223372036854775808ns" twice) wrap the accumulator
   * to 0, so the duration parses as 0.
   */
  lemma WrappedSum(n: nat, u: string)
    requires UnitValue(u).Some? && n * UnitValue(u).value == Limit
    ensures var t := Decimal(n) + u; ParseGoDuration(t + t) == Some(0)
  {
    var t := Decimal(n) + u;
    NextComponentBeforeDigit(n, u, t);
    NextComponentBeforeDigit(n, u, []);
    assert t + [] == t;
    assert (t + t)[|t|..] == t && t[|t|..] == [];
    ComponentsStep(t + t, 0, Limit, |t|);
    ComponentsStep(t, Limit, Limit, |t|);
    assert Components(t + t, 0) == Some(0);
    UnsignedDuration(t + t);
  }

  /** Text starting with a digit, other than "0", is parsed by the component loop alone. */
  lemma UnsignedDuration(s: string)
    requires s != [] && IsDigit(s[0]) && s != "0"
    ensures Components(s, 0).Some? && Components(s, 0).value <= MaxInt64 ==> ParseGoDuration(s) == Components(s, 0)
  {
  }

  /** time.ParseDuration over whole-number components: a sign, "0", or one or more `digits unit` pairs. */
  function ParseGoDuration(s: string): (r: Option<int>)
    ensures r.Some? ==> MinInt64 <= r.value <= MaxInt64
  {
    var signed := s != [] && (s[0] == '+' || s[0] == '-');
    var neg := signed && s[0] == '-';
    var body := if signed then s[1..] else s;
    if body == "0" then Some(0)
    else if body == "" then None
    else match Components(body, 0)
      case None => None
      case Some(d) =>
        if neg then Some(-(d as int))
        else if d > MaxInt64 then None
        else Some(d)
  }

  /** parseDuration: the default for "" or anything ParseDuration refuses, else the parsed value. */
  function ParseDuration(value: string, defaultValue: int): (r: int)
    ensures value == "" || ParseGoDuration(value).None? ==> r == defaultValue
    ensures value != "" && ParseGoDuration(value).Some? ==> r == ParseGoDuration(value).value
  {
    if value == "" then defaultValue
    else match ParseGoDuration(value)
      case None => defaultValue
      case Some(d) => d
  }

  /** The digit scan stops exactly where a digit string meets a non-digit. */
  lemma {:induction false} DigitRunOfDigits(digits: string, u: string)
    requires AllDigits(digits) && u != [] && !IsDigit(u[0])
    ensures DigitRun(digits + u) == |digits|
  {
    if digits == [] {
      assert digits + u == u;
    } else {
      assert (digits + u)[1..] == digits[1..] + u;
      DigitRunOfDigits(digits[1..], u);
    }
  }

  /** Every unit of the table is a run of letters the unit scan takes whole. */
  lemma UnitIsOneRun(u: string)
    requires UnitValue(u).Some?
    ensures u != [] && !IsDigit(u[0]) && u[0] != '+' && u[0] != '-' && UnitRun(u) == |u|
  {
  }

  /** One whole number with one unit parses to their product when that fits in an int64. */
  lemma SingleComponent(n: nat, u: string)
    requires UnitValue(u).Some? && n * UnitValue(u).value <= MaxInt64
    ensures ParseGoDuration(Decimal(n) + u) == Some(n * UnitValue(u).value)
  {
    var s := Decimal(n) + u;
    var x := n * UnitValue(u).value;
    NextComponentBeforeDigit(n, u, []);
    assert Decimal(n) + u + [] == s;
    assert s[0] == Decimal(n)[0] && IsDigit(s[0]);
    assert s != "0" by {
      UnitIsOneRun(u);
      assert |s| >= 2;
    }
    assert s[|s|..] == [];
    assert Components(s, 0) == Components([], x);
  }

  /** The unit scan stops where the next component's digits start. */
  lemma {:induction false} UnitRunBeforeDigit(u: string, rest: string)
    requires forall i | 0 <= i < |u| :: !IsDigit(u[i]) && u[i] != '.'
    requires rest == [] || IsDigit(rest[0])
    ensures UnitRun(u + rest) == |u|
  {
    if u == [] {
      assert u + rest == rest;
    } else {
      assert (u + rest)[0] == u[0] && (u + rest)[1..] == u[1..] + rest;
      UnitRunBeforeDigit(u[1..], rest);
    }
  }

  /** No unit of the table contains a digit or a '.'. */
  lemma UnitLetters(u: string)
    requires UnitValue(u).Some?
    ensures u != [] && forall i | 0 <= i < |u| :: !IsDigit(u[i]) && u[i] != '.'
  {
  }

  /** The scans over a decimal number, a unit and the start of what follows. */
  lemma ScanOfDecimal(n: nat, u: string, rest: string)
    requires UnitValue(u).Some? && (rest == [] || IsDigit(rest[0]))
    ensures var s, k := Decimal(n) + u + rest, |Decimal(n)|;
            && DigitRun(s) == k && DigitsValue(s[..k]) == n && k < |s| && s[k] != '.'
            && UnitRun(s[k..]) == |u| && s[k..k + |u|] == u
  {
    var digits := Decimal(n);
    var tail := u + rest;
    var s := digits + tail;
    assert s == Decimal(n) + u + rest;
    UnitLetters(u);
    UnitRunBeforeDigit(u, rest);
    assert tail[0] == u[0];
    DigitRunOfDigits(digits, tail);
    DecimalValue(n);
    assert s[..|digits|] == digits;
    assert s[|digits|..] == tail && s[|digits|..|digits| + |u|] == u;
  }

  /**
   * The component scan reads a decimal number and a unit as one component when the text after
   * them is empty or starts the next component.
   */
  lemma NextComponentBeforeDigit(n: nat, u: string, rest: string)
    requires UnitValue(u).Some? && n * UnitValue(u).value <= Limit
    requires rest == [] || IsDigit(rest[0])
    ensures NextComponent(Decimal(n) + u + rest) == Some((n * UnitValue(u).value, |Decimal(n) + u|))
  {
    ScanOfDecimal(n, u, rest);
    UnitAtLeastOne(n, u);
  }

  lemma UnitAtLeastOne(n: nat, u: string)
    requires UnitValue(u).Some?
    ensures UnitValue(u).value >= 1 && n <= n * UnitValue(u).value
  {
  }

  /** The default texts parse to the defaults themselves. */
  lemma DefaultValues()
    ensures ParseDuration("10s", 10 * Second) == 10 * Second
    ensures ParseDuration("24h", 24 * Hour) == 24 * Hour
    ensures ParseInt("3", 3) == 3 && ParseInt("5", 5) == 5
    ensures StringList("") == []
  {
    DefaultDurations();
    DefaultInts();
  }

  lemma DefaultInts()
    ensures Atoi("3") == Some(3) && Atoi("5") == Some(5)
  {
    assert "3"[..0] == [] && "5"[..0] == [];
  }

  lemma DefaultDurations()
    ensures ParseGoDuration("10s") == Some(10 * Second)
    ensures ParseGoDuration("24h") == Some(24 * Hour)
  {
    assert Decimal(10) + "s" == "10s";
    SingleComponent(10, "s");
    assert Decimal(24) + "h" == "24h";
    SingleComponent(24, "h");
  }

  // ---------------------------------------------------------------------------------------
  // Load

  datatype ServerConfig = ServerConfig(port: string, host: string)
  datatype WhatsAppConfig = WhatsAppConfig(dbPath: string, logLevel: string)
  datatype OtomaxConfig = OtomaxConfig(webhookUrl: string, webhookTimeout: int, retryCount: int)
  datatype SecurityConfig = SecurityConfig(apiKey: string)
  datatype RateLimitConfig = RateLimitConfig(maxMessagesPerSecond: int)
  datatype MessageTrackingConfig = MessageTrackingConfig(ttl: int, trackingDbPath: string, webhookWhitelist: seq<string>)

  datatype Settings = Settings(
    server: ServerConfig,
    whatsApp: WhatsAppConfig,
    otomax: OtomaxConfig,
    security: SecurityConfig,
    rateLimit: RateLimitConfig,
    messageTracking: MessageTrackingConfig)

  /** Load (after the optional .env file has been merged into `env`). */
  function Load(env: map<string, string>): (r: Result<Settings, string>)
    ensures r.Failure? <==> Getenv(env, "OTOMAX_WEBHOOK_URL") == ""
    ensures r.Failure? ==> r.error == "OTOMAX_WEBHOOK_URL is required"
    ensures r.Success? ==> r.value.otomax.webhookUrl == Getenv(env, "OTOMAX_WEBHOOK_URL")
  {
    var settings := Settings(
      ServerConfig(GetEnv(env, "PORT", "8080"), GetEnv(env, "HOST", "0.0.0.0")),
      WhatsAppConfig(GetEnv(env, "WA_DB_PATH", "./db/whatsmeow.db"), GetEnv(env, "WA_LOG_LEVEL", "INFO")),
      OtomaxConfig(
        GetEnv(env, "OTOMAX_WEBHOOK_URL", ""),
        ParseDuration(GetEnv(env, "OTOMAX_WEBHOOK_TIMEOUT", "10s"), 10 * Second),
        ParseInt(GetEnv(env, "OTOMAX_WEBHOOK_RETRY_COUNT", "3"), 3)),
      SecurityConfig(GetEnv(env, "API_KEY", "")),
      RateLimitConfig(ParseInt(GetEnv(env, "MAX_MESSAGES_PER_SECOND", "5"), 5)),
      MessageTrackingConfig(
        ParseDuration(GetEnv(env, "MESSAGE_TRACKING_TTL", "24h"), 24 * Hour),
        GetEnv(env, "TRACKING_DB_PATH", "./db/tracking.db"),
        StringList(GetEnv(env, "WEBHOOK_WHITELIST_JIDS", ""))));
    if settings.otomax.webhookUrl == "" then Failure("OTOMAX_WEBHOOK_URL is required")
    else Success(settings)
  }

  /** With only the webhook URL set, every other setting takes its documented default. */
  lemma LoadDefaults(env: map<string, string>)
    requires Getenv(env, "OTOMAX_WEBHOOK_URL") != ""
    requires Getenv(env, "PORT") == "" && Getenv(env, "HOST") == ""
    requires Getenv(env, "WA_DB_PATH") == "" && Getenv(env, "WA_LOG_LEVEL") == ""
    requires Getenv(env, "OTOMAX_WEBHOOK_TIMEOUT") == "" && Getenv(env, "OTOMAX_WEBHOOK_RETRY_COUNT") == ""
    requires Getenv(env, "API_KEY") == "" && Getenv(env, "MAX_MESSAGES_PER_SECOND") == ""
    requires Getenv(env, "MESSAGE_TRACKING_TTL") == "" && Getenv(env, "TRACKING_DB_PATH") == ""
    requires Getenv(env, "WEBHOOK_WHITELIST_JIDS") == ""
    ensures var r := Load(env);
            && r.Success?
            && r.value.server == ServerConfig("8080", "0.0.0.0")
            && r.value.whatsApp == WhatsAppConfig("./db/whatsmeow.db", "INFO")
            && r.value.otomax == OtomaxConfig(Getenv(env, "OTOMAX_WEBHOOK_URL"), 10 * Second, 3)
            && r.value.security == SecurityConfig("")
            && r.value.rateLimit == RateLimitConfig(5)
            && r.value.messageTracking == MessageTrackingConfig(24 * Hour, "./db/tracking.db", [])
  {
    DefaultValues();
  }
}
