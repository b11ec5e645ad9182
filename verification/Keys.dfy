/**
  Numbered names (internal/recording/recorder.go, uploader.go): the -2, -3, ... that keep a
  filename or an S3 key apart from one that is taken.
 */
module Keys {
  import opened Tickets

  const MAX_INT := 0x7FFF_FFFF_FFFF_FFFF

  predicate EndsWith(s: string, suffix: string) {
    |suffix| <= |s| && s[|s| - |suffix|..] == suffix
  }

  function TrimSuffix(s: string, suffix: string): string {
    if EndsWith(s, suffix) then s[..|s| - |suffix|] else s
  }

  function CutPrefix(s: string, prefix: string): Option<string> {
    if prefix <= s then Some(s[|prefix|..]) else None
  }

  // The extension: from the last dot of the last path element.
  function Extension(path: string): (e: string)
    ensures EndsWith(path, e)
    ensures e == "" || e[0] == '.'
  {
    if path == "" || path[|path| - 1] == '/' then ""
    else if path[|path| - 1] == '.' then "."
    else
      var e := Extension(path[..|path| - 1]);
      if e == "" then "" else e + [path[|path| - 1]]
  }

  predicate IsDigit(c: char) { '0' <= c <= '9' }

  predicate AllDigits(s: string) {
    forall i | 0 <= i < |s| :: IsDigit(s[i])
  }

  function DigitValue(c: char): nat
    requires IsDigit(c)
  {
    (c - '0') as nat
  }

  function Itoa(n: nat): (s: string)
    ensures s != "" && forall i | 0 <= i < |s| :: IsDigit(s[i])
  {
    if n < 10 then [('0' as int + n) as char]
    else Itoa(n / 10) + [('0' as int + n % 10) as char]
  }

  function Decimal(s: string): nat
    requires forall i | 0 <= i < |s| :: IsDigit(s[i])
  {
    if s == "" then 0 else 10 * Decimal(s[..|s| - 1]) + DigitValue(s[|s| - 1])
  }

  // A decimal 64-bit integer with an optional sign.
  function Atoi(s: string): Option<int> {
    var digits := if s != "" && (s[0] == '-' || s[0] == '+') then s[1..] else s;
    if digits == "" || exists i | 0 <= i < |digits| :: !IsDigit(digits[i]) then None
    else
      var n: int := Decimal(digits);
      if digits != s && s[0] == '-' then (if n <= MAX_INT + 1 then Some(-n) else None)
      else if n <= MAX_INT then Some(n) else None
  }

  lemma {:induction false} DecimalOfItoa(n: nat)
    ensures Decimal(Itoa(n)) == n
  {
    if n >= 10 {
      DecimalOfItoa(n / 10);
      assert Itoa(n)[..|Itoa(n)| - 1] == Itoa(n / 10);
    } else {
      assert Itoa(n)[..0] == "";
    }
  }

  lemma AtoiOfItoa(n: nat)
    ensures Atoi(Itoa(n)) == if n <= MAX_INT then Some(n) else None
  {
    DecimalOfItoa(n);
    assert IsDigit(Itoa(n)[0]);
  }

  function Stem(name: string): string {
    TrimSuffix(name, Extension(name))
  }

  lemma StemAndExtension(name: string)
    ensures name == Stem(name) + Extension(name)
  {
  }

  // Inserts "-<n>" before the extension.
  function WithNumericSuffix(name: string, n: nat): string {
    Stem(name) + "-" + Itoa(n) + Extension(name)
  }

  // The suffix after the current key, counted from the base key.
  function NextKeySuffix(baseKey: string, key: string): nat {
    var ext := Extension(baseKey);
    match CutPrefix(key, TrimSuffix(baseKey, ext) + "-")
    case None => 2
    case Some(tail) =>
      match Atoi(TrimSuffix(tail, ext))
      case None => 2
      case Some(n) => if n >= 2 then n + 1 else 2
  }

  // The base key has number 1, its first numbered key number 2.
  function Numbered(baseKey: string, n: nat): string
    requires n >= 1
  {
    if n == 1 then baseKey else WithNumericSuffix(baseKey, n)
  }

  // The next suffix always counts on from the current key, never "-2-2".
  lemma NextFollowsNumbered(baseKey: string, n: nat)
    requires 1 <= n < MAX_INT
    ensures NextKeySuffix(baseKey, Numbered(baseKey, n)) == n + 1
  {
    var ext := Extension(baseKey);
    var key := Numbered(baseKey, n);
    StemAndExtension(baseKey);
    if n > 1 {
      var prefix := Stem(baseKey) + "-";
      var tail := Itoa(n) + ext;
      assert key == prefix + tail;
      assert key[|prefix|..] == tail;
      assert TrimSuffix(tail, ext) == Itoa(n) by {
        assert tail[|tail| - |ext|..] == ext;
        assert tail[..|Itoa(n)|] == Itoa(n);
      }
      AtoiOfItoa(n);
    }
  }

  lemma NumberedIsInjective(baseKey: string, m: nat, n: nat)
    requires 1 <= m && 1 <= n
    ensures Numbered(baseKey, m) == Numbered(baseKey, n) ==> m == n
  {
    StemAndExtension(baseKey);
    NumberOf(baseKey, m);
    NumberOf(baseKey, n);
    assert ("-" + Itoa(m))[1..] == Itoa(m) && ("-" + Itoa(n))[1..] == Itoa(n);
  }

  // What stands between the stem and the extension of a numbered name.
  lemma NumberOf(baseKey: string, n: nat)
    requires 1 <= n
    ensures var key, stem, ext := Numbered(baseKey, n), Stem(baseKey), Extension(baseKey);
      && |stem| + |ext| <= |key|
      && key[|stem|..|key| - |ext|] == (if n == 1 then "" else "-" + Itoa(n))
      && (n > 1 ==> Decimal(Itoa(n)) == n)
  {
    StemAndExtension(baseKey);
    DecimalOfItoa(n);
    var key, stem, ext := Numbered(baseKey, n), Stem(baseKey), Extension(baseKey);
    if n > 1 {
      assert key == stem + ("-" + Itoa(n)) + ext;
    }
  }

  function KeyNumber(baseKey: string, key: string): nat {
    var from, end: int := |Stem(baseKey)| + 1, |key| - |Extension(baseKey)|;
    if key == baseKey then 1
    else if from <= end && AllDigits(key[from..end]) then Decimal(key[from..end])
    else 0
  }

  lemma KeyNumberReadsBack(baseKey: string, n: nat)
    requires 1 <= n
    ensures KeyNumber(baseKey, Numbered(baseKey, n)) == n
  {
    NumberOf(baseKey, 1);
    NumberOf(baseKey, n);
    if n > 1 {
      var key, from := Numbered(baseKey, n), |Stem(baseKey)|;
      DigitsBehindDash(key[from..|key| - |Extension(baseKey)|], Itoa(n));
      assert key[from..|key| - |Extension(baseKey)|][1..] == key[from + 1..|key| - |Extension(baseKey)|];
    }
  }

  lemma DigitsBehindDash(s: string, digits: string)
    requires s == "-" + digits
    ensures |s| == 1 + |digits| && s[1..] == digits && forall i | 1 <= i < |s| :: s[i] == digits[i - 1]
  {
  }

  ghost function Tried(name: string, n: nat): set<string> {
    set k | 1 <= k < n :: Numbered(name, k)
  }

  lemma TriedGrows(name: string, n: nat)
    requires n >= 1
    ensures Tried(name, n + 1) == Tried(name, n) + {Numbered(name, n)}
    ensures Numbered(name, n) !in Tried(name, n)
  {
    forall k | 1 <= k < n ensures Numbered(name, k) != Numbered(name, n) {
      NumberedIsInjective(name, k, n);
    }
    forall x <- Tried(name, n + 1) ensures x in Tried(name, n) + {Numbered(name, n)} { }
    forall x <- Tried(name, n) + {Numbered(name, n)} ensures x in Tried(name, n + 1) { }
  }

  // The first of name, name-2, name-3, ... that is not taken.
  method NextRecordingFilename(name: string, taken: set<string>) returns (candidate: string, ghost n: nat)
    ensures n >= 1 && candidate == Numbered(name, n)
    ensures candidate !in taken
    ensures forall k | 1 <= k < n :: Numbered(name, k) in taken
  {
    candidate, n := name, 1;
    var suffix := 2;
    while candidate in taken
      invariant n >= 1 && suffix == n + 1 && candidate == Numbered(name, n)
      invariant forall k | 1 <= k < n :: Numbered(name, k) in taken
      decreases taken - Tried(name, n)
    {
      TriedGrows(name, n);
      assert candidate in taken - Tried(name, n) && candidate !in taken - Tried(name, n + 1);
      candidate := WithNumericSuffix(name, suffix);
      n, suffix := suffix, suffix + 1;
    }
  }
}
