/**
  The parts of Go's strconv and strings packages that the schedulers and the services rely on:
  decimal printing and reading, Split, Join and Trim.
 */
module Text {
  import opened Prelude

  predicate IsDigit(c: char) {
    '0' <= c <= '9'
  }

  predicate AllDigits(s: string) {
    forall i :: 0 <= i < |s| ==> IsDigit(s[i])
  }

  /** The number that a string of decimal digits denotes. */
  function Value(s: string): nat
    requires AllDigits(s)
  {
    if s == "" then 0 else Value(s[..|s| - 1]) * 10 + (s[|s| - 1] as int - '0' as int)
  }

  function DigitChar(d: nat): (c: char)
    requires d < 10
    ensures '0' <= c <= '9'
  {
    '0' + d as char
  }

  /** Decimal printing; that Value reads it back makes it injective. */
  function Itoa(n: nat): (s: string)
    ensures s != "" && AllDigits(s)
    ensures Value(s) == n
  {
    if n < 10 then [DigitChar(n)]
    else
      var head := Itoa(n / 10);
      var s := head + [DigitChar(n % 10)];
      assert s[..|s| - 1] == head;
      s
  }

  lemma ItoaInjective(m: nat, n: nat)
    requires Itoa(m) == Itoa(n)
    ensures m == n
  {
  }

  const MAX_INT := 0x7fff_ffff_ffff_ffff

  /** strconv.Atoi: an optional sign, then at least one digit, in the range of a 64-bit int. */
  function Atoi(s: string): (r: Option<int>)
    ensures r.Some? ==> -MAX_INT - 1 <= r.value <= MAX_INT
  {
    var signed := s != "" && (s[0] == '+' || s[0] == '-');
    var digits := if signed then s[1..] else s;
    if digits == "" || !AllDigits(digits) then None
    else
      var n: int := if signed && s[0] == '-' then -(Value(digits) as int) else Value(digits);
      if -MAX_INT - 1 <= n <= MAX_INT then Some(n) else None
  }

  lemma AtoiItoa(n: nat)
    requires n <= MAX_INT
    ensures Atoi(Itoa(n)) == Some(n)
  {
  }

  /** strings.Split for a non-empty separator: leftmost, non-overlapping. */
  function Split(s: string, sep: string): (r: seq<string>)
    requires sep != ""
    ensures r != []
    decreases |s|
  {
    if |s| < |sep| then [s]
    else if s[..|sep|] == sep then [""] + Split(s[|sep|..], sep)
    else
      var r := Split(s[1..], sep);
      [[s[0]] + r[0]] + r[1..]
  }

  /** strings.Join. */
  function Join(parts: seq<string>, sep: string): string {
    if parts == [] then ""
    else if |parts| == 1 then parts[0]
    else parts[0] + sep + Join(parts[1..], sep)
  }

  lemma {:induction false} SplitPlain(p: string, sep: string)
    requires sep != "" && sep[0] !in p
    ensures Split(p, sep) == [p]
  {
    if |p| >= |sep| {
      assert p[..|sep|][0] == p[0];
      SplitPlain(p[1..], sep);
      assert p == [p[0]] + p[1..];
    }
  }

  lemma {:induction false} SplitHead(p: string, rest: string, sep: string)
    requires sep != "" && sep[0] !in p
    ensures Split(p + sep + rest, sep) == [p] + Split(rest, sep)
  {
    var s := p + sep + rest;
    if p == "" {
      assert s[..|sep|] == sep && s[|sep|..] == rest;
    } else {
      assert s[0] == p[0] && s[..|sep|][0] == p[0];
      assert s[1..] == p[1..] + sep + rest;
      SplitHead(p[1..], rest, sep);
      assert p == [p[0]] + p[1..];
    }
  }

  /** Split undoes Join when no part contains the first character of the separator. */
  lemma {:induction false} SplitJoin(parts: seq<string>, sep: string)
    requires sep != "" && parts != []
    requires forall p :: p in parts ==> sep[0] !in p
    ensures Split(Join(parts, sep), sep) == parts
  {
    if |parts| == 1 {
      SplitPlain(parts[0], sep);
    } else {
      SplitJoin(parts[1..], sep);
      SplitHead(parts[0], Join(parts[1..], sep), sep);
    }
  }

  /** Extending the first part extends the join. */
  lemma JoinExtend(c: char, r: seq<string>, sep: string)
    requires r != []
    ensures Join([[c] + r[0]] + r[1..], sep) == [c] + Join(r, sep)
  {
  }

  /** Join undoes Split on every string. */
  lemma {:induction false} JoinSplit(s: string, sep: string)
    requires sep != ""
    ensures Join(Split(s, sep), sep) == s
    decreases |s|
  {
    if |s| >= |sep| {
      if s[..|sep|] == sep {
        var r := Split(s[|sep|..], sep);
        JoinSplit(s[|sep|..], sep);
        assert ([""] + r)[1..] == r;
        assert Join([""] + r, sep) == sep + s[|sep|..];
      } else {
        JoinSplit(s[1..], sep);
        JoinExtend(s[0], Split(s[1..], sep), sep);
        assert s == [s[0]] + s[1..];
      }
    }
  }

  /** The parts of a split at a single character do not contain it. */
  lemma {:induction false} SplitParts(s: string, c: char)
    ensures forall p :: p in Split(s, [c]) ==> c !in p
    decreases |s|
  {
    if s != "" {
      SplitParts(s[1..], c);
      var r := Split(s[1..], [c]);
      assert r[0] in r;
      if s[0] == c {
        assert s[..1] == [c];
      } else {
        assert s[..1][0] == s[0];
        assert Split(s, [c]) == [[s[0]] + r[0]] + r[1..];
      }
    }
  }

  function TrimLeft(s: string, c: char): string {
    if s != "" && s[0] == c then TrimLeft(s[1..], c) else s
  }

  function TrimRight(s: string, c: char): string {
    if s != "" && s[|s| - 1] == c then TrimRight(s[..|s| - 1], c) else s
  }

  /** strings.Trim with a one-character cut set. */
  function Trim(s: string, c: char): string {
    TrimRight(TrimLeft(s, c), c)
  }

  /** A join of non-empty parts without the separator character is left alone by Trim. */
  lemma {:induction false} JoinEnds(parts: seq<string>, c: char)
    requires parts != []
    requires forall p :: p in parts ==> p != "" && c !in p
    ensures var s := Join(parts, [c]); s != "" && s[0] != c && s[|s| - 1] != c
    ensures Trim(Join(parts, [c]), c) == Join(parts, [c])
  {
    assert parts[0] in parts;
    if |parts| > 1 {
      forall p | p in parts[1..]
        ensures p != "" && c !in p
      {
        assert p in parts;
      }
      JoinEnds(parts[1..], c);
    }
  }

  /** fmt.Sprintf("%s-%d", name, version), the name of a container or a volume. */
  function VersionedName(name: string, version: nat): string {
    name + "-" + Itoa(version)
  }

  /** Everything after the last dash is the version, so the longer tail cannot hide a dash. */
  lemma TailLength(s: string, a: string, x: string, b: string, y: string)
    requires s == a + "-" + x && s == b + "-" + y
    requires AllDigits(y)
    ensures |y| <= |x|
  {
    forall i | |s| - |y| <= i < |s|
      ensures IsDigit(s[i])
    {
      assert s[i] == y[i - (|s| - |y|)];
    }
    assert !IsDigit(s[|s| - 1 - |x|]);
  }

  /** The version can be found again from the right, whatever the name contains. */
  lemma VersionedNameInjective(a: string, v: nat, b: string, w: nat)
    requires VersionedName(a, v) == VersionedName(b, w)
    ensures a == b && v == w
  {
    var s, x, y := VersionedName(a, v), Itoa(v), Itoa(w);
    TailLength(s, a, x, b, y);
    TailLength(s, b, y, a, x);
    assert x == s[|s| - |x|..] && y == s[|s| - |y|..];
    ItoaInjective(v, w);
    assert a == s[..|a|] && b == s[..|b|];
  }
}
